/** The document store behind admission: all-or-nothing transactions over copied or overlaid documents. */
module AdmissionStore {
  import opened Common

  /** Keys derived by SHA-256, taken to be injective. */
  datatype UserKey = UserSha256(subject: string)

  datatype TokenHash = TokenSha256(token: string)

  datatype Path =
    | UserAt(user: UserKey) | OrganizationAt(organization: string) | MemberAt(organization: string, user: UserKey)
    | InvitationAt(token: TokenHash) | BootstrapAt | AuditAt(event: string)

  datatype Role = ORGANIZATION_ADMIN | REQUESTER | APPROVER | AUDITOR

  datatype User = User(subject: string, active: bool, platformAdmin: bool, owner: bool, organizationIds: seq<string>, version: nat)

  datatype Organization = Organization(organizationId: string, name: string, active: bool, version: nat)

  datatype Membership = Membership(subject: string, organizationId: string, role: Role, active: bool, version: nat)

  datatype Invitation = Invitation(invitationId: string, email: string, organizationId: string, role: Role, invitedBy: string,
                                   expiresAt: Time, redeemedBy: Option<string>, revoked: bool, version: nat)

  datatype Document =
    | UserDocument(user: User) | OrganizationDocument(organization: Organization) | MemberDocument(member: Membership)
    | InvitationDocument(invitation: Invitation) | BootstrapDocument(ownerSubject: string) | AuditDocument(actor: string, action: string)

  type Documents = map<Path, Document>

  function At(d: Documents, path: Path): Option<Document> {
    if path in d then Some(d[path]) else None
  }

  /** A transaction over a private copy. */
  class MemoryTransaction {
    var documents: Documents

    constructor (documents: Documents)
      ensures this.documents == documents
    {
      this.documents := documents;
    }

    method Get(path: Path) returns (r: Option<Document>)
      ensures r == At(documents, path)
    {
      r := if path in documents then Some(documents[path]) else None;
    }

    method Put(path: Path, document: Document)
      modifies this
      ensures documents == old(documents)[path := document]
    {
      documents := documents[path := document];
    }
  }

  /** A transaction that reads the server and buffers its writes; nothing is written before `Flush`. */
  class FirestoreTransaction {
    const server: Documents
    var writes: Documents

    /** What the operation sees: the server's documents under its own writes. */
    ghost function View(): Documents
      reads this
    {
      server + writes
    }

    constructor (server: Documents)
      ensures View() == server && writes == map[]
    {
      this.server := server;
      writes := map[];
    }

    method Get(path: Path) returns (r: Option<Document>)
      ensures r == At(View(), path)
    {
      if path in writes { return Some(writes[path]); }
      r := if path in server then Some(server[path]) else None;
    }

    method Put(path: Path, document: Document)
      modifies this
      ensures View() == old(View())[path := document]
    {
      writes := writes[path := document];
    }

    /** The committed documents are the view: what a private copy would have become. */
    method Flush() returns (committed: Documents)
      ensures committed == View()
    {
      committed := server;
      var todo := writes.Keys;
      assert writes - todo == map[];
      while todo != {}
        invariant todo <= writes.Keys
        invariant committed == server + (writes - todo)
        decreases |todo|
      {
        var path :| path in todo;
        OneMore(server, writes, todo, path);
        committed := committed[path := writes[path]];
        todo := todo - {path};
      }
      assert writes - {} == writes;
    }
  }

  lemma OneMore(server: Documents, writes: Documents, todo: set<Path>, path: Path)
    requires path in todo && path in writes
    ensures (server + (writes - todo))[path := writes[path]] == server + (writes - (todo - {path}))
  {
  }

  // ---------------------------------------------------------------- the two adapters agree

  /** The next thing an operation does, knowing what its calls have answered so far. */
  datatype Request = Read(path: Path) | Write(path: Path, document: Document) | Return | Raise

  type Operation = seq<Option<Document>> -> Request

  /**
   An operation on documents of its own, for at most `calls` more calls: what it leaves, what it was
   answered, and whether it returned. A write answers nothing.
   */
  function Performed(d: Documents, operation: Operation, answers: seq<Option<Document>>, calls: nat)
    : (Documents, seq<Option<Document>>, bool)
    decreases calls
  {
    if calls == 0 then (d, answers, operation(answers).Return?)
    else match operation(answers)
      case Read(path) => Performed(d, operation, answers + [At(d, path)], calls - 1)
      case Write(path, document) => Performed(d[path := document], operation, answers + [None], calls - 1)
      case Return => (d, answers, true)
      case Raise => (d, answers, false)
  }

  /** `transact` by copy and swap: all the operation wrote is committed if it returned, nothing otherwise. */
  method TransactCopied(documents: Documents, operation: Operation, calls: nat)
    returns (committed: Documents, answers: seq<Option<Document>>)
    ensures var (after, answered, returned) := Performed(documents, operation, [], calls);
            committed == (if returned then after else documents) && answers == answered
  {
    var tx := new MemoryTransaction(documents);
    var left := calls;
    answers := [];
    while left > 0 && (operation(answers).Read? || operation(answers).Write?)
      invariant Performed(tx.documents, operation, answers, left) == Performed(documents, operation, [], calls)
      decreases left
    {
      left := left - 1;
      match operation(answers)
      case Read(path) =>
        var answer := tx.Get(path);
        answers := answers + [answer];
      case Write(path, document) =>
        tx.Put(path, document);
        answers := answers + [None];
    }
    committed := if operation(answers).Return? then tx.documents else documents;
  }

  /** `transact` by overlay and flush. Both see the same documents at every read and commit the same documents. */
  method TransactOverlaid(server: Documents, operation: Operation, calls: nat)
    returns (committed: Documents, answers: seq<Option<Document>>)
    ensures var (after, answered, returned) := Performed(server, operation, [], calls);
            committed == (if returned then after else server) && answers == answered
  {
    var tx := new FirestoreTransaction(server);
    var left := calls;
    answers := [];
    while left > 0 && (operation(answers).Read? || operation(answers).Write?)
      invariant Performed(tx.View(), operation, answers, left) == Performed(server, operation, [], calls)
      decreases left
    {
      left := left - 1;
      match operation(answers)
      case Read(path) =>
        var answer := tx.Get(path);
        answers := answers + [answer];
      case Write(path, document) =>
        tx.Put(path, document);
        answers := answers + [None];
    }
    if operation(answers).Return? { committed := tx.Flush(); } else { committed := server; }
  }
}
