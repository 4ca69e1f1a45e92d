/**
 Central admission: one owner, administrators, organizations, single-use invitations and memberships. Each
 operation is a function on the documents and a method that makes the transaction's reads and writes.
 */
module Admission {
  import opened Common
  import opened AdmissionStore

  datatype Identity = Identity(subject: string, email: string, mfa: bool)

  datatype AdmissionError = Denied | AlreadyBootstrapped | StaleRecord | TooManyOrganizations

  datatype Workspace = Workspace(organization: Organization, membership: Membership)

  datatype AccessStatus = ACTIVE | NOT_ADMITTED | SUSPENDED | MFA_REQUIRED

  datatype AccessView = AccessView(platformAdmin: bool, owner: bool, status: AccessStatus, workspaces: seq<Workspace>)

  const MAX_ORGANIZATIONS := 50
  const DAY := 86400

  function Lower(s: string): string {
    seq(|s|, i requires 0 <= i < |s| => if 'A' <= s[i] <= 'Z' then (s[i] as int + 32) as char else s[i])
  }

  // ---------------------------------------------------------------- reading documents

  function UserAtKey(d: Documents, key: UserKey): Option<User> {
    var r := At(d, UserAt(key));
    if r.Some? && r.value.UserDocument? then Some(r.value.user) else None
  }

  function ReadUser(d: Documents, subject: string): Option<User> {
    UserAtKey(d, UserSha256(subject))
  }

  function ReadOrganization(d: Documents, id: string): Option<Organization> {
    var r := At(d, OrganizationAt(id));
    if r.Some? && r.value.OrganizationDocument? then Some(r.value.organization) else None
  }

  function ReadMember(d: Documents, organization: string, key: UserKey): Option<Membership> {
    var r := At(d, MemberAt(organization, key));
    if r.Some? && r.value.MemberDocument? then Some(r.value.member) else None
  }

  function ReadInvitation(d: Documents, token: TokenHash): Option<Invitation> {
    var r := At(d, InvitationAt(token));
    if r.Some? && r.value.InvitationDocument? then Some(r.value.invitation) else None
  }

  /** `require_admin`. */
  predicate IsAdmin(d: Documents, who: Identity) {
    var user := ReadUser(d, who.subject);
    user.Some? && user.value.active && user.value.platformAdmin && who.mfa
  }

  function Audited(d: Documents, audit: string, actor: string, action: string): Documents {
    d[AuditAt(audit) := AuditDocument(actor, action)]
  }

  // ---------------------------------------------------------------- operations on the documents

  function Bootstrapped(d: Documents, subject: string, audit: string): Result<Documents, AdmissionError> {
    if BootstrapAt in d || ReadUser(d, subject).Some? then Err(AlreadyBootstrapped)
    else Ok(Audited(d[UserAt(UserSha256(subject)) := UserDocument(User(subject, true, true, true, [], 1))]
                     [BootstrapAt := BootstrapDocument(subject)], audit, subject, "owner_bootstrapped"))
  }

  function OrganizationCreated(d: Documents, who: Identity, id: string, name: string, audit: string): Result<Documents, AdmissionError> {
    if !IsAdmin(d, who) then Err(Denied)
    else Ok(Audited(d[OrganizationAt(id) := OrganizationDocument(Organization(id, name, true, 1))], audit, who.subject,
                    "organization_created"))
  }

  function Invited(d: Documents, who: Identity, email: string, organization: string, role: Role, id: string, token: TokenHash,
                   now: Time, audit: string): Result<Documents, AdmissionError> {
    var o := ReadOrganization(d, organization);
    if !IsAdmin(d, who) || o.None? || !o.value.active then Err(Denied)
    else Ok(Audited(d[InvitationAt(token) := InvitationDocument(
                        Invitation(id, Lower(email), organization, role, who.subject, now + DAY, None, false, 1))],
                    audit, who.subject, "invitation_created"))
  }

  /** Everything that `redeem` refuses. */
  predicate Redeemable(d: Documents, who: Identity, i: Invitation, now: Time) {
    var user, inviter, o := ReadUser(d, who.subject), ReadUser(d, i.invitedBy), ReadOrganization(d, i.organizationId);
    && i.email == Lower(who.email) && now < i.expiresAt && i.redeemedBy.None? && !i.revoked
    && inviter.Some? && inviter.value.active && inviter.value.platformAdmin
    && o.Some? && o.value.active && (user.Some? ==> user.value.active)
    && ReadMember(d, i.organizationId, UserSha256(who.subject)).None?
  }

  function UserOrNew(d: Documents, subject: string): User {
    var user := ReadUser(d, subject);
    if user.Some? then user.value else User(subject, true, false, false, [], 1)
  }

  function Redeemed(d: Documents, who: Identity, token: TokenHash, now: Time, audit: string): Result<Documents, AdmissionError> {
    var found := ReadInvitation(d, token);
    if found.None? || !Redeemable(d, who, found.value, now) then Err(Denied)
    else
      var i, user := found.value, UserOrNew(d, who.subject);
      if |user.organizationIds| >= MAX_ORGANIZATIONS then Err(TooManyOrganizations)
      else
        var updated := user.(organizationIds := user.organizationIds + [i.organizationId], version := user.version + 1);
        Ok(Audited(d[UserAt(UserSha256(who.subject)) := UserDocument(updated)]
                    [MemberAt(i.organizationId, UserSha256(who.subject)) :=
                       MemberDocument(Membership(who.subject, i.organizationId, i.role, true, 1))]
                    [InvitationAt(token) := InvitationDocument(i.(redeemedBy := Some(who.subject), version := i.version + 1))],
                   audit, who.subject, "invitation_redeemed"))
  }

  function UserStatusSet(d: Documents, who: Identity, key: UserKey, active: bool, expected: nat, audit: string)
    : Result<Documents, AdmissionError>
  {
    var target := UserAtKey(d, key);
    if !IsAdmin(d, who) || target.None? || target.value.owner || target.value.subject == who.subject then Err(Denied)
    else if target.value.version != expected then Err(StaleRecord)
    else Ok(Audited(d[UserAt(key) := UserDocument(target.value.(active := active, version := expected + 1))], audit,
                    who.subject, if active then "access_activated" else "access_suspended"))
  }

  function OrganizationStatusSet(d: Documents, who: Identity, id: string, active: bool, expected: nat, audit: string)
    : Result<Documents, AdmissionError>
  {
    var target := ReadOrganization(d, id);
    if !IsAdmin(d, who) || target.None? then Err(Denied)
    else if target.value.version != expected then Err(StaleRecord)
    else Ok(Audited(d[OrganizationAt(id) := OrganizationDocument(target.value.(active := active, version := expected + 1))], audit,
                    who.subject, if active then "access_activated" else "access_suspended"))
  }

  function Revoked(d: Documents, who: Identity, token: TokenHash, expected: nat, now: Time, audit: string)
    : Result<Documents, AdmissionError>
  {
    var found := ReadInvitation(d, token);
    if !IsAdmin(d, who) || found.None? then Err(Denied)
    else if found.value.version != expected || found.value.revoked || found.value.redeemedBy.Some? || found.value.expiresAt <= now
    then Err(StaleRecord)
    else Ok(Audited(d[InvitationAt(token) := InvitationDocument(found.value.(revoked := true, version := found.value.version + 1))],
                    audit, who.subject, "invitation_revoked"))
  }

  function MembershipUpdated(d: Documents, who: Identity, organization: string, key: UserKey, role: Role, active: bool,
                             expected: nat, audit: string): Result<Documents, AdmissionError> {
    var found, o := ReadMember(d, organization, key), ReadOrganization(d, organization);
    if !IsAdmin(d, who) || found.None? || o.None? then Err(Denied)
    else
      var m, user := found.value, ReadUser(d, found.value.subject);
      if m.organizationId != organization || UserSha256(m.subject) != key || m.subject == who.subject || user.None?
         || organization !in user.value.organizationIds then Err(Denied)
      else if m.version != expected then Err(StaleRecord)
      else if active && (!user.value.active || !o.value.active) then Err(Denied)
      else Ok(Audited(d[MemberAt(organization, key) := MemberDocument(m.(active := active, role := role, version := m.version + 1))],
                      audit, who.subject, "membership_updated"))
  }

  function AdministratorSet(d: Documents, who: Identity, key: UserKey, admin: bool, expected: nat, audit: string)
    : Result<Documents, AdmissionError>
  {
    var target := UserAtKey(d, key);
    if !IsAdmin(d, who) || !ReadUser(d, who.subject).value.owner || target.None? || target.value.owner || !target.value.active
    then Err(Denied)
    else if target.value.version != expected then Err(StaleRecord)
    else Ok(Audited(d[UserAt(key) := UserDocument(target.value.(platformAdmin := admin, version := target.value.version + 1))], audit,
                    who.subject, if admin then "administrator_appointed" else "administrator_revoked"))
  }

  // ---------------------------------------------------------------- the access view

  function Workspaces(d: Documents, subject: string, ids: seq<string>): seq<Workspace> {
    if ids == [] then []
    else
      var before, id := Workspaces(d, subject, ids[..|ids| - 1]), ids[|ids| - 1];
      var o, m := ReadOrganization(d, id), ReadMember(d, id, UserSha256(subject));
      if o.Some? && m.Some? && o.value.active && m.value.active then before + [Workspace(o.value, m.value)] else before
  }

  function AccessOf(d: Documents, who: Identity): AccessView {
    var user := ReadUser(d, who.subject);
    var workspaces := if user.Some? && user.value.active then Workspaces(d, who.subject, user.value.organizationIds) else [];
    var admin := IsAdmin(d, who);
    AccessView(admin, admin && user.value.owner,
               if user.Some? && !user.value.active then SUSPENDED
               else if user.Some? && user.value.platformAdmin && !who.mfa then MFA_REQUIRED
               else if workspaces != [] || admin then ACTIVE else NOT_ADMITTED, workspaces)
  }

  // ---------------------------------------------------------------- the service

  class MemoryStore {
    var documents: Documents

    constructor ()
      ensures documents == map[]
    {
      documents := map[];
    }

    method Begin() returns (tx: MemoryTransaction)
      ensures fresh(tx) && tx.documents == documents
    {
      tx := new MemoryTransaction(documents);
    }

    /** A transaction whose operation raised is never committed. */
    method Commit(tx: MemoryTransaction)
      modifies this
      ensures documents == tx.documents
    {
      documents := tx.documents;
    }
  }

  /** What a transaction commits: the new documents, or nothing. */
  function Committed(d: Documents, r: Result<Documents, AdmissionError>): Documents {
    if r.Ok? then r.value else d
  }

  function Answer(r: Result<Documents, AdmissionError>): Result<(), AdmissionError> {
    if r.Ok? then Ok(()) else Err(r.error)
  }

  class AdmissionService {
    const store: MemoryStore

    constructor (store: MemoryStore)
      ensures this.store == store
    {
      this.store := store;
    }

    method FindUser(tx: MemoryTransaction, subject: string) returns (user: Option<User>)
      ensures user == ReadUser(tx.documents, subject)
    {
      var document := tx.Get(UserAt(UserSha256(subject)));
      user := if document.Some? && document.value.UserDocument? then Some(document.value.user) else None;
    }

    method RequireAdmin(tx: MemoryTransaction, who: Identity) returns (user: Option<User>)
      ensures user == if IsAdmin(tx.documents, who) then ReadUser(tx.documents, who.subject) else None
    {
      user := FindUser(tx, who.subject);
      if user.None? || !user.value.active || !user.value.platformAdmin || !who.mfa { user := None; }
    }

    method Bootstrap(subject: string, audit: string) returns (r: Result<(), AdmissionError>)
      modifies store
      ensures store.documents == Committed(old(store.documents), Bootstrapped(old(store.documents), subject, audit))
      ensures r == Answer(Bootstrapped(old(store.documents), subject, audit))
    {
      var tx := store.Begin();
      var done := tx.Get(BootstrapAt);
      var user := FindUser(tx, subject);
      if done.Some? || user.Some? { return Err(AlreadyBootstrapped); }
      tx.Put(UserAt(UserSha256(subject)), UserDocument(User(subject, true, true, true, [], 1)));
      tx.Put(BootstrapAt, BootstrapDocument(subject));
      tx.Put(AuditAt(audit), AuditDocument(subject, "owner_bootstrapped"));
      store.Commit(tx);
      r := Ok(());
    }

    method CreateOrganization(who: Identity, id: string, name: string, audit: string) returns (r: Result<(), AdmissionError>)
      modifies store
      ensures store.documents == Committed(old(store.documents), OrganizationCreated(old(store.documents), who, id, name, audit))
      ensures r == Answer(OrganizationCreated(old(store.documents), who, id, name, audit))
    {
      var tx := store.Begin();
      var admin := RequireAdmin(tx, who);
      if admin.None? { return Err(Denied); }
      tx.Put(OrganizationAt(id), OrganizationDocument(Organization(id, name, true, 1)));
      tx.Put(AuditAt(audit), AuditDocument(who.subject, "organization_created"));
      store.Commit(tx);
      r := Ok(());
    }

    method Invite(who: Identity, email: string, organization: string, role: Role, id: string, token: string, now: Time, audit: string)
      returns (r: Result<(), AdmissionError>)
      modifies store
      ensures var spec := Invited(old(store.documents), who, email, organization, role, id, TokenSha256(token), now, audit);
              store.documents == Committed(old(store.documents), spec) && r == Answer(spec)
    {
      var invitation := Invitation(id, Lower(email), organization, role, who.subject, now + DAY, None, false, 1);
      var tx := store.Begin();
      var admin := RequireAdmin(tx, who);
      if admin.None? { return Err(Denied); }
      var document := tx.Get(OrganizationAt(organization));
      if document.None? || !document.value.OrganizationDocument? || !document.value.organization.active { return Err(Denied); }
      tx.Put(InvitationAt(TokenSha256(token)), InvitationDocument(invitation));
      tx.Put(AuditAt(audit), AuditDocument(who.subject, "invitation_created"));
      store.Commit(tx);
      r := Ok(());
    }

    method Redeem(who: Identity, token: string, now: Time, audit: string) returns (r: Result<(), AdmissionError>)
      modifies store
      ensures var spec := Redeemed(old(store.documents), who, TokenSha256(token), now, audit);
              store.documents == Committed(old(store.documents), spec) && r == Answer(spec)
    {
      var tx := store.Begin();
      var path := InvitationAt(TokenSha256(token));
      var document := tx.Get(path);
      if document.None? || !document.value.InvitationDocument? { return Err(Denied); }
      var invitation := document.value.invitation;
      var user := FindUser(tx, who.subject);
      var inviter := FindUser(tx, invitation.invitedBy);
      var organization := tx.Get(OrganizationAt(invitation.organizationId));
      var member := MemberAt(invitation.organizationId, UserSha256(who.subject));
      var existing := tx.Get(member);
      if invitation.email != Lower(who.email) || invitation.expiresAt <= now || invitation.redeemedBy.Some? || invitation.revoked
         || inviter.None? || !inviter.value.active || !inviter.value.platformAdmin
         || organization.None? || !organization.value.OrganizationDocument? || !organization.value.organization.active
         || (user.Some? && !user.value.active) || (existing.Some? && existing.value.MemberDocument?) { return Err(Denied); }
      var current := if user.Some? then user.value else User(who.subject, true, false, false, [], 1);
      if |current.organizationIds| >= MAX_ORGANIZATIONS { return Err(TooManyOrganizations); }
      tx.Put(UserAt(UserSha256(who.subject)),
             UserDocument(current.(organizationIds := current.organizationIds + [invitation.organizationId],
                                   version := current.version + 1)));
      tx.Put(member, MemberDocument(Membership(who.subject, invitation.organizationId, invitation.role, true, 1)));
      tx.Put(path, InvitationDocument(invitation.(redeemedBy := Some(who.subject), version := invitation.version + 1)));
      tx.Put(AuditAt(audit), AuditDocument(who.subject, "invitation_redeemed"));
      store.Commit(tx);
      r := Ok(());
    }

    method RevokeInvitation(who: Identity, token: TokenHash, expected: nat, now: Time, audit: string)
      returns (r: Result<(), AdmissionError>)
      modifies store
      ensures var spec := Revoked(old(store.documents), who, token, expected, now, audit);
              store.documents == Committed(old(store.documents), spec) && r == Answer(spec)
    {
      var tx := store.Begin();
      var admin := RequireAdmin(tx, who);
      var document := tx.Get(InvitationAt(token));
      if admin.None? || document.None? || !document.value.InvitationDocument? { return Err(Denied); }
      var invitation := document.value.invitation;
      if invitation.version != expected || invitation.revoked || invitation.redeemedBy.Some? || invitation.expiresAt <= now {
        return Err(StaleRecord);
      }
      tx.Put(InvitationAt(token), InvitationDocument(invitation.(revoked := true, version := invitation.version + 1)));
      tx.Put(AuditAt(audit), AuditDocument(who.subject, "invitation_revoked"));
      store.Commit(tx);
      r := Ok(());
    }

    method SetUserStatus(who: Identity, key: UserKey, active: bool, expected: nat, audit: string) returns (r: Result<(), AdmissionError>)
      modifies store
      ensures var spec := UserStatusSet(old(store.documents), who, key, active, expected, audit);
              store.documents == Committed(old(store.documents), spec) && r == Answer(spec)
    {
      var tx := store.Begin();
      var admin := RequireAdmin(tx, who);
      var document := tx.Get(UserAt(key));
      if admin.None? || document.None? || !document.value.UserDocument? { return Err(Denied); }
      var target := document.value.user;
      if target.owner || target.subject == who.subject { return Err(Denied); }
      if target.version != expected { return Err(StaleRecord); }
      tx.Put(UserAt(key), UserDocument(target.(active := active, version := expected + 1)));
      tx.Put(AuditAt(audit), AuditDocument(who.subject, if active then "access_activated" else "access_suspended"));
      store.Commit(tx);
      r := Ok(());
    }

    method SetOrganizationStatus(who: Identity, id: string, active: bool, expected: nat, audit: string)
      returns (r: Result<(), AdmissionError>)
      modifies store
      ensures var spec := OrganizationStatusSet(old(store.documents), who, id, active, expected, audit);
              store.documents == Committed(old(store.documents), spec) && r == Answer(spec)
    {
      var tx := store.Begin();
      var admin := RequireAdmin(tx, who);
      var document := tx.Get(OrganizationAt(id));
      if admin.None? || document.None? || !document.value.OrganizationDocument? { return Err(Denied); }
      var target := document.value.organization;
      if target.version != expected { return Err(StaleRecord); }
      tx.Put(OrganizationAt(id), OrganizationDocument(target.(active := active, version := expected + 1)));
      tx.Put(AuditAt(audit), AuditDocument(who.subject, if active then "access_activated" else "access_suspended"));
      store.Commit(tx);
      r := Ok(());
    }

    method UpdateMembership(who: Identity, organization: string, key: UserKey, role: Role, active: bool, expected: nat, audit: string)
      returns (r: Result<(), AdmissionError>)
      modifies store
      ensures var spec := MembershipUpdated(old(store.documents), who, organization, key, role, active, expected, audit);
              store.documents == Committed(old(store.documents), spec) && r == Answer(spec)
    {
      var tx := store.Begin();
      var admin := RequireAdmin(tx, who);
      var document := tx.Get(MemberAt(organization, key));
      var found := tx.Get(OrganizationAt(organization));
      if admin.None? || document.None? || !document.value.MemberDocument? || found.None? || !found.value.OrganizationDocument? {
        return Err(Denied);
      }
      var member := document.value.member;
      var user := FindUser(tx, member.subject);
      if member.organizationId != organization || UserSha256(member.subject) != key || member.subject == who.subject
         || user.None? || organization !in user.value.organizationIds { return Err(Denied); }
      if member.version != expected { return Err(StaleRecord); }
      if active && (!user.value.active || !found.value.organization.active) { return Err(Denied); }
      tx.Put(MemberAt(organization, key), MemberDocument(member.(active := active, role := role, version := member.version + 1)));
      tx.Put(AuditAt(audit), AuditDocument(who.subject, "membership_updated"));
      store.Commit(tx);
      r := Ok(());
    }

    method SetAdministrator(who: Identity, key: UserKey, appointed: bool, expected: nat, audit: string)
      returns (r: Result<(), AdmissionError>)
      modifies store
      ensures var spec := AdministratorSet(old(store.documents), who, key, appointed, expected, audit);
              store.documents == Committed(old(store.documents), spec) && r == Answer(spec)
    {
      var tx := store.Begin();
      var actor := RequireAdmin(tx, who);
      if actor.None? || !actor.value.owner { return Err(Denied); }
      var document := tx.Get(UserAt(key));
      if document.None? || !document.value.UserDocument? { return Err(Denied); }
      var target := document.value.user;
      if target.owner || !target.active { return Err(Denied); }
      if target.version != expected { return Err(StaleRecord); }
      tx.Put(UserAt(key), UserDocument(target.(platformAdmin := appointed, version := target.version + 1)));
      tx.Put(AuditAt(audit), AuditDocument(who.subject, if appointed then "administrator_appointed" else "administrator_revoked"));
      store.Commit(tx);
      r := Ok(());
    }

    method Access(who: Identity) returns (view: AccessView)
      ensures view == AccessOf(store.documents, who)
    {
      var tx := store.Begin();
      var user := FindUser(tx, who.subject);
      var workspaces: seq<Workspace> := [];
      if user.Some? && user.value.active {
        var ids, i := user.value.organizationIds, 0;
        while i < |ids|
          invariant 0 <= i <= |ids| && tx.documents == store.documents
          invariant workspaces == Workspaces(tx.documents, who.subject, ids[..i])
        {
          var organization := tx.Get(OrganizationAt(ids[i]));
          var member := tx.Get(MemberAt(ids[i], UserSha256(who.subject)));
          assert ids[..i + 1][..i] == ids[..i];
          if organization.Some? && organization.value.OrganizationDocument? && member.Some? && member.value.MemberDocument? {
            var workspace := Workspace(organization.value.organization, member.value.member);
            if workspace.organization.active && workspace.membership.active { workspaces := workspaces + [workspace]; }
          }
          i := i + 1;
        }
        assert ids[..|ids|] == ids;
      }
      var admin := user.Some? && user.value.active && user.value.platformAdmin && who.mfa;
      var status := if workspaces != [] || admin then ACTIVE else NOT_ADMITTED;
      if user.Some? && !user.value.active { status := SUSPENDED; }
      else if user.Some? && user.value.platformAdmin && !who.mfa { status := MFA_REQUIRED; }
      view := AccessView(admin, admin && user.value.owner, status, workspaces);
    }
  }
}
