/** Memberships, the per-user index and redeemed invitations stay in bijection; access follows; there is one owner. */
module AdmissionInvariant {
  import opened Common
  import opened AdmissionStore
  import opened Admission

  // ---------------------------------------------------------------- what reachable documents satisfy

  /** Every document has its path's kind and names what its path names. */
  predicate Fits(path: Path, document: Document) {
    match path
    case UserAt(key) => document.UserDocument? && UserSha256(document.user.subject) == key
    case OrganizationAt(id) => document.OrganizationDocument? && document.organization.organizationId == id
    case MemberAt(id, key) =>
      document.MemberDocument? && document.member.organizationId == id && UserSha256(document.member.subject) == key
    case InvitationAt(_) => document.InvitationDocument?
    case BootstrapAt => document.BootstrapDocument?
    case AuditAt(_) => document.AuditDocument?
  }

  ghost predicate Typed(d: Documents) {
    forall path <- d :: Fits(path, d[path])
  }

  predicate IsMember(d: Documents, organization: string, subject: string) {
    MemberAt(organization, UserSha256(subject)) in d
  }

  predicate Lists(d: Documents, organization: string, subject: string) {
    ReadUser(d, subject).Some? && organization in ReadUser(d, subject).value.organizationIds
  }

  predicate RedeemedBy(d: Documents, token: TokenHash, organization: string, subject: string) {
    && ReadInvitation(d, token).Some? && ReadInvitation(d, token).value.organizationId == organization
    && ReadInvitation(d, token).value.redeemedBy == Some(subject)
  }

  ghost predicate HasInvitation(d: Documents, organization: string, subject: string) {
    exists token :: RedeemedBy(d, token, organization, subject)
  }

  ghost predicate OneInvitation(d: Documents, organization: string, subject: string) {
    forall t, u | RedeemedBy(d, t, organization, subject) && RedeemedBy(d, u, organization, subject) :: t == u
  }

  /** A membership, an entry in the user's index and one redeemed invitation come together. */
  ghost predicate Paired(d: Documents, organization: string, subject: string) {
    && (IsMember(d, organization, subject) <==> Lists(d, organization, subject))
    && (IsMember(d, organization, subject) <==> HasInvitation(d, organization, subject))
    && OneInvitation(d, organization, subject)
    && (IsMember(d, organization, subject) ==> ReadOrganization(d, organization).Some?)
  }

  ghost predicate Bijection(d: Documents) {
    forall organization, subject :: Paired(d, organization, subject)
  }

  predicate Distinct(ids: seq<string>) {
    forall i, j | 0 <= i < j < |ids| :: ids[i] != ids[j]
  }

  ghost predicate IndexesDistinct(d: Documents) {
    forall key :: UserAtKey(d, key).Some? ==> Distinct(UserAtKey(d, key).value.organizationIds)
  }

  /** Redeemed or revoked, never both; version 2 exactly then. */
  predicate Lifecycle(i: Invitation) {
    && !(i.redeemedBy.Some? && i.revoked)
    && i.version == if i.redeemedBy.Some? || i.revoked then 2 else 1
  }

  ghost predicate Lifecycles(d: Documents) {
    forall token :: ReadInvitation(d, token).Some? ==> Lifecycle(ReadInvitation(d, token).value)
  }

  /** After bootstrap one user is owner, active and administrator; before it there is no user. */
  ghost predicate OneOwner(d: Documents) {
    if BootstrapAt in d then
      && d[BootstrapAt].BootstrapDocument?
      && ReadUser(d, d[BootstrapAt].ownerSubject).Some?
      && forall key | UserAtKey(d, key).Some? ::
           var user := UserAtKey(d, key).value;
           && (user.owner <==> key == UserSha256(d[BootstrapAt].ownerSubject))
           && (user.owner ==> user.active && user.platformAdmin)
    else forall key :: UserAtKey(d, key).None?
  }

  ghost predicate Inv(d: Documents) {
    Typed(d) && Bijection(d) && IndexesDistinct(d) && Lifecycles(d) && OneOwner(d)
  }

  // ---------------------------------------------------------------- writes that change one document in place

  /** The same documents but for one user (same index), organization, membership, invitation or audit. */
  ghost predicate SameLinks(d: Documents, d': Documents) {
    && (forall o, s :: IsMember(d', o, s) <==> IsMember(d, o, s))
    && (forall o, s :: Lists(d', o, s) <==> Lists(d, o, s))
    && (forall t, o, s :: RedeemedBy(d', t, o, s) <==> RedeemedBy(d, t, o, s))
    && (forall o :: ReadOrganization(d, o).Some? ==> ReadOrganization(d', o).Some?)
  }

  lemma LinksKeepBijection(d: Documents, d': Documents)
    requires Bijection(d) && SameLinks(d, d')
    ensures Bijection(d')
  {
    hide IsMember, Lists, RedeemedBy, ReadOrganization;
    forall o, s ensures Paired(d', o, s) {
      assert Paired(d, o, s);
      if IsMember(d', o, s) {
        var t :| RedeemedBy(d, t, o, s);
        assert RedeemedBy(d', t, o, s);
      }
      if HasInvitation(d', o, s) {
        var t :| RedeemedBy(d', t, o, s);
        assert RedeemedBy(d, t, o, s);
      }
    }
  }

  /** Reading after one write. */
  lemma ReadsAfter(d: Documents, d': Documents, path: Path, document: Document)
    requires d' == d[path := document]
    ensures forall key :: UserAtKey(d', key) ==
              if path != UserAt(key) then UserAtKey(d, key) else if document.UserDocument? then Some(document.user) else None
    ensures forall id :: ReadOrganization(d', id) ==
              if path != OrganizationAt(id) then ReadOrganization(d, id)
              else if document.OrganizationDocument? then Some(document.organization) else None
    ensures forall token :: ReadInvitation(d', token) ==
              if path != InvitationAt(token) then ReadInvitation(d, token)
              else if document.InvitationDocument? then Some(document.invitation) else None
    ensures forall o, s :: IsMember(d', o, s) <==> path == MemberAt(o, UserSha256(s)) || IsMember(d, o, s)
  {
  }

  lemma AuditKeeps(d: Documents, audit: string, actor: string, action: string)
    requires Inv(d)
    ensures Inv(Audited(d, audit, actor, action))
  {
    hide Bijection, ReadInvitation, ReadOrganization, UserAtKey;
    var d' := d[AuditAt(audit) := AuditDocument(actor, action)];
    ReadsAfter(d, d', AuditAt(audit), AuditDocument(actor, action));
    LinksKeepBijection(d, d');
  }

  lemma OrganizationKeeps(d: Documents, o: Organization)
    requires Inv(d)
    ensures Inv(d[OrganizationAt(o.organizationId) := OrganizationDocument(o)])
  {
    hide Bijection, ReadInvitation, ReadOrganization, UserAtKey;
    var d' := d[OrganizationAt(o.organizationId) := OrganizationDocument(o)];
    ReadsAfter(d, d', OrganizationAt(o.organizationId), OrganizationDocument(o));
    LinksKeepBijection(d, d');
  }

  lemma MemberKeeps(d: Documents, m: Membership)
    requires Inv(d) && IsMember(d, m.organizationId, m.subject)
    ensures Inv(d[MemberAt(m.organizationId, UserSha256(m.subject)) := MemberDocument(m)])
  {
    hide Bijection, ReadInvitation, ReadOrganization, UserAtKey;
    var d' := d[MemberAt(m.organizationId, UserSha256(m.subject)) := MemberDocument(m)];
    ReadsAfter(d, d', MemberAt(m.organizationId, UserSha256(m.subject)), MemberDocument(m));
    LinksKeepBijection(d, d');
  }

  /** A new or revoked invitation redeems nothing. */
  lemma InvitationKeeps(d: Documents, token: TokenHash, i: Invitation)
    requires Inv(d) && i.redeemedBy.None? && Lifecycle(i)
    requires ReadInvitation(d, token).Some? ==> ReadInvitation(d, token).value.redeemedBy.None?
    ensures Inv(d[InvitationAt(token) := InvitationDocument(i)])
  {
    hide Bijection, ReadInvitation, ReadOrganization, UserAtKey;
    var d' := d[InvitationAt(token) := InvitationDocument(i)];
    ReadsAfter(d, d', InvitationAt(token), InvitationDocument(i));
    LinksKeepBijection(d, d');
  }

  /** A user's flags change; subject, index and ownership do not, and an owner stays active administrator. */
  lemma UserKeeps(d: Documents, key: UserKey, u: User)
    requires Inv(d) && UserAtKey(d, key).Some?
    requires var was := UserAtKey(d, key).value;
             u.subject == was.subject && u.organizationIds == was.organizationIds && u.owner == was.owner && !u.owner
    ensures Inv(d[UserAt(key) := UserDocument(u)])
  {
    hide Bijection, ReadInvitation, ReadOrganization, UserAtKey;
    var d' := d[UserAt(key) := UserDocument(u)];
    UserFits(d, key);
    ReadsAfter(d, d', UserAt(key), UserDocument(u));
    LinksKeepBijection(d, d');
  }

  lemma UserFits(d: Documents, key: UserKey)
    requires Typed(d) && UserAtKey(d, key).Some?
    ensures UserSha256(UserAtKey(d, key).value.subject) == key
  {
    assert Fits(UserAt(key), d[UserAt(key)]);
  }

  // ---------------------------------------------------------------- redemption

  /** The documents as `redeem` leaves them, before the audit entry. */
  function AfterRedeem(d: Documents, who: Identity, token: TokenHash, i: Invitation): Documents {
    var user := UserOrNew(d, who.subject);
    d[UserAt(UserSha256(who.subject)) :=
        UserDocument(user.(organizationIds := user.organizationIds + [i.organizationId], version := user.version + 1))]
     [MemberAt(i.organizationId, UserSha256(who.subject)) :=
        MemberDocument(Membership(who.subject, i.organizationId, i.role, true, 1))]
     [InvitationAt(token) := InvitationDocument(i.(redeemedBy := Some(who.subject), version := i.version + 1))]
  }

  lemma ReadsAfterRedeem(d: Documents, d': Documents, who: Identity, token: TokenHash, i: Invitation)
    requires d' == AfterRedeem(d, who, token, i)
    ensures var user := UserOrNew(d, who.subject);
            && (forall key :: UserAtKey(d', key) ==
                  if key != UserSha256(who.subject) then UserAtKey(d, key)
                  else Some(user.(organizationIds := user.organizationIds + [i.organizationId], version := user.version + 1)))
            && (forall o, s :: IsMember(d', o, s) <==> (o == i.organizationId && s == who.subject) || IsMember(d, o, s))
            && (forall t :: ReadInvitation(d', t) ==
                  if t != token then ReadInvitation(d, t) else Some(i.(redeemedBy := Some(who.subject), version := i.version + 1)))
            && (forall o :: ReadOrganization(d', o) == ReadOrganization(d, o))
  {
  }

  lemma RedeemPairs(d: Documents, d': Documents, who: Identity, token: TokenHash, i: Invitation, now: Time, o: string, s: string)
    requires Inv(d) && ReadInvitation(d, token) == Some(i) && Redeemable(d, who, i, now) && d' == AfterRedeem(d, who, token, i)
    ensures Paired(d', o, s)
  {
    hide AfterRedeem, UserAtKey, ReadInvitation, ReadOrganization, IsMember, Typed, IndexesDistinct, Lifecycles, OneOwner, Redeemable;
    ReadsAfterRedeem(d, d', who, token, i);
    NoMemberYet(d, who, i, now);
    assert Paired(d, o, s);
    if o == i.organizationId && s == who.subject {
      assert RedeemedBy(d', token, o, s);
      assert forall t | RedeemedBy(d', t, o, s) :: t == token || RedeemedBy(d, t, o, s);
    } else {
      forall t ensures RedeemedBy(d', t, o, s) <==> RedeemedBy(d, t, o, s) {
      }
      if IsMember(d', o, s) {
        var t :| RedeemedBy(d, t, o, s);
        assert RedeemedBy(d', t, o, s);
      }
      if HasInvitation(d', o, s) {
        var t :| RedeemedBy(d', t, o, s);
        assert RedeemedBy(d, t, o, s);
      }
      assert Lists(d', o, s) <==> Lists(d, o, s);
    }
  }

  lemma NoMemberYet(d: Documents, who: Identity, i: Invitation, now: Time)
    requires Typed(d) && Redeemable(d, who, i, now)
    ensures !IsMember(d, i.organizationId, who.subject) && ReadOrganization(d, i.organizationId).Some?
    ensures i.redeemedBy.None? && !i.revoked && ReadUser(d, i.invitedBy).Some?
  {
    MemberIsRead(d, i.organizationId, who.subject);
  }

  lemma MemberIsRead(d: Documents, organization: string, subject: string)
    requires Typed(d)
    ensures IsMember(d, organization, subject) <==> ReadMember(d, organization, UserSha256(subject)).Some?
  {
    var path := MemberAt(organization, UserSha256(subject));
    if path in d { assert Fits(path, d[path]); }
  }

  lemma RedeemKeeps(d: Documents, who: Identity, token: TokenHash, i: Invitation, now: Time)
    requires Inv(d) && ReadInvitation(d, token) == Some(i) && Redeemable(d, who, i, now)
    ensures Inv(AfterRedeem(d, who, token, i))
  {
    hide AfterRedeem, UserAtKey, ReadInvitation, ReadOrganization, IsMember, Redeemable, Paired, Typed;
    var d' := AfterRedeem(d, who, token, i);
    ReadsAfterRedeem(d, d', who, token, i);
    RedeemTyped(d, who, token, i);
    forall o, s ensures Paired(d', o, s) { RedeemPairs(d, d', who, token, i, now, o, s); }
    NoMemberYet(d, who, i, now);
    NotListed(d, i.organizationId, who.subject);
    SameBootstrap(d, who, token, i);
    assert Lifecycle(i);
    forall key | UserAtKey(d', key).Some? ensures Distinct(UserAtKey(d', key).value.organizationIds) {
      assert UserAtKey(d, key).Some? ==> Distinct(UserAtKey(d, key).value.organizationIds);
    }
  }

  lemma NotListed(d: Documents, organization: string, subject: string)
    requires Bijection(d) && !IsMember(d, organization, subject)
    ensures organization !in UserOrNew(d, subject).organizationIds
  {
    hide UserAtKey, IsMember;
    assert Paired(d, organization, subject);
  }

  lemma SameBootstrap(d: Documents, who: Identity, token: TokenHash, i: Invitation)
    ensures var d' := AfterRedeem(d, who, token, i);
            (BootstrapAt in d' <==> BootstrapAt in d) && (BootstrapAt in d ==> d'[BootstrapAt] == d[BootstrapAt])
  {
  }

  lemma RedeemTyped(d: Documents, who: Identity, token: TokenHash, i: Invitation)
    requires Typed(d)
    ensures Typed(AfterRedeem(d, who, token, i))
  {
    if ReadUser(d, who.subject).Some? { UserFits(d, UserSha256(who.subject)); }
  }

  // ---------------------------------------------------------------- every history

  /** Organization identifiers and tokens are drawn fresh; nothing else is assumed of the arguments. */
  datatype Op =
    | Bootstrap(subject: string)
    | CreateOrganization(who: Identity, id: string, name: string)
    | Invite(who: Identity, email: string, organization: string, role: Role, invitationId: string, token: TokenHash, now: Time)
    | Redeem(who: Identity, token: TokenHash, now: Time)
    | SetUserStatus(who: Identity, key: UserKey, active: bool, expected: nat)
    | SetOrganizationStatus(who: Identity, id: string, active: bool, expected: nat)
    | Revoke(who: Identity, token: TokenHash, expected: nat, now: Time)
    | UpdateMembership(who: Identity, organization: string, key: UserKey, role: Role, active: bool, expected: nat)
    | SetAdministrator(who: Identity, key: UserKey, appointed: bool, expected: nat)
    | Reject(actor: string)

  function Outcome(d: Documents, op: Op, audit: string): Result<Documents, AdmissionError> {
    match op
    case Bootstrap(subject) => Bootstrapped(d, subject, audit)
    case CreateOrganization(who, id, name) =>
      if OrganizationAt(id) in d then Err(Denied) else OrganizationCreated(d, who, id, name, audit)
    case Invite(who, email, organization, role, id, token, now) =>
      if InvitationAt(token) in d then Err(Denied) else Invited(d, who, email, organization, role, id, token, now, audit)
    case Redeem(who, token, now) => Redeemed(d, who, token, now, audit)
    case SetUserStatus(who, key, active, expected) => UserStatusSet(d, who, key, active, expected, audit)
    case SetOrganizationStatus(who, id, active, expected) => OrganizationStatusSet(d, who, id, active, expected, audit)
    case Revoke(who, token, expected, now) => Revoked(d, who, token, expected, now, audit)
    case UpdateMembership(who, organization, key, role, active, expected) =>
      MembershipUpdated(d, who, organization, key, role, active, expected, audit)
    case SetAdministrator(who, key, appointed, expected) => AdministratorSet(d, who, key, appointed, expected, audit)
    case Reject(actor) => Ok(Audited(d, audit, actor, "access_rejected"))
  }

  function History(ops: seq<(Op, string)>): Documents {
    if ops == [] then map[]
    else
      var d := History(ops[..|ops| - 1]);
      Committed(d, Outcome(d, ops[|ops| - 1].0, ops[|ops| - 1].1))
  }

  lemma BootstrapKeeps(d: Documents, subject: string, audit: string)
    requires Inv(d) && Bootstrapped(d, subject, audit).Ok?
    ensures Inv(Bootstrapped(d, subject, audit).value)
  {
    hide Bijection, ReadInvitation, ReadOrganization, UserAtKey, Audited;
    var u := UserDocument(User(subject, true, true, true, [], 1));
    var a := d[UserAt(UserSha256(subject)) := u];
    var b := a[BootstrapAt := BootstrapDocument(subject)];
    ReadsAfter(d, a, UserAt(UserSha256(subject)), u);
    ReadsAfter(a, b, BootstrapAt, BootstrapDocument(subject));
    LinksKeepBijection(d, b);
    AuditKeeps(b, audit, subject, "owner_bootstrapped");
  }

  lemma OrganizationFits(d: Documents, id: string)
    requires Typed(d) && ReadOrganization(d, id).Some?
    ensures ReadOrganization(d, id).value.organizationId == id
  {
    assert Fits(OrganizationAt(id), d[OrganizationAt(id)]);
  }

  lemma MemberFits(d: Documents, organization: string, key: UserKey)
    requires Typed(d) && ReadMember(d, organization, key).Some?
    ensures var m := ReadMember(d, organization, key).value;
            m.organizationId == organization && UserSha256(m.subject) == key && IsMember(d, organization, m.subject)
  {
    assert Fits(MemberAt(organization, key), d[MemberAt(organization, key)]);
  }

  lemma InvitationLives(d: Documents, token: TokenHash)
    requires Lifecycles(d) && ReadInvitation(d, token).Some?
    ensures Lifecycle(ReadInvitation(d, token).value)
  {
  }

  lemma StepKeeps(d: Documents, op: Op, audit: string)
    requires Inv(d)
    ensures Inv(Committed(d, Outcome(d, op, audit)))
  {
    hide Bijection, IndexesDistinct, Lifecycles, OneOwner, Typed, ReadUser, ReadMember, IsAdmin, Redeemable, Lower, Audited;
    if Outcome(d, op, audit).Ok? {
      match op
      case Bootstrap(subject) => BootstrapKeeps(d, subject, audit);
      case CreateOrganization(who, id, name) =>
        OrganizationKeeps(d, Organization(id, name, true, 1));
        AuditKeeps(d[OrganizationAt(id) := OrganizationDocument(Organization(id, name, true, 1))], audit, who.subject, "organization_created");
      case Invite(who, email, organization, role, id, token, now) =>
        var i := Invitation(id, Lower(email), organization, role, who.subject, now + DAY, None, false, 1);
        InvitationKeeps(d, token, i);
        AuditKeeps(d[InvitationAt(token) := InvitationDocument(i)], audit, who.subject, "invitation_created");
      case Redeem(who, token, now) =>
        RedeemKeeps(d, who, token, ReadInvitation(d, token).value, now);
        AuditKeeps(AfterRedeem(d, who, token, ReadInvitation(d, token).value), audit, who.subject, "invitation_redeemed");
      case SetUserStatus(who, key, active, expected) =>
        var u := UserAtKey(d, key).value.(active := active, version := expected + 1);
        UserKeeps(d, key, u);
        AuditKeeps(d[UserAt(key) := UserDocument(u)], audit, who.subject, if active then "access_activated" else "access_suspended");
      case SetOrganizationStatus(who, id, active, expected) =>
        OrganizationFits(d, id);
        var o := ReadOrganization(d, id).value.(active := active, version := expected + 1);
        OrganizationKeeps(d, o);
        AuditKeeps(d[OrganizationAt(id) := OrganizationDocument(o)], audit, who.subject,
                   if active then "access_activated" else "access_suspended");
      case Revoke(who, token, expected, now) =>
        InvitationLives(d, token);
        var i := ReadInvitation(d, token).value;
        InvitationKeeps(d, token, i.(revoked := true, version := i.version + 1));
        AuditKeeps(d[InvitationAt(token) := InvitationDocument(i.(revoked := true, version := i.version + 1))], audit, who.subject,
                   "invitation_revoked");
      case UpdateMembership(who, organization, key, role, active, expected) =>
        MemberFits(d, organization, key);
        var m := ReadMember(d, organization, key).value;
        var m' := m.(active := active, role := role, version := m.version + 1);
        MemberKeeps(d, m');
        AuditKeeps(d[MemberAt(organization, key) := MemberDocument(m')], audit, who.subject, "membership_updated");
      case SetAdministrator(who, key, appointed, expected) =>
        var u := UserAtKey(d, key).value;
        var u' := u.(platformAdmin := appointed, version := u.version + 1);
        UserKeeps(d, key, u');
        AuditKeeps(d[UserAt(key) := UserDocument(u')], audit, who.subject,
                   if appointed then "administrator_appointed" else "administrator_revoked");
      case Reject(actor) => AuditKeeps(d, audit, actor, "access_rejected");
    }
  }

  lemma {:induction false} ReachableInv(ops: seq<(Op, string)>)
    ensures Inv(History(ops))
  {
    hide Inv, Outcome;
    if ops == [] {
      NothingStored();
    } else {
      ReachableInv(ops[..|ops| - 1]);
      StepKeeps(History(ops[..|ops| - 1]), ops[|ops| - 1].0, ops[|ops| - 1].1);
    }
  }

  lemma NothingStored()
    ensures Inv(map[])
  {
    forall o, s ensures Paired(map[], o, s) {
    }
  }

  /** The bijection, the index without duplicates and the invitation lifecycle, in every reachable state. */
  lemma MembershipBijection(ops: seq<(Op, string)>, organization: string, subject: string)
    ensures var d := History(ops);
            && (IsMember(d, organization, subject) <==> Lists(d, organization, subject))
            && (IsMember(d, organization, subject) <==>
                  exists t :: RedeemedBy(d, t, organization, subject)
                              && forall u | RedeemedBy(d, u, organization, subject) :: u == t)
            && (ReadUser(d, subject).Some? ==> Distinct(ReadUser(d, subject).value.organizationIds))
            && forall token :: ReadInvitation(d, token).Some? ==> Lifecycle(ReadInvitation(d, token).value)
  {
    hide IsMember, Lists, RedeemedBy, History;
    ReachableInv(ops);
    assert Paired(History(ops), organization, subject);
    if HasInvitation(History(ops), organization, subject) {
      var t :| RedeemedBy(History(ops), t, organization, subject);
    }
  }

  // ---------------------------------------------------------------- access

  /** The memberships that count: the user's own, active, in an active organization, while the user is active. */
  predicate HasAccess(d: Documents, subject: string, w: Workspace) {
    var id := w.membership.organizationId;
    && ReadUser(d, subject).Some? && ReadUser(d, subject).value.active
    && ReadMember(d, id, UserSha256(subject)) == Some(w.membership) && w.membership.active
    && ReadOrganization(d, id) == Some(w.organization) && w.organization.active
  }

  lemma {:induction false} WorkspacesAre(d: Documents, subject: string, ids: seq<string>, w: Workspace)
    requires Typed(d)
    ensures w in Workspaces(d, subject, ids) <==>
              && w.membership.organizationId in ids
              && ReadMember(d, w.membership.organizationId, UserSha256(subject)) == Some(w.membership) && w.membership.active
              && ReadOrganization(d, w.membership.organizationId) == Some(w.organization) && w.organization.active
  {
    hide ReadMember, ReadOrganization, Typed;
    if ids != [] {
      var init, id := ids[..|ids| - 1], ids[|ids| - 1];
      WorkspacesAre(d, subject, init, w);
      assert ids == init + [id];
      if ReadMember(d, id, UserSha256(subject)).Some? { MemberFits(d, id, UserSha256(subject)); }
    }
  }

  lemma {:induction false} WorkspacesOnce(d: Documents, subject: string, ids: seq<string>, w: Workspace)
    requires Typed(d) && Distinct(ids)
    ensures multiset(Workspaces(d, subject, ids))[w] <= 1
  {
    hide ReadMember, ReadOrganization, Typed;
    if ids != [] {
      var init, id := ids[..|ids| - 1], ids[|ids| - 1];
      WorkspacesOnce(d, subject, init, w);
      WorkspacesAre(d, subject, init, w);
      assert id !in init;
      if ReadMember(d, id, UserSha256(subject)).Some? { MemberFits(d, id, UserSha256(subject)); }
    }
  }

  /**
   Walking only the user's index finds exactly the memberships that count, each once, and none while the
   user is suspended.
   */
  lemma AccessIsExact(ops: seq<(Op, string)>, who: Identity, w: Workspace)
    ensures w in AccessOf(History(ops), who).workspaces <==> HasAccess(History(ops), who.subject, w)
    ensures multiset(AccessOf(History(ops), who).workspaces)[w] <= 1
  {
    hide History, Bijection, IndexesDistinct, Lifecycles, OneOwner, Typed;
    var d := History(ops);
    ReachableInv(ops);
    PairedAt(d, w.membership.organizationId, who.subject);
    MemberIsRead(d, w.membership.organizationId, who.subject);
    if ReadUser(d, who.subject).Some? && ReadUser(d, who.subject).value.active {
      WorkspacesAre(d, who.subject, ReadUser(d, who.subject).value.organizationIds, w);
      IndexIsDistinct(d, who.subject);
      WorkspacesOnce(d, who.subject, ReadUser(d, who.subject).value.organizationIds, w);
    }
  }

  lemma IndexIsDistinct(d: Documents, subject: string)
    requires IndexesDistinct(d) && ReadUser(d, subject).Some?
    ensures Distinct(ReadUser(d, subject).value.organizationIds)
  {
  }

  /** The status says why, the flags need a second factor, and the owner is the bootstrapped user. */
  lemma StatusIsExact(ops: seq<(Op, string)>, who: Identity)
    ensures var d, view := History(ops), AccessOf(History(ops), who);
            var user := ReadUser(d, who.subject);
            && (view.platformAdmin <==> user.Some? && user.value.active && user.value.platformAdmin && who.mfa)
            && (view.owner <==> who.mfa && BootstrapAt in d && d[BootstrapAt] == BootstrapDocument(who.subject))
            && (view.status == SUSPENDED <==> user.Some? && !user.value.active)
            && (view.status == MFA_REQUIRED <==> user.Some? && user.value.active && user.value.platformAdmin && !who.mfa)
            && (view.status == ACTIVE <==> view.status !in {SUSPENDED, MFA_REQUIRED}
                                           && (view.platformAdmin || exists w :: HasAccess(d, who.subject, w)))
  {
    hide History, Bijection, IndexesDistinct, Lifecycles, Typed, Workspaces, HasAccess, Inv;
    var d, view := History(ops), AccessOf(History(ops), who);
    ReachableInv(ops);
    OwnerIsBootstrapped(d, who.subject);
    if view.workspaces != [] {
      AccessIsExact(ops, who, view.workspaces[0]);
      assert view.workspaces[0] in view.workspaces;
    }
    if w :| HasAccess(d, who.subject, w) { AccessIsExact(ops, who, w); }
  }

  lemma OwnerIsBootstrapped(d: Documents, subject: string)
    requires Inv(d)
    ensures (ReadUser(d, subject).Some? && ReadUser(d, subject).value.owner)
            <==> (BootstrapAt in d && d[BootstrapAt] == BootstrapDocument(subject))
    ensures ReadUser(d, subject).Some? && ReadUser(d, subject).value.owner ==>
              ReadUser(d, subject).value.active && ReadUser(d, subject).value.platformAdmin
  {
    hide Bijection, IndexesDistinct, Lifecycles;
  }

  lemma PairedAt(d: Documents, organization: string, subject: string)
    requires Bijection(d)
    ensures IsMember(d, organization, subject) <==> Lists(d, organization, subject)
  {
    assert Paired(d, organization, subject);
  }

  /** Once bootstrapped there is exactly one owner, for ever active and administrator. */
  lemma ExactlyOneOwner(ops: seq<(Op, string)>)
    requires BootstrapAt in History(ops)
    ensures exists owner ::
              && ReadUser(History(ops), owner).Some? && ReadUser(History(ops), owner).value.owner
              && ReadUser(History(ops), owner).value.active && ReadUser(History(ops), owner).value.platformAdmin
              && forall s | ReadUser(History(ops), s).Some? && ReadUser(History(ops), s).value.owner :: s == owner
  {
    hide History, Bijection, IndexesDistinct, Lifecycles, Typed;
    ReachableInv(ops);
    var owner := History(ops)[BootstrapAt].ownerSubject;
    assert ReadUser(History(ops), owner).value.owner;
  }
}
