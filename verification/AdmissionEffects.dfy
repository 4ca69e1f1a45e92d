/** What each accepted admission operation stores, told by what can be read before and after it. */
module AdmissionEffects {
  import opened Common
  import opened AdmissionStore
  import opened Admission
  import opened AdmissionInvariant

  /** Every user, organization, membership and invitation but these reads as before. */
  ghost predicate OnlyChanges(d: Documents, d': Documents, users: set<UserKey>, organizations: set<string>,
                              members: set<(string, UserKey)>, invitations: set<TokenHash>) {
    && (forall key | key !in users :: UserAtKey(d', key) == UserAtKey(d, key))
    && (forall id | id !in organizations :: ReadOrganization(d', id) == ReadOrganization(d, id))
    && (forall id, key | (id, key) !in members :: ReadMember(d', id, key) == ReadMember(d, id, key))
    && forall token | token !in invitations :: ReadInvitation(d', token) == ReadInvitation(d, token)
  }

  // ---------------------------------------------------------------- who may

  /** Only an active administrator with a second factor changes anything but by redeeming; only the owner appoints others. */
  lemma OnlyAdministratorsMay(d: Documents, op: Op, audit: string)
    requires Outcome(d, op, audit).Ok? && !op.Bootstrap? && !op.Redeem? && !op.Reject?
    ensures op.who.mfa && ReadUser(d, op.who.subject).Some?
    ensures var user := ReadUser(d, op.who.subject).value;
            user.active && user.platformAdmin && (op.SetAdministrator? ==> user.owner)
  {
    hide UserAtKey, ReadMember, ReadOrganization, ReadInvitation, Audited;
  }

  // ---------------------------------------------------------------- what is stored

  lemma MembershipIsAsRequested(d: Documents, op: Op, audit: string)
    requires op.UpdateMembership? && Outcome(d, op, audit).Ok?
    ensures var d', m := Outcome(d, op, audit).value, ReadMember(d, op.organization, op.key);
            var m' := ReadMember(d', op.organization, op.key);
            && m.Some? && m'.Some? && m.value.version == op.expected && m.value.subject != op.who.subject
            && m'.value.role == op.role && m'.value.active == op.active && m'.value.version == op.expected + 1
            && m'.value.subject == m.value.subject && m'.value.organizationId == m.value.organizationId
            && OnlyChanges(d, d', {}, {}, {(op.organization, op.key)}, {})
  {
    UpdateTouches(d, op, audit);
    hide OnlyChanges;
  }

  lemma UpdateTouches(d: Documents, op: Op, audit: string)
    requires op.UpdateMembership? && Outcome(d, op, audit).Ok?
    ensures OnlyChanges(d, Outcome(d, op, audit).value, {}, {}, {(op.organization, op.key)}, {})
  {
  }

  lemma UserStatusIsAsRequested(d: Documents, op: Op, audit: string)
    requires op.SetUserStatus? && Outcome(d, op, audit).Ok?
    ensures var d', u := Outcome(d, op, audit).value, UserAtKey(d, op.key);
            var u' := UserAtKey(d', op.key);
            && u.Some? && u'.Some? && u.value.version == op.expected && !u.value.owner && u.value.subject != op.who.subject
            && u'.value.active == op.active && u'.value.version == op.expected + 1
            && u'.value.subject == u.value.subject && u'.value.organizationIds == u.value.organizationIds
            && u'.value.platformAdmin == u.value.platformAdmin && u'.value.owner == u.value.owner
            && OnlyChanges(d, d', {op.key}, {}, {}, {})
  {
  }

  lemma AdministratorIsAsRequested(d: Documents, op: Op, audit: string)
    requires op.SetAdministrator? && Outcome(d, op, audit).Ok?
    ensures var d', u := Outcome(d, op, audit).value, UserAtKey(d, op.key);
            var u' := UserAtKey(d', op.key);
            && u.Some? && u'.Some? && u.value.version == op.expected && !u.value.owner && u.value.active
            && u'.value.platformAdmin == op.appointed && u'.value.version == op.expected + 1
            && u'.value.subject == u.value.subject && u'.value.organizationIds == u.value.organizationIds
            && u'.value.active && !u'.value.owner
            && OnlyChanges(d, d', {op.key}, {}, {}, {})
  {
  }

  lemma OrganizationStatusIsAsRequested(d: Documents, op: Op, audit: string)
    requires op.SetOrganizationStatus? && Outcome(d, op, audit).Ok?
    ensures var d', o := Outcome(d, op, audit).value, ReadOrganization(d, op.id);
            var o' := ReadOrganization(d', op.id);
            && o.Some? && o'.Some? && o.value.version == op.expected
            && o'.value.active == op.active && o'.value.version == op.expected + 1
            && o'.value.organizationId == o.value.organizationId && o'.value.name == o.value.name
            && OnlyChanges(d, d', {}, {op.id}, {}, {})
  {
  }

  lemma OrganizationIsCreated(d: Documents, op: Op, audit: string)
    requires op.CreateOrganization? && Outcome(d, op, audit).Ok?
    ensures var d' := Outcome(d, op, audit).value;
            var o' := ReadOrganization(d', op.id);
            && ReadOrganization(d, op.id).None? && o'.Some? && o'.value.organizationId == op.id && o'.value.name == op.name
            && o'.value.active && o'.value.version == 1
            && OnlyChanges(d, d', {}, {op.id}, {}, {})
  {
  }

  lemma InvitationIsAsRequested(d: Documents, op: Op, audit: string)
    requires op.Invite? && Outcome(d, op, audit).Ok?
    ensures var d' := Outcome(d, op, audit).value;
            var i' := ReadInvitation(d', op.token);
            && ReadInvitation(d, op.token).None? && i'.Some? && i'.value.invitationId == op.invitationId
            && i'.value.email == Lower(op.email) && i'.value.organizationId == op.organization && i'.value.role == op.role
            && i'.value.invitedBy == op.who.subject && i'.value.expiresAt == op.now + 86400
            && i'.value.redeemedBy.None? && !i'.value.revoked && i'.value.version == 1
            && ReadOrganization(d, op.organization).Some? && ReadOrganization(d, op.organization).value.active
            && OnlyChanges(d, d', {}, {}, {}, {op.token})
  {
  }

  lemma RevocationIsStored(d: Documents, op: Op, audit: string)
    requires op.Revoke? && Outcome(d, op, audit).Ok?
    ensures var d', i := Outcome(d, op, audit).value, ReadInvitation(d, op.token);
            var i' := ReadInvitation(d', op.token);
            && i.Some? && i'.Some? && i.value.version == op.expected && i.value.redeemedBy.None? && !i.value.revoked
            && op.now < i.value.expiresAt && i'.value.revoked && i'.value.version == op.expected + 1
            && i'.value.(revoked := false, version := op.expected) == i.value
            && OnlyChanges(d, d', {}, {}, {}, {op.token})
  {
  }

  /**
   A redemption is accepted exactly for an open, unexpired invitation to the redeemer's address, by someone who still is an
   active administrator, into an active organization the redeemer is not yet in, unless suspended or in fifty already.
   */
  lemma RedemptionsAreExact(d: Documents, op: Op, audit: string)
    requires op.Redeem?
    ensures Outcome(d, op, audit).Ok? <==>
            var i, user := ReadInvitation(d, op.token), ReadUser(d, op.who.subject);
            && i.Some? && i.value.email == Lower(op.who.email) && op.now < i.value.expiresAt
            && i.value.redeemedBy.None? && !i.value.revoked
            && (var inviter := ReadUser(d, i.value.invitedBy); inviter.Some? && inviter.value.active && inviter.value.platformAdmin)
            && (var o := ReadOrganization(d, i.value.organizationId); o.Some? && o.value.active)
            && ReadMember(d, i.value.organizationId, UserSha256(op.who.subject)).None?
            && (user.Some? ==> user.value.active && |user.value.organizationIds| < 50)
  {
    hide Lower, UserAtKey, ReadMember, ReadOrganization, ReadInvitation, Audited;
  }

  /** The new member has the invitation's role in the invitation's organization, and the invitation is used up. */
  lemma RedemptionIsStored(d: Documents, op: Op, audit: string)
    requires op.Redeem? && Outcome(d, op, audit).Ok?
    ensures var d', i, key := Outcome(d, op, audit).value, ReadInvitation(d, op.token), UserSha256(op.who.subject);
            && i.Some? && i.value.email == Lower(op.who.email) && op.now < i.value.expiresAt && i.value.redeemedBy.None? && !i.value.revoked
            && ReadMember(d, i.value.organizationId, key).None?
            && ReadMember(d', i.value.organizationId, key).Some?
            && var m', u', i' := ReadMember(d', i.value.organizationId, key).value, UserAtKey(d', key), ReadInvitation(d', op.token);
               && m'.role == i.value.role && m'.active && m'.subject == op.who.subject && m'.organizationId == i.value.organizationId
               && i'.Some? && i'.value.redeemedBy == Some(op.who.subject) && i'.value.version == i.value.version + 1
               && u'.Some? && u'.value.active && i.value.organizationId in u'.value.organizationIds
               && OnlyChanges(d, d', {key}, {}, {(i.value.organizationId, key)}, {op.token})
  {
    RedemptionTouches(d, op, audit);
    hide Lower, OnlyChanges;
  }

  lemma RedemptionTouches(d: Documents, op: Op, audit: string)
    requires op.Redeem? && Outcome(d, op, audit).Ok?
    ensures var d', i, key := Outcome(d, op, audit).value, ReadInvitation(d, op.token), UserSha256(op.who.subject);
            i.Some? && OnlyChanges(d, d', {key}, {}, {(i.value.organizationId, key)}, {op.token})
  {
    hide Lower, Redeemable;
  }

  // ---------------------------------------------------------------- what it means for access

  lemma Next(ops: seq<(Op, string)>, op: Op, audit: string)
    requires Outcome(History(ops), op, audit).Ok?
    ensures History(ops + [(op, audit)]) == Outcome(History(ops), op, audit).value
  {
    assert (ops + [(op, audit)])[..|ops|] == ops;
  }

  /** After an accepted update the organization is among the subject's workspaces exactly when the membership was made active. */
  lemma UpdatesDecideAccess(ops: seq<(Op, string)>, op: Op, audit: string, who: Identity)
    requires op.UpdateMembership? && Outcome(History(ops), op, audit).Ok? && UserSha256(who.subject) == op.key
    ensures (exists w <- AccessOf(Outcome(History(ops), op, audit).value, who).workspaces :: w.membership.organizationId == op.organization)
            <==> op.active
    ensures forall w <- AccessOf(Outcome(History(ops), op, audit).value, who).workspaces ::
              w.membership.organizationId == op.organization ==> w.membership.role == op.role
  {
    hide History, AccessOf;
    var d, d' := History(ops), Outcome(History(ops), op, audit).value;
    Next(ops, op, audit);
    MembershipIsAsRequested(d, op, audit);
    UpdateGuards(d, op, audit);
    forall w ensures w in AccessOf(d', who).workspaces <==> HasAccess(d', who.subject, w) {
      AccessIsExact(ops + [(op, audit)], who, w);
    }
    if op.active {
      var w := Workspace(ReadOrganization(d', op.organization).value, ReadMember(d', op.organization, op.key).value);
      assert HasAccess(d', who.subject, w);
    }
  }

  lemma UpdateGuards(d: Documents, op: Op, audit: string)
    requires op.UpdateMembership? && Outcome(d, op, audit).Ok?
    ensures ReadMember(d, op.organization, op.key).value.organizationId == op.organization
    ensures UserSha256(ReadMember(d, op.organization, op.key).value.subject) == op.key
    ensures op.active ==> && UserAtKey(d, op.key).Some? && UserAtKey(d, op.key).value.active
                          && ReadOrganization(d, op.organization).Some? && ReadOrganization(d, op.organization).value.active
  {
  }

  /** A suspended user has no workspace. */
  lemma SuspensionEndsAccess(ops: seq<(Op, string)>, op: Op, audit: string, who: Identity)
    requires op.SetUserStatus? && !op.active && Outcome(History(ops), op, audit).Ok? && UserSha256(who.subject) == op.key
    ensures AccessOf(Outcome(History(ops), op, audit).value, who).workspaces == []
    ensures AccessOf(Outcome(History(ops), op, audit).value, who).status == SUSPENDED
  {
    hide History, Workspaces;
    UserStatusIsAsRequested(History(ops), op, audit);
  }

  /** Nobody has a workspace of a suspended organization. */
  lemma ClosureEndsAccess(ops: seq<(Op, string)>, op: Op, audit: string, who: Identity, w: Workspace)
    requires op.SetOrganizationStatus? && !op.active && Outcome(History(ops), op, audit).Ok?
    requires w in AccessOf(Outcome(History(ops), op, audit).value, who).workspaces
    ensures w.membership.organizationId != op.id
  {
    hide History, AccessOf;
    Next(ops, op, audit);
    OrganizationStatusIsAsRequested(History(ops), op, audit);
    AccessIsExact(ops + [(op, audit)], who, w);
  }

  /** A redeemed invitation opens its workspace to the one who redeemed it, in the role it was made for. */
  lemma RedemptionGivesAccess(ops: seq<(Op, string)>, op: Op, audit: string)
    requires op.Redeem? && Outcome(History(ops), op, audit).Ok?
    ensures ReadInvitation(History(ops), op.token).Some?
    ensures exists w <- AccessOf(Outcome(History(ops), op, audit).value, op.who).workspaces ::
              && w.membership.organizationId == ReadInvitation(History(ops), op.token).value.organizationId
              && w.membership.role == ReadInvitation(History(ops), op.token).value.role
  {
    hide History, AccessOf, Lower;
    var d, d' := History(ops), Outcome(History(ops), op, audit).value;
    Next(ops, op, audit);
    RedemptionIsStored(d, op, audit);
    RedemptionGuards(d, op, audit);
    var i := ReadInvitation(d, op.token).value;
    var w := Workspace(ReadOrganization(d', i.organizationId).value, ReadMember(d', i.organizationId, UserSha256(op.who.subject)).value);
    AccessIsExact(ops + [(op, audit)], op.who, w);
    assert HasAccess(d', op.who.subject, w);
  }

  lemma RedemptionGuards(d: Documents, op: Op, audit: string)
    requires op.Redeem? && Outcome(d, op, audit).Ok?
    ensures var i := ReadInvitation(d, op.token);
            i.Some? && ReadOrganization(d, i.value.organizationId).Some? && ReadOrganization(d, i.value.organizationId).value.active
  {
  }
}
