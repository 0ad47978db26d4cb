/** Every command on organizations, members and invitations, over whole runs. */
module OrganizationProtocol {
  import opened Common
  import opened Organizations

  // ----- state -----

  datatype Command =
    | NoCommand
    | Changing(organization: Id, archive: bool)     // authorized; the transaction has not read yet
    | Committing(organization: Id, archive: bool)   // read the opposite state; the conditional update follows
    | Purging(organization: Id)                     // authorized and read archived; the transaction follows

  datatype Accept =
    | NoAccept
    | Accepting(id: Id, organization: Id, role: Role, user: Id, at: Time)

  datatype State = State(
    now: Time,
    organizations: map<Id, Option<Time>>,    // archived_at
    users: set<Id>,
    members: Members,
    invitations: map<Id, Invitation>,
    files: map<Id, Id>,                      // file to organization
    subscriptions: map<Id, Subscription>,
    events: seq<Event>,
    commands: map<nat, Command>,
    accepts: map<nat, Accept>,
    created: set<Id>,                        // organization ids ever created
    issued: set<Id>,                         // invitation ids ever issued
    spent: set<Id>)                          // invitation ids ever accepted or revoked

  datatype Step =
    | Tick(to: Time)
    | Register(user: Id)
    | Create(organization: Id, user: Id)
    | StartChange(p: nat, organization: Id, user: Id, archive: bool)
    | ReadState(p: nat)
    | CommitChange(p: nat, outcome: Outcome)
    | StartPurge(p: nat, organization: Id, user: Id)
    | CommitPurge(p: nat, outcome: Outcome)
    | StopCommand(p: nat)
    | Invite(id: Id, organization: Id, email: string, role: Role, expiresAt: Time)
    | LoadInvitation(p: nat, id: Id, user: Id, email: string)
    | CommitAccept(p: nat, outcome: Outcome)
    | Revoke(organization: Id, id: Id)
    | SetRole(organization: Id, user: Id, role: Role)
    | Remove(organization: Id, user: Id)
    | DeleteUser(user: Id)
    | AddFile(id: Id, organization: Id)
    | DropFile(id: Id)
    | SetSubscription(organization: Id, status: Subscription)

  function CommandAt(s: State, p: nat): Command {
    if p in s.commands then s.commands[p] else NoCommand
  }

  function AcceptAt(s: State, p: nat): Accept {
    if p in s.accepts then s.accepts[p] else NoAccept
  }

  predicate Redeemable(s: State, id: Id, at: Time) {
    id in s.invitations && s.invitations[id].acceptedAt.None? && s.invitations[id].expiresAt > at
  }

  ghost predicate Enabled(s: State, step: Step) {
    match step
    case Tick(to) => s.now <= to
    case Register(user) => true
    case Create(organization, user) => organization !in s.created && user in s.users
    case StartChange(p, organization, user, archive) =>
      CommandAt(s, p).NoCommand? && IsOwner(s.members, organization, user)
    case ReadState(p) => CommandAt(s, p).Changing?
    case CommitChange(p, outcome) => CommandAt(s, p).Committing?
    case StartPurge(p, organization, user) => CommandAt(s, p).NoCommand? && IsOwner(s.members, organization, user)
    case CommitPurge(p, outcome) => CommandAt(s, p).Purging?
    case StopCommand(p) => true
    case Invite(id, organization, email, role, expiresAt) =>
      id !in s.issued && !role.Owner? && organization in s.organizations && s.organizations[organization].None?
    case LoadInvitation(p, id, user, email) => AcceptAt(s, p).NoAccept?
    case CommitAccept(p, outcome) => AcceptAt(s, p).Accepting?
    case Revoke(organization, id) => true
    case SetRole(organization, user, role) => true
    case Remove(organization, user) => true
    case DeleteUser(user) => true
    case AddFile(id, organization) => organization in s.organizations && id !in s.files
    case DropFile(id) => true
    case SetSubscription(organization, status) => organization in s.organizations
  }

  function WithCommand(s: State, p: nat, c: Command): State {
    s.(commands := s.commands[p := c])
  }

  function WithAccept(s: State, p: nat, a: Accept): State {
    s.(accepts := s.accepts[p := a])
  }

  predicate InState(archivedAt: Option<Time>, archive: bool) {
    archivedAt.Some? == archive
  }

  /** Conditional on the opposite state; the event commits with the update. */
  function SetArchived(s: State, organization: Id, archive: bool): State {
    if organization in s.organizations && !InState(s.organizations[organization], archive)
    then s.(organizations := s.organizations[organization := if archive then Some(s.now) else None],
            events := s.events + [Event(organization, if archive then ArchivedEvent else RestoredEvent)])
    else s
  }

  predicate Purgeable(s: State, organization: Id) {
    && organization in s.organizations && s.organizations[organization].Some?
    && (organization in s.subscriptions ==> !LiveSubscription(s.subscriptions[organization]))
    && forall id :: id in s.files ==> s.files[id] != organization
  }

  function Purge(s: State, organization: Id): State {
    if Purgeable(s, organization)
    then s.(organizations := s.organizations - {organization},
            subscriptions := s.subscriptions - {organization},
            invitations := map id | id in s.invitations && s.invitations[id].organization != organization
                             :: s.invitations[id],
            members := DropOrganization(s.members, organization),
            events := s.events + [Event(organization, PurgedEvent)])
    else s
  }

  /** Claim the invitation, then add the member; both or neither. */
  function Redeem(s: State, a: Accept): State
    requires a.Accepting?
  {
    if Redeemable(s, a.id, a.at) && a.user in s.users
    then s.(invitations := s.invitations[a.id := s.invitations[a.id].(acceptedAt := Some(a.at))],
            members := AddMember(s.members, a.organization, a.user, a.role),
            spent := s.spent + {a.id})
    else s
  }

  predicate Revocable(s: State, organization: Id, id: Id) {
    id in s.invitations && s.invitations[id].organization == organization && s.invitations[id].acceptedAt.None?
  }

  ghost function Apply(s: State, step: Step): State
    requires Enabled(s, step)
  {
    match step
    case Tick(to) => s.(now := to)
    case Register(user) => s.(users := s.users + {user})
    case Create(organization, user) =>
      s.(organizations := s.organizations[organization := None], created := s.created + {organization},
         members := s.members[(organization, user) := Owner])
    case StartChange(p, organization, user, archive) => WithCommand(s, p, Changing(organization, archive))
    case ReadState(p) =>
      var c := s.commands[p];
      WithCommand(s, p,
                  if c.organization in s.organizations && !InState(s.organizations[c.organization], c.archive)
                  then Committing(c.organization, c.archive) else NoCommand)
    case CommitChange(p, outcome) =>
      var c := s.commands[p];
      WithCommand(if outcome.Lost? then s else SetArchived(s, c.organization, c.archive), p, NoCommand)
    case StartPurge(p, organization, user) =>
      if organization in s.organizations && s.organizations[organization].Some?
      then WithCommand(s, p, Purging(organization)) else s
    case CommitPurge(p, outcome) =>
      WithCommand(if outcome.Lost? then s else Purge(s, s.commands[p].organization), p, NoCommand)
    case StopCommand(p) => WithCommand(s, p, NoCommand)
    case Invite(id, organization, email, role, expiresAt) =>
      s.(invitations := s.invitations[id := Invitation(organization, email, role, expiresAt, None)],
         issued := s.issued + {id})
    case LoadInvitation(p, id, user, email) =>
      if Redeemable(s, id, s.now) && s.invitations[id].email == email
      then WithAccept(s, p, Accepting(id, s.invitations[id].organization, s.invitations[id].role, user, s.now))
      else s
    case CommitAccept(p, outcome) =>
      WithAccept(if outcome.Lost? then s else Redeem(s, s.accepts[p]), p, NoAccept)
    case Revoke(organization, id) =>
      if Revocable(s, organization, id)
      then s.(invitations := s.invitations - {id}, spent := s.spent + {id}) else s
    case SetRole(organization, user, role) => s.(members := ChangeRole(s.members, organization, user, role))
    case Remove(organization, user) => s.(members := RemoveMember(s.members, organization, user))
    case DeleteUser(user) =>
      if SolelyOwnsSome(s.members, user) then s
      else s.(users := s.users - {user}, members := DropUser(s.members, user))
    case AddFile(id, organization) => s.(files := s.files[id := organization])
    case DropFile(id) => s.(files := s.files - {id})
    case SetSubscription(organization, status) => s.(subscriptions := s.subscriptions[organization := status])
  }

  ghost predicate Init(s: State) {
    && s.organizations == map[] && s.users == {} && s.members == map[] && s.invitations == map[]
    && s.files == map[] && s.subscriptions == map[] && s.events == [] && s.commands == map[]
    && s.accepts == map[] && s.created == {} && s.issued == {} && s.spent == {}
  }

  ghost predicate IsRun(states: seq<State>, steps: seq<Step>) {
    && |states| == |steps| + 1
    && Init(states[0])
    && forall i :: 0 <= i < |steps| ==> Enabled(states[i], steps[i]) && states[i + 1] == Apply(states[i], steps[i])
  }

  // ----- invariant -----

  ghost predicate OwnersOk(s: State) {
    forall organization :: organization in s.organizations ==> HasOwner(s.members, organization)
  }

  /** Foreign keys: everything tenant-scoped belongs to an existing organization. */
  ghost predicate RefsOk(s: State) {
    && s.organizations.Keys <= s.created
    && (forall key :: key in s.members ==> key.0 in s.organizations)
    && (forall id :: id in s.invitations ==> s.invitations[id].organization in s.organizations)
    && (forall id :: id in s.files ==> s.files[id] in s.organizations)
    && (forall organization :: organization in s.subscriptions ==> organization in s.organizations)
  }

  /** The stored lifecycle state of a created organization. */
  function Stored(s: State, organization: Id): Life {
    if organization !in s.organizations then Purged
    else if s.organizations[organization].Some? then Archived
    else Live
  }

  ghost predicate LifeOk(s: State) {
    && (forall organization :: organization in s.created ==>
          Replay(EventsOf(s.events, organization)) == Some(Stored(s, organization)))
    && (forall organization :: organization !in s.created ==> EventsOf(s.events, organization) == [])
  }

  ghost predicate InvitationsOk(s: State) {
    && s.spent <= s.issued && s.invitations.Keys <= s.issued
    && forall id :: id in s.invitations ==>
         && !s.invitations[id].role.Owner?
         && (s.invitations[id].acceptedAt.Some? <==> id in s.spent)
         && (s.invitations[id].acceptedAt.Some? ==> s.invitations[id].acceptedAt.value < s.invitations[id].expiresAt)
  }

  ghost predicate AcceptOk(s: State, a: Accept) {
    a.Accepting? ==>
      && a.id in s.issued && !a.role.Owner?
      && (a.id in s.invitations ==>
            s.invitations[a.id].organization == a.organization && s.invitations[a.id].role == a.role)
  }

  ghost predicate Inv(s: State) {
    && OwnersOk(s) && RefsOk(s) && LifeOk(s) && InvitationsOk(s)
    && (forall p :: p in s.accepts ==> AcceptOk(s, s.accepts[p]))
  }

  lemma LogGrows(events: seq<Event>, e: Event, other: Id, was: Option<Life>)
    requires Replay(EventsOf(events, other)) == was
    ensures other != e.organization ==> EventsOf(events + [e], other) == EventsOf(events, other)
    ensures other == e.organization && was.Some? ==>
              Replay(EventsOf(events + [e], other)) == NextLife(was.value, e.kind)
  {
    EventsOfSnoc(events, e, other);
    if other == e.organization && was.Some? {
      ReplaySnoc(EventsOf(events, other), e.kind);
    }
  }

  lemma LifeEvent(s: State, t: State, organization: Id, kind: Kind)
    requires LifeOk(s) && organization in s.created && t.created == s.created
    requires t.events == s.events + [Event(organization, kind)]
    requires NextLife(Stored(s, organization), kind) == Some(Stored(t, organization))
    requires forall other :: other != organization ==> Stored(t, other) == Stored(s, other)
    ensures LifeOk(t)
  {
    forall other
      ensures if other in t.created then Replay(EventsOf(t.events, other)) == Some(Stored(t, other))
              else EventsOf(t.events, other) == []
    {
      LogGrows(s.events, Event(organization, kind), other, Replay(EventsOf(s.events, other)));
    }
  }

  lemma SetArchivedKeeps(s: State, organization: Id, archive: bool)
    requires Inv(s)
    ensures Inv(SetArchived(s, organization, archive))
  {
    var t := SetArchived(s, organization, archive);
    if organization in s.organizations && !InState(s.organizations[organization], archive) {
      assert t.organizations.Keys == s.organizations.Keys;
      LifeEvent(s, t, organization, if archive then ArchivedEvent else RestoredEvent);
      assert OwnersOk(t) && RefsOk(t) && InvitationsOk(t);
    }
  }

  lemma PurgeKeepsOwners(s: State, organization: Id)
    requires Inv(s) && Purgeable(s, organization)
    ensures OwnersOk(Purge(s, organization)) && RefsOk(Purge(s, organization))
  {
    var t := Purge(s, organization);
    forall other | other in t.organizations ensures HasOwner(t.members, other) {
      var u: Id :| IsOwner(s.members, other, u);
      assert IsOwner(t.members, other, u);
    }
  }

  lemma PurgeKeeps(s: State, organization: Id)
    requires Inv(s)
    ensures Inv(Purge(s, organization))
  {
    if Purgeable(s, organization) {
      PurgeKeepsOwners(s, organization);
      LifeEvent(s, Purge(s, organization), organization, PurgedEvent);
    }
  }

  lemma RedeemKeeps(s: State, a: Accept)
    requires Inv(s) && a.Accepting? && AcceptOk(s, a)
    ensures Inv(Redeem(s, a))
  {
    if Redeemable(s, a.id, a.at) && a.user in s.users {
      LifeFrame(s, Redeem(s, a));
      RedeemKeepsOwners(s, a);
      RedeemKeepsInvitations(s, a);
    }
  }

  lemma AddingKeepsOwner(members: Members, organization: Id, user: Id, role: Role, other: Id)
    requires HasOwner(members, other)
    ensures HasOwner(AddMember(members, organization, user, role), other)
  {
    var u: Id :| IsOwner(members, other, u);
    assert IsOwner(AddMember(members, organization, user, role), other, u);
  }

  lemma RedeemKeepsOwners(s: State, a: Accept)
    requires OwnersOk(s) && RefsOk(s) && a.Accepting? && AcceptOk(s, a) && Redeemable(s, a.id, a.at)
    ensures OwnersOk(Redeem(s, a)) && RefsOk(Redeem(s, a))
  {
    forall other | other in s.organizations ensures HasOwner(Redeem(s, a).members, other) {
      AddingKeepsOwner(s.members, a.organization, a.user, a.role, other);
    }
  }

  lemma RedeemKeepsInvitations(s: State, a: Accept)
    requires InvitationsOk(s) && a.Accepting? && AcceptOk(s, a) && Redeemable(s, a.id, a.at)
    requires forall p :: p in s.accepts ==> AcceptOk(s, s.accepts[p])
    ensures InvitationsOk(Redeem(s, a))
    ensures forall p :: p in s.accepts ==> AcceptOk(Redeem(s, a), s.accepts[p])
  {
  }

  lemma LifeFrame(s: State, t: State)
    requires LifeOk(s) && t.events == s.events && t.created == s.created && t.organizations == s.organizations
    ensures LifeOk(t)
  {
    assert forall organization :: Stored(t, organization) == Stored(s, organization);
  }

  /** A change of members that orphans no organization keeps the invariant. */
  lemma MembersMove(s: State, t: State)
    requires Inv(s) && t == s.(members := t.members, users := t.users)
    requires forall other :: other in s.organizations ==> HasOwner(t.members, other)
    requires t.members.Keys <= s.members.Keys
    ensures Inv(t)
  {
    LifeFrame(s, t);
  }

  lemma SetRoleKeeps(s: State, step: Step)
    requires step.SetRole? && Enabled(s, step) && Inv(s)
    ensures Inv(Apply(s, step))
  {
    forall other | other in s.organizations ensures HasOwner(Apply(s, step).members, other) {
      RoleChangeKeepsOwner(s.members, step.organization, step.user, step.role, other);
    }
    MembersMove(s, Apply(s, step));
  }

  lemma RemoveKeeps(s: State, step: Step)
    requires step.Remove? && Enabled(s, step) && Inv(s)
    ensures Inv(Apply(s, step))
  {
    forall other | other in s.organizations ensures HasOwner(Apply(s, step).members, other) {
      RemovalKeepsOwner(s.members, step.organization, step.user, other);
    }
    MembersMove(s, Apply(s, step));
  }

  lemma DeleteUserKeeps(s: State, step: Step)
    requires step.DeleteUser? && Enabled(s, step) && Inv(s)
    ensures Inv(Apply(s, step))
  {
    if !SolelyOwnsSome(s.members, step.user) {
      forall other | other in s.organizations ensures HasOwner(Apply(s, step).members, other) {
        DeletionKeepsOwner(s.members, step.user, other);
      }
      MembersMove(s, Apply(s, step));
    }
  }

  lemma CreateKeepsOwners(s: State, organization: Id, user: Id)
    requires OwnersOk(s)
    ensures forall other :: other in s.organizations || other == organization ==>
              HasOwner(s.members[(organization, user) := Owner], other)
  {
    var members := s.members[(organization, user) := Owner];
    assert IsOwner(members, organization, user);
    forall other | other in s.organizations ensures HasOwner(members, other) {
      var u: Id :| IsOwner(s.members, other, u);
      assert IsOwner(members, other, u);
    }
  }

  lemma NewHasNoEvents(s: State, organization: Id)
    requires LifeOk(s) && organization !in s.created && organization !in s.organizations
    ensures LifeOk(s.(organizations := s.organizations[organization := None], created := s.created + {organization}))
  {
    var t := s.(organizations := s.organizations[organization := None], created := s.created + {organization});
    assert EventsOf(s.events, organization) == [];
    assert forall other :: other != organization ==> Stored(t, other) == Stored(s, other);
  }

  lemma CreateKeepsRefs(s: State, organization: Id, user: Id)
    requires RefsOk(s)
    ensures RefsOk(s.(organizations := s.organizations[organization := None], created := s.created + {organization},
                      members := s.members[(organization, user) := Owner]))
  {
  }

  lemma CreateKeeps(s: State, step: Step)
    requires step.Create? && Enabled(s, step) && Inv(s)
    ensures Inv(Apply(s, step))
  {
    var t := Apply(s, step);
    CreateKeepsOwners(s, step.organization, step.user);
    CreateKeepsRefs(s, step.organization, step.user);
    NewHasNoEvents(s, step.organization);
    LifeFrame(s.(organizations := t.organizations, created := t.created), t);
    assert InvitationsOk(t) && t.accepts == s.accepts && t.invitations == s.invitations && t.issued == s.issued;
    forall p | p in t.accepts ensures AcceptOk(t, t.accepts[p]) {
      assert AcceptOk(s, s.accepts[p]);
    }
  }

  lemma CommandMove(s: State, p: nat, c: Command)
    requires Inv(s)
    ensures Inv(WithCommand(s, p, c))
  {
    LifeFrame(s, WithCommand(s, p, c));
  }

  lemma AcceptMove(s: State, p: nat, a: Accept)
    requires Inv(s) && AcceptOk(s, a)
    ensures Inv(WithAccept(s, p, a))
  {
    LifeFrame(s, WithAccept(s, p, a));
  }

  lemma CommandKeeps(s: State, step: Step)
    requires step.StartChange? || step.ReadState? || step.CommitChange? || step.StartPurge? || step.CommitPurge?
             || step.StopCommand?
    requires Enabled(s, step) && Inv(s)
    ensures Inv(Apply(s, step))
  {
    match step
    case StartChange(p, organization, user, archive) => CommandMove(s, p, Changing(organization, archive));
    case ReadState(p) => CommandMove(s, p, Apply(s, step).commands[p]);
    case CommitChange(p, outcome) =>
      SetArchivedKeeps(s, s.commands[p].organization, s.commands[p].archive);
      var c := s.commands[p];
      CommandMove(if outcome.Lost? then s else SetArchived(s, c.organization, c.archive), p, NoCommand);
    case StartPurge(p, organization, user) => CommandMove(s, p, Purging(organization));
    case CommitPurge(p, outcome) =>
      PurgeKeeps(s, s.commands[p].organization);
      CommandMove(if outcome.Lost? then s else Purge(s, s.commands[p].organization), p, NoCommand);
    case StopCommand(p) => CommandMove(s, p, NoCommand);
  }

  /** Issuing and revoking touch one invitation and no pending acceptance. */
  lemma InvitationsMove(s: State, invitations: map<Id, Invitation>, issued: set<Id>, spent: set<Id>)
    requires Inv(s) && s.issued <= issued
    requires InvitationsOk(s.(invitations := invitations, issued := issued, spent := spent))
    requires forall id :: id in invitations ==> invitations[id].organization in s.organizations
    requires forall id :: id in invitations && id in s.issued ==>
               id in s.invitations && invitations[id] == s.invitations[id]
    ensures Inv(s.(invitations := invitations, issued := issued, spent := spent))
  {
    var t := s.(invitations := invitations, issued := issued, spent := spent);
    LifeFrame(s, t);
    forall p | p in t.accepts ensures AcceptOk(t, t.accepts[p]) {
      assert AcceptOk(s, s.accepts[p]);
    }
  }

  lemma InviteKeeps(s: State, id: Id, invitation: Invitation)
    requires Inv(s) && id !in s.issued && !invitation.role.Owner? && invitation.acceptedAt.None?
    requires invitation.organization in s.organizations
    ensures Inv(s.(invitations := s.invitations[id := invitation], issued := s.issued + {id}))
  {
    InvitationsMove(s, s.invitations[id := invitation], s.issued + {id}, s.spent);
  }

  lemma RevokeKeeps(s: State, id: Id)
    requires Inv(s) && id in s.invitations && s.invitations[id].acceptedAt.None?
    ensures Inv(s.(invitations := s.invitations - {id}, spent := s.spent + {id}))
  {
    InvitationsMove(s, s.invitations - {id}, s.issued, s.spent + {id});
  }

  lemma IssueKeeps(s: State, step: Step)
    requires step.Invite? || step.Revoke?
    requires Enabled(s, step) && Inv(s)
    ensures Inv(Apply(s, step))
  {
    if step.Invite? {
      InviteKeeps(s, step.id, Invitation(step.organization, step.email, step.role, step.expiresAt, None));
    } else if Revocable(s, step.organization, step.id) {
      RevokeKeeps(s, step.id);
    }
  }

  lemma InvitationKeeps(s: State, step: Step)
    requires step.LoadInvitation? || step.CommitAccept?
    requires Enabled(s, step) && Inv(s)
    ensures Inv(Apply(s, step))
  {
    match step
    case LoadInvitation(p, id, user, email) =>
      if Redeemable(s, id, s.now) {
        AcceptMove(s, p, Accepting(id, s.invitations[id].organization, s.invitations[id].role, user, s.now));
      }
    case CommitAccept(p, outcome) =>
      RedeemKeeps(s, s.accepts[p]);
      AcceptMove(if outcome.Lost? then s else Redeem(s, s.accepts[p]), p, NoAccept);
  }

  lemma TenantMove(s: State, now: Time, users: set<Id>, files: map<Id, Id>, subscriptions: map<Id, Subscription>)
    requires Inv(s)
    requires forall id :: id in files ==> files[id] in s.organizations
    requires forall organization :: organization in subscriptions ==> organization in s.organizations
    ensures Inv(s.(now := now, users := users, files := files, subscriptions := subscriptions))
  {
    LifeFrame(s, s.(now := now, users := users, files := files, subscriptions := subscriptions));
  }

  lemma TenantKeeps(s: State, step: Step)
    requires step.Tick? || step.Register? || step.AddFile? || step.DropFile? || step.SetSubscription?
    requires Enabled(s, step) && Inv(s)
    ensures Inv(Apply(s, step))
  {
    var t := Apply(s, step);
    TenantMove(s, t.now, t.users, t.files, t.subscriptions);
  }

  lemma StepKeeps(s: State, step: Step)
    requires Enabled(s, step) && Inv(s)
    ensures Inv(Apply(s, step))
  {
    if step.Create? {
      CreateKeeps(s, step);
    } else if step.SetRole? {
      SetRoleKeeps(s, step);
    } else if step.Remove? {
      RemoveKeeps(s, step);
    } else if step.DeleteUser? {
      DeleteUserKeeps(s, step);
    } else if step.Invite? || step.Revoke? {
      IssueKeeps(s, step);
    } else if step.LoadInvitation? || step.CommitAccept? {
      InvitationKeeps(s, step);
    } else if step.Tick? || step.Register? || step.AddFile? || step.DropFile? || step.SetSubscription? {
      TenantKeeps(s, step);
    } else {
      CommandKeeps(s, step);
    }
  }

  lemma {:induction false} RunKeeps(states: seq<State>, steps: seq<Step>, n: nat)
    requires IsRun(states, steps) && n < |states|
    ensures Inv(states[n])
  {
    if n > 0 {
      RunKeeps(states, steps, n - 1);
      StepKeeps(states[n - 1], steps[n - 1]);
    }
  }

  // ----- what holds of every run -----

  lemma EveryOrganizationHasAnOwner(states: seq<State>, steps: seq<Step>, n: nat, organization: Id)
    requires IsRun(states, steps) && n < |states| && organization in states[n].organizations
    ensures exists user: Id :: IsOwner(states[n].members, organization, user)
  {
    RunKeeps(states, steps, n);
  }

  /** Replaying the committed events of an organization gives its stored state. */
  lemma EventsReplayToStoredState(states: seq<State>, steps: seq<Step>, n: nat, organization: Id)
    requires IsRun(states, steps) && n < |states| && organization in states[n].created
    ensures Replay(EventsOf(states[n].events, organization)) == Some(Stored(states[n], organization))
  {
    RunKeeps(states, steps, n);
  }

  ghost predicate Gone(s: State, organization: Id) {
    organization in s.created && organization !in s.organizations
  }

  lemma GoneStep(s: State, step: Step, organization: Id)
    requires Enabled(s, step) && Gone(s, organization)
    ensures Gone(Apply(s, step), organization)
  {
  }

  /** An organization, once gone, stays gone. */
  lemma PurgedStaysPurged(states: seq<State>, steps: seq<Step>, m: nat, n: nat, organization: Id)
    requires IsRun(states, steps) && m <= n < |states| && Gone(states[m], organization)
    ensures Gone(states[n], organization)
  {
    var holds := seq(|states|, i requires 0 <= i < |states| => Gone(states[i], organization));
    forall i | 0 < i < |states| && holds[i - 1] ensures holds[i] {
      GoneStep(states[i - 1], steps[i - 1], organization);
    }
    Persists(holds, m, n);
  }

  /** The step in which a purge takes effect. */
  ghost predicate Erases(s: State, t: State, step: Step, organization: Id) {
    step.CommitPurge? && organization in s.organizations && organization !in t.organizations
  }

  lemma {:induction false} LogEnds(log: seq<Kind>)
    requires Replay(log) == Some(Purged)
    ensures log != [] && log[|log| - 1].PurgedEvent?
  {
    ReplayShape(log);
  }

  /**
   * A purge takes effect only on an archived organization with no files and no live
   * subscription. From then on nothing of it exists: no member, invitation, file or
   * subscription, whatever runs later, and its log ends with the purge.
   */
  lemma PurgeLeavesNothing(states: seq<State>, steps: seq<Step>, m: nat, n: nat, organization: Id)
    requires IsRun(states, steps) && m < n < |states| && Erases(states[m], states[m + 1], steps[m], organization)
    ensures var s := states[m];
            && s.organizations[organization].Some?
            && (forall id :: id in s.files ==> s.files[id] != organization)
            && (organization in s.subscriptions ==> s.subscriptions[organization].Canceled?)
    ensures var t := states[n];
            && organization !in t.organizations && organization !in t.subscriptions
            && (forall key :: key in t.members ==> key.0 != organization)
            && (forall id :: id in t.invitations ==> t.invitations[id].organization != organization)
            && (forall id :: id in t.files ==> t.files[id] != organization)
    ensures var log := EventsOf(states[n].events, organization);
            log != [] && log[|log| - 1].PurgedEvent?
  {
    RunKeeps(states, steps, m);
    RunKeeps(states, steps, m + 1);
    RunKeeps(states, steps, n);
    assert organization in states[m].created;
    CreatedStays(states[m], steps[m], organization);
    PurgedStaysPurged(states, steps, m + 1, n, organization);
    LogEnds(EventsOf(states[n].events, organization));
  }

  lemma CreatedStays(s: State, step: Step, organization: Id)
    requires Enabled(s, step) && organization in s.created
    ensures organization in Apply(s, step).created
  {
  }

  // ----- invitations -----

  ghost predicate Accepts(s: State, t: State, step: Step, id: Id) {
    step.CommitAccept? && id in s.invitations && s.invitations[id].acceptedAt.None?
    && id in t.invitations && t.invitations[id].acceptedAt.Some?
  }

  ghost predicate Revokes(s: State, t: State, step: Step, id: Id) {
    step.Revoke? && id in s.invitations && id !in t.invitations
  }

  lemma SpentStep(s: State, step: Step)
    requires Enabled(s, step)
    ensures s.spent <= Apply(s, step).spent
  {
  }

  lemma SpendingStep(s: State, step: Step, id: Id)
    requires Enabled(s, step) && InvitationsOk(s) && (step.CommitAccept? || step.Revoke?)
    ensures Accepts(s, Apply(s, step), step, id) || Revokes(s, Apply(s, step), step, id)
            ==> id !in s.spent && id in Apply(s, step).spent
  {
  }

  ghost predicate SpentChain(states: seq<State>) {
    forall i :: 0 < i < |states| ==> states[i - 1].spent <= states[i].spent
  }

  lemma {:induction false} ChainGrows(states: seq<State>, m: nat, n: nat)
    requires SpentChain(states) && m <= n < |states|
    ensures states[m].spent <= states[n].spent
  {
    if m < n {
      ChainGrows(states, m, n - 1);
      assert states[n - 1].spent <= states[n].spent;
    }
  }

  lemma SpentGrows(states: seq<State>, steps: seq<Step>, m: nat, n: nat)
    requires IsRun(states, steps) && m <= n < |states|
    ensures states[m].spent <= states[n].spent
  {
    forall i | 0 < i < |states| ensures states[i - 1].spent <= states[i].spent {
      SpentStep(states[i - 1], steps[i - 1]);
    }
    ChainGrows(states, m, n);
  }

  /** Once accepted or revoked, an invitation is never accepted again. */
  lemma InvitationsAreOneShot(states: seq<State>, steps: seq<Step>, m: nat, n: nat, id: Id)
    requires IsRun(states, steps) && m < n < |steps|
    requires Accepts(states[m], states[m + 1], steps[m], id) || Revokes(states[m], states[m + 1], steps[m], id)
    ensures !Accepts(states[n], states[n + 1], steps[n], id)
  {
    RunKeeps(states, steps, m);
    RunKeeps(states, steps, n);
    SpendingStep(states[m], steps[m], id);
    if steps[n].CommitAccept? {
      SpendingStep(states[n], steps[n], id);
    }
    SpentGrows(states, steps, m + 1, n);
  }

  /** An acceptance is dated before expiry, and adds at most one member, never an owner, changing no one. */
  lemma AcceptanceOnlyAdds(states: seq<State>, steps: seq<Step>, n: nat, id: Id)
    requires IsRun(states, steps) && n < |steps| && Accepts(states[n], states[n + 1], steps[n], id)
    ensures var s, t := states[n], states[n + 1];
            var a := AcceptAt(s, steps[n].p);
            && a.Accepting? && a.id == id
            && t.invitations[id].acceptedAt == Some(a.at) && a.at < t.invitations[id].expiresAt
            && t.members.Keys == s.members.Keys + {(t.invitations[id].organization, a.user)}
            && (forall key :: key in s.members ==> t.members[key] == s.members[key])
            && (forall key :: key in t.members && key !in s.members ==>
                  t.members[key] == t.invitations[id].role && !t.members[key].Owner?)
  {
    RunKeeps(states, steps, n);
    assert AcceptOk(states[n], states[n].accepts[steps[n].p]);
  }

  // ----- when each command takes effect -----

  /**
   * An archive or restore takes effect exactly on an organization in the opposite state, and then
   * commits its event with it; otherwise neither is written.
   */
  lemma ChangeExactlyWhen(s: State, step: Step)
    requires Enabled(s, step) && step.CommitChange?
    ensures var c, t := s.commands[step.p], Apply(s, step);
            if step.outcome != Lost && c.organization in s.organizations
               && s.organizations[c.organization].None? == c.archive
            then && t.organizations == s.organizations[c.organization := if c.archive then Some(s.now) else None]
                 && t.events == s.events + [Event(c.organization, if c.archive then ArchivedEvent else RestoredEvent)]
            else t.organizations == s.organizations && t.events == s.events
  {
  }

  /** A purge takes effect exactly on an archived organization with no files and no subscription but a canceled one. */
  lemma PurgeExactlyWhen(s: State, step: Step)
    requires Enabled(s, step) && step.CommitPurge? && s.commands[step.p].organization in s.organizations
    ensures var organization, t := s.commands[step.p].organization, Apply(s, step);
            && (organization !in t.organizations
                <==> step.outcome != Lost && s.organizations[organization] != None
                     && (forall id :: id in s.files ==> s.files[id] != organization)
                     && (organization in s.subscriptions ==> s.subscriptions[organization] == Canceled))
            && (organization !in t.organizations ==> t.events == s.events + [Event(organization, PurgedEvent)])
            && (organization in t.organizations ==>
                  t.events == s.events && t.organizations == s.organizations && t.members == s.members)
            && forall other :: other in s.organizations && other != organization ==>
                 other in t.organizations && t.organizations[other] == s.organizations[other]
  {
  }

  /** An acceptance begins exactly on an invitation that is pending, in time and issued to this address. */
  lemma LoadsExactlyWhen(s: State, step: Step)
    requires Enabled(s, step) && step.LoadInvitation?
    ensures var t := Apply(s, step);
            && (AcceptAt(t, step.p) != NoAccept
                <==> step.id in s.invitations && s.invitations[step.id].acceptedAt == None
                     && s.now < s.invitations[step.id].expiresAt && s.invitations[step.id].email == step.email)
            && (AcceptAt(t, step.p) != NoAccept ==>
                  AcceptAt(t, step.p) == Accepting(step.id, s.invitations[step.id].organization,
                                                   s.invitations[step.id].role, step.user, s.now))
  {
  }

  /** It commits exactly when the invitation is still pending, was in time when loaded, and the user still exists. */
  lemma AcceptsExactlyWhen(s: State, step: Step)
    requires Enabled(s, step) && step.CommitAccept?
    ensures var a, t := s.accepts[step.p], Apply(s, step);
            if step.outcome != Lost && a.id in s.invitations && s.invitations[a.id].acceptedAt == None
               && a.at < s.invitations[a.id].expiresAt && a.user in s.users
            then && t.invitations == s.invitations[a.id := s.invitations[a.id].(acceptedAt := Some(a.at))]
                 && (forall key :: key in t.members <==> key in s.members || key == (a.organization, a.user))
                 && (forall key :: key in s.members ==> t.members[key] == s.members[key])
                 && ((a.organization, a.user) !in s.members ==> t.members[(a.organization, a.user)] == a.role)
            else t.invitations == s.invitations && t.members == s.members
  {
  }

  /** A revocation takes out exactly a pending invitation of that organization. */
  lemma RevokesExactlyWhen(s: State, step: Step)
    requires Enabled(s, step) && step.Revoke?
    ensures var t := Apply(s, step);
            if step.id in s.invitations && s.invitations[step.id].organization == step.organization
               && s.invitations[step.id].acceptedAt == None
            then t.invitations == s.invitations - {step.id} else t.invitations == s.invitations
  {
  }

  /**
   * The membership commands write exactly the role given, take out exactly the member named, and delete
   * exactly the user's memberships, unless an organization would be left without an owner.
   */
  lemma MembersExactlyWhen(s: State, step: Step)
    requires Enabled(s, step) && (step.SetRole? || step.Remove? || step.DeleteUser?)
    ensures step.SetRole? || step.Remove? ==>
              var key := (step.organization, step.user);
              var open := key in s.members
                          && (s.members[key] != Owner || AnotherOwns(s.members, step.organization, step.user));
              && (step.SetRole? ==>
                    Apply(s, step).members
                    == if open || (key in s.members && s.members[key] == step.role)
                       then s.members[key := step.role] else s.members)
              && (step.Remove? ==> Apply(s, step).members == if open then s.members - {key} else s.members)
    ensures step.DeleteUser? ==>
              if exists organization: Id :: (organization, step.user) in s.members
                   && s.members[(organization, step.user)] == Owner
                   && !AnotherOwns(s.members, organization, step.user)
              then Apply(s, step) == s
              else
                && Apply(s, step).users == s.users - {step.user}
                && (forall key :: key in Apply(s, step).members <==> key in s.members && key.1 != step.user)
                && (forall key :: key in Apply(s, step).members ==> Apply(s, step).members[key] == s.members[key])
  {
    match step
    case SetRole(organization, user, role) => RoleChangeIsExact(s.members, organization, user, role);
    case Remove(organization, user) => RemovalIsExact(s.members, organization, user);
    case DeleteUser(user) => DeletionIsExact(s.members, user);
  }

  // ----- acceptance and the clock -----

  /** The acceptance in hand of p was loaded by this step, and has been in hand ever since. */
  ghost predicate LoadedAt(states: seq<State>, steps: seq<Step>, m: nat, n: nat, p: nat)
    requires m < n < |states| && |states| == |steps| + 1
  {
    && steps[m].LoadInvitation? && steps[m].p == p && AcceptAt(states[n], p).Accepting?
    && states[m].now == AcceptAt(states[n], p).at && steps[m].id == AcceptAt(states[n], p).id
    && forall k :: m < k <= n ==> AcceptAt(states[k], p) == AcceptAt(states[n], p)
  }

  lemma AcceptAppears(s: State, step: Step, p: nat)
    requires Enabled(s, step) && AcceptAt(Apply(s, step), p).Accepting? && AcceptAt(Apply(s, step), p) != AcceptAt(s, p)
    ensures step.LoadInvitation? && step.p == p
    ensures AcceptAt(Apply(s, step), p).at == s.now && AcceptAt(Apply(s, step), p).id == step.id
  {
  }

  /** An acceptance in hand after a step was in hand before it, or this step loaded it. */
  ghost predicate KeptOrLoaded(states: seq<State>, steps: seq<Step>, i: nat, p: nat)
    requires i < |steps| && |states| == |steps| + 1
  {
    || !AcceptAt(states[i + 1], p).Accepting? || AcceptAt(states[i + 1], p) == AcceptAt(states[i], p)
    || (steps[i].LoadInvitation? && steps[i].p == p
        && AcceptAt(states[i + 1], p).at == states[i].now && AcceptAt(states[i + 1], p).id == steps[i].id)
  }

  lemma {:induction false} LoadedBefore(states: seq<State>, steps: seq<Step>, n: nat, p: nat) returns (m: nat)
    requires |states| == |steps| + 1 && n < |states|
    requires AcceptAt(states[n], p).Accepting? && AcceptAt(states[0], p).NoAccept?
    requires forall i: nat :: i < |steps| ==> KeptOrLoaded(states, steps, i, p)
    ensures m < n && LoadedAt(states, steps, m, n, p)
  {
    m := n - 1;
    assert KeptOrLoaded(states, steps, m, p);
    if AcceptAt(states[m], p) == AcceptAt(states[n], p) {
      m := LoadedBefore(states, steps, m, p);
    }
  }

  lemma WasLoaded(states: seq<State>, steps: seq<Step>, n: nat, p: nat) returns (m: nat)
    requires IsRun(states, steps) && n < |states| && AcceptAt(states[n], p).Accepting?
    ensures m < n && LoadedAt(states, steps, m, n, p)
  {
    forall i: nat | i < |steps| ensures KeptOrLoaded(states, steps, i, p) {
      if AcceptAt(states[i + 1], p).Accepting? && AcceptAt(states[i + 1], p) != AcceptAt(states[i], p) {
        AcceptAppears(states[i], steps[i], p);
      }
    }
    m := LoadedBefore(states, steps, n, p);
  }

  /** The clock passes this instant in this step. */
  ghost predicate Reaches(states: seq<State>, k: nat, instant: Time)
    requires 0 < k < |states|
  {
    states[k - 1].now < instant <= states[k].now
  }

  lemma {:induction false} ClockCrosses(states: seq<State>, m: nat, n: nat, instant: Time) returns (k: nat)
    requires m < n < |states| && states[m].now < instant <= states[n].now
    ensures m < k <= n && Reaches(states, k, instant)
  {
    if states[n - 1].now < instant {
      k := n;
    } else {
      k := ClockCrosses(states, m, n - 1, instant);
    }
  }

  lemma ClockStep(s: State, step: Step)
    requires Enabled(s, step)
    ensures s.now <= Apply(s, step).now
  {
  }

  ghost predicate ClockChain(states: seq<State>) {
    forall i :: 0 < i < |states| ==> states[i - 1].now <= states[i].now
  }

  lemma {:induction false} ChainRuns(states: seq<State>, m: nat, n: nat)
    requires ClockChain(states) && m <= n < |states|
    ensures states[m].now <= states[n].now
  {
    if m < n {
      ChainRuns(states, m, n - 1);
      assert states[n - 1].now <= states[n].now;
    }
  }

  lemma ClockRuns(states: seq<State>, steps: seq<Step>, m: nat, n: nat)
    requires IsRun(states, steps) && m <= n < |states|
    ensures states[m].now <= states[n].now
  {
    forall i | 0 < i < |states| ensures states[i - 1].now <= states[i].now {
      ClockStep(states[i - 1], steps[i - 1]);
    }
    ChainRuns(states, m, n);
  }

  /**
   * The instant an acceptance is checked against is read before its transaction. So it
   * commits at or after the invitation's expiry exactly when the clock reaches the
   * expiry between the load and the commit.
   */
  lemma LateAcceptanceExactlyWhen(states: seq<State>, steps: seq<Step>, n: nat, id: Id) returns (m: nat)
    requires IsRun(states, steps) && n < |steps| && Accepts(states[n], states[n + 1], steps[n], id)
    ensures m < n && LoadedAt(states, steps, m, n, steps[n].p) && steps[m].id == id
    ensures states[n].now >= states[n].invitations[id].expiresAt
            <==> exists k: nat :: m < k <= n && Reaches(states, k, states[n].invitations[id].expiresAt)
  {
    AcceptanceOnlyAdds(states, steps, n, id);
    m := WasLoaded(states, steps, n, steps[n].p);
    var expiry := states[n].invitations[id].expiresAt;
    if states[n].now >= expiry {
      var k := ClockCrosses(states, m, n, expiry);
    }
    forall k: nat | m < k <= n && Reaches(states, k, expiry) ensures expiry <= states[n].now {
      ClockRuns(states, steps, k, n);
    }
  }

  lemma RunGrows(states: seq<State>, steps: seq<Step>, step: Step)
    requires IsRun(states, steps) && Enabled(states[|steps|], step)
    ensures IsRun(states + [Apply(states[|steps|], step)], steps + [step])
  {
  }

  /** Organization 5, owned by user 1, invites user 2 until instant 10. */
  lemma Invited() returns (states: seq<State>, steps: seq<Step>)
    ensures IsRun(states, steps) && |steps| == 4
    ensures states[4] == State(0, map[5 := None], {1, 2}, map[(5, 1) := Owner],
                               map[9 := Invitation(5, "a", Member, 10, None)],
                               map[], map[], [], map[], map[], {5}, {9}, {})
  {
    var s0 := State(0, map[], {}, map[], map[], map[], map[], [], map[], map[], {}, {}, {});
    steps := [Register(1), Create(5, 1), Register(2), Invite(9, 5, "a", Member, 10)];
    var s1 := Apply(s0, steps[0]);
    var s2 := Apply(s1, steps[1]);
    var s3 := Apply(s2, steps[2]);
    states := [s0, s1, s2, s3, Apply(s3, steps[3])];
  }

  /** Such a run: the invitation expires at 10, and its acceptance commits at 100. */
  lemma AcceptedAfterExpiry() returns (states: seq<State>, steps: seq<Step>)
    ensures IsRun(states, steps) && |steps| == 7
    ensures Accepts(states[6], states[7], steps[6], 9) && states[6].now > states[6].invitations[9].expiresAt
  {
    states, steps := Invited();
    var s := states[4];
    RunGrows(states, steps, LoadInvitation(0, 9, 2, "a"));
    var loaded := Apply(s, LoadInvitation(0, 9, 2, "a"));
    states, steps := states + [loaded], steps + [LoadInvitation(0, 9, 2, "a")];
    RunGrows(states, steps, Tick(100));
    states, steps := states + [Apply(loaded, Tick(100))], steps + [Tick(100)];
    RunGrows(states, steps, CommitAccept(0, Acked));
    states, steps := states + [Apply(states[6], CommitAccept(0, Acked))], steps + [CommitAccept(0, Acked)];
  }
}
