/**
 * Organizations: lifecycle commands interleaving over stored state and events,
 * memberships under the last-owner rule, and one-shot invitations.
 */
module Organizations {
  import opened Common

  datatype Role = Owner | Admin | Member | Viewer

  datatype Subscription = Trialing | Active | PastDue | Paused | Canceled

  predicate LiveSubscription(status: Subscription) {
    status.Trialing? || status.Active? || status.PastDue? || status.Paused?
  }

  datatype Invitation = Invitation(
    organization: Id, email: string, role: Role, expiresAt: Time, acceptedAt: Option<Time>)

  datatype Kind = ArchivedEvent | RestoredEvent | PurgedEvent

  datatype Event = Event(organization: Id, kind: Kind)

  type Members = map<(Id, Id), Role>   // (organization, user)

  // ----- memberships -----

  predicate IsOwner(members: Members, organization: Id, user: Id) {
    (organization, user) in members && members[(organization, user)].Owner?
  }

  ghost predicate HasOwner(members: Members, organization: Id) {
    exists user: Id :: IsOwner(members, organization, user)
  }

  predicate IsLastOwner(members: Members, organization: Id, user: Id) {
    forall key :: key in members && key.0 == organization && key.1 != user ==> !members[key].Owner?
  }

  datatype MembershipChange = Changed | NotAMember | WouldOrphan

  function DecideRole(members: Members, organization: Id, user: Id, role: Role): MembershipChange {
    if (organization, user) !in members then NotAMember
    else if members[(organization, user)] == role then Changed
    else if members[(organization, user)].Owner? && IsLastOwner(members, organization, user) then WouldOrphan
    else Changed
  }

  function ChangeRole(members: Members, organization: Id, user: Id, role: Role): Members {
    if DecideRole(members, organization, user, role).Changed? then members[(organization, user) := role] else members
  }

  function DecideRemoval(members: Members, organization: Id, user: Id): MembershipChange {
    if (organization, user) !in members then NotAMember
    else if members[(organization, user)].Owner? && IsLastOwner(members, organization, user) then WouldOrphan
    else Changed
  }

  function RemoveMember(members: Members, organization: Id, user: Id): Members {
    if DecideRemoval(members, organization, user).Changed? then members - {(organization, user)} else members
  }

  /** createMany with skipDuplicates on (organization, user). */
  function AddMember(members: Members, organization: Id, user: Id, role: Role): Members {
    if (organization, user) in members then members else members[(organization, user) := role]
  }

  /** The guard on account deletion: some organization has this user as its only owner. */
  predicate SolelyOwnsSome(members: Members, user: Id) {
    exists key :: key in members && key.1 == user && members[key].Owner? && IsLastOwner(members, key.0, user)
  }

  function DropUser(members: Members, user: Id): Members {
    map key | key in members && key.1 != user :: members[key]
  }

  function DropOrganization(members: Members, organization: Id): Members {
    map key | key in members && key.0 != organization :: members[key]
  }

  // ----- what the membership commands do -----

  /** A member whom some other member outlives as owner. */
  ghost predicate AnotherOwns(members: Members, organization: Id, user: Id) {
    exists other: Id :: other != user && (organization, other) in members && members[(organization, other)] == Owner
  }

  /**
   * A role change writes exactly the role it was given, to exactly that member, unless they are no
   * member, or the only owner and would be one no longer; then it changes nothing and says which.
   */
  lemma RoleChangeIsExact(members: Members, organization: Id, user: Id, role: Role)
    ensures var key, after := (organization, user), ChangeRole(members, organization, user, role);
            if key in members
               && (members[key] == role || members[key] != Owner || AnotherOwns(members, organization, user))
            then after == members[key := role] else after == members
    ensures var key, outcome := (organization, user), DecideRole(members, organization, user, role);
            && (outcome == NotAMember <==> key !in members)
            && (outcome == WouldOrphan <==> key in members && members[key] == Owner && role != Owner
                                            && !AnotherOwns(members, organization, user))
  {
    if !IsLastOwner(members, organization, user) {
      var key :| key in members && key.0 == organization && key.1 != user && members[key].Owner?;
      assert (organization, key.1) in members;
    }
  }

  /** A removal takes out exactly that member, unless they are no member or the only owner. */
  lemma RemovalIsExact(members: Members, organization: Id, user: Id)
    ensures var key, after := (organization, user), RemoveMember(members, organization, user);
            if key in members && (members[key] != Owner || AnotherOwns(members, organization, user))
            then after == members - {key} else after == members
    ensures var key, outcome := (organization, user), DecideRemoval(members, organization, user);
            && (outcome == NotAMember <==> key !in members)
            && (outcome == WouldOrphan <==> key in members && members[key] == Owner
                                            && !AnotherOwns(members, organization, user))
  {
    if !IsLastOwner(members, organization, user) {
      var key :| key in members && key.0 == organization && key.1 != user && members[key].Owner?;
      assert (organization, key.1) in members;
    }
  }

  /**
   * An account deletion is refused exactly when the user owns some organization that no one else
   * owns; one that goes through takes out exactly the user's memberships.
   */
  lemma DeletionIsExact(members: Members, user: Id)
    ensures SolelyOwnsSome(members, user)
            <==> exists organization: Id :: (organization, user) in members && members[(organization, user)] == Owner
                                            && !AnotherOwns(members, organization, user)
    ensures forall key :: key in DropUser(members, user) <==> key in members && key.1 != user
    ensures forall key :: key in DropUser(members, user) ==> DropUser(members, user)[key] == members[key]
  {
    forall organization: Id
      ensures IsLastOwner(members, organization, user) <==> !AnotherOwns(members, organization, user)
    {
      if !IsLastOwner(members, organization, user) {
        var key :| key in members && key.0 == organization && key.1 != user && members[key].Owner?;
        assert (organization, key.1) in members;
      }
    }
    if SolelyOwnsSome(members, user) {
      var key :| key in members && key.1 == user && members[key].Owner? && IsLastOwner(members, key.0, user);
      assert (key.0, user) in members;
    }
  }

  /** Every membership command, run on its own, leaves every organization that had an owner with one. */
  lemma RoleChangeKeepsOwner(members: Members, organization: Id, user: Id, role: Role, other: Id)
    requires HasOwner(members, other)
    ensures HasOwner(ChangeRole(members, organization, user, role), other)
  {
    var u: Id :| IsOwner(members, other, u);
    var after := ChangeRole(members, organization, user, role);
    if (other, u) == (organization, user) && after != members {
      if members[(organization, user)] == role {
        assert IsOwner(after, other, u);
      } else {
        var key :| key in members && key.0 == organization && key.1 != user && members[key].Owner?;
        assert IsOwner(after, other, key.1);
      }
    } else {
      assert IsOwner(after, other, u);
    }
  }

  lemma RemovalKeepsOwner(members: Members, organization: Id, user: Id, other: Id)
    requires HasOwner(members, other)
    ensures HasOwner(RemoveMember(members, organization, user), other)
  {
    var u: Id :| IsOwner(members, other, u);
    var after := RemoveMember(members, organization, user);
    if (other, u) == (organization, user) && after != members {
      var key :| key in members && key.0 == organization && key.1 != user && members[key].Owner?;
      assert IsOwner(after, other, key.1);
    } else {
      assert IsOwner(after, other, u);
    }
  }

  lemma DeletionKeepsOwner(members: Members, user: Id, other: Id)
    requires HasOwner(members, other) && !SolelyOwnsSome(members, user)
    ensures HasOwner(DropUser(members, user), other)
  {
    var u: Id :| IsOwner(members, other, u);
    if u == user {
      assert !IsLastOwner(members, other, user);
      var key :| key in members && key.0 == other && key.1 != user && members[key].Owner?;
      assert IsOwner(DropUser(members, user), other, key.1);
    } else {
      assert IsOwner(DropUser(members, user), other, u);
    }
  }

  // ----- interleaved losses of owners -----

  /** A command that costs an organization an owner: demotion, removal, or deletion of the account. */
  datatype Loss = Demoted(user: Id, role: Role) | Removed(user: Id) | Deleted(user: Id)

  /**
   * A command in the order of commits. Its last check, the trigger's on a deletion
   * included, read the members as the first `sees` commits had left them.
   */
  datatype Command = Command(loss: Loss, sees: nat)

  /** The command's check, on the members as it reads them. A deletion looks at every organization. */
  predicate Passes(members: Members, organization: Id, loss: Loss) {
    match loss
    case Demoted(user, role) => DecideRole(members, organization, user, role).Changed?
    case Removed(user) => DecideRemoval(members, organization, user).Changed?
    case Deleted(user) => !SolelyOwnsSome(members, user)
  }

  function Write(members: Members, organization: Id, loss: Loss): Members {
    match loss
    case Demoted(user, role) =>
      if (organization, user) in members then members[(organization, user) := role] else members
    case Removed(user) => members - {(organization, user)}
    case Deleted(user) => DropUser(members, user)
  }

  /** A command that is let through writes what the same command does on its own. */
  lemma WriteIsCommand(members: Members, organization: Id, loss: Loss)
    requires Passes(members, organization, loss)
    ensures Write(members, organization, loss)
            == match loss
               case Demoted(user, role) => ChangeRole(members, organization, user, role)
               case Removed(user) => RemoveMember(members, organization, user)
               case Deleted(user) => DropUser(members, user)
  {
  }

  /** The members once every command has committed or been refused. */
  function After(members: Members, organization: Id, commands: seq<Command>): Members
    decreases |commands|
  {
    if commands == [] then members
    else
      var n := |commands| - 1;
      var view := After(members, organization, commands[..Min(commands[n].sees, n)]);
      var before := After(members, organization, commands[..n]);
      if Passes(view, organization, commands[n].loss) then Write(before, organization, commands[n].loss) else before
  }

  /** Command i was let through by its check. */
  predicate Takes(members: Members, organization: Id, commands: seq<Command>, i: nat)
    requires i < |commands|
  {
    Passes(After(members, organization, commands[..Min(commands[i].sees, i)]), organization, commands[i].loss)
  }

  ghost predicate Loses(members: Members, organization: Id, commands: seq<Command>, user: Id) {
    exists i :: 0 <= i < |commands| && commands[i].loss.user == user && Takes(members, organization, commands, i)
  }

  /** No demotion in disguise: a demotion is to a role below owner. */
  ghost predicate Demotes(commands: seq<Command>) {
    forall i :: 0 <= i < |commands| && commands[i].loss.Demoted? ==> !commands[i].loss.role.Owner?
  }

  lemma LosesSnoc(members: Members, organization: Id, commands: seq<Command>, user: Id)
    requires commands != []
    ensures var n := |commands| - 1;
            Loses(members, organization, commands, user)
            <==> Loses(members, organization, commands[..n], user)
                 || (commands[n].loss.user == user && Takes(members, organization, commands, n))
  {
    var n := |commands| - 1;
    forall i | 0 <= i < n
      ensures Takes(members, organization, commands[..n], i) <==> Takes(members, organization, commands, i)
    {
      assert commands[..n][..Min(commands[i].sees, i)] == commands[..Min(commands[i].sees, i)];
    }
    if Loses(members, organization, commands[..n], user) {
      var i :| 0 <= i < n && commands[..n][i].loss.user == user && Takes(members, organization, commands[..n], i);
      assert commands[i].loss.user == user && Takes(members, organization, commands, i);
    }
    if Loses(members, organization, commands, user) {
      var i :| 0 <= i <= n && commands[i].loss.user == user && Takes(members, organization, commands, i);
      assert i < n ==> commands[..n][i].loss.user == user && Takes(members, organization, commands[..n], i);
    }
  }

  /** An owner stays one exactly when no command against them is let through. */
  lemma {:induction false} OwnersLeft(members: Members, organization: Id, commands: seq<Command>, user: Id)
    requires Demotes(commands)
    ensures IsOwner(After(members, organization, commands), organization, user)
            <==> IsOwner(members, organization, user) && !Loses(members, organization, commands, user)
    decreases |commands|
  {
    if commands != [] {
      OwnersLeft(members, organization, commands[..|commands| - 1], user);
      LosesSnoc(members, organization, commands, user);
    }
  }

  /** Whatever each command saw: an owner is left exactly when some owner had no command let through. */
  lemma OwnerLeftExactlyWhen(members: Members, organization: Id, commands: seq<Command>)
    requires Demotes(commands)
    ensures HasOwner(After(members, organization, commands), organization)
            <==> exists user: Id :: IsOwner(members, organization, user)
                                    && !Loses(members, organization, commands, user)
  {
    var after := After(members, organization, commands);
    forall user: Id
      ensures IsOwner(after, organization, user)
              <==> IsOwner(members, organization, user) && !Loses(members, organization, commands, user)
    {
      OwnersLeft(members, organization, commands, user);
    }
  }

  /**
   * The check locks only the target's own row. When two or more owners are commanded away and
   * no check has seen another's write, every demotion and removal passes, a deletion passes
   * unless it would orphan some organization on its own, and an owner is left exactly when
   * some owner is not the target of one that passes.
   */
  lemma InterleavedLosses(members: Members, organization: Id, commands: seq<Command>)
    requires Demotes(commands)
    requires forall i :: 0 <= i < |commands| ==>
               commands[i].sees == 0 && IsOwner(members, organization, commands[i].loss.user)
    requires exists i, j :: 0 <= i < |commands| && 0 <= j < |commands|
                            && commands[i].loss.user != commands[j].loss.user
    ensures forall i :: 0 <= i < |commands| && !commands[i].loss.Deleted? ==>
              Passes(members, organization, commands[i].loss)
    ensures HasOwner(After(members, organization, commands), organization)
            <==> exists user: Id :: IsOwner(members, organization, user)
                   && forall i :: 0 <= i < |commands| && commands[i].loss.user == user
                                  ==> commands[i].loss.Deleted? && SolelyOwnsSome(members, user)
  {
    var a, b :| 0 <= a < |commands| && 0 <= b < |commands| && commands[a].loss.user != commands[b].loss.user;
    forall i | 0 <= i < |commands| && !commands[i].loss.Deleted?
      ensures Passes(members, organization, commands[i].loss)
    {
      var user := commands[i].loss.user;
      var other := if commands[a].loss.user != user then commands[a].loss.user else commands[b].loss.user;
      assert IsOwner(members, organization, other) && other != user;
      assert (organization, other) in members;
    }
    forall i | 0 <= i < |commands|
      ensures Takes(members, organization, commands, i) <==> Passes(members, organization, commands[i].loss)
    {
      assert commands[..Min(commands[i].sees, i)] == [];
    }
    OwnerLeftExactlyWhen(members, organization, commands);
    forall user: Id
      ensures !Loses(members, organization, commands, user)
              <==> forall i :: 0 <= i < |commands| && commands[i].loss.user == user
                               ==> commands[i].loss.Deleted? && SolelyOwnsSome(members, user)
    {
    }
  }

  lemma LosesGrows(members: Members, organization: Id, commands: seq<Command>, m: nat, n: nat, user: Id)
    requires m <= n <= |commands|
    ensures Loses(members, organization, commands[..m], user) ==> Loses(members, organization, commands[..n], user)
  {
    if Loses(members, organization, commands[..m], user) {
      var i :| 0 <= i < m && commands[..m][i].loss.user == user && Takes(members, organization, commands[..m], i);
      assert commands[..m][..Min(commands[i].sees, i)] == commands[..n][..Min(commands[i].sees, i)];
      assert commands[..n][i].loss.user == user && Takes(members, organization, commands[..n], i);
    }
  }

  lemma OwnersOnlyFall(members: Members, organization: Id, commands: seq<Command>, m: nat, n: nat, user: Id)
    requires Demotes(commands) && m <= n <= |commands|
    requires IsOwner(After(members, organization, commands[..n]), organization, user)
    ensures IsOwner(After(members, organization, commands[..m]), organization, user)
  {
    OwnersLeft(members, organization, commands[..n], user);
    OwnersLeft(members, organization, commands[..m], user);
    LosesGrows(members, organization, commands, m, n, user);
  }

  /**
   * Only a stale check orphans: the command that takes the last owner read the members before
   * some earlier commit, and counted on an owner who was gone by the time it committed.
   */
  lemma OrphaningIsStale(members: Members, organization: Id, commands: seq<Command>, i: nat)
    requires Demotes(commands) && i < |commands|
    requires HasOwner(After(members, organization, commands[..i]), organization)
    requires !HasOwner(After(members, organization, commands[..i + 1]), organization)
    ensures commands[i].sees < i
    ensures exists other: Id :: other != commands[i].loss.user
              && IsOwner(After(members, organization, commands[..commands[i].sees]), organization, other)
              && !IsOwner(After(members, organization, commands[..i]), organization, other)
  {
    var now := After(members, organization, commands[..i]);
    var seen := Min(commands[i].sees, i);
    var view := After(members, organization, commands[..seen]);
    var loss := commands[i].loss;
    var u: Id :| IsOwner(now, organization, u);
    assert commands[..i + 1][..i] == commands[..i] && commands[..i + 1][..seen] == commands[..seen];
    LastIsTarget(now, organization, loss, u);
    OwnersOnlyFall(members, organization, commands, seen, i, u);
    var key :| key in view && key.0 == organization && key.1 != u && view[key].Owner?;
    assert IsOwner(view, organization, key.1);
    if IsOwner(now, organization, key.1) {
      LastIsTarget(now, organization, loss, key.1);
    }
  }

  /** A write that leaves no owner was aimed at every owner there was. */
  lemma LastIsTarget(members: Members, organization: Id, loss: Loss, user: Id)
    requires IsOwner(members, organization, user) && !HasOwner(Write(members, organization, loss), organization)
    ensures loss.user == user
  {
    if loss.user != user {
      assert IsOwner(Write(members, organization, loss), organization, user);
    }
  }

  /** So commands that each see every earlier commit never orphan, deletions by their trigger included. */
  lemma {:induction false} SerialKeepsOwner(members: Members, organization: Id, commands: seq<Command>)
    requires Demotes(commands) && HasOwner(members, organization)
    requires forall i :: 0 <= i < |commands| ==> commands[i].sees >= i
    ensures HasOwner(After(members, organization, commands), organization)
    decreases |commands|
  {
    if commands != [] {
      var n := |commands| - 1;
      SerialKeepsOwner(members, organization, commands[..n]);
      assert commands[..n + 1] == commands;
      if !HasOwner(After(members, organization, commands), organization) {
        OrphaningIsStale(members, organization, commands, n);
      }
    }
  }

  // ----- lifecycle -----

  datatype Life = Live | Archived | Purged

  function NextLife(life: Life, kind: Kind): Option<Life> {
    match kind
    case ArchivedEvent => if life.Live? then Some(Archived) else None
    case RestoredEvent => if life.Archived? then Some(Live) else None
    case PurgedEvent => if life.Archived? then Some(Purged) else None
  }

  /** Replays a lifecycle log from creation; None when some event could not have followed. */
  function Replay(log: seq<Kind>): Option<Life> {
    if log == [] then Some(Live)
    else
      var before := Replay(log[..|log| - 1]);
      if before.None? then None else NextLife(before.value, log[|log| - 1])
  }

  /**
   * A log that replays alternates archived with restored, starting with archived;
   * a purge comes at most once, last, and directly after an archive.
   */
  lemma {:induction false} ReplayShape(log: seq<Kind>)
    requires Replay(log).Some?
    ensures forall i :: 0 <= i < |log| ==> (i % 2 == 0 <==> log[i].ArchivedEvent?)
    ensures forall i :: 0 <= i < |log| && log[i].PurgedEvent? ==> i == |log| - 1 && i > 0 && log[i - 1].ArchivedEvent?
    ensures Replay(log).value.Live? <==> |log| % 2 == 0 && (log == [] || log[|log| - 1].RestoredEvent?)
    ensures Replay(log).value.Purged? <==> log != [] && log[|log| - 1].PurgedEvent?
  {
    if log != [] {
      ReplayShape(log[..|log| - 1]);
      assert forall i :: 0 <= i < |log| - 1 ==> log[..|log| - 1][i] == log[i];
    }
  }

  function EventsOf(events: seq<Event>, organization: Id): seq<Kind> {
    if events == [] then []
    else
      var last := events[|events| - 1];
      var before := EventsOf(events[..|events| - 1], organization);
      if last.organization == organization then before + [last.kind] else before
  }

  lemma EventsOfSnoc(events: seq<Event>, e: Event, organization: Id)
    ensures EventsOf(events + [e], organization)
            == EventsOf(events, organization) + if e.organization == organization then [e.kind] else []
  {
    assert (events + [e])[..|events|] == events;
  }

  lemma ReplaySnoc(log: seq<Kind>, kind: Kind)
    requires Replay(log).Some?
    ensures Replay(log + [kind]) == NextLife(Replay(log).value, kind)
  {
    assert (log + [kind])[..|log|] == log;
  }
}
