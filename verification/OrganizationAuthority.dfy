/** Who set off what: every lifecycle event and every invitation traced back to the command behind it. */
module OrganizationAuthority {
  import opened Common
  import opened Organizations
  import opened Protocol = OrganizationProtocol

  /** The user is the organization's owner at this point. */
  ghost predicate Owns(s: State, organization: Id, user: Id) {
    (organization, user) in s.members && s.members[(organization, user)] == Owner
  }

  /** This step set the command off, for an owner; a purge only on an archived organization. */
  ghost predicate SetsOff(s: State, step: Step, c: Protocol.Command) {
    match c
    case NoCommand => false
    case Changing(organization, archive) =>
      && step.StartChange? && step.organization == organization && step.archive == archive
      && Owns(s, organization, step.user)
    case Committing(organization, archive) =>
      && step.StartChange? && step.organization == organization && step.archive == archive
      && Owns(s, organization, step.user)
    case Purging(organization) =>
      && step.StartPurge? && step.organization == organization && Owns(s, organization, step.user)
      && organization in s.organizations && s.organizations[organization] != None
  }

  /** The same command, perhaps one statement on. */
  ghost predicate SameCommand(c: Protocol.Command, d: Protocol.Command) {
    c == d || (c.Changing? && d.Committing? && c.organization == d.organization && c.archive == d.archive)
  }

  ghost predicate Traced(states: seq<State>, steps: seq<Step>, i: nat, p: nat)
    requires i < |steps| && |states| == |steps| + 1
  {
    var c := CommandAt(states[i + 1], p);
    c == NoCommand || SameCommand(CommandAt(states[i], p), c) || SetsOff(states[i], steps[i], c)
  }

  lemma CommandAppears(s: State, step: Step, p: nat)
    requires Enabled(s, step) && CommandAt(Apply(s, step), p) != NoCommand
    ensures SameCommand(CommandAt(s, p), CommandAt(Apply(s, step), p)) || SetsOff(s, step, CommandAt(Apply(s, step), p))
  {
  }

  lemma {:induction false} SetOffBefore(states: seq<State>, steps: seq<Step>, n: nat, p: nat) returns (m: nat)
    requires |states| == |steps| + 1 && n < |states|
    requires CommandAt(states[n], p) != NoCommand && CommandAt(states[0], p) == NoCommand
    requires forall i: nat :: i < |steps| ==> Traced(states, steps, i, p)
    ensures m < n && SetsOff(states[m], steps[m], CommandAt(states[n], p))
  {
    m := n - 1;
    assert Traced(states, steps, m, p);
    if SameCommand(CommandAt(states[m], p), CommandAt(states[n], p)) {
      m := SetOffBefore(states, steps, m, p);
    }
  }

  lemma WasSetOff(states: seq<State>, steps: seq<Step>, n: nat, p: nat) returns (m: nat)
    requires IsRun(states, steps) && n < |states| && CommandAt(states[n], p) != NoCommand
    ensures m < n && SetsOff(states[m], steps[m], CommandAt(states[n], p))
  {
    forall i: nat | i < |steps| ensures Traced(states, steps, i, p) {
      if CommandAt(states[i + 1], p) != NoCommand {
        CommandAppears(states[i], steps[i], p);
      }
    }
    m := SetOffBefore(states, steps, n, p);
  }

  lemma EventAppears(s: State, step: Step)
    requires Enabled(s, step) && Apply(s, step).events != s.events
    ensures var t := Apply(s, step);
            && (step.CommitChange? || step.CommitPurge?) && CommandAt(s, step.p) != NoCommand
            && var c := s.commands[step.p];
               t.events == s.events + [Event(c.organization, if c.Purging? then PurgedEvent
                                                             else if c.archive then ArchivedEvent else RestoredEvent)]
  {
  }

  /**
   * Every lifecycle event goes back to a command of that kind which an owner of the organization
   * gave; a purge, to one given while the organization was archived.
   */
  lemma EventsAreTheOwners(states: seq<State>, steps: seq<Step>, n: nat) returns (m: nat)
    requires IsRun(states, steps) && n < |steps| && states[n + 1].events != states[n].events
    ensures |states[n + 1].events| == |states[n].events| + 1 && m < n
    ensures var e := states[n + 1].events[|states[n].events|];
            && (steps[m].StartChange? || steps[m].StartPurge?) && steps[m].organization == e.organization
            && (e.organization, steps[m].user) in states[m].members
            && states[m].members[(e.organization, steps[m].user)] == Owner
            && (e.kind == PurgedEvent <==> steps[m].StartPurge?)
            && (e.kind == ArchivedEvent <==> steps[m].StartChange? && steps[m].archive)
            && (e.kind == PurgedEvent ==> e.organization in states[m].organizations
                                          && states[m].organizations[e.organization] != None)
  {
    EventAppears(states[n], steps[n]);
    m := WasSetOff(states, steps, n, steps[n].p);
  }

  // ----- invitations -----

  /** The step issued this very invitation, for a role below owner, in an organization not archived. */
  ghost predicate Issues(s: State, step: Step, id: Id, invitation: Invitation) {
    && step.Invite? && step.id == id && step.organization == invitation.organization && step.email == invitation.email
    && step.role == invitation.role && step.expiresAt == invitation.expiresAt && step.role != Owner
    && step.organization in s.organizations && s.organizations[step.organization] == None
  }

  ghost predicate Issued(states: seq<State>, steps: seq<Step>, i: nat, id: Id)
    requires i < |steps| && |states| == |steps| + 1
  {
    id in states[i + 1].invitations ==>
      var row := states[i + 1].invitations[id];
      || (id in states[i].invitations && row == states[i].invitations[id].(acceptedAt := row.acceptedAt))
      || Issues(states[i], steps[i], id, row)
  }

  lemma InvitationAppears(s: State, step: Step, id: Id)
    requires Enabled(s, step) && id in Apply(s, step).invitations
    ensures var row := Apply(s, step).invitations[id];
            (id in s.invitations && row == s.invitations[id].(acceptedAt := row.acceptedAt)) || Issues(s, step, id, row)
  {
  }

  lemma {:induction false} IssuedBefore(states: seq<State>, steps: seq<Step>, n: nat, id: Id) returns (m: nat)
    requires |states| == |steps| + 1 && n < |states| && id in states[n].invitations && id !in states[0].invitations
    requires forall i: nat :: i < |steps| ==> Issued(states, steps, i, id)
    ensures m < n && Issues(states[m], steps[m], id, states[n].invitations[id])
  {
    m := n - 1;
    assert Issued(states, steps, m, id);
    if !Issues(states[m], steps[m], id, states[n].invitations[id]) {
      m := IssuedBefore(states, steps, m, id);
    }
  }

  /** An invitation is what was issued under its id, by an organization that was not archived. */
  lemma InvitationsAreAsIssued(states: seq<State>, steps: seq<Step>, n: nat, id: Id) returns (m: nat)
    requires IsRun(states, steps) && n < |states| && id in states[n].invitations
    ensures m < n && Issues(states[m], steps[m], id, states[n].invitations[id])
  {
    forall i: nat | i < |steps| ensures Issued(states, steps, i, id) {
      if id in states[i + 1].invitations {
        InvitationAppears(states[i], steps[i], id);
      }
    }
    m := IssuedBefore(states, steps, n, id);
  }
}
