/** Send-once notifications: claim the key before sending, release it if the send throws. */
module NotificationLedger {
  import opened Common

  // ----- the sender, run without interference -----

  datatype Ending = Delivered | SkippedDuplicate | SendFailed

  class IdempotentNotificationSender {
    var ledger: set<string>      // idempotency keys on record
    var delivered: seq<Option<string>>

    constructor ()
      ensures ledger == {} && delivered == []
    {
      ledger, delivered := {}, [];
    }

    /** `sendThrows` and `releaseThrows` are how the mailer and the release statement behave. */
    method Send(key: Option<string>, sendThrows: bool, releaseThrows: bool) returns (r: Ending)
      modifies this
      ensures r.SkippedDuplicate? <==> key.Some? && key.value in old(ledger)
      ensures r.Delivered? <==> !sendThrows && !r.SkippedDuplicate?
      ensures r.Delivered? ==> delivered == old(delivered) + [key]
      ensures !r.Delivered? ==> delivered == old(delivered)
      ensures var kept := key.Some? && (r.Delivered? || (r.SendFailed? && releaseThrows));
              ledger == if kept then old(ledger) + {key.value} else old(ledger)
    {
      if key.None? {
        if sendThrows { return SendFailed; }
        delivered := delivered + [key];
        return Delivered;
      }
      if key.value in ledger { return SkippedDuplicate; }
      ledger := ledger + {key.value};
      if sendThrows {
        if !releaseThrows {
          ledger := ledger - {key.value};
        }
        return SendFailed;
      }
      delivered := delivered + [key];
      r := Delivered;
    }
  }

  // ----- the interleaved protocol -----

  datatype Sender =
    | Idle
    | Holding(key: string, claim: nat)     // claimed; the delegate is sending
    | Releasing(key: string, claim: nat)   // the send threw; the release follows

  datatype Row = Row(claim: nat, sentAt: Time)   // the claim that inserted it is not stored; sent_at is

  datatype State = State(
    now: Time,
    retention: Time,                  // configured; no step changes it
    ledger: map<string, Row>,
    senders: map<nat, Sender>,
    pruning: map<nat, set<string>>,   // candidate keys read by a prune
    claims: nat,                      // claims made so far
    sent: set<string>,                // keys whose send returned
    pruned: set<string>)              // keys whose row a prune deleted

  datatype Step =
    | Tick(to: Time)
    | Claim(p: nat, key: string, outcome: Outcome)
    | SendReturns(p: nat)
    | SendThrows(p: nat)
    | Release(p: nat, outcome: Outcome)
    | Stop(p: nat)
    | SelectPrunable(q: nat, cutoff: Time, keys: set<string>)
    | DeletePruned(q: nat)

  function SenderAt(s: State, p: nat): Sender {
    if p in s.senders then s.senders[p] else Idle
  }

  ghost predicate Enabled(s: State, step: Step) {
    match step
    case Tick(to) => s.now <= to
    case Claim(p, key, outcome) => SenderAt(s, p).Idle?
    case SendReturns(p) => SenderAt(s, p).Holding?
    case SendThrows(p) => SenderAt(s, p).Holding?
    case Release(p, outcome) => SenderAt(s, p).Releasing?
    case Stop(p) => true
    case SelectPrunable(q, cutoff, keys) =>
      cutoff <= s.now - s.retention && forall key :: key in keys ==> key in s.ledger && s.ledger[key].sentAt < cutoff
    case DeletePruned(q) => q in s.pruning
  }

  function WithSender(s: State, p: nat, sender: Sender): State {
    s.(senders := s.senders[p := sender])
  }

  ghost function Apply(s: State, step: Step): State
    requires Enabled(s, step)
  {
    match step
    case Tick(to) => s.(now := to)
    case Claim(p, key, outcome) =>
      if key in s.ledger || outcome.Lost? then s
      else WithSender(s, p, if outcome.Acked? then Holding(key, s.claims) else Idle).(
        ledger := s.ledger[key := Row(s.claims, s.now)], claims := s.claims + 1)
    case SendReturns(p) => WithSender(s, p, Idle).(sent := s.sent + {s.senders[p].key})
    case SendThrows(p) => WithSender(s, p, Releasing(s.senders[p].key, s.senders[p].claim))
    case Release(p, outcome) =>
      WithSender(s, p, Idle).(ledger := if outcome.Lost? then s.ledger else s.ledger - {s.senders[p].key})
    case Stop(p) => WithSender(s, p, Idle)
    case SelectPrunable(q, cutoff, keys) => s.(pruning := s.pruning[q := keys])
    case DeletePruned(q) =>
      s.(ledger := s.ledger - s.pruning[q], pruned := s.pruned + (s.pruning[q] * s.ledger.Keys),
         pruning := s.pruning - {q})
  }

  ghost predicate Init(s: State) {
    s.ledger == map[] && s.senders == map[] && s.pruning == map[] && s.claims == 0 && s.sent == {} && s.pruned == {}
  }

  /** Steps from any state. */
  ghost predicate IsPath(states: seq<State>, steps: seq<Step>) {
    && |states| == |steps| + 1
    && forall i :: 0 <= i < |steps| ==> Enabled(states[i], steps[i]) && states[i + 1] == Apply(states[i], steps[i])
  }

  ghost predicate IsRun(states: seq<State>, steps: seq<Step>) {
    IsPath(states, steps) && Init(states[0])
  }

  // ----- invariant -----

  /** A sender with an unpruned key holds the very claim the ledger records, alone, and unsent. */
  ghost predicate SenderOk(s: State, sender: Sender) {
    !sender.Idle? && sender.key !in s.pruned ==>
      sender.key in s.ledger && s.ledger[sender.key].claim == sender.claim && sender.key !in s.sent
  }

  ghost predicate Inv(s: State) {
    && (forall p :: p in s.senders ==> SenderOk(s, s.senders[p]))
    && (forall p, q :: p in s.senders && q in s.senders && p != q && !s.senders[p].Idle? && !s.senders[q].Idle?
                       ==> s.senders[p].claim != s.senders[q].claim)
    && (forall p :: p in s.senders && !s.senders[p].Idle? ==> s.senders[p].claim < s.claims)
    && (forall key :: key in s.ledger ==> s.ledger[key].claim < s.claims)
    && (forall key :: key in s.sent && key !in s.pruned ==> key in s.ledger)
  }

  lemma ClaimKeeps(s: State, step: Step)
    requires step.Claim? && Enabled(s, step) && Inv(s)
    ensures Inv(Apply(s, step))
  {
    var t := Apply(s, step);
    forall p | p in t.senders ensures SenderOk(t, t.senders[p]) {
      if p in s.senders {
        assert SenderOk(s, s.senders[p]);
      }
    }
  }

  lemma SenderKeeps(s: State, step: Step)
    requires (step.SendReturns? || step.SendThrows? || step.Release? || step.Stop?) && Enabled(s, step) && Inv(s)
    ensures Inv(Apply(s, step))
  {
    if !step.Stop? {
      assert SenderOk(s, s.senders[step.p]);
    }
  }

  lemma StepKeeps(s: State, step: Step)
    requires Enabled(s, step) && Inv(s)
    ensures Inv(Apply(s, step))
  {
    match step
    case Tick(_) =>
    case Claim(_, _, _) => ClaimKeeps(s, step);
    case SelectPrunable(_, _, _) =>
    case DeletePruned(q) => PruneKeeps(s, q);
    case _ => SenderKeeps(s, step);
  }

  lemma PruneKeeps(s: State, q: nat)
    requires Enabled(s, DeletePruned(q)) && Inv(s)
    ensures Inv(Apply(s, DeletePruned(q)))
  {
    var t := Apply(s, DeletePruned(q));
    forall p | p in t.senders ensures SenderOk(t, t.senders[p]) {
      assert SenderOk(s, s.senders[p]);
    }
  }

  lemma {:induction false} RunKeeps(states: seq<State>, steps: seq<Step>, n: nat)
    requires IsRun(states, steps) && n < |states|
    ensures Inv(states[n])
  {
    if n > 0 {
      RunKeeps(states, steps, n - 1);
      StepKeeps(states[n - 1], steps[n - 1]);
    }
  }

  // ----- what holds of every run -----

  ghost predicate SendsKey(s: State, step: Step, key: string) {
    step.SendReturns? && SenderAt(s, step.p).Holding? && s.senders[step.p].key == key
  }

  /** The step deletes this key's row for its age. */
  ghost predicate Prunes(s: State, step: Step, key: string) {
    step.DeletePruned? && step.q in s.pruning && key in s.pruning[step.q] && key in s.ledger
  }

  lemma {:induction false} HistoryGrows(states: seq<State>, steps: seq<Step>, m: nat, n: nat)
    requires IsRun(states, steps) && m <= n < |states|
    ensures states[m].sent <= states[n].sent && states[m].pruned <= states[n].pruned
  {
    if m < n {
      HistoryGrows(states, steps, m, n - 1);
    }
  }

  /** For a key whose row is not pruned, at most one delegate send ever returns. */
  lemma SendsAtMostOnce(states: seq<State>, steps: seq<Step>, m: nat, n: nat, key: string)
    requires IsRun(states, steps) && m < n < |steps|
    requires SendsKey(states[m], steps[m], key) && key !in states[n].pruned
    ensures !SendsKey(states[n], steps[n], key)
  {
    RunKeeps(states, steps, n);
    HistoryGrows(states, steps, m + 1, n);
    assert key in states[m + 1].sent;
    assert forall p :: p in states[n].senders ==> SenderOk(states[n], states[n].senders[p]);
  }

  lemma {:induction false} SelectedBefore(states: seq<State>, steps: seq<Step>, n: nat, q: nat) returns (m: nat)
    requires IsRun(states, steps) && n < |states| && q in states[n].pruning
    ensures m < n && steps[m].SelectPrunable? && steps[m].keys == states[n].pruning[q]
  {
    m := n - 1;
    if !steps[m].SelectPrunable? || steps[m].q != q {
      m := SelectedBefore(states, steps, n - 1, q);
    }
  }

  lemma {:induction false} RetentionStays(states: seq<State>, steps: seq<Step>, n: nat)
    requires IsRun(states, steps) && n < |states|
    ensures states[n].retention == states[0].retention
  {
    if n > 0 {
      RetentionStays(states, steps, n - 1);
    }
  }

  lemma {:induction false} PrunedBefore(states: seq<State>, steps: seq<Step>, n: nat, key: string) returns (d: nat)
    requires IsRun(states, steps) && n < |states| && key in states[n].pruned
    ensures d < n && Prunes(states[d], steps[d], key)
  {
    d := n - 1;
    if key in states[d].pruned {
      d := PrunedBefore(states, steps, d, key);
    }
  }

  /** A second send of a key takes a prune that had found the key's row older than the retention. */
  lemma SentTwiceWasPruned(states: seq<State>, steps: seq<Step>, i: nat, j: nat, key: string) returns (m: nat, d: nat)
    requires IsRun(states, steps) && i < j < |steps|
    requires SendsKey(states[i], steps[i], key) && SendsKey(states[j], steps[j], key)
    ensures m < d < j && steps[m].SelectPrunable? && key in steps[m].keys && Prunes(states[d], steps[d], key)
    ensures key in states[m].ledger && states[m].now > states[m].ledger[key].sentAt + states[0].retention
  {
    if key !in states[j].pruned {
      SendsAtMostOnce(states, steps, i, j, key);
    }
    d := PrunedBefore(states, steps, j, key);
    m := SelectedBefore(states, steps, d, steps[d].q);
    RetentionStays(states, steps, m);
  }

  /** A claim that was acknowledged, on a key not on the ledger. */
  ghost predicate Claims(s: State, step: Step, p: nat, key: string) {
    step == Claim(p, key, Acked) && key !in s.ledger
  }

  ghost predicate HeldOrClaimed(states: seq<State>, steps: seq<Step>, i: nat, p: nat)
    requires i < |steps| && |states| == |steps| + 1
  {
    SenderAt(states[i + 1], p).Holding? ==>
      || SenderAt(states[i], p) == SenderAt(states[i + 1], p)
      || Claims(states[i], steps[i], p, SenderAt(states[i + 1], p).key)
  }

  lemma {:induction false} ClaimedBefore(states: seq<State>, steps: seq<Step>, n: nat, p: nat) returns (m: nat)
    requires |states| == |steps| + 1 && n < |states|
    requires SenderAt(states[n], p).Holding? && SenderAt(states[0], p) == Idle
    requires forall i: nat :: i < |steps| ==> HeldOrClaimed(states, steps, i, p)
    ensures m < n && Claims(states[m], steps[m], p, SenderAt(states[n], p).key)
    ensures forall k :: m < k <= n ==> SenderAt(states[k], p) == SenderAt(states[n], p)
  {
    m := n - 1;
    assert HeldOrClaimed(states, steps, m, p);
    if SenderAt(states[m], p) == SenderAt(states[n], p) {
      m := ClaimedBefore(states, steps, m, p);
    }
  }

  /** Nothing goes out but under a claim of its key that its sender made, saw acknowledged, and has held since. */
  lemma SendsFollowClaims(states: seq<State>, steps: seq<Step>, n: nat, key: string) returns (m: nat)
    requires IsRun(states, steps) && n < |steps| && SendsKey(states[n], steps[n], key)
    ensures m < n && Claims(states[m], steps[m], steps[n].p, key)
    ensures forall k :: m < k <= n ==> SenderAt(states[k], steps[n].p) == SenderAt(states[n], steps[n].p)
  {
    var p := steps[n].p;
    forall i: nat | i < |steps| ensures HeldOrClaimed(states, steps, i, p) {
    }
    m := ClaimedBefore(states, steps, n, p);
  }

  /** A send that throws is followed by its release, which lets the key be claimed again. */
  lemma FailedSendsAreReleased(s: State, p: nat, q: nat)
    requires p in s.senders && s.senders[p].Holding? && SenderAt(s, q) == Idle
    ensures var key, t := s.senders[p].key, Apply(s, SendThrows(p));
            && Enabled(t, Release(p, Acked)) && key !in Apply(t, Release(p, Acked)).ledger
            && Enabled(Apply(t, Release(p, Acked)), Claim(q, key, Acked))
            && SenderAt(Apply(Apply(t, Release(p, Acked)), Claim(q, key, Acked)), q).Holding?
  {
  }

  /** The release carries no token, yet on an unpruned key it removes only its own sender's claim. */
  lemma ReleaseIsOwn(states: seq<State>, steps: seq<Step>, n: nat)
    requires IsRun(states, steps) && n < |steps| && steps[n].Release?
    requires var me := SenderAt(states[n], steps[n].p); me.key !in states[n].pruned
    ensures var me := states[n].senders[steps[n].p];
            && me.key in states[n].ledger && states[n].ledger[me.key].claim == me.claim
            && forall q :: q in states[n].senders && q != steps[n].p && !states[n].senders[q].Idle?
                           ==> states[n].senders[q].key != me.key
  {
    RunKeeps(states, steps, n);
    var s := states[n];
    assert SenderOk(s, s.senders[steps[n].p]);
    forall q | q in s.senders && q != steps[n].p && !s.senders[q].Idle?
      ensures s.senders[q].key != s.senders[steps[n].p].key
    {
      assert SenderOk(s, s.senders[q]);
    }
  }

  // ----- when a key can be delivered again -----

  ghost predicate InHand(s: State, key: string) {
    exists p :: p in s.senders && !s.senders[p].Idle? && s.senders[p].key == key
  }

  /** The key's row is off the ledger, or some sender still has the key in hand. */
  ghost predicate Open(s: State, key: string) {
    key !in s.ledger || InHand(s, key)
  }

  lemma ClosedStep(s: State, step: Step, key: string)
    requires Enabled(s, step) && !Open(s, key) && !Prunes(s, step, key)
    ensures !Open(Apply(s, step), key) && !SendsKey(s, step, key)
  {
    var t := Apply(s, step);
    forall p | p in t.senders && !t.senders[p].Idle? ensures t.senders[p].key != key {
      if p in s.senders && !s.senders[p].Idle? {
        assert s.senders[p].key != key;
      }
    }
  }

  lemma {:induction false} ClosedStays(states: seq<State>, steps: seq<Step>, n: nat, key: string)
    requires IsPath(states, steps) && n <= |steps| && !Open(states[0], key)
    requires forall i :: 0 <= i < n ==> !Prunes(states[i], steps[i], key)
    ensures !Open(states[n], key)
  {
    if n > 0 {
      ClosedStays(states, steps, n - 1, key);
      ClosedStep(states[n - 1], steps[n - 1], key);
    }
  }

  /** A path that delivers the key with its last step, and no step that prunes the key. */
  ghost predicate Delivers(states: seq<State>, steps: seq<Step>, s: State, key: string) {
    && IsPath(states, steps) && states[0] == s && steps != []
    && (forall i :: 0 <= i < |steps| ==> !Prunes(states[i], steps[i], key))
    && SendsKey(states[|steps| - 1], steps[|steps| - 1], key)
  }

  lemma DeliversOffLedger(s: State, key: string) returns (states: seq<State>, steps: seq<Step>)
    requires key !in s.ledger
    ensures Delivers(states, steps, s, key)
  {
    var p := SomeBound(s.senders.Keys);
    var s1 := Apply(s, Claim(p, key, Acked));
    var s2 := Apply(s1, SendReturns(p));
    states, steps := [s, s1, s2], [Claim(p, key, Acked), SendReturns(p)];
  }

  lemma DeliversInHand(s: State, key: string) returns (states: seq<State>, steps: seq<Step>)
    requires InHand(s, key)
    ensures Delivers(states, steps, s, key)
  {
    var p :| p in s.senders && !s.senders[p].Idle? && s.senders[p].key == key;
    if s.senders[p].Holding? {
      states, steps := [s, Apply(s, SendReturns(p))], [SendReturns(p)];
    } else {
      var s1 := Apply(s, Release(p, Acked));
      var s2 := Apply(s1, Claim(p, key, Acked));
      states := [s, s1, s2, Apply(s2, SendReturns(p))];
      steps := [Release(p, Acked), Claim(p, key, Acked), SendReturns(p)];
    }
  }

  lemma OnlyOpenDelivers(states: seq<State>, steps: seq<Step>, s: State, key: string)
    requires Delivers(states, steps, s, key)
    ensures Open(s, key)
  {
    if !Open(s, key) {
      ClosedStays(states, steps, |steps| - 1, key);
      ClosedStep(states[|steps| - 1], steps[|steps| - 1], key);
    }
  }

  /**
   * From any state, with no further prune of the key, it can be delivered again exactly
   * when its row is off the ledger or some sender still has it in hand.
   */
  lemma DeliveredAgainExactlyWhenOpen(s: State, key: string)
    ensures (exists states, steps :: Delivers(states, steps, s, key)) <==> Open(s, key)
  {
    if key !in s.ledger {
      var states, steps := DeliversOffLedger(s, key);
    } else if InHand(s, key) {
      var states, steps := DeliversInHand(s, key);
    }
    if exists states, steps :: Delivers(states, steps, s, key) {
      var states, steps :| Delivers(states, steps, s, key);
      OnlyOpenDelivers(states, steps, s, key);
    }
  }

  /** After a delivery on an unpruned key, the key is closed: only a prune can let it out again. */
  lemma DeliveryCloses(states: seq<State>, steps: seq<Step>, n: nat, key: string)
    requires IsRun(states, steps) && n < |steps| && SendsKey(states[n], steps[n], key) && key !in states[n].pruned
    ensures !Open(states[n + 1], key)
  {
    RunKeeps(states, steps, n);
    RunKeeps(states, steps, n + 1);
    assert SenderOk(states[n], states[n].senders[steps[n].p]);
    var t := states[n + 1];
    forall p | p in t.senders && !t.senders[p].Idle? ensures t.senders[p].key != key {
      assert SenderOk(t, t.senders[p]);
    }
  }

  /** Retention ends the promise: a key redelivered once its row is past retention goes out a second time. */
  lemma RedeliveredAfterRetention(key: string, retention: Time) returns (states: seq<State>, steps: seq<Step>)
    requires retention >= 0
    ensures IsRun(states, steps) && |steps| == 7 && states[0].retention == retention
    ensures SendsKey(states[1], steps[1], key) && SendsKey(states[6], steps[6], key)
    ensures forall p :: p in states[4].senders ==> states[4].senders[p].Idle?
  {
    var s0 := State(0, retention, map[], map[], map[], 0, {}, {});
    steps := [Claim(0, key, Acked), SendReturns(0), Tick(retention + 1), SelectPrunable(0, 1, {key}), DeletePruned(0),
              Claim(1, key, Acked), SendReturns(1)];
    var s1 := Apply(s0, steps[0]);
    var s2 := Apply(s1, steps[1]);
    var s3 := Apply(s2, steps[2]);
    var s4 := Apply(s3, steps[3]);
    var s5 := Apply(s4, steps[4]);
    var s6 := Apply(s5, steps[5]);
    states := [s0, s1, s2, s3, s4, s5, s6, Apply(s6, steps[6])];
  }
}
