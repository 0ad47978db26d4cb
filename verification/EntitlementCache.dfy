/** The per-process entitlement cache: a bounded, insertion-ordered map with a time to live. */
module EntitlementCache {
  import opened Common

  const CACHE_TTL: Time := 30_000
  const MAX_CACHED_TENANTS: nat := 10_000

  type Value = string

  const EMPTY: Value := ""

  datatype Entry = Entry(value: Value, freshUntil: Time)

  /** A JavaScript Map: keys in the order they were first inserted. */
  datatype Cache = Cache(order: seq<string>, entries: map<string, Entry>) {
    ghost predicate Valid() {
      && (forall i, j :: 0 <= i < j < |order| ==> order[i] != order[j])
      && (forall key :: key in order <==> key in entries)
      && |order| <= MAX_CACHED_TENANTS
    }

    predicate Fresh(key: string, now: Time) {
      key in entries && entries[key].freshUntil > now
    }
  }

  /** Drops the oldest insertion when full, even if the key being set is already there. */
  function Evicted(c: Cache): Cache {
    if |c.order| >= MAX_CACHED_TENANTS && c.order != [] then Cache(c.order[1..], c.entries - {c.order[0]}) else c
  }

  function Remember(c: Cache, key: string, entry: Entry): Cache {
    var room := Evicted(c);
    Cache(if key in room.entries then room.order else room.order + [key], room.entries[key := entry])
  }

  lemma EvictedIsValid(c: Cache)
    requires c.Valid()
    ensures Evicted(c).Valid() && |Evicted(c).order| < MAX_CACHED_TENANTS
  {
    if |c.order| >= MAX_CACHED_TENANTS {
      assert c.order == [c.order[0]] + c.order[1..];
    }
  }

  /** The map stays well formed and bounded, holds the new entry, and changes no other entry it keeps. */
  lemma RememberKeeps(c: Cache, key: string, entry: Entry)
    requires c.Valid()
    ensures Remember(c, key, entry).Valid()
    ensures key in Remember(c, key, entry).entries && Remember(c, key, entry).entries[key] == entry
    ensures forall k :: k in Remember(c, key, entry).entries && k != key ==>
              k in c.entries && Remember(c, key, entry).entries[k] == c.entries[k]
  {
    EvictedIsValid(c);
  }

  /**
   * Below ten thousand entries nothing is forgotten. At ten thousand exactly the oldest insertion goes, and
   * setting that very key again puts it back as the newest.
   */
  lemma ForgetsExactly(c: Cache, key: string, entry: Entry)
    requires c.Valid()
    ensures var after := Remember(c, key, entry);
            if |c.order| < 10_000 then
              && after.entries == c.entries[key := entry]
              && after.order == (if key in c.order then c.order else c.order + [key])
            else
              var oldest := c.order[0];
              && after.entries == (c.entries - {oldest})[key := entry]
              && after.order == (if key in c.order[1..] then c.order[1..] else c.order[1..] + [key])
              && (oldest in after.entries <==> key == oldest)
  {
    if |c.order| >= 10_000 {
      assert forall k :: k in c.order <==> k == c.order[0] || k in c.order[1..];
    }
  }

  class DefaultEntitlementService {
    var order: seq<string>
    var entries: map<string, Entry>

    ghost predicate Valid()
      reads this
    {
      Cache(order, entries).Valid()
    }

    constructor ()
      ensures Valid() && order == [] && entries == map[]
    {
      order, entries := [], map[];
    }

    /** The cached value if it is still fresh; otherwise what the repository answers, remembered. */
    method GetFor(organizationId: string, now: Time, subscription: Option<Value>) returns (value: Value)
      requires Valid()
      modifies this
      ensures Valid()
      ensures organizationId in old(entries) && now < old(entries)[organizationId].freshUntil ==>
                value == old(entries)[organizationId].value && order == old(order) && entries == old(entries)
      ensures organizationId !in old(entries) || now >= old(entries)[organizationId].freshUntil ==>
                && value == (if subscription.Some? then subscription.value else EMPTY)
                && Cache(order, entries)
                   == Remember(old(Cache(order, entries)), organizationId, Entry(value, now + 30_000))
                && (|old(order)| < 10_000 ==> entries == old(entries)[organizationId := Entry(value, now + 30_000)])
    {
      if organizationId in entries && entries[organizationId].freshUntil > now {
        return entries[organizationId].value;
      }
      value := if subscription.Some? then subscription.value else EMPTY;
      ForgetsExactly(Cache(order, entries), organizationId, Entry(value, now + CACHE_TTL));
      RememberEntry(organizationId, Entry(value, now + CACHE_TTL));
    }

    method RememberEntry(organizationId: string, entry: Entry)
      requires Valid()
      modifies this
      ensures Valid() && Cache(order, entries) == Remember(old(Cache(order, entries)), organizationId, entry)
    {
      RememberKeeps(Cache(order, entries), organizationId, entry);
      if |order| >= MAX_CACHED_TENANTS {
        entries := entries - {order[0]};
        order := order[1..];
      }
      if organizationId !in entries {
        order := order + [organizationId];
      }
      entries := entries[organizationId := entry];
    }
  }

  // ----- calls split around their await -----

  datatype Call =
    | NoCall
    | Awaiting(key: string, start: Time, since: nat)                               // missed; the query is in flight
    | Answered(key: string, start: Time, since: nat, value: Value, readAt: nat)   // the query has read the repository

  datatype State = State(
    index: nat,                        // steps taken so far
    now: Time,
    repository: map<string, Value>,
    cache: Cache,
    calls: map<nat, Call>,
    sources: map<string, nat>)         // the step at which each cached value was read

  datatype Step =
    | Tick(to: Time)
    | Write(key: string, value: Value)
    | Look(p: nat, key: string)
    | Read(p: nat)
    | Finish(p: nat)
    | Stop(p: nat)

  function CallAt(s: State, p: nat): Call {
    if p in s.calls then s.calls[p] else NoCall
  }

  function Held(s: State, key: string): Value {
    if key in s.repository then s.repository[key] else EMPTY
  }

  ghost predicate Enabled(s: State, step: Step) {
    match step
    case Tick(to) => s.now <= to
    case Write(key, value) => true
    case Look(p, key) => CallAt(s, p).NoCall?
    case Read(p) => CallAt(s, p).Awaiting?
    case Finish(p) => CallAt(s, p).Answered?
    case Stop(p) => true
  }

  ghost function Apply(s: State, step: Step): State
    requires Enabled(s, step)
  {
    var next := s.(index := s.index + 1);
    match step
    case Tick(to) => next.(now := to)
    case Write(key, value) => next.(repository := s.repository[key := value])
    case Look(p, key) =>
      if s.cache.Fresh(key, s.now) then next
      else next.(calls := s.calls[p := Awaiting(key, s.now, s.index)])
    case Read(p) =>
      var c := s.calls[p];
      next.(calls := s.calls[p := Answered(c.key, c.start, c.since, Held(s, c.key), s.index)])
    case Finish(p) =>
      var c := s.calls[p];
      next.(calls := s.calls[p := NoCall],
            cache := Remember(s.cache, c.key, Entry(c.value, c.start + CACHE_TTL)),
            sources := s.sources[c.key := c.readAt])
    case Stop(p) => next.(calls := s.calls[p := NoCall])
  }

  ghost predicate Init(s: State) {
    s.index == 0 && s.cache == Cache([], map[]) && s.calls == map[] && s.sources == map[]
  }

  ghost predicate IsRun(states: seq<State>, steps: seq<Step>) {
    && |states| == |steps| + 1
    && Init(states[0])
    && forall i :: 0 <= i < |steps| ==> Enabled(states[i], steps[i]) && states[i + 1] == Apply(states[i], steps[i])
  }

  // ----- invariant, over the run so far -----

  ghost predicate EntryOk(states: seq<State>, n: nat, key: string, entry: Entry, source: nat)
    requires n < |states|
  {
    source <= n && Held(states[source], key) == entry.value && entry.freshUntil <= states[source].now + CACHE_TTL
  }

  ghost predicate CallOk(states: seq<State>, steps: seq<Step>, n: nat, p: nat, c: Call)
    requires n < |states| && |states| == |steps| + 1
  {
    match c
    case NoCall => true
    case Awaiting(key, start, since) =>
      since < n && steps[since] == Look(p, key) && states[since].now == start
    case Answered(key, start, since, value, readAt) =>
      since < readAt <= n && steps[since] == Look(p, key) && states[since].now == start
      && Held(states[readAt], key) == value && start <= states[readAt].now
  }

  ghost predicate Inv(states: seq<State>, steps: seq<Step>, n: nat)
    requires n < |states| && |states| == |steps| + 1
  {
    var s := states[n];
    && s.index == n && s.cache.Valid()
    && (forall m: nat :: m <= n ==> states[m].now <= s.now)
    && (forall key :: key in s.cache.entries ==>
          key in s.sources && EntryOk(states, n, key, s.cache.entries[key], s.sources[key]))
    && (forall p: nat :: p in s.calls ==> CallOk(states, steps, n, p, s.calls[p]))
  }

  lemma FinishKeeps(states: seq<State>, steps: seq<Step>, n: nat)
    requires IsRun(states, steps) && n < |steps| && Inv(states, steps, n) && steps[n].Finish?
    ensures Inv(states, steps, n + 1)
  {
    var s, t := states[n], states[n + 1];
    var c := s.calls[steps[n].p];
    assert CallOk(states, steps, n, steps[n].p, c);
    RememberKeeps(s.cache, c.key, Entry(c.value, c.start + CACHE_TTL));
    forall key | key in t.cache.entries
      ensures key in t.sources && EntryOk(states, n + 1, key, t.cache.entries[key], t.sources[key])
    {
      if key != c.key {
        assert EntryOk(states, n, key, s.cache.entries[key], s.sources[key]);
      }
    }
    forall p: nat | p in t.calls ensures CallOk(states, steps, n + 1, p, t.calls[p]) {
      assert p != steps[n].p ==> CallOk(states, steps, n, p, s.calls[p]);
    }
  }

  /** The clock only moves forward, and the step counter counts. */
  lemma ClockKeeps(states: seq<State>, steps: seq<Step>, n: nat)
    requires IsRun(states, steps) && n < |steps| && Inv(states, steps, n)
    ensures states[n + 1].index == n + 1 && forall m: nat :: m <= n + 1 ==> states[m].now <= states[n + 1].now
  {
    assert states[n].now <= states[n + 1].now;
  }

  lemma EntriesKeep(states: seq<State>, steps: seq<Step>, n: nat)
    requires IsRun(states, steps) && n < |steps| && Inv(states, steps, n) && !steps[n].Finish?
    ensures var t := states[n + 1];
            t.cache.Valid() && forall key :: key in t.cache.entries ==>
              key in t.sources && EntryOk(states, n + 1, key, t.cache.entries[key], t.sources[key])
  {
    var s := states[n];
    assert states[n + 1].cache == s.cache && states[n + 1].sources == s.sources;
    forall key | key in s.cache.entries ensures EntryOk(states, n + 1, key, s.cache.entries[key], s.sources[key]) {
      assert EntryOk(states, n, key, s.cache.entries[key], s.sources[key]);
    }
  }

  lemma CallKeeps(states: seq<State>, steps: seq<Step>, n: nat, p: nat)
    requires IsRun(states, steps) && n < |steps| && Inv(states, steps, n) && p in states[n + 1].calls
    ensures CallOk(states, steps, n + 1, p, states[n + 1].calls[p])
  {
    var s, t, step := states[n], states[n + 1], steps[n];
    assert t == Apply(s, step);
    if p in s.calls && t.calls[p] == s.calls[p] {
      assert CallOk(states, steps, n, p, s.calls[p]);
    } else if step == Read(p) {
      var c := s.calls[p];
      assert CallOk(states, steps, n, p, c);
      assert t.calls[p] == Answered(c.key, c.start, c.since, Held(s, c.key), n);
    } else if step.Look? {
      assert t.calls[p] == Awaiting(step.key, s.now, n);
    } else {
      assert t.calls[p] == NoCall;
    }
  }

  lemma OtherKeeps(states: seq<State>, steps: seq<Step>, n: nat)
    requires IsRun(states, steps) && n < |steps| && Inv(states, steps, n) && !steps[n].Finish?
    ensures Inv(states, steps, n + 1)
  {
    ClockKeeps(states, steps, n);
    EntriesKeep(states, steps, n);
    var t := states[n + 1];
    forall p: nat | p in t.calls ensures CallOk(states, steps, n + 1, p, t.calls[p]) {
      CallKeeps(states, steps, n, p);
    }
  }

  lemma {:induction false} RunKeeps(states: seq<State>, steps: seq<Step>, n: nat)
    requires IsRun(states, steps) && n < |states|
    ensures Inv(states, steps, n)
  {
    if n > 0 {
      RunKeeps(states, steps, n - 1);
      if steps[n - 1].Finish? {
        FinishKeeps(states, steps, n - 1);
      } else {
        OtherKeeps(states, steps, n - 1);
      }
    }
  }

  // ----- what holds of every run -----

  /** The repository has this value for the key, or nothing and the value is the empty one. */
  ghost predicate IsHeld(s: State, key: string, value: Value) {
    if key in s.repository then value == s.repository[key] else value == ""
  }

  /** A hit returns a value the repository held less than thirty seconds ago. */
  lemma HitsAreRecent(states: seq<State>, steps: seq<Step>, n: nat, p: nat, key: string)
    requires IsRun(states, steps) && n < |steps| && steps[n] == Look(p, key)
    requires key in states[n].cache.entries && states[n].now < states[n].cache.entries[key].freshUntil
    ensures exists m: nat :: m <= n && IsHeld(states[m], key, states[n].cache.entries[key].value)
                             && states[n].now < states[m].now + 30_000
  {
    RunKeeps(states, steps, n);
    var m := states[n].sources[key];
    assert EntryOk(states, n, key, states[n].cache.entries[key], m);
  }

  /** A miss returns a value the repository held between the call's lookup and its return. */
  lemma MissesAreCurrent(states: seq<State>, steps: seq<Step>, n: nat, p: nat)
    requires IsRun(states, steps) && n < |steps| && steps[n] == Finish(p)
    ensures var c := CallAt(states[n], p);
            && c.Answered? && c.since < n && steps[c.since] == Look(p, c.key)
            && exists m: nat :: c.since < m <= n && IsHeld(states[m], c.key, c.value)
  {
    RunKeeps(states, steps, n);
    var c := states[n].calls[p];
    assert CallOk(states, steps, n, p, c);
    assert c.since < c.readAt <= n && Held(states[c.readAt], c.key) == c.value;
  }

  /** A lookup asks the repository exactly when no entry of its key is good past this instant. */
  lemma LooksMissExactlyWhen(states: seq<State>, steps: seq<Step>, n: nat, p: nat, key: string)
    requires IsRun(states, steps) && n < |steps| && steps[n] == Look(p, key)
    ensures CallAt(states[n + 1], p).Awaiting?
            <==> key !in states[n].cache.entries || states[n].cache.entries[key].freshUntil <= states[n].now
    ensures CallAt(states[n + 1], p).Awaiting? || CallAt(states[n + 1], p).NoCall?
  {
  }

  /** A call that ends leaves its answer good for thirty seconds from its lookup; below ten thousand nothing is lost. */
  lemma FinishRemembers(states: seq<State>, steps: seq<Step>, n: nat, p: nat)
    requires IsRun(states, steps) && n < |steps| && steps[n] == Finish(p)
    ensures var c := CallAt(states[n], p);
            var entry := Entry(c.value, c.start + 30_000);
            && c.Answered?
            && c.key in states[n + 1].cache.entries && states[n + 1].cache.entries[c.key] == entry
            && (|states[n].cache.entries| < 10_000 ==>
                  states[n + 1].cache.entries == states[n].cache.entries[c.key := entry])
  {
    RunKeeps(states, steps, n);
    EntriesSize(states[n].cache);
    var c := states[n].calls[p];
    ForgetsExactly(states[n].cache, c.key, Entry(c.value, c.start + 30_000));
  }

  /** However calls interleave, the map never holds more than its bound. */
  lemma CacheIsBounded(states: seq<State>, steps: seq<Step>, n: nat)
    requires IsRun(states, steps) && n < |states|
    ensures |states[n].cache.entries| <= 10_000
  {
    RunKeeps(states, steps, n);
    EntriesSize(states[n].cache);
  }

  lemma EntriesSize(c: Cache)
    requires c.Valid()
    ensures |c.entries| == |c.order|
  {
    OrderSize(c.order);
    assert c.entries.Keys == set key | key in c.order;
  }

  lemma {:induction false} OrderSize(order: seq<string>)
    requires forall i, j :: 0 <= i < j < |order| ==> order[i] != order[j]
    ensures |set key | key in order| == |order|
  {
    if order != [] {
      var n := |order| - 1;
      var init := order[..n];
      OrderSize(init);
      assert order == init + [order[n]];
      assert (set key | key in order) == (set key | key in init) + {order[n]};
      assert order[n] !in init;
    }
  }
}
