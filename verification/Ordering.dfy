/** ORDER BY (timestamp, id) ... LIMIT n, as used by every batch and page query. */
module Ordering {
  import opened Common

  datatype Key = Key(at: Time, id: Id)

  datatype Direction = Ascending | Descending

  predicate Precedes(dir: Direction, a: Key, b: Key) {
    match dir
    case Ascending => a.at < b.at || (a.at == b.at && a.id < b.id)
    case Descending => b.at < a.at || (a.at == b.at && b.id < a.id)
  }

  predicate IsFirst(dir: Direction, s: set<Key>, m: Key) {
    m in s && forall k :: k in s && k != m ==> Precedes(dir, m, k)
  }

  lemma FirstExists(dir: Direction, s: set<Key>)
    requires s != {}
    ensures exists m :: IsFirst(dir, s, m)
  {
    var x :| x in s;
    if s - {x} == {} {
      assert forall k :: k in s ==> k == x by {
        assert forall k :: k in s && k != x ==> k in s - {x};
      }
      assert IsFirst(dir, s, x);
    } else {
      FirstExists(dir, s - {x});
      var y :| IsFirst(dir, s - {x}, y);
      var m := if Precedes(dir, x, y) then x else y;
      forall k | k in s && k != m ensures Precedes(dir, m, k) {
        assert k == x || k in s - {x};
      }
      assert IsFirst(dir, s, m);
    }
  }

  function First(dir: Direction, s: set<Key>): (m: Key)
    requires s != {}
    ensures IsFirst(dir, s, m)
  {
    FirstExists(dir, s);
    var m :| m in s && IsFirst(dir, s, m);
    m
  }

  function Sorted(dir: Direction, s: set<Key>): (r: seq<Key>)
    ensures |r| == |s|
    decreases |s|
  {
    if s == {} then [] else
      var m := First(dir, s);
      [m] + Sorted(dir, s - {m})
  }

  lemma {:induction false} SortedMembers(dir: Direction, s: set<Key>)
    ensures forall k :: k in Sorted(dir, s) <==> k in s
    decreases |s|
  {
    if s != {} {
      SortedMembers(dir, s - {First(dir, s)});
    }
  }

  ghost predicate InOrder(dir: Direction, r: seq<Key>) {
    forall i, j :: 0 <= i < j < |r| ==> Precedes(dir, r[i], r[j])
  }

  lemma {:induction false} SortedInOrder(dir: Direction, s: set<Key>)
    ensures InOrder(dir, Sorted(dir, s))
    decreases |s|
  {
    if s != {} {
      var m := First(dir, s);
      var rest := Sorted(dir, s - {m});
      SortedInOrder(dir, s - {m});
      SortedMembers(dir, s - {m});
      forall i, j | 0 <= i < j < |s|
        ensures Precedes(dir, Sorted(dir, s)[i], Sorted(dir, s)[j])
      {
        assert rest[j - 1] in rest;
      }
    }
  }

  /** The sorted sequence is the only ordered listing of a set. */
  lemma {:induction false} SortedUnique(dir: Direction, s: set<Key>, r: seq<Key>)
    requires InOrder(dir, r)
    requires forall k :: k in r <==> k in s
    ensures r == Sorted(dir, s)
    decreases |r|
  {
    if r == [] {
      assert forall k :: k !in s;
    } else {
      assert r[0] in s;
      var m := First(dir, s);
      var i :| 0 <= i < |r| && r[i] == m;
      assert forall j :: 0 < j < |r| ==> Precedes(dir, r[0], r[j]);
      assert r[0] == m;
      assert r == [m] + r[1..];
      assert forall k :: k in r[1..] <==> k in s - {m};
      SortedUnique(dir, s - {m}, r[1..]);
    }
  }

  function Elements(r: seq<Key>): set<Key> {
    set k | k in r
  }

  lemma ElementsSnoc(dir: Direction, r: seq<Key>, k: Key)
    requires InOrder(dir, r + [k])
    ensures Elements(r + [k]) == Elements(r) + {k}
    ensures InOrder(dir, r) && k !in r
  {
    var all := r + [k];
    assert forall i :: 0 <= i < |r| ==> all[i] == r[i];
    assert forall i :: 0 <= i < |r| ==> Precedes(dir, all[i], all[|r|]);
  }

  lemma {:induction false} ElementsSize(dir: Direction, r: seq<Key>)
    requires InOrder(dir, r)
    ensures |Elements(r)| == |r|
  {
    if r != [] {
      var n := |r| - 1;
      assert r == r[..n] + [r[n]];
      ElementsSnoc(dir, r[..n], r[n]);
      ElementsSize(dir, r[..n]);
    }
  }

  /** The rows a query with LIMIT n returns, in order. */
  function Take(dir: Direction, s: set<Key>, n: nat): (r: seq<Key>)
    ensures |r| == Min(n, |s|)
  {
    Sorted(dir, s)[..Min(n, |s|)]
  }

  lemma TakeMembers(dir: Direction, s: set<Key>, n: nat)
    ensures forall k :: k in Take(dir, s, n) ==> k in s
  {
    SortedMembers(dir, s);
  }

  function Before(dir: Direction, s: set<Key>, k: Key): set<Key> {
    set j | j in s && Precedes(dir, j, k)
  }

  /** The same rows as a set: those with fewer than n rows before them. */
  function TakeSet(dir: Direction, s: set<Key>, n: nat): set<Key> {
    set k | k in s && |Before(dir, s, k)| < n
  }

  lemma RankIs(dir: Direction, s: set<Key>, i: nat)
    requires i < |s|
    ensures |Before(dir, s, Sorted(dir, s)[i])| == i
  {
    var all := Sorted(dir, s);
    SortedInOrder(dir, s);
    SortedMembers(dir, s);
    ElementsSize(dir, all[..i]);
    forall j | j in s ensures Precedes(dir, j, all[i]) <==> j in all[..i] {
      var m :| 0 <= m < |all| && all[m] == j;
      if m < i {
        assert all[..i][m] == j;
      }
      assert m > i ==> Precedes(dir, all[i], all[m]);
    }
    assert Before(dir, s, all[i]) == Elements(all[..i]);
  }

  lemma TakeSetIsTake(dir: Direction, s: set<Key>, n: nat)
    ensures TakeSet(dir, s, n) == Elements(Take(dir, s, n))
  {
    var all := Sorted(dir, s);
    SortedMembers(dir, s);
    forall k | k in s ensures k in TakeSet(dir, s, n) <==> k in Take(dir, s, n) {
      var i :| 0 <= i < |all| && all[i] == k;
      RankIs(dir, s, i);
      if i < n {
        assert Take(dir, s, n)[i] == k;
      }
      if k in Take(dir, s, n) {
        var j :| 0 <= j < |Take(dir, s, n)| && Take(dir, s, n)[j] == k;
        RankIs(dir, s, j);
      }
    }
  }

  lemma TakeSetSize(dir: Direction, s: set<Key>, n: nat)
    ensures TakeSet(dir, s, n) <= s
    ensures |TakeSet(dir, s, n)| == Min(n, |s|)
    ensures |s - TakeSet(dir, s, n)| == |s| - Min(n, |s|)
  {
    SortedInOrder(dir, s);
    ElementsSize(dir, Take(dir, s, n));
    TakeSetIsTake(dir, s, n);
  }

  /** Splitting an ordered listing splits its elements. */
  lemma SplitElements(dir: Direction, r: seq<Key>, n: nat)
    requires InOrder(dir, r) && n <= |r|
    ensures Elements(r[..n]) + Elements(r[n..]) == Elements(r)
    ensures Elements(r[..n]) !! Elements(r[n..])
  {
    assert r == r[..n] + r[n..];
    assert forall i, j :: 0 <= i < n <= j < |r| ==> Precedes(dir, r[i], r[j]);
  }

  lemma Complement<T>(a: set<T>, b: set<T>, s: set<T>)
    requires a + b == s && a !! b
    ensures s - a == b
  {
  }

  lemma InOrderFrom(dir: Direction, r: seq<Key>, n: nat)
    requires InOrder(dir, r) && n <= |r|
    ensures InOrder(dir, r[n..])
  {
  }

  /** Removing what one query returned leaves exactly the rest of the order. */
  lemma RemoveTaken(dir: Direction, s: set<Key>, n: nat, rest: set<Key>)
    requires rest == s - TakeSet(dir, s, n)
    ensures Sorted(dir, rest) == Sorted(dir, s)[Min(n, |s|)..]
  {
    var all := Sorted(dir, s);
    var back := all[Min(n, |s|)..];
    SortedInOrder(dir, s);
    assert rest == Elements(back) by {
      SplitElements(dir, all, Min(n, |s|));
      TakeSetIsTake(dir, s, n);
      SortedMembers(dir, s);
      assert Elements(all) == s;
      Complement(Elements(Take(dir, s, n)), Elements(back), s);
    }
    InOrderFrom(dir, all, Min(n, |s|));
    SortedUnique(dir, rest, back);
  }

  lemma TakeConcat(dir: Direction, s: set<Key>, m: nat, n: nat, rest: set<Key>)
    requires Sorted(dir, rest) == Sorted(dir, s)[Min(m, |s|)..]
    ensures Take(dir, s, m) + Take(dir, rest, n) == Take(dir, s, m + n)
  {
    SliceConcat(Sorted(dir, s), Sorted(dir, rest), Min(m, |s|), n);
  }

  /** Two successive batches are one batch of the combined size. */
  lemma TakeTwice(dir: Direction, s: set<Key>, m: nat, n: nat, rest: set<Key>)
    requires rest == s - TakeSet(dir, s, m)
    ensures TakeSet(dir, s, m) + TakeSet(dir, rest, n) == TakeSet(dir, s, m + n)
  {
    calc {
      TakeSet(dir, s, m) + TakeSet(dir, rest, n);
      { TakeSetIsTake(dir, s, m); TakeSetIsTake(dir, rest, n); }
      Elements(Take(dir, s, m)) + Elements(Take(dir, rest, n));
      { ElementsConcat(Take(dir, s, m), Take(dir, rest, n)); }
      Elements(Take(dir, s, m) + Take(dir, rest, n));
      { RemoveTaken(dir, s, m, rest); TakeConcat(dir, s, m, n, rest); }
      Elements(Take(dir, s, m + n));
      { TakeSetIsTake(dir, s, m + n); }
      TakeSet(dir, s, m + n);
    }
  }

  lemma TakeAll(dir: Direction, s: set<Key>, n: nat)
    requires |s| <= n
    ensures TakeSet(dir, s, n) == s
  {
    TakeSetSize(dir, s, n);
    SubsetCardinality(TakeSet(dir, s, n), s);
  }

  /** One more pass of a batched loop: the totals add up, and a short pass means nothing is left. */
  lemma NextBatch(dir: Direction, s: set<Key>, spent: nat, limit: nat, rest: set<Key>)
    requires rest == s - TakeSet(dir, s, spent)
    ensures Min(spent, |s|) + Min(limit, |rest|) == Min(spent + limit, |s|)
    ensures rest - TakeSet(dir, rest, limit) == s - TakeSet(dir, s, spent + limit)
    ensures Min(limit, |rest|) < limit ==> |s| <= spent + limit
  {
    TakeSetSize(dir, s, spent);
    var first, second := TakeSet(dir, s, spent), TakeSet(dir, rest, limit);
    assert first + second == TakeSet(dir, s, spent + limit) by {
      TakeTwice(dir, s, spent, limit, rest);
    }
    assert s - first - second == s - (first + second);
  }

  /** Once everything is taken, a larger budget takes no more. */
  lemma TakeBeyond(dir: Direction, s: set<Key>, n: nat, budget: nat)
    requires n == budget || |s| <= n <= budget
    ensures TakeSet(dir, s, n) == TakeSet(dir, s, budget)
    ensures Min(n, |s|) == Min(budget, |s|)
  {
    if n < budget {
      TakeAll(dir, s, n);
      TakeAll(dir, s, budget);
    }
  }

  lemma SliceConcat<T>(all: seq<T>, back: seq<T>, a: nat, n: nat)
    requires a <= |all| && back == all[a..]
    ensures all[..a] + back[..Min(n, |back|)] == all[..Min(a + n, |all|)]
  {
  }

  lemma ElementsConcat(a: seq<Key>, b: seq<Key>)
    ensures Elements(a + b) == Elements(a) + Elements(b)
  {
  }

  /** Everything taken precedes everything left behind. */
  lemma TakenFirst(dir: Direction, s: set<Key>, n: nat, taken: Key, left: Key)
    requires taken in TakeSet(dir, s, n) && left in s - TakeSet(dir, s, n)
    ensures Precedes(dir, taken, left)
  {
    if Precedes(dir, left, taken) {
      assert Before(dir, s, left) <= Before(dir, s, taken);
      SubsetCardinality(Before(dir, s, left), Before(dir, s, taken));
    }
  }

  /** What a number of full batches may take. */
  function Budget(passes: nat, limit: nat): nat {
    if passes == 0 then 0 else Budget(passes - 1, limit) + limit
  }

  lemma {:induction false} BudgetIsProduct(passes: nat, limit: nat)
    ensures Budget(passes, limit) == passes * limit
  {
    if passes > 0 {
      BudgetIsProduct(passes - 1, limit);
    }
  }

  lemma {:induction false} BudgetGrows(fewer: nat, passes: nat, limit: nat)
    requires fewer <= passes
    ensures Budget(fewer, limit) <= Budget(passes, limit)
  {
    if fewer < passes {
      BudgetGrows(fewer, passes - 1, limit);
    }
  }

  // ----- a loop of batches -----

  datatype Loop = Loop(rest: set<Key>, taken: nat)

  ghost function NextLoop(dir: Direction, l: Loop, limit: nat): Loop {
    Loop(l.rest - TakeSet(dir, l.rest, limit), l.taken + Min(limit, |l.rest|))
  }

  /** Batches until one comes up short, or the passes run out. */
  ghost function Batches(dir: Direction, l: Loop, passes: nat, limit: nat): Loop
    decreases passes
  {
    if passes == 0 then l
    else
      var next := NextLoop(dir, l, limit);
      if next.taken < l.taken + limit then next else Batches(dir, next, passes - 1, limit)
  }

  /** The loop once it has taken the first rows of the order. */
  ghost function TakenLoop(dir: Direction, s: set<Key>, spent: nat): Loop {
    Loop(s - TakeSet(dir, s, spent), Min(spent, |s|))
  }

  ghost predicate TakenTo(dir: Direction, s: set<Key>, l: Loop, spent: nat) {
    l.rest == s - TakeSet(dir, s, spent) && l.taken == Min(spent, |s|)
  }

  lemma NextIsTaken(dir: Direction, s: set<Key>, spent: nat, limit: nat, rest: set<Key>)
    requires rest == s - TakeSet(dir, s, spent)
    ensures Loop(rest - TakeSet(dir, rest, limit), Min(spent, |s|) + Min(limit, |rest|))
            == TakenLoop(dir, s, spent + limit)
    ensures Min(limit, |rest|) < limit ==> |s| <= spent + limit
  {
    NextBatch(dir, s, spent, limit, rest);
  }

  lemma LoopGoesOn(dir: Direction, s: set<Key>, limit: nat, spent: nat)
    ensures NextLoop(dir, TakenLoop(dir, s, spent), limit) == TakenLoop(dir, s, spent + limit)
  {
    NextIsTaken(dir, s, spent, limit, s - TakeSet(dir, s, spent));
  }

  /** A short batch has taken everything, whatever the budget. */
  lemma LoopEnds(dir: Direction, s: set<Key>, limit: nat, spent: nat, budget: nat)
    requires spent + limit <= budget
    requires TakenLoop(dir, s, spent + limit).taken < TakenLoop(dir, s, spent).taken + limit
    ensures TakenLoop(dir, s, spent + limit) == TakenLoop(dir, s, budget)
  {
    LoopBeyond(dir, s, spent + limit, budget);
  }

  lemma LoopBeyond(dir: Direction, s: set<Key>, spent: nat, budget: nat)
    requires |s| <= spent <= budget
    ensures TakenLoop(dir, s, spent) == TakenLoop(dir, s, budget)
  {
    TakeBeyond(dir, s, spent, budget);
  }

  /** Where each next batch takes the loop, all of them take it. */
  ghost predicate Leads(dir: Direction, limit: nat, at: nat -> Loop, spent: nat, budget: nat) {
    var next := NextLoop(dir, at(spent), limit);
    next == at(if next.taken < at(spent).taken + limit then budget else spent + limit)
  }

  lemma {:induction false} BatchesLead(dir: Direction, limit: nat, at: nat -> Loop, spent: nat, passes: nat,
                                       budget: nat)
    requires budget == spent + Budget(passes, limit)
    requires forall k: nat :: k + limit <= budget ==> Leads(dir, limit, at, k, budget)
    ensures Batches(dir, at(spent), passes, limit) == at(budget)
    decreases passes
  {
    if passes > 0 {
      assert Leads(dir, limit, at, spent, budget);
      BatchesLead(dir, limit, at, spent + limit, passes - 1, budget);
    }
  }

  /** A loop of batches takes exactly the first rows of its whole budget. */
  lemma BatchesAreOne(dir: Direction, s: set<Key>, passes: nat, limit: nat)
    ensures TakenTo(dir, s, Batches(dir, Loop(s, 0), passes, limit), passes * limit)
  {
    BudgetIsProduct(passes, limit);
    var at := (k: nat) => TakenLoop(dir, s, k);
    forall k: nat | k + limit <= passes * limit ensures Leads(dir, limit, at, k, passes * limit) {
      LoopGoesOn(dir, s, limit, k);
      if NextLoop(dir, at(k), limit).taken < at(k).taken + limit {
        LoopEnds(dir, s, limit, k, passes * limit);
      }
    }
    BatchesLead(dir, limit, at, 0, passes, passes * limit);
    NoneTaken(dir, s);
  }

  lemma NoneTaken(dir: Direction, s: set<Key>)
    ensures TakenLoop(dir, s, 0) == Loop(s, 0)
  {
    assert s - TakeSet(dir, s, 0) == s;
  }
}
