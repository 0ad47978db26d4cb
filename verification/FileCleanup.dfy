/** The two deletion loops over the file store: the owner purge and the stale-upload sweep. */
module FileCleanup {
  import opened Common
  import opened Ordering
  import opened StoredFiles

  const PURGE_BATCH_SIZE: nat := 500

  type Objects = map<StorageKey, Facts>

  // ----- queries -----

  function OwnedIds(files: Files, owner: Id): set<Id> {
    set id | id in files && files[id].owner == owner
  }

  function StaleIds(files: Files, cutoff: Time): set<Id> {
    set id | id in files && IsStale(files[id], cutoff)
  }

  function StorageKeys(files: Files, ids: set<Id>): set<StorageKey> {
    set id | id in ids && id in files :: files[id].KeyOf(id)
  }

  function IdSet(ids: seq<Id>): set<Id> {
    set id | id in ids
  }

  ghost predicate Distinct(ids: seq<Id>) {
    forall i, j :: 0 <= i < j < |ids| ==> ids[i] != ids[j]
  }

  /** What ORDER BY created_at LIMIT n may answer: rows of one instant come in any order. */
  ghost predicate IsOldest(files: Files, from: set<Id>, ids: seq<Id>, limit: nat) {
    && from <= files.Keys && Distinct(ids) && IdSet(ids) <= from && |ids| == Min(limit, |from|)
    && (forall i, j :: 0 <= i < j < |ids| ==> files[ids[i]].createdAt <= files[ids[j]].createdAt)
    && (forall id, other :: id in ids && other in from && other !in ids ==>
          files[id].createdAt <= files[other].createdAt)
  }

  /** How the database answers the purge's query in each pass, over whatever the table then is. */
  type Query = (nat, Files) -> seq<Id>

  ghost predicate Answers(query: Query, owner: Id) {
    forall pass, files :: IsOldest(files, OwnedIds(files, owner), query(pass, files), 500)
  }

  lemma IdSetSnoc(ids: seq<Id>, i: nat)
    requires i < |ids| && Distinct(ids)
    ensures IdSet(ids[..i + 1]) == IdSet(ids[..i]) + {ids[i]} && ids[i] !in IdSet(ids[..i])
  {
    assert ids[..i + 1] == ids[..i] + [ids[i]];
  }

  lemma {:induction false} IdSetSize(ids: seq<Id>)
    requires Distinct(ids)
    ensures |IdSet(ids)| == |ids|
  {
    if ids != [] {
      var n := |ids| - 1;
      IdSetSize(ids[..n]);
      IdSetSnoc(ids, n);
      assert ids[..n + 1] == ids;
    }
  }

  // ----- the owner purge -----

  /** How removing one file ends: both statements answer, or one throws, with or without effect. */
  datatype Break = Whole | RemoveThrows(took: bool) | DeleteThrows(took: bool)

  datatype Purge =
    | Done(count: nat)
    | NoProgress(head: Id)   // the guard: the same file heads two batches in a row
    | Threw(id: Id)
    | Running                // not over yet

  function AfterRemove(objects: Objects, key: StorageKey, b: Break): Objects {
    if b == RemoveThrows(false) then objects else objects - {key}
  }

  function AfterDelete(files: Files, id: Id, stuck: set<Id>, b: Break): Files {
    if id !in stuck && (b.Whole? || b == DeleteThrows(true)) then files - {id} else files
  }

  /** Some file of the owner has a row whose delete takes no effect. */
  ghost predicate SomeStuck(files: Files, owner: Id, stuck: set<Id>) {
    exists id :: id in stuck && id in files && files[id].owner == owner
  }

  /** The file is stuck, and none that is stuck is older. */
  ghost predicate IsOldestStuck(files: Files, owner: Id, stuck: set<Id>, head: Id) {
    && head in stuck && head in files && files[head].owner == owner
    && forall id :: id in stuck && id in files && files[id].owner == owner ==>
          files[head].createdAt <= files[id].createdAt
  }

  /** One stuck file is older than every other. */
  ghost predicate HasSoleOldestStuck(files: Files, owner: Id, stuck: set<Id>) {
    exists head :: IsOldestStuck(files, owner, stuck, head)
                   && forall id :: IsOldestStuck(files, owner, stuck, id) ==> id == head
  }

  /** What a purge has done once it has tried these ids. */
  ghost predicate PurgedSoFar(before: Files, files: Files, beforeObjects: Objects, objects: Objects,
                              owner: Id, stuck: set<Id>, tried: set<Id>)
  {
    && tried <= OwnedIds(before, owner)
    && files == before - (tried - stuck)
    && objects == beforeObjects - StorageKeys(before, tried)
  }

  /** The batch stopped at its file i, in the middle of removing it. */
  ghost predicate BrokenAt(before: Files, beforeObjects: Objects, files: Files, objects: Objects,
                           ids: seq<Id>, i: nat, stuck: set<Id>, breaks: Id -> Break)
  {
    && i < |ids| && ids[i] in before && !breaks(ids[i]).Whole? && (forall j :: 0 <= j < i ==> breaks(ids[j]).Whole?)
    && files == AfterDelete(before - (IdSet(ids[..i]) - stuck), ids[i], stuck, breaks(ids[i]))
    && objects == AfterRemove(beforeObjects - StorageKeys(before, IdSet(ids[..i])), before[ids[i]].KeyOf(ids[i]),
                              breaks(ids[i]))
  }

  /** Object first, so whatever a purge has reached, a row is gone only if its object is. */
  ghost predicate ObjectsFirst(before: Files, files: Files, beforeObjects: Objects, objects: Objects, owner: Id) {
    && files.Keys <= before.Keys && (forall id :: id in files ==> files[id] == before[id])
    && objects.Keys <= beforeObjects.Keys
    && (forall id :: id in before && id !in files ==> before[id].owner == owner && before[id].KeyOf(id) !in objects)
    && (forall key :: key in beforeObjects && key !in objects ==> key.id in before && before[key.id].owner == owner)
  }

  // ----- the sweep -----

  /** The bytes a confirm that commits has found: those that were declared. */
  function Declared(file: FileRow): Facts {
    Facts(Some(file.declaredMime), file.declaredSize)
  }

  /** A candidate that a concurrent confirm rescued. */
  predicate Rescued(files: Files, id: Id, raced: set<Id>) {
    id in files && files[id].status.Pending? && id in raced
  }

  function SweptIds(files: Files, batch: set<Id>, raced: set<Id>): set<Id> {
    set id | id in batch && id in files && !Rescued(files, id, raced)
  }

  /** Swept rows are gone, rescued rows are confirmed, every other row is as it was. */
  function SweptFiles(files: Files, batch: set<Id>, raced: set<Id>, now: Time): Files {
    map id | id in files && id !in SweptIds(files, batch, raced) ::
      if id in batch then AsConfirmed(files[id], Declared(files[id]), now) else files[id]
  }

  function SweptObjects(files: Files, objects: Objects, batch: set<Id>, raced: set<Id>): Objects {
    objects - StorageKeys(files, SweptIds(files, batch, raced))
  }

  /**
   * Wherever a sweep stops: confirmed files, and pending ones still in time, keep row and object,
   * and no row is gone whose object is not.
   */
  ghost predicate SweepSpares(before: Files, beforeObjects: Objects, files: Files, objects: Objects, now: Time,
                              pendingTtl: Time)
  {
    && files.Keys <= before.Keys && objects.Keys <= beforeObjects.Keys
    && (forall id :: id in before && id !in files ==> before[id].KeyOf(id) !in objects)
    && (forall id :: id in before
                     && (before[id].status.Confirmed?
                         || (before[id].status.Pending? && before[id].createdAt + pendingTtl >= now)) ==>
          id in files && files[id] == before[id])
    && (forall key :: key in beforeObjects && key !in objects ==>
          && key.id in before && before[key.id].KeyOf(key.id) == key && !before[key.id].status.Confirmed?
          && (before[key.id].status.Pending? ==> before[key.id].createdAt + pendingTtl < now))
    && (forall key :: key in objects ==> objects[key] == beforeObjects[key])
  }

  /** How the sweep's statements on one candidate end. */
  datatype SweepWorld = SweepWorld(claim: Id -> Outcome, breaks: Id -> Break)

  /** Some statement the sweep runs on this candidate throws. */
  predicate SweepThrows(file: FileRow, id: Id, raced: set<Id>, w: SweepWorld) {
    || (file.status.Pending? && !w.claim(id).Acked?)
    || (!(file.status.Pending? && id in raced) && !w.breaks(id).Whole?)
  }

  /** What a throwing statement leaves of its candidate's row; the confirm that raced, if any, has committed. */
  function PartFiles(files: Files, id: Id, file: FileRow, raced: set<Id>, now: Time, w: SweepWorld): Files {
    if file.status.Pending? && id in raced then files[id := AsConfirmed(file, Declared(file), now)]
    else if file.status.Pending? && w.claim(id).Lost? then files
    else
      var claimed := if file.status.Pending? then files[id := AsDiscarded(file)] else files;
      if file.status.Pending? && w.claim(id).Unacked? then claimed else AfterDelete(claimed, id, {}, w.breaks(id))
  }

  function PartObjects(objects: Objects, id: Id, file: FileRow, raced: set<Id>, w: SweepWorld): Objects {
    if file.status.Pending? && (id in raced || !w.claim(id).Acked?) then objects
    else AfterRemove(objects, file.KeyOf(id), w.breaks(id))
  }

  /** The sweep stopped at candidate i, in the middle of it. */
  ghost predicate SweepBrokenAt(before: Files, beforeObjects: Objects, files: Files, objects: Objects,
                                found: seq<Id>, i: nat, raced: set<Id>, now: Time, w: SweepWorld)
  {
    && i < |found| && found[i] in before && SweepThrows(before[found[i]], found[i], raced, w)
    && (forall j :: 0 <= j < i ==> found[j] in before && !SweepThrows(before[found[j]], found[j], raced, w))
    && files == PartFiles(SweptFiles(before, IdSet(found[..i]), raced, now), found[i], before[found[i]], raced, now, w)
    && objects == PartObjects(SweptObjects(before, beforeObjects, IdSet(found[..i]), raced), found[i], before[found[i]],
                              raced, w)
  }

  class FileStore {
    var files: Files
    var objects: Objects

    constructor (files: Files, objects: Objects)
      ensures this.files == files && this.objects == objects
    {
      this.files := files;
      this.objects := objects;
    }

    /** Object first, row second, for each file of one batch; a statement that throws ends it there. */
    method RemoveBatch(ids: seq<Id>, stuck: set<Id>, breaks: Id -> Break) returns (thrown: Option<Id>)
      requires Distinct(ids) && IdSet(ids) <= files.Keys
      modifies this
      ensures thrown.None? ==>
                && (forall id :: id in ids ==> breaks(id).Whole?)
                && files == old(files) - (IdSet(ids) - stuck)
                && objects == old(objects) - StorageKeys(old(files), IdSet(ids))
      ensures thrown.Some? ==>
                exists i :: 0 <= i < |ids| && ids[i] == thrown.value
                            && BrokenAt(old(files), old(objects), files, objects, ids, i, stuck, breaks)
    {
      var loaded := files;
      for i := 0 to |ids|
        invariant forall j :: 0 <= j < i ==> breaks(ids[j]).Whole?
        invariant files == old(files) - (IdSet(ids[..i]) - stuck)
        invariant objects == old(objects) - StorageKeys(old(files), IdSet(ids[..i]))
      {
        var id := ids[i];
        IdSetSnoc(ids, i);
        assert id in IdSet(ids);
        objects := AfterRemove(objects, loaded[id].KeyOf(id), breaks(id));
        if !breaks(id).RemoveThrows? {
          files := AfterDelete(files, id, stuck, breaks(id));
        }
        if !breaks(id).Whole? {
          assert BrokenAt(old(files), old(objects), files, objects, ids, i, stuck, breaks);
          return Some(id);
        }
      }
      assert ids[..|ids|] == ids;
      thrown := None;
    }

    /**
     * Batches until the owner has nothing left, for as many passes as it is given. It is done
     * exactly when every delete takes effect; the guard stops it only at an oldest stuck file.
     * It ends in time unless the oldest stuck files are of one instant, and then, answered in
     * turns, it need not end at all.
     */
    method PurgeUserFiles(owner: Id, stuck: set<Id>, breaks: Id -> Break, query: Query, passes: nat) returns (r: Purge)
      requires Answers(query, owner)
      modifies this
      ensures r.Done? ==>
                && !SomeStuck(old(files), owner, stuck) && r.count == |OwnedIds(old(files), owner)|
                && files == old(files) - OwnedIds(old(files), owner)
                && objects == old(objects) - StorageKeys(old(files), OwnedIds(old(files), owner))
      ensures r.NoProgress? ==> IsOldestStuck(old(files), owner, stuck, r.head)
      ensures r.Threw? ==> !breaks(r.id).Whole?
      ensures ObjectsFirst(old(files), files, old(objects), objects, owner)
      ensures !SomeStuck(old(files), owner, stuck) && passes > |OwnedIds(old(files), owner)| ==> r.Done? || r.Threw?
      ensures HasSoleOldestStuck(old(files), owner, stuck) && passes > |OwnedIds(old(files), owner)| + 1 ==>
                r.NoProgress? || r.Threw?
      ensures NeverRepeats(old(files), owner, stuck, query) && (forall id :: breaks(id).Whole?) ==> r.Running?
    {
      var purged: nat := 0;
      var previousHead: Option<Id> := None;
      ghost var tried: set<Id> := {};
      ghost var stalled := false;
      PurgeStarts(files, objects, owner, stuck, query);
      for pass := 0 to passes
        invariant Purging(old(files), files, old(objects), objects, owner, stuck, tried, purged, previousHead)
        invariant Paced(old(files), files, owner, stuck, query, pass, previousHead, stalled)
        invariant NeverRepeats(old(files), owner, stuck, query) ==> Spins(old(files), files, query, pass, previousHead)
      {
        var owned := query(pass, files);
        ghost var mid := files;
        if |owned| == 0 {
          PurgeDone(old(files), files, old(objects), objects, owner, stuck, tried, purged, previousHead, query, pass);
          return Done(purged);
        }
        if Some(owned[0]) == previousHead {
          GuardFires(old(files), files, old(objects), objects, owner, stuck, tried, purged, previousHead, query, pass);
          return NoProgress(owned[0]);
        }
        var thrown := PurgeBatch(owner, stuck, breaks, query, pass, old(files), old(objects), tried, purged,
                                 previousHead);
        if thrown.Some? {
          return Threw(thrown.value);
        }
        PaceKeeps(old(files), mid, files, owner, stuck, query, pass, previousHead, stalled, owned);
        stalled := files == mid;
        previousHead := Some(owned[0]);
        purged := purged + |owned|;
        tried := tried + IdSet(owned);
      }
      PurgeRuns(old(files), files, old(objects), objects, owner, stuck, tried, purged, previousHead);
      r := Running;
    }

    /** One batch of a purge: its files are tried, or a statement throws. */
    method PurgeBatch(owner: Id, stuck: set<Id>, breaks: Id -> Break, query: Query, pass: nat, ghost before: Files,
                      ghost beforeObjects: Objects, ghost tried: set<Id>, ghost purged: nat,
                      ghost previousHead: Option<Id>)
      returns (thrown: Option<Id>)
      requires Answers(query, owner) && query(pass, files) != []
      requires Purging(before, files, beforeObjects, objects, owner, stuck, tried, purged, previousHead)
      modifies this
      ensures var owned := query(pass, old(files));
              thrown.None? ==>
                && Purging(before, files, beforeObjects, objects, owner, stuck, tried + IdSet(owned), purged + |owned|,
                           Some(owned[0]))
                && files == old(files) - (IdSet(owned) - stuck)
      ensures thrown.Some? ==>
                !breaks(thrown.value).Whole? && ObjectsFirst(before, files, beforeObjects, objects, owner)
    {
      var owned := query(pass, files);
      ghost var mid, midObjects := files, objects;
      assert IsOldest(files, OwnedIds(files, owner), owned, PURGE_BATCH_SIZE);
      thrown := RemoveBatch(owned, stuck, breaks);
      if thrown.None? {
        PurgingNext(before, mid, beforeObjects, midObjects, owner, stuck, tried, purged, previousHead, owned);
      } else {
        ghost var i :| 0 <= i < |owned| && owned[i] == thrown.value
                       && BrokenAt(mid, midObjects, files, objects, owned, i, stuck, breaks);
        BrokenKeepsOrder(before, mid, files, beforeObjects, midObjects, objects, owner, stuck, tried, owned, i, breaks);
      }
    }

    /**
     * The stale-upload sweep over the candidates found. `raced` are uploads whose own confirm commits
     * just before the sweep's claim on them; the claim then fails and they survive.
     */
    method ExpireStaleUploads(now: Time, pendingTtl: Time, found: seq<Id>, raced: set<Id>, w: SweepWorld)
      returns (r: Result<nat, Id>)
      requires IsOldest(files, StaleIds(files, now - pendingTtl), found, 200)
      modifies this
      ensures SweepSpares(old(files), old(objects), files, objects, now, pendingTtl)
      ensures r.Ok? && |found| < 200 ==>
                forall id :: id in files ==>
                  && !files[id].status.Discarded?
                  && (files[id].status.Pending? ==> files[id].createdAt + pendingTtl >= now)
      ensures r.Ok? <==> forall id :: id in found ==> !SweepThrows(old(files)[id], id, raced, w)
      ensures r.Ok? ==>
                && r.value == |SweptIds(old(files), IdSet(found), raced)|
                && files == SweptFiles(old(files), IdSet(found), raced, now)
                && objects == SweptObjects(old(files), old(objects), IdSet(found), raced)
      ensures r.Err? ==>
                exists i :: 0 <= i < |found| && found[i] == r.error
                            && SweepBrokenAt(old(files), old(objects), files, objects, found, i, raced, now, w)
    {
      ghost var before, beforeObjects := files, objects;
      r := SweepFound(now, now - pendingTtl, found, raced, w);
      if r.Ok? {
        assert found[..|found|] == found;
        SweptSpares(before, beforeObjects, found, |found|, raced, now, pendingTtl);
        if |found| < SWEEP_BATCH_SIZE {
          SweptAll(before, found, raced, now, pendingTtl);
        }
      } else {
        ghost var i :| 0 <= i < |found| && found[i] == r.error
                       && SweepBrokenAt(before, beforeObjects, files, objects, found, i, raced, now, w);
        BrokenSpares(before, beforeObjects, files, objects, found, i, raced, now, w, pendingTtl);
      }
    }

    /** The loop over the candidates. */
    method SweepFound(now: Time, ghost cutoff: Time, found: seq<Id>, raced: set<Id>, w: SweepWorld)
      returns (r: Result<nat, Id>)
      requires IsOldest(files, StaleIds(files, cutoff), found, SWEEP_BATCH_SIZE)
      modifies this
      ensures r.Ok? <==> forall id :: id in found ==> !SweepThrows(old(files)[id], id, raced, w)
      ensures r.Ok? ==>
                && r.value == |SweptIds(old(files), IdSet(found), raced)|
                && files == SweptFiles(old(files), IdSet(found), raced, now)
                && objects == SweptObjects(old(files), old(objects), IdSet(found), raced)
      ensures r.Err? ==>
                exists i :: 0 <= i < |found| && found[i] == r.error
                            && SweepBrokenAt(old(files), old(objects), files, objects, found, i, raced, now, w)
    {
      var loaded := files;
      var removed: nat := 0;
      SweepStarts(files, objects, found, raced, now);
      for i := 0 to |found|
        invariant SweptSoFar(loaded, files, old(objects), objects, found, i, raced, now, removed)
        invariant forall j :: 0 <= j < i ==> !SweepThrows(loaded[found[j]], found[j], raced, w)
      {
        ghost var mid, midObjects := files, objects;
        SweepNext(loaded, files, old(objects), objects, found, i, raced, now, removed, cutoff);
        var gone, thrown := SweepFile(found[i], loaded[found[i]], raced, now, w);
        if thrown {
          assert found[i] in found;
          assert SweepBrokenAt(loaded, old(objects), files, objects, found, i, raced, now, w);
          return Err(found[i]);
        }
        if gone {
          removed := removed + 1;
        }
      }
      assert found[..|found|] == found;
      r := Ok(removed);
    }

    /** Claims a pending candidate first; a candidate it cannot claim is left alone. */
    method SweepFile(id: Id, file: FileRow, raced: set<Id>, now: Time, w: SweepWorld) returns (gone: bool, thrown: bool)
      requires id in files && files[id] == file && !file.status.Confirmed?
      modifies this
      ensures thrown <==> SweepThrows(file, id, raced, w)
      ensures thrown ==> files == PartFiles(old(files), id, file, raced, now, w)
                         && objects == PartObjects(old(objects), id, file, raced, w)
      ensures !thrown ==> (gone <==> !(file.status.Pending? && id in raced))
      ensures !thrown && gone ==> files == old(files) - {id} && objects == old(objects) - {file.KeyOf(id)}
      ensures !thrown && !gone ==>
                files == old(files)[id := AsConfirmed(file, Declared(file), now)] && objects == old(objects)
    {
      gone := false;
      if file.status == Pending {
        if id in raced {
          // The concurrent confirm commits here.
          files := files[id := AsConfirmed(files[id], Declared(files[id]), now)];
        }
        var saves := Saves(files, id, file, Pending);
        if !w.claim(id).Lost? {
          files := CompareAndSave(files, id, AsDiscarded(file), Pending);
        }
        if !w.claim(id).Acked? {
          return false, true;
        }
        if !saves {
          return false, false;
        }
      }
      objects := AfterRemove(objects, file.KeyOf(id), w.breaks(id));
      if w.breaks(id).RemoveThrows? {
        return false, true;
      }
      files := AfterDelete(files, id, {}, w.breaks(id));
      gone, thrown := w.breaks(id).Whole?, !w.breaks(id).Whole?;
    }
  }

  // ----- the purge's bookkeeping -----

  ghost predicate Purging(before: Files, files: Files, beforeObjects: Objects, objects: Objects, owner: Id,
                          stuck: set<Id>, tried: set<Id>, purged: nat, previousHead: Option<Id>)
  {
    && PurgedSoFar(before, files, beforeObjects, objects, owner, stuck, tried)
    && (!SomeStuck(before, owner, stuck) ==> purged == |tried|)
    && (previousHead.Some? ==> previousHead.value in tried)
  }

  /** From any pass on, the query would head its answer with this file. */
  ghost predicate HeadIs(files: Files, owner: Id, query: Query, head: Option<Id>) {
    head.Some? && forall pass :: query(pass, files) != [] ==> query(pass, files)[0] == head.value
  }

  /** Every pass so far has shortened the owner's list, but for one that only met stuck files. */
  ghost predicate Paced(before: Files, files: Files, owner: Id, stuck: set<Id>, query: Query, pass: nat,
                        previousHead: Option<Id>, stalled: bool)
  {
    && (!SomeStuck(before, owner, stuck) ==> pass + |OwnedIds(files, owner)| <= |OwnedIds(before, owner)|)
    && (HasSoleOldestStuck(before, owner, stuck) ==>
          && pass + |OwnedIds(files, owner)| <= |OwnedIds(before, owner)| + (if stalled then 1 else 0)
          && (stalled ==> HeadIs(files, owner, query, previousHead)))
  }

  /** All the owner has is stuck, and no two answers in a row have the same head. */
  ghost predicate NeverRepeats(files: Files, owner: Id, stuck: set<Id>, query: Query) {
    && OwnedIds(files, owner) != {} && OwnedIds(files, owner) <= stuck
    && forall pass: nat, next: nat :: next == pass + 1 && query(pass, files) != [] && query(next, files) != []
                                      ==> query(next, files)[0] != query(pass, files)[0]
  }

  ghost predicate Spins(before: Files, files: Files, query: Query, pass: nat, previousHead: Option<Id>) {
    files == before && (pass > 0 ==> query(pass - 1, files) != [] && previousHead == Some(query(pass - 1, files)[0]))
    && (pass == 0 ==> previousHead == None)
  }

  lemma PurgeStarts(files: Files, objects: Objects, owner: Id, stuck: set<Id>, query: Query)
    ensures Purging(files, files, objects, objects, owner, stuck, {}, 0, None)
    ensures Paced(files, files, owner, stuck, query, 0, None, false)
  {
    assert files == files - ({} - stuck);
  }

  lemma PurgedKeepsOrder(before: Files, files: Files, beforeObjects: Objects, objects: Objects, owner: Id,
                         stuck: set<Id>, tried: set<Id>)
    requires PurgedSoFar(before, files, beforeObjects, objects, owner, stuck, tried)
    ensures ObjectsFirst(before, files, beforeObjects, objects, owner)
  {
    forall key | key in beforeObjects && key !in objects ensures key.id in before && before[key.id].owner == owner {
      var id :| id in tried && id in before && before[id].KeyOf(id) == key;
    }
  }

  lemma PurgeRuns(before: Files, files: Files, beforeObjects: Objects, objects: Objects, owner: Id, stuck: set<Id>,
                  tried: set<Id>, purged: nat, previousHead: Option<Id>)
    requires Purging(before, files, beforeObjects, objects, owner, stuck, tried, purged, previousHead)
    ensures ObjectsFirst(before, files, beforeObjects, objects, owner)
  {
    PurgedKeepsOrder(before, files, beforeObjects, objects, owner, stuck, tried);
  }

  lemma PurgeDone(before: Files, files: Files, beforeObjects: Objects, objects: Objects, owner: Id, stuck: set<Id>,
                  tried: set<Id>, purged: nat, previousHead: Option<Id>, query: Query, pass: nat)
    requires Answers(query, owner) && query(pass, files) == []
    requires Purging(before, files, beforeObjects, objects, owner, stuck, tried, purged, previousHead)
    ensures OwnedIds(files, owner) == {} && !SomeStuck(before, owner, stuck) && tried == OwnedIds(before, owner)
    ensures purged == |OwnedIds(before, owner)| && files == before - OwnedIds(before, owner)
    ensures ObjectsFirst(before, files, beforeObjects, objects, owner)
  {
    assert IsOldest(files, OwnedIds(files, owner), query(pass, files), PURGE_BATCH_SIZE);
    assert |OwnedIds(files, owner)| == 0;
    forall id | id in OwnedIds(before, owner) ensures id in tried && id !in stuck {
      assert id !in OwnedIds(files, owner);
    }
    assert tried - stuck == OwnedIds(before, owner);
    PurgedKeepsOrder(before, files, beforeObjects, objects, owner, stuck, tried);
  }

  /**
   * A file that heads two batches in a row was tried and is still there: it is stuck, and none that
   * is stuck is older.
   */
  lemma GuardFires(before: Files, files: Files, beforeObjects: Objects, objects: Objects, owner: Id, stuck: set<Id>,
                   tried: set<Id>, purged: nat, previousHead: Option<Id>, query: Query, pass: nat)
    requires Answers(query, owner) && query(pass, files) != [] && previousHead == Some(query(pass, files)[0])
    requires Purging(before, files, beforeObjects, objects, owner, stuck, tried, purged, previousHead)
    ensures IsOldestStuck(before, owner, stuck, query(pass, files)[0])
    ensures ObjectsFirst(before, files, beforeObjects, objects, owner)
  {
    var owned := query(pass, files);
    var head := owned[0];
    HeadIsOldest(files, owner, owned);
    assert head in files && head in tried;
    forall id | id in stuck && id in before && before[id].owner == owner
      ensures before[head].createdAt <= before[id].createdAt
    {
      assert id in OwnedIds(files, owner);
    }
    PurgedKeepsOrder(before, files, beforeObjects, objects, owner, stuck, tried);
  }

  lemma HeadIsOldest(files: Files, owner: Id, owned: seq<Id>)
    requires IsOldest(files, OwnedIds(files, owner), owned, PURGE_BATCH_SIZE) && owned != []
    ensures owned[0] in OwnedIds(files, owner)
    ensures forall id :: id in OwnedIds(files, owner) ==> files[owned[0]].createdAt <= files[id].createdAt
  {
    assert owned[0] in owned && owned[0] in IdSet(owned);
    forall id | id in OwnedIds(files, owner) ensures files[owned[0]].createdAt <= files[id].createdAt {
      if id in owned {
        var i :| 0 <= i < |owned| && owned[i] == id;
      }
    }
  }

  lemma PurgingNext(before: Files, mid: Files, beforeObjects: Objects, midObjects: Objects, owner: Id, stuck: set<Id>,
                    tried: set<Id>, purged: nat, previousHead: Option<Id>, owned: seq<Id>)
    requires Purging(before, mid, beforeObjects, midObjects, owner, stuck, tried, purged, previousHead)
    requires IsOldest(mid, OwnedIds(mid, owner), owned, PURGE_BATCH_SIZE) && owned != []
    ensures Purging(before, mid - (IdSet(owned) - stuck), beforeObjects, midObjects - StorageKeys(mid, IdSet(owned)),
                    owner, stuck, tried + IdSet(owned), purged + |owned|, Some(owned[0]))
  {
    var ids := IdSet(owned);
    assert owned[0] in owned;
    assert ids <= OwnedIds(before, owner);
    assert mid - (ids - stuck) == before - (tried + ids - stuck);
    assert StorageKeys(before, tried) + StorageKeys(mid, ids) == StorageKeys(before, tried + ids);
    if !SomeStuck(before, owner, stuck) {
      IdSetSize(owned);
      assert ids !! tried;
    }
  }

  lemma BrokenKeepsOrder(before: Files, mid: Files, files: Files, beforeObjects: Objects, midObjects: Objects,
                         objects: Objects, owner: Id, stuck: set<Id>, tried: set<Id>, owned: seq<Id>, i: nat,
                         breaks: Id -> Break)
    requires PurgedSoFar(before, mid, beforeObjects, midObjects, owner, stuck, tried)
    requires IsOldest(mid, OwnedIds(mid, owner), owned, PURGE_BATCH_SIZE)
    requires BrokenAt(mid, midObjects, files, objects, owned, i, stuck, breaks)
    ensures ObjectsFirst(before, files, beforeObjects, objects, owner)
  {
    PurgedKeepsOrder(before, mid, beforeObjects, midObjects, owner, stuck, tried);
    assert owned[i] in IdSet(owned) && forall id :: id in IdSet(owned[..i]) ==> id in IdSet(owned);
    forall key | key in midObjects && key !in objects ensures key.id in mid && mid[key.id].owner == owner {
      if key != mid[owned[i]].KeyOf(owned[i]) {
        var id :| id in IdSet(owned[..i]) && id in mid && mid[id].KeyOf(id) == key;
      }
    }
    forall id | id in before && id !in files ensures before[id].owner == owner && before[id].KeyOf(id) !in objects {
      if id in mid && id != owned[i] {
        assert id in IdSet(owned[..i]);
        assert mid[id].KeyOf(id) in StorageKeys(mid, IdSet(owned[..i]));
      }
    }
  }

  // ----- the purge's pace -----

  lemma Shorter(mid: Files, files: Files, owner: Id, ids: set<Id>)
    requires ids <= OwnedIds(mid, owner) && files == mid - ids
    ensures if ids == {} then files == mid else |OwnedIds(files, owner)| < |OwnedIds(mid, owner)|
  {
    if ids == {} {
      assert files == mid;
    } else {
      assert OwnedIds(files, owner) == OwnedIds(mid, owner) - ids;
      SubsetCardinality(OwnedIds(files, owner), OwnedIds(mid, owner));
    }
  }

  /** A batch of nothing but stuck files, one of them older than every other: every answer has that one at its head. */
  lemma StalledHead(before: Files, mid: Files, owner: Id, stuck: set<Id>, query: Query, pass: nat, tried: set<Id>)
    requires Answers(query, owner) && query(pass, mid) != [] && IdSet(query(pass, mid)) <= stuck
    requires HasSoleOldestStuck(before, owner, stuck) && mid == before - (tried - stuck)
    ensures HeadIs(mid, owner, query, Some(query(pass, mid)[0]))
  {
    var owned := query(pass, mid);
    var head := owned[0];
    assert owned[0] in IdSet(owned);
    HeadIsOldest(mid, owner, owned);
    forall next | query(next, mid) != [] ensures query(next, mid)[0] == head {
      HeadIsOldest(mid, owner, query(next, mid));
      SameHead(before, mid, owner, stuck, owned, query(next, mid)[0], tried);
    }
  }

  lemma SameHead(before: Files, mid: Files, owner: Id, stuck: set<Id>, owned: seq<Id>, other: Id, tried: set<Id>)
    requires IsOldest(mid, OwnedIds(mid, owner), owned, PURGE_BATCH_SIZE) && owned != [] && IdSet(owned) <= stuck
    requires HasSoleOldestStuck(before, owner, stuck) && mid == before - (tried - stuck)
    requires other in OwnedIds(mid, owner) && mid[other].createdAt == mid[owned[0]].createdAt
    requires forall id :: id in OwnedIds(mid, owner) ==> mid[owned[0]].createdAt <= mid[id].createdAt
    ensures other == owned[0]
  {
    var head := owned[0];
    var sole :| IsOldestStuck(before, owner, stuck, sole)
                && forall id :: IsOldestStuck(before, owner, stuck, id) ==> id == sole;
    assert head in IdSet(owned);
    OldestInBoth(before, mid, owner, stuck, tried, head);
    if other in stuck {
      OldestInBoth(before, mid, owner, stuck, tried, other);
    } else {
      assert other !in IdSet(owned);
      IdSetSize(owned);
      SubsetCardinality(IdSet(owned) + {other}, OwnedIds(mid, owner));
      assert |owned| >= 2 && owned[1] in owned && owned[1] in IdSet(owned);
      OldestInBoth(before, mid, owner, stuck, tried, owned[1]);
    }
  }

  /** Stuck rows stay, so a stuck file no older file is left beside was an oldest stuck one from the start. */
  lemma OldestInBoth(before: Files, mid: Files, owner: Id, stuck: set<Id>, tried: set<Id>, id: Id)
    requires mid == before - (tried - stuck) && id in stuck && id in OwnedIds(mid, owner)
    requires forall other :: other in OwnedIds(mid, owner) ==> mid[id].createdAt <= mid[other].createdAt
    ensures IsOldestStuck(before, owner, stuck, id)
  {
    forall other | other in stuck && other in before && before[other].owner == owner
      ensures before[id].createdAt <= before[other].createdAt
    {
      assert other in OwnedIds(mid, owner);
    }
  }

  lemma PaceKeeps(before: Files, mid: Files, files: Files, owner: Id, stuck: set<Id>, query: Query, pass: nat,
                  previousHead: Option<Id>, stalled: bool, owned: seq<Id>)
    requires Answers(query, owner) && owned == query(pass, mid) != [] && Some(owned[0]) != previousHead
    requires files == mid - (IdSet(owned) - stuck) && exists tried :: mid == before - (tried - stuck)
    requires Paced(before, mid, owner, stuck, query, pass, previousHead, stalled)
    ensures Paced(before, files, owner, stuck, query, pass + 1, Some(owned[0]), files == mid)
  {
    var tried :| mid == before - (tried - stuck);
    assert IsOldest(mid, OwnedIds(mid, owner), owned, PURGE_BATCH_SIZE);
    assert owned[0] in IdSet(owned);
    Shorter(mid, files, owner, IdSet(owned) - stuck);
    if IdSet(owned) - stuck == {} && HasSoleOldestStuck(before, owner, stuck) {
      StalledHead(before, mid, owner, stuck, query, pass, tried);
    }
  }

  // ----- a purge that need not end -----

  /** The answer that breaks ties by id. */
  function TiesById(files: Files, owner: Id): seq<Id> {
    var keys := Take(Ascending, OwnedKeys(files, owner), PURGE_BATCH_SIZE);
    seq(|keys|, i requires 0 <= i < |keys| => keys[i].id)
  }

  function OwnedKeys(files: Files, owner: Id): set<Key> {
    set id | id in files && files[id].owner == owner :: Key(files[id].createdAt, id)
  }

  lemma {:induction false} OwnedSize(files: Files, owner: Id, ids: set<Id>, keys: set<Key>)
    requires ids <= files.Keys && keys == set id | id in ids :: Key(files[id].createdAt, id)
    ensures |keys| == |ids|
    decreases |ids|
  {
    if ids != {} {
      var id :| id in ids;
      var k := Key(files[id].createdAt, id);
      OwnedSize(files, owner, ids - {id}, keys - {k});
    }
  }

  lemma TiesByIdAnswers(files: Files, owner: Id)
    ensures IsOldest(files, OwnedIds(files, owner), TiesById(files, owner), PURGE_BATCH_SIZE)
  {
    var all := OwnedKeys(files, owner);
    var keys := Take(Ascending, all, PURGE_BATCH_SIZE);
    var ids := TiesById(files, owner);
    SortedInOrder(Ascending, all);
    TakeMembers(Ascending, all, PURGE_BATCH_SIZE);
    TakeSetIsTake(Ascending, all, PURGE_BATCH_SIZE);
    OwnedSize(files, owner, OwnedIds(files, owner), all);
    forall i | 0 <= i < |ids|
      ensures ids[i] in OwnedIds(files, owner) && keys[i] == Key(files[ids[i]].createdAt, ids[i])
    {
      assert keys[i] in keys && keys[i] in all;
    }
    forall i, j | 0 <= i < j < |ids| ensures ids[i] != ids[j] && files[ids[i]].createdAt <= files[ids[j]].createdAt {
      assert Precedes(Ascending, keys[i], keys[j]);
    }
    forall id, other | id in ids && other in OwnedIds(files, owner) && other !in ids
      ensures files[id].createdAt <= files[other].createdAt
    {
      var i :| 0 <= i < |ids| && ids[i] == id;
      var left := Key(files[other].createdAt, other);
      assert keys[i] in keys && left in all;
      forall j | 0 <= j < |keys| ensures keys[j] != left {
        assert ids[j] in ids;
      }
      TakenFirst(Ascending, all, PURGE_BATCH_SIZE, keys[i], left);
    }
  }

  /** Two files, in either order. */
  lemma EitherOrder(files: Files, owner: Id, first: Id, second: Id)
    requires first != second && OwnedIds(files, owner) == {first, second}
    requires files[first].createdAt == files[second].createdAt
    ensures IsOldest(files, OwnedIds(files, owner), [first, second], PURGE_BATCH_SIZE)
  {
    assert IdSet([first, second]) == {first, second};
  }

  /** Ties broken by id, but for one table, whose two files come in turns. */
  function InTurns(tied: Files, owner: Id): Query {
    (pass: nat, files: Files) =>
      if files != tied then TiesById(files, owner) else if pass % 2 == 0 then [1, 2] else [2, 1]
  }

  lemma InTurnsAnswers(tied: Files, owner: Id)
    requires OwnedIds(tied, owner) == {1, 2} && tied[1].createdAt == tied[2].createdAt
    ensures Answers(InTurns(tied, owner), owner)
  {
    EitherOrder(tied, owner, 1, 2);
    EitherOrder(tied, owner, 2, 1);
    forall pass: nat, files: Files
      ensures IsOldest(files, OwnedIds(files, owner), InTurns(tied, owner)(pass, files), PURGE_BATCH_SIZE)
    {
      TiesByIdAnswers(files, owner);
    }
  }

  /** Two stuck files of one instant, answered in turns: the purge's guard never fires, however long it runs. */
  lemma TiesNeedNotEnd(tied: Files, owner: Id)
    requires OwnedIds(tied, owner) == {1, 2} && tied[1].createdAt == tied[2].createdAt
    ensures Answers(InTurns(tied, owner), owner) && NeverRepeats(tied, owner, {1, 2}, InTurns(tied, owner))
  {
    InTurnsAnswers(tied, owner);
    var query := InTurns(tied, owner);
    forall pass: nat, next: nat | next == pass + 1 ensures query(next, tied)[0] != query(pass, tied)[0] {
      TurnOf(tied, owner, pass);
      TurnOf(tied, owner, next);
    }
  }

  lemma TurnOf(tied: Files, owner: Id, pass: nat)
    ensures InTurns(tied, owner)(pass, tied) == if pass % 2 == 0 then [1, 2] else [2, 1]
  {
  }

  // ----- the sweep's bookkeeping -----

  ghost predicate SweptSoFar(loaded: Files, files: Files, beforeObjects: Objects, objects: Objects, found: seq<Id>,
                             i: nat, raced: set<Id>, now: Time, removed: nat)
  {
    && i <= |found|
    && files == SweptFiles(loaded, IdSet(found[..i]), raced, now)
    && objects == SweptObjects(loaded, beforeObjects, IdSet(found[..i]), raced)
    && removed == |SweptIds(loaded, IdSet(found[..i]), raced)|
  }

  lemma SweepStarts(files: Files, objects: Objects, found: seq<Id>, raced: set<Id>, now: Time)
    ensures SweptSoFar(files, files, objects, objects, found, 0, raced, now, 0)
  {
    assert found[..0] == [] && IdSet([]) == {};
    assert SweptIds(files, {}, raced) == {};
    assert StorageKeys(files, {}) == {};
  }

  lemma SweptSpares(before: Files, beforeObjects: Objects, found: seq<Id>, i: nat, raced: set<Id>, now: Time,
                    pendingTtl: Time)
    requires IsOldest(before, StaleIds(before, now - pendingTtl), found, SWEEP_BATCH_SIZE) && i <= |found|
    ensures var batch := IdSet(found[..i]);
            SweepSpares(before, beforeObjects, SweptFiles(before, batch, raced, now),
                        SweptObjects(before, beforeObjects, batch, raced), now, pendingTtl)
  {
    var batch := IdSet(found[..i]);
    assert forall id :: id in batch ==> id in IdSet(found);
  }

  lemma BrokenSpares(before: Files, beforeObjects: Objects, files: Files, objects: Objects, found: seq<Id>, i: nat,
                     raced: set<Id>, now: Time, w: SweepWorld, pendingTtl: Time)
    requires IsOldest(before, StaleIds(before, now - pendingTtl), found, SWEEP_BATCH_SIZE)
    requires SweepBrokenAt(before, beforeObjects, files, objects, found, i, raced, now, w)
    ensures SweepSpares(before, beforeObjects, files, objects, now, pendingTtl)
  {
    SweptSpares(before, beforeObjects, found, i, raced, now, pendingTtl);
    assert found[i] in IdSet(found);
    PartSpares(before, SweptFiles(before, IdSet(found[..i]), raced, now), beforeObjects,
               SweptObjects(before, beforeObjects, IdSet(found[..i]), raced), found[i], raced, now, w, pendingTtl);
  }

  lemma PartSpares(before: Files, mid: Files, beforeObjects: Objects, midObjects: Objects, id: Id, raced: set<Id>,
                   now: Time, w: SweepWorld, pendingTtl: Time)
    requires SweepSpares(before, beforeObjects, mid, midObjects, now, pendingTtl)
    requires id in before && IsStale(before[id], now - pendingTtl)
    ensures SweepSpares(before, beforeObjects, PartFiles(mid, id, before[id], raced, now, w),
                        PartObjects(midObjects, id, before[id], raced, w), now, pendingTtl)
  {
  }

  /** A batch that was not full held every candidate there was. */
  lemma SweptAll(before: Files, found: seq<Id>, raced: set<Id>, now: Time, pendingTtl: Time)
    requires IsOldest(before, StaleIds(before, now - pendingTtl), found, SWEEP_BATCH_SIZE) && |found| < SWEEP_BATCH_SIZE
    ensures var files := SweptFiles(before, IdSet(found), raced, now);
            forall id :: id in files ==>
              !files[id].status.Discarded? && (files[id].status.Pending? ==> files[id].createdAt + pendingTtl >= now)
  {
    IdSetSize(found);
    SubsetCardinality(IdSet(found), StaleIds(before, now - pendingTtl));
    assert forall id :: id in before && id !in IdSet(found) ==> !IsStale(before[id], now - pendingTtl);
  }

  /** Sweeping one more candidate: it is rescued or goes, and nothing else changes. */
  lemma SweepNext(loaded: Files, files: Files, beforeObjects: Objects, objects: Objects, found: seq<Id>, i: nat,
                  raced: set<Id>, now: Time, removed: nat, cutoff: Time)
    requires IsOldest(loaded, StaleIds(loaded, cutoff), found, SWEEP_BATCH_SIZE) && i < |found|
    requires SweptSoFar(loaded, files, beforeObjects, objects, found, i, raced, now, removed)
    ensures var id := found[i];
            && id in loaded && id in files && files[id] == loaded[id] && !loaded[id].status.Confirmed?
            && (Rescued(loaded, id, raced) ==>
                  SweptSoFar(loaded, files[id := AsConfirmed(loaded[id], Declared(loaded[id]), now)],
                             beforeObjects, objects, found, i + 1,
                             raced, now, removed))
            && (!Rescued(loaded, id, raced) ==>
                  SweptSoFar(loaded, files - {id}, beforeObjects, objects - {loaded[id].KeyOf(id)}, found, i + 1,
                             raced, now, removed + 1))
  {
    var id, done := found[i], IdSet(found[..i]);
    IdSetSnoc(found, i);
    assert id in IdSet(found);
    SweepOne(loaded, done, id, raced, now);
    if !Rescued(loaded, id, raced) {
      KeysGo(objects, beforeObjects, StorageKeys(loaded, SweptIds(loaded, done, raced)), loaded[id].KeyOf(id));
    }
  }

  lemma KeysGo(objects: Objects, before: Objects, keys: set<StorageKey>, key: StorageKey)
    requires objects == before - keys
    ensures objects - {key} == before - (keys + {key})
  {
  }

  lemma SweepOne(files: Files, done: set<Id>, id: Id, raced: set<Id>, now: Time)
    requires id in files && id !in done
    ensures id in SweptFiles(files, done, raced, now) && SweptFiles(files, done, raced, now)[id] == files[id]
    ensures Rescued(files, id, raced) ==>
              && SweptIds(files, done + {id}, raced) == SweptIds(files, done, raced)
              && SweptFiles(files, done + {id}, raced, now)
                 == SweptFiles(files, done, raced, now)[id := AsConfirmed(files[id], Declared(files[id]), now)]
    ensures !Rescued(files, id, raced) ==>
              && id !in SweptIds(files, done, raced)
              && SweptIds(files, done + {id}, raced) == SweptIds(files, done, raced) + {id}
              && SweptFiles(files, done + {id}, raced, now) == SweptFiles(files, done, raced, now) - {id}
              && StorageKeys(files, SweptIds(files, done + {id}, raced))
                 == StorageKeys(files, SweptIds(files, done, raced)) + {files[id].KeyOf(id)}
  {
  }
}
