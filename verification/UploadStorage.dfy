/**
 * Rows and their objects: no object without a row, no confirmed file without its
 * object, and exactly when each of these fails.
 */
module UploadStorage {
  import opened Common
  import opened StoredFiles
  import opened UploadProtocol

  // ----- no object without a row -----

  ghost predicate NoLateUploads(states: seq<State>, steps: seq<Step>)
    requires |states| == |steps| + 1
  {
    forall i :: 0 <= i < |steps| && steps[i].Upload? ==> steps[i].key !in states[i].removed
  }

  ghost predicate ObjectsHaveRows(s: State) {
    forall key :: key in s.objects ==>
      key !in s.removed && key.id in s.files && s.files[key.id].KeyOf(key.id) == key
  }

  /** Rows and their keys stay put. */
  ghost predicate SameKeys(s: State, t: State) {
    && t.objects == s.objects && t.removed == s.removed
    && forall id :: id in s.files ==> id in t.files && t.files[id].KeyOf(id) == s.files[id].KeyOf(id)
  }

  lemma CasKeepsKeys(s: State, id: Id, file: FileRow)
    ensures SameKeys(s, Discard(s, id, file)) && SameKeys(s, CommitConfirm(s, id, file))
  {
  }

  /** A pick claims its file or leaves the state alone, and moves the cleaner. */
  lemma PickIs(s: State, step: Step) returns (after: State, next: Cleaner)
    requires step.Pick? && Enabled(s, step)
    ensures Apply(s, step) == WithCleaner(after, step.w, next)
    ensures var c := s.cleaners[step.w];
            && (after == s
                || (after == Expire(s, c.todo[0].id, c.todo[0].file) && c.sweeping && c.todo[0].file.status.Pending?))
            && (next.Off? || (next.todo == c.todo[1..] && next.sweeping == c.sweeping))
  {
    var c := s.cleaners[step.w];
    var head := c.todo[0];
    next := Apply(s, step).cleaners[step.w];
    var claims := c.sweeping && head.file.status.Pending? && !step.outcome.Lost?;
    after := if claims then Expire(s, head.id, head.file) else s;
  }

  lemma PickKeepsKeys(s: State, step: Step)
    requires step.Pick? && Enabled(s, step)
    ensures SameKeys(s, Apply(s, step))
  {
    CasKeepsKeys(s, s.cleaners[step.w].todo[0].id, s.cleaners[step.w].todo[0].file);
    var after, next := PickIs(s, step);
  }

  lemma CreateKeepsKeys(s: State, step: Step)
    requires Enabled(s, step) && FilesOk(s) && step.Create?
    ensures SameKeys(s, Apply(s, step))
  {
    assert forall id :: id in s.files ==> CopyOf(s, id, s.files[id]);
  }

  lemma WritesKeepKeys(s: State, step: Step)
    requires Enabled(s, step) && (step.SaveDiscard? || step.Commit?)
    ensures SameKeys(s, Apply(s, step))
  {
    CasKeepsKeys(s, s.confirms[step.p].id, s.confirms[step.p].file);
  }

  lemma ReadsKeepKeys(s: State, step: Step)
    requires Enabled(s, step)
    requires step.Tick? || step.Sign? || step.Load? || step.HeadObject? || step.ReadBytes? || step.StopConfirm?
             || step.StartSweep? || step.StartPurge? || step.StopCleaner?
    ensures SameKeys(s, Apply(s, step))
  {
  }

  lemma DeletedHasNoObject(s: State, w: nat)
    requires Inv(s) && ObjectsHaveRows(s) && CleanerAt(s, w).Cleaning? && s.cleaners[w].stage.Deleting?
    ensures forall key :: key in s.objects ==> key.id != s.cleaners[w].stage.target.id
  {
    var t := s.cleaners[w].stage.target;
    assert CleanerOk(s, s.cleaners[w]);
    forall key | key in s.objects ensures key.id != t.id {
      assert CopyOf(s, key.id, s.files[key.id]);
    }
  }

  lemma SameKeysHaveRows(s: State, t: State)
    requires ObjectsHaveRows(s) && SameKeys(s, t)
    ensures ObjectsHaveRows(t)
  {
  }

  lemma UploadHasRow(s: State, step: Step)
    requires step.Upload? && Enabled(s, step) && Inv(s) && ObjectsHaveRows(s) && step.key !in s.removed
    ensures ObjectsHaveRows(Apply(s, step))
  {
    assert step.key.id in s.files && CopyOf(s, step.key.id, s.files[step.key.id]);
  }

  lemma CleanupKeepsRows(s: State, step: Step)
    requires (step.Remove? || step.Delete?) && Enabled(s, step) && Inv(s) && ObjectsHaveRows(s)
    ensures ObjectsHaveRows(Apply(s, step))
  {
    if step.Delete? {
      DeletedHasNoObject(s, step.w);
    }
  }

  lemma ObjectsStep(s: State, step: Step)
    requires Inv(s) && Enabled(s, step) && ObjectsHaveRows(s)
    requires step.Upload? ==> step.key !in s.removed
    ensures ObjectsHaveRows(Apply(s, step))
  {
    if step.Upload? {
      UploadHasRow(s, step);
    } else if step.Remove? || step.Delete? {
      CleanupKeepsRows(s, step);
    } else {
      if step.Pick? {
        PickKeepsKeys(s, step);
      } else if step.SaveDiscard? || step.Commit? {
        WritesKeepKeys(s, step);
      } else if step.Create? {
        CreateKeepsKeys(s, step);
      } else {
        ReadsKeepKeys(s, step);
      }
      SameKeysHaveRows(s, Apply(s, step));
    }
  }

  /** Unless bytes arrive for a key after its removal, no object is ever without a row, at any stop. */
  lemma {:induction false} NoOrphanedObjects(states: seq<State>, steps: seq<Step>, n: nat)
    requires IsRun(states, steps) && n < |states| && NoLateUploads(states, steps)
    ensures ObjectsHaveRows(states[n])
  {
    if n > 0 {
      NoOrphanedObjects(states, steps, n - 1);
      RunKeeps(states, steps, n - 1);
      ObjectsStep(states[n - 1], steps[n - 1]);
    }
  }

  // ----- when an object is orphaned -----

  /** The step takes this object out of storage. */
  ghost predicate Clears(s: State, step: Step, key: StorageKey) {
    && step.Remove? && !step.outcome.Lost? && CleanerAt(s, step.w).Cleaning? && s.cleaners[step.w].stage.Removing?
    && s.cleaners[step.w].stage.target.file.KeyOf(s.cleaners[step.w].stage.target.id) == key
  }

  /** An owner purge takes this object out of storage. */
  ghost predicate Purges(s: State, step: Step, key: StorageKey) {
    Clears(s, step, key) && !s.cleaners[step.w].sweeping
  }

  /** No step from m on, before n, takes the object out. */
  ghost predicate Kept(states: seq<State>, steps: seq<Step>, m: nat, n: nat, key: StorageKey)
    requires |states| == |steps| + 1 && n < |states|
  {
    forall k :: m <= k < n ==> !Clears(states[k], steps[k], key)
  }

  ghost predicate UploadedAt(steps: seq<Step>, m: nat, key: StorageKey) {
    m < |steps| && steps[m].Upload? && steps[m].key == key
  }

  ghost predicate SameObjects(s: State, t: State) {
    t.objects == s.objects && t.removed == s.removed && t.purged == s.purged
  }

  lemma CleanersKeepObjects(s: State, step: Step)
    requires Enabled(s, step)
    requires step.Pick? || step.Delete? || step.StartSweep? || step.StartPurge? || step.StopCleaner?
    ensures SameObjects(s, Apply(s, step))
  {
    if step.Pick? {
      var after, next := PickIs(s, step);
    }
  }

  lemma OthersKeepObjects(s: State, step: Step)
    requires Enabled(s, step) && !step.Upload? && !step.Remove?
    requires !step.Pick? && !step.Delete? && !step.StartSweep? && !step.StartPurge? && !step.StopCleaner?
    ensures SameObjects(s, Apply(s, step))
  {
  }

  lemma ObjectSteps(s: State, step: Step, key: StorageKey)
    requires Enabled(s, step)
    ensures key in Apply(s, step).objects
            <==> (key in s.objects && !Clears(s, step, key)) || (step.Upload? && step.key == key)
    ensures key in Apply(s, step).removed <==> key in s.removed || Clears(s, step, key)
    ensures key in Apply(s, step).purged ==> key in s.purged || Purges(s, step, key)
  {
    if step.Pick? || step.Delete? || step.StartSweep? || step.StartPurge? || step.StopCleaner? {
      CleanersKeepObjects(s, step);
    } else if !step.Upload? && !step.Remove? {
      OthersKeepObjects(s, step);
    }
  }

  /** What every step does to one object, without the rest of the state. */
  ghost predicate ObjectChain(states: seq<State>, steps: seq<Step>, key: StorageKey) {
    && |states| == |steps| + 1 && key !in states[0].objects
    && forall i :: 0 < i < |states| ==>
         && (key in states[i].objects <==>
               (key in states[i - 1].objects && !Clears(states[i - 1], steps[i - 1], key))
               || UploadedAt(steps, i - 1, key))
         && (key in states[i].removed <==> key in states[i - 1].removed || Clears(states[i - 1], steps[i - 1], key))
  }

  lemma RunIsChain(states: seq<State>, steps: seq<Step>, key: StorageKey)
    requires IsRun(states, steps)
    ensures ObjectChain(states, steps, key)
  {
    forall i | 0 < i < |states|
      ensures key in states[i].objects <==>
                (key in states[i - 1].objects && !Clears(states[i - 1], steps[i - 1], key))
                || UploadedAt(steps, i - 1, key)
      ensures key in states[i].removed <==> key in states[i - 1].removed || Clears(states[i - 1], steps[i - 1], key)
    {
      ObjectSteps(states[i - 1], steps[i - 1], key);
    }
  }

  lemma {:induction false} StoredSince(states: seq<State>, steps: seq<Step>, n: nat, key: StorageKey) returns (m: nat)
    requires ObjectChain(states, steps, key) && n < |states| && key in states[n].objects
    ensures m < n && UploadedAt(steps, m, key) && Kept(states, steps, m, n, key)
  {
    m := n - 1;
    if UploadedAt(steps, m, key) {
      assert !Clears(states[m], steps[m], key);
    } else {
      m := StoredSince(states, steps, n - 1, key);
    }
  }

  lemma {:induction false} KeptSince(states: seq<State>, steps: seq<Step>, m: nat, n: nat, key: StorageKey)
    requires ObjectChain(states, steps, key) && m < n < |states| && Kept(states, steps, m, n, key)
    ensures UploadedAt(steps, m, key) ==> key in states[n].objects
    ensures key in states[n].removed <==> key in states[m].removed
  {
    assert !Clears(states[n - 1], steps[n - 1], key);
    if m < n - 1 {
      KeptSince(states, steps, m, n - 1, key);
    }
  }

  /**
   * Once a file's row is gone, its object is still in storage exactly when bytes arrived
   * for its key after a cleaner had removed it, and none has removed it since.
   */
  lemma OrphanedExactlyWhen(states: seq<State>, steps: seq<Step>, n: nat, id: Id)
    requires IsRun(states, steps) && n < |states| && id in states[n].presigned && id !in states[n].files
    ensures var key := states[n].presigned[id].KeyOf(id);
            key in states[n].objects
            <==> exists m: nat :: m < n && UploadedAt(steps, m, key) && key in states[m].removed
                                  && Kept(states, steps, m, n, key)
  {
    var key := states[n].presigned[id].KeyOf(id);
    RunKeeps(states, steps, n);
    RunIsChain(states, steps, key);
    if key in states[n].objects {
      var m := StoredSince(states, steps, n, key);
      KeptSince(states, steps, m, n, key);
    }
    forall m: nat | m < n && UploadedAt(steps, m, key) && Kept(states, steps, m, n, key)
      ensures key in states[n].objects
    {
      KeptSince(states, steps, m, n, key);
    }
  }

  // ----- a run that orphans an object -----

  ghost predicate Presigned(file: FileRow, filename: string) {
    Presign(file.organization, file.owner, filename, file.declaredMime, file.declaredSize, file.declaredSize,
            file.createdAt) == Ok(file)
  }

  ghost predicate Then(s: State, step: Step, t: State) {
    Enabled(s, step) && t == Apply(s, step)
  }

  lemma RunThen(states: seq<State>, steps: seq<Step>, step: Step, next: State)
    requires IsRun(states, steps) && Then(states[|steps|], step, next)
    ensures IsRun(states + [next], steps + [step])
  {
  }

  function Empty(limits: Limits): State {
    State(0, limits, map[], map[], [], map[], map[], map[], {}, {}, {}, map[], {}, {})
  }

  /** Presigned, and its bytes have arrived. */
  lemma CreatedAndUploaded(limits: Limits, file: FileRow, facts: Facts, filename: string)
    returns (states: seq<State>, steps: seq<Step>)
    requires limits.urlLife >= 0 && Presigned(file, filename) && file.createdAt == 0 && facts.size == file.declaredSize
    ensures IsRun(states, steps) && |steps| == 3
    ensures states[3] == Empty(limits).(files := map[1 := file], presigned := map[1 := file],
                                        urls := map[1 := limits.urlLife], objects := map[file.KeyOf(1) := facts])
  {
    var s0 := Empty(limits);
    var s1 := s0.(files := map[1 := file], presigned := map[1 := file]);
    var s2 := s1.(urls := map[1 := limits.urlLife]);
    var s3 := s2.(objects := map[file.KeyOf(1) := facts]);
    states, steps := [s0], [];
    RunThen(states, steps, Create(1, file, filename, file.declaredSize), s1);
    states, steps := states + [s1], steps + [Create(1, file, filename, file.declaredSize)];
    RunThen(states, steps, Sign(1), s2);
    states, steps := states + [s2], steps + [Sign(1)];
    RunThen(states, steps, Upload(file.KeyOf(1), facts), s3);
    states, steps := states + [s3], steps + [Upload(file.KeyOf(1), facts)];
  }

  lemma Inspected(s: State, file: FileRow, facts: Facts) returns (t: State, u: State, v: State)
    requires s.files == map[1 := file] && s.confirms == map[] && s.objects == map[file.KeyOf(1) := facts]
    requires file.status.Pending? && facts.size == file.declaredSize && facts.mime != Some(file.declaredMime)
    ensures Then(s, Load(0, 1, file.organization, file.owner), t) && Then(t, HeadObject(0), u)
              && Then(u, ReadBytes(0), v)
    ensures v == s.(confirms := map[0 := Discarding(1, AsDiscarded(file))])
  {
    t := s.(confirms := map[0 := Loaded(1, file)]);
    u := s.(confirms := map[0 := Sized(1, file, facts.size)]);
    v := s.(confirms := map[0 := Discarding(1, AsDiscarded(file))]);
    assert t.confirms[0 := Sized(1, file, facts.size)] == u.confirms;
    assert u.confirms[0 := Discarding(1, AsDiscarded(file))] == v.confirms;
  }

  lemma DiscardSaved(s: State, file: FileRow) returns (t: State)
    requires s.files == map[1 := file] && ConfirmAt(s, 0) == Discarding(1, AsDiscarded(file)) && file.status.Pending?
    ensures Then(s, SaveDiscard(0, Acked), t)
    ensures t.files == map[1 := AsDiscarded(file)] && t.presigned == s.presigned && t.cleaners == s.cleaners
    ensures t.now == s.now && t.limits == s.limits && t.urls == s.urls
  {
    t := Apply(s, SaveDiscard(0, Acked));
  }

  /** The bytes are of another type than was declared: the confirm inspects them and discards the file. */
  lemma MismatchDiscarded(limits: Limits, file: FileRow, facts: Facts, filename: string)
    returns (states: seq<State>, steps: seq<Step>)
    requires limits.urlLife >= 0 && Presigned(file, filename) && file.createdAt == 0
    requires facts.size == file.declaredSize && facts.mime != Some(file.declaredMime)
    ensures IsRun(states, steps) && |steps| == 7
    ensures var s := states[7];
            && s.now == 0 && s.limits == limits && s.urls == map[1 := limits.urlLife]
            && s.files == map[1 := AsDiscarded(file)] && s.presigned == map[1 := file] && s.cleaners == map[]
  {
    states, steps := CreatedAndUploaded(limits, file, facts, filename);
    var t, u, v := Inspected(states[3], file, facts);
    var x := DiscardSaved(v, file);
    RunThen(states, steps, Load(0, 1, file.organization, file.owner), t);
    states, steps := states + [t], steps + [Load(0, 1, file.organization, file.owner)];
    RunThen(states, steps, HeadObject(0), u);
    states, steps := states + [u], steps + [HeadObject(0)];
    RunThen(states, steps, ReadBytes(0), v);
    states, steps := states + [v], steps + [ReadBytes(0)];
    RunThen(states, steps, SaveDiscard(0, Acked), x);
    states, steps := states + [x], steps + [SaveDiscard(0, Acked)];
  }

  lemma SweepStarts(s: State, file: FileRow) returns (t: State, u: State)
    requires s.files == map[1 := file] && file.status.Discarded? && s.cleaners == map[]
    ensures Then(s, StartSweep(0, s.now - s.limits.pendingTtl, [1]), t) && Then(t, Pick(0, Acked), u)
    ensures u == WithCleaner(s, 0, Cleaning(true, [], Removing(Target(1, file))))
  {
    assert Targets(s.files, [1]) == [Target(1, file)];
    t := WithCleaner(s, 0, Cleaning(true, [Target(1, file)], Choosing));
    u := WithCleaner(s, 0, Cleaning(true, [], Removing(Target(1, file))));
    assert [Target(1, file)][1..] == [];
    assert t.cleaners[0 := u.cleaners[0]] == u.cleaners;
  }

  lemma SweepEnds(s: State, target: Target) returns (t: State, u: State)
    requires CleanerAt(s, 0) == Cleaning(true, [], Removing(target))
    ensures Then(s, Remove(0, Acked), t) && Then(t, Delete(0, Acked), u)
    ensures u.files == s.files - {target.id} && u.presigned == s.presigned
    ensures u.now == s.now && u.urls == s.urls
  {
    t := Apply(s, Remove(0, Acked));
    u := Apply(t, Delete(0, Acked));
  }

  /** A discarded file is swept: its object goes, then its row. */
  lemma DiscardedSwept(states: seq<State>, steps: seq<Step>, file: FileRow) returns (more: seq<State>, taken: seq<Step>)
    requires IsRun(states, steps) && file.status.Discarded?
    requires states[|steps|].files == map[1 := file] && states[|steps|].cleaners == map[]
    ensures IsRun(more, taken) && |taken| == |steps| + 4
    ensures var s, t := states[|steps|], more[|taken|];
            1 !in t.files && t.presigned == s.presigned && t.now == s.now && t.urls == s.urls
  {
    var s := states[|steps|];
    var s1, s2 := SweepStarts(s, file);
    var s3, s4 := SweepEnds(s2, Target(1, file));
    var sweep := StartSweep(0, s.now - s.limits.pendingTtl, [1]);
    RunThen(states, steps, sweep, s1);
    more, taken := states + [s1], steps + [sweep];
    RunThen(more, taken, Pick(0, Acked), s2);
    more, taken := more + [s2], taken + [Pick(0, Acked)];
    RunThen(more, taken, Remove(0, Acked), s3);
    more, taken := more + [s3], taken + [Remove(0, Acked)];
    RunThen(more, taken, Delete(0, Acked), s4);
    more, taken := more + [s4], taken + [Delete(0, Acked)];
  }

  /**
   * A late upload does orphan its object: bytes of the wrong type are uploaded, inspected
   * and discarded, the sweep removes object and row, and the URL, still good, is used again.
   */
  lemma LateUploadOrphans(limits: Limits, file: FileRow, facts: Facts, filename: string)
    returns (states: seq<State>, steps: seq<Step>)
    requires limits.urlLife >= 0 && Presigned(file, filename) && file.createdAt == 0
    requires facts.size == file.declaredSize && facts.mime != Some(file.declaredMime)
    ensures IsRun(states, steps) && |steps| == 12 && steps[11] == Upload(file.KeyOf(1), facts)
    ensures file.KeyOf(1) in states[12].objects && 1 !in states[12].files
  {
    states, steps := MismatchDiscarded(limits, file, facts, filename);
    states, steps := DiscardedSwept(states, steps, AsDiscarded(file));
    var s11 := states[11];
    var s12 := s11.(objects := s11.objects[file.KeyOf(1) := facts]);
    var late := Upload(file.KeyOf(1), facts);
    RunThen(states, steps, late, s12);
    states, steps := states + [s12], steps + [late];
  }

  // ----- no confirmed file without its object -----

  /** The object is there, or an owner purge took it. */
  ghost predicate InStorage(s: State, key: StorageKey) {
    key in s.objects || key in s.purged
  }

  ghost predicate CommitBacked(s: State, c: Confirm) {
    c.Committing? ==> InStorage(s, c.file.KeyOf(c.id)) || c.id in s.discarded
  }

  ghost predicate Backed(s: State) {
    && (forall id :: id in s.confirmed && id in s.presigned ==> InStorage(s, s.presigned[id].KeyOf(id)))
    && (forall p :: p in s.confirms ==> CommitBacked(s, s.confirms[p]))
  }

  /** What a step that clears no object keeps. */
  lemma NothingCleared(s: State, t: State)
    requires Backed(s) && s.objects.Keys <= t.objects.Keys && s.purged <= t.purged && s.discarded <= t.discarded
    requires t.confirmed == s.confirmed && s.confirmed <= s.presigned.Keys
    requires forall id :: id in s.presigned ==> id in t.presigned && t.presigned[id] == s.presigned[id]
    requires forall p :: p in t.confirms ==>
               (p in s.confirms && t.confirms[p] == s.confirms[p]) || CommitBacked(t, t.confirms[p])
    ensures Backed(t)
  {
    forall id | id in t.confirmed && id in t.presigned ensures InStorage(t, t.presigned[id].KeyOf(id)) {
      assert InStorage(s, s.presigned[id].KeyOf(id));
    }
    forall p | p in t.confirms ensures CommitBacked(t, t.confirms[p]) {
      if p in s.confirms && t.confirms[p] == s.confirms[p] {
        assert CommitBacked(s, s.confirms[p]);
      }
    }
  }

  lemma CommittedIsBacked(s: State, id: Id, file: FileRow)
    requires Inv(s) && Backed(s) && CopyOf(s, id, file) && (InStorage(s, file.KeyOf(id)) || id in s.discarded)
    ensures Backed(CommitConfirm(s, id, file))
  {
    var t := CommitConfirm(s, id, file);
    forall other | other in t.confirmed && other in t.presigned ensures InStorage(t, t.presigned[other].KeyOf(other)) {
      if other in s.confirmed {
        assert InStorage(s, s.presigned[other].KeyOf(other));
      }
    }
    forall p | p in t.confirms ensures CommitBacked(t, t.confirms[p]) {
      assert CommitBacked(s, s.confirms[p]);
    }
  }

  lemma CommitIsBacked(s: State, step: Step)
    requires step.Commit? && Enabled(s, step) && Inv(s) && Backed(s)
    ensures Backed(Apply(s, step))
  {
    var c := s.confirms[step.p];
    assert ConfirmOk(s, c) && CommitBacked(s, c);
    CommittedIsBacked(s, c.id, c.file);
    var after := if step.outcome.Lost? then s else CommitConfirm(s, c.id, c.file);
    forall p | p in WithConfirm(after, step.p, Resting).confirms
      ensures CommitBacked(after, WithConfirm(after, step.p, Resting).confirms[p])
    {
    }
  }

  /** A sweeper only clears keys of discarded files, which are never confirmed. */
  lemma RemoveIsBacked(s: State, step: Step)
    requires step.Remove? && Enabled(s, step) && Inv(s) && Backed(s)
    ensures Backed(Apply(s, step))
  {
    var c := s.cleaners[step.w];
    var t := Apply(s, step);
    assert CleanerOk(s, c);
    forall id | id in t.confirmed && id in t.presigned ensures InStorage(t, t.presigned[id].KeyOf(id)) {
      assert InStorage(s, s.presigned[id].KeyOf(id));
    }
    forall p | p in t.confirms ensures CommitBacked(t, t.confirms[p]) {
      assert CommitBacked(s, s.confirms[p]) && ConfirmOk(s, s.confirms[p]);
    }
  }

  lemma PickIsBacked(s: State, step: Step)
    requires step.Pick? && Enabled(s, step) && Inv(s) && Backed(s)
    ensures Backed(Apply(s, step))
  {
    var after, next := PickIs(s, step);
    NothingCleared(s, WithCleaner(after, step.w, next));
  }

  lemma CleanerIsBacked(s: State, step: Step)
    requires step.Delete? || step.StartSweep? || step.StartPurge? || step.StopCleaner?
    requires Enabled(s, step) && Inv(s) && Backed(s)
    ensures Backed(Apply(s, step))
  {
    NothingCleared(s, Apply(s, step));
  }

  lemma DiscardIsBacked(s: State, step: Step)
    requires step.SaveDiscard? && Enabled(s, step) && Inv(s) && Backed(s)
    ensures Backed(Apply(s, step))
  {
    var c := s.confirms[step.p];
    DiscardClearsNothing(s, if step.outcome.Lost? then s else Discard(s, c.id, c.file), step.p, c);
  }

  lemma DiscardClearsNothing(s: State, after: State, p: nat, c: Confirm)
    requires c.Discarding? && (after == s || after == Discard(s, c.id, c.file))
    requires Backed(s) && s.confirmed <= s.presigned.Keys
    ensures Backed(WithConfirm(after, p, Resting))
  {
    NothingCleared(s, WithConfirm(after, p, Resting));
  }

  lemma ConfirmIsBacked(s: State, step: Step)
    requires step.Load? || step.HeadObject? || step.ReadBytes? || step.StopConfirm?
    requires Enabled(s, step) && Inv(s) && Backed(s)
    ensures Backed(Apply(s, step))
  {
    var t := Apply(s, step);
    if t != s {
      var c := t.confirms[step.p];
      assert t == WithConfirm(s, step.p, c) && CommitBacked(t, c);
    }
    NothingCleared(s, t);
  }

  lemma BackedStep(s: State, step: Step)
    requires Enabled(s, step) && Inv(s) && Backed(s)
    ensures Backed(Apply(s, step))
  {
    if step.Commit? {
      CommitIsBacked(s, step);
    } else if step.Remove? {
      RemoveIsBacked(s, step);
    } else if step.Pick? {
      PickIsBacked(s, step);
    } else if step.SaveDiscard? {
      DiscardIsBacked(s, step);
    } else if step.Delete? || step.StartSweep? || step.StartPurge? || step.StopCleaner? {
      CleanerIsBacked(s, step);
    } else if step.Load? || step.HeadObject? || step.ReadBytes? || step.StopConfirm? {
      ConfirmIsBacked(s, step);
    } else {
      QuietIsBacked(s, step);
    }
  }

  lemma QuietIsBacked(s: State, step: Step)
    requires step.Tick? || step.Create? || step.Sign? || step.Upload?
    requires Enabled(s, step) && Inv(s) && Backed(s)
    ensures Backed(Apply(s, step))
  {
    NothingCleared(s, Apply(s, step));
  }

  lemma {:induction false} RunIsBacked(states: seq<State>, steps: seq<Step>, n: nat)
    requires IsRun(states, steps) && n < |states|
    ensures Backed(states[n])
  {
    if n > 0 {
      RunIsBacked(states, steps, n - 1);
      RunKeeps(states, steps, n - 1);
      BackedStep(states[n - 1], steps[n - 1]);
    }
  }

  lemma {:induction false} WasPurged(states: seq<State>, steps: seq<Step>, n: nat, key: StorageKey) returns (m: nat)
    requires IsRun(states, steps) && n < |states| && key in states[n].purged
    ensures m < n && Purges(states[m], steps[m], key)
  {
    if key in states[n - 1].purged {
      m := WasPurged(states, steps, n - 1, key);
    } else {
      m := n - 1;
      ObjectSteps(states[m], steps[m], key);
    }
  }

  /** A confirmed file's object is in storage, unless an owner purge has taken it. */
  lemma ConfirmedObjectsStay(states: seq<State>, steps: seq<Step>, n: nat, id: Id)
    requires IsRun(states, steps) && n < |states| && ConfirmedIn(states[n], id)
    ensures var key := states[n].files[id].KeyOf(id);
            key in states[n].objects || exists m: nat :: m < n && Purges(states[m], steps[m], key)
  {
    RunKeeps(states, steps, n);
    RunIsBacked(states, steps, n);
    var key := states[n].files[id].KeyOf(id);
    assert CopyOf(states[n], id, states[n].files[id]);
    assert InStorage(states[n], states[n].presigned[id].KeyOf(id));
    if key !in states[n].objects {
      var m := WasPurged(states, steps, n, key);
    }
  }

  // ----- expiry and the life of a URL -----

  /** The file has been pending for longer than it may. */
  ghost predicate Overdue(s: State, createdAt: Time) {
    createdAt + s.limits.pendingTtl < s.now
  }

  ghost predicate SweepIsDue(s: State, c: Cleaner) {
    c.Cleaning? && c.sweeping ==>
      forall i :: 0 <= i < |c.todo| && c.todo[i].file.status.Pending? ==> Overdue(s, c.todo[i].file.createdAt)
  }

  ghost predicate ExpiredIsDue(s: State) {
    && (forall id :: id in s.expired ==> id in s.presigned && Overdue(s, s.presigned[id].createdAt))
    && (forall w :: w in s.cleaners ==> SweepIsDue(s, s.cleaners[w]))
  }

  lemma DueFrame(s: State, t: State)
    requires ExpiredIsDue(s) && t.limits == s.limits && s.now <= t.now && t.expired == s.expired
    requires forall id :: id in s.presigned ==> id in t.presigned && t.presigned[id] == s.presigned[id]
    requires forall w :: w in t.cleaners ==>
               (w in s.cleaners && t.cleaners[w] == s.cleaners[w]) || SweepIsDue(t, t.cleaners[w])
    ensures ExpiredIsDue(t)
  {
    forall w | w in t.cleaners ensures SweepIsDue(t, t.cleaners[w]) {
      if w in s.cleaners && t.cleaners[w] == s.cleaners[w] {
        assert SweepIsDue(s, s.cleaners[w]);
      }
    }
  }

  lemma PickIsDue(s: State, step: Step)
    requires step.Pick? && Enabled(s, step) && Inv(s) && ExpiredIsDue(s)
    ensures ExpiredIsDue(Apply(s, step))
  {
    var c := s.cleaners[step.w];
    var head := c.todo[0];
    var after, next := PickIs(s, step);
    assert SweepIsDue(s, c) && CleanerOk(s, c) && CopyOf(s, head.id, head.file);
    assert SweepIsDue(s, next);
    ClaimIsDue(s, after, head);
    DueFrame(after, WithCleaner(after, step.w, next));
  }

  lemma ClaimIsDue(s: State, after: State, head: Target)
    requires ExpiredIsDue(s) && CopyOf(s, head.id, head.file)
    requires after == s || (after == Expire(s, head.id, head.file) && Overdue(s, head.file.createdAt))
    ensures ExpiredIsDue(after) && after.now == s.now && after.limits == s.limits
  {
    forall w | w in after.cleaners ensures SweepIsDue(after, after.cleaners[w]) {
      assert SweepIsDue(s, s.cleaners[w]);
    }
  }

  lemma StartIsDue(s: State, step: Step)
    requires (step.StartSweep? || step.StartPurge?) && Enabled(s, step) && ExpiredIsDue(s)
    ensures ExpiredIsDue(Apply(s, step))
  {
    var c := Cleaning(step.StartSweep?, Targets(s.files, step.ids), Choosing);
    assert SweepIsDue(s, c);
    DueFrame(s, WithCleaner(s, step.w, c));
  }

  lemma CleanerMoveIsDue(s: State, t: State, w: nat, c: Cleaner)
    requires ExpiredIsDue(s) && t.now == s.now && t.limits == s.limits && t.expired == s.expired
    requires t.presigned == s.presigned && t.cleaners == s.cleaners[w := c] && SweepIsDue(s, c)
    ensures ExpiredIsDue(t)
  {
    assert SweepIsDue(t, c);
    DueFrame(s, t);
  }

  lemma StopIsDue(s: State, step: Step)
    requires step.StopCleaner? && Enabled(s, step) && ExpiredIsDue(s)
    ensures ExpiredIsDue(Apply(s, step))
  {
    CleanerMoveIsDue(s, Apply(s, step), step.w, Apply(s, step).cleaners[step.w]);
  }

  lemma CleanerIsDue(s: State, step: Step)
    requires (step.Remove? || step.Delete?) && Enabled(s, step) && ExpiredIsDue(s)
    ensures ExpiredIsDue(Apply(s, step))
  {
    assert SweepIsDue(s, s.cleaners[step.w]);
    CleanerMoveIsDue(s, Apply(s, step), step.w, Apply(s, step).cleaners[step.w]);
  }

  lemma OtherIsDue(s: State, step: Step)
    requires !step.Pick? && !step.StartSweep? && !step.StartPurge? && !step.Remove? && !step.Delete?
    requires !step.StopCleaner?
    requires Enabled(s, step) && ExpiredIsDue(s)
    ensures ExpiredIsDue(Apply(s, step))
  {
    var t := Apply(s, step);
    assert t.cleaners == s.cleaners && t.expired == s.expired && t.limits == s.limits;
    DueFrame(s, t);
  }

  lemma DueStep(s: State, step: Step)
    requires Enabled(s, step) && Inv(s) && ExpiredIsDue(s)
    ensures ExpiredIsDue(Apply(s, step))
  {
    if step.Pick? {
      PickIsDue(s, step);
    } else if step.StartSweep? || step.StartPurge? {
      StartIsDue(s, step);
    } else if step.StopCleaner? {
      StopIsDue(s, step);
    } else if step.Remove? || step.Delete? {
      CleanerIsDue(s, step);
    } else {
      OtherIsDue(s, step);
    }
  }

  lemma {:induction false} RunIsDue(states: seq<State>, steps: seq<Step>, n: nat)
    requires IsRun(states, steps) && n < |states|
    ensures ExpiredIsDue(states[n])
  {
    if n > 0 {
      RunIsDue(states, steps, n - 1);
      RunKeeps(states, steps, n - 1);
      DueStep(states[n - 1], steps[n - 1]);
    }
  }

  /**
   * As long as no URL outlives the time its upload may stay pending, no bytes arrive for a
   * file once a sweeper has given it up as never confirmed.
   */
  lemma ExpiredFilesGetNoBytes(states: seq<State>, steps: seq<Step>, n: nat)
    requires IsRun(states, steps) && n < |steps| && steps[n].Upload?
    requires var s, id := states[n], steps[n].key.id;
             s.urls[id] <= s.presigned[id].createdAt + s.limits.pendingTtl
    ensures steps[n].key.id !in states[n].expired
  {
    RunIsDue(states, steps, n);
  }
}
