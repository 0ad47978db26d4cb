/** What went before: every confirmation, discard, removal and upload traced back to the steps behind it. */
module UploadOrigins {
  import opened Common
  import opened StoredFiles
  import opened UploadProtocol
  import opened UploadStorage

  // ----- confirms -----

  /** The file's owner, in its organization, starts confirming it. */
  ghost predicate LoadsFile(s: State, step: Step, p: nat, id: Id, file: FileRow) {
    && step == Load(p, id, file.organization, file.owner)
    && id in s.files && s.files[id] == file
  }

  /** The first look: the length of the stored object. */
  ghost predicate SizedAt(s: State, step: Step, p: nat, key: StorageKey, size: int) {
    step == HeadObject(p) && key in s.objects && s.objects[key].size == size
  }

  /** The second look: the type of the stored bytes. */
  ghost predicate ReadAt(s: State, step: Step, p: nat, key: StorageKey, mime: Option<string>) {
    step == ReadBytes(p) && key in s.objects && s.objects[key].mime == mime
  }

  /** What the two looks make of the file: confirmed with what was seen, or discarded for what was seen. */
  ghost predicate Judges(file: FileRow, size: int, mime: Option<string>, at: Time, c: Confirm) {
    var fits := && size == file.declaredSize && mime == Some(file.declaredMime)
                && file.declaredMime in {"image/png", "image/jpeg", "image/webp", "image/gif", "application/pdf"};
    && file.status.Pending?
    && (c.Committing? ==>
          fits && c.file == file.(status := Confirmed, verifiedMime := mime, verifiedSize := Some(size),
                                  confirmedAt := Some(at)))
    && (c.Discarding? ==> !fits && c.file == file.(status := Discarded))
  }

  ghost predicate Judged(s: State, step: Step, p: nat, was: Confirm, c: Confirm) {
    && (c.Committing? || c.Discarding?) && was.Sized? && c.id == was.id && was.file.KeyOf(was.id) in s.objects
    && var mime := s.objects[was.file.KeyOf(was.id)].mime;
       ReadAt(s, step, p, was.file.KeyOf(was.id), mime) && Judges(was.file, was.size, mime, s.now, c)
  }

  /** How a confirm comes to be where it is after a step. */
  ghost predicate ComesFrom(s: State, step: Step, p: nat, was: Confirm, c: Confirm) {
    c == was || match c
    case Resting => true
    case Loaded(id, file) => LoadsFile(s, step, p, id, file)
    case Sized(id, file, size) => was == Loaded(id, file) && SizedAt(s, step, p, file.KeyOf(id), size)
    case _ => Judged(s, step, p, was, c)
  }

  lemma ConfirmMoves(s: State, step: Step, p: nat)
    requires Enabled(s, step)
    ensures ComesFrom(s, step, p, ConfirmAt(s, p), ConfirmAt(Apply(s, step), p))
  {
    if step.Pick? {
      var after, next := PickIs(s, step);
    }
  }

  ghost predicate Follows(states: seq<State>, steps: seq<Step>, i: nat, p: nat)
    requires i < |steps| && |states| == |steps| + 1
  {
    ComesFrom(states[i], steps[i], p, ConfirmAt(states[i], p), ConfirmAt(states[i + 1], p))
  }

  ghost predicate AllFollow(states: seq<State>, steps: seq<Step>, p: nat) {
    && |states| == |steps| + 1 && ConfirmAt(states[0], p) == Resting
    && forall i: nat :: i < |steps| ==> Follows(states, steps, i, p)
  }

  lemma RunFollows(states: seq<State>, steps: seq<Step>, p: nat)
    requires IsRun(states, steps)
    ensures AllFollow(states, steps, p)
  {
    forall i: nat | i < |steps| ensures Follows(states, steps, i, p) {
      ConfirmMoves(states[i], steps[i], p);
    }
  }

  lemma {:induction false} WasLoaded(states: seq<State>, steps: seq<Step>, n: nat, p: nat) returns (l: nat)
    requires AllFollow(states, steps, p) && n < |states| && ConfirmAt(states[n], p).Loaded?
    ensures var c := ConfirmAt(states[n], p); l < n && LoadsFile(states[l], steps[l], p, c.id, c.file)
  {
    l := n - 1;
    assert Follows(states, steps, l, p);
    if ConfirmAt(states[l], p) == ConfirmAt(states[n], p) {
      l := WasLoaded(states, steps, l, p);
    }
  }

  lemma {:induction false} WasSized(states: seq<State>, steps: seq<Step>, n: nat, p: nat) returns (l: nat, h: nat)
    requires AllFollow(states, steps, p) && n < |states| && ConfirmAt(states[n], p).Sized?
    ensures var c := ConfirmAt(states[n], p);
            && l < h < n && LoadsFile(states[l], steps[l], p, c.id, c.file)
            && SizedAt(states[h], steps[h], p, c.file.KeyOf(c.id), c.size)
  {
    h := n - 1;
    assert Follows(states, steps, h, p);
    if ConfirmAt(states[h], p) == ConfirmAt(states[n], p) {
      l, h := WasSized(states, steps, h, p);
    } else {
      l := WasLoaded(states, steps, h, p);
    }
  }

  /** The steps of p's confirm that led to this judgement of the file as it was loaded. */
  ghost predicate Inspected(states: seq<State>, steps: seq<Step>, l: nat, h: nat, k: nat, p: nat, c: Confirm)
    requires l < h < k < |steps| && |states| == |steps| + 1 && (c.Committing? || c.Discarding?)
  {
    exists file, size, mime ::
      && LoadsFile(states[l], steps[l], p, c.id, file)
      && SizedAt(states[h], steps[h], p, file.KeyOf(c.id), size)
      && ReadAt(states[k], steps[k], p, file.KeyOf(c.id), mime)
      && Judges(file, size, mime, states[k].now, c)
  }

  lemma {:induction false} WasInspected(states: seq<State>, steps: seq<Step>, n: nat, p: nat)
    returns (l: nat, h: nat, k: nat)
    requires AllFollow(states, steps, p) && n < |states|
    requires ConfirmAt(states[n], p).Committing? || ConfirmAt(states[n], p).Discarding?
    ensures l < h < k < n && Inspected(states, steps, l, h, k, p, ConfirmAt(states[n], p))
  {
    k := n - 1;
    assert Follows(states, steps, k, p);
    var was := ConfirmAt(states[k], p);
    if was == ConfirmAt(states[n], p) {
      l, h, k := WasInspected(states, steps, k, p);
    } else {
      l, h := WasSized(states, steps, k, p);
      assert ReadAt(states[k], steps[k], p, was.file.KeyOf(was.id), states[k].objects[was.file.KeyOf(was.id)].mime);
    }
  }

  lemma CommitWrites(s: State, step: Step, id: Id)
    requires Enabled(s, step) && Inv(s) && step.Commit? && id !in s.confirmed && id in Apply(s, step).confirmed
    ensures ConfirmAt(s, step.p) == Committing(id, Apply(s, step).files[id])
    ensures var row := Apply(s, step).files[id];
            && row.verifiedMime.Some? && row.verifiedSize.Some?
            && (row.confirmedAt.Some? ==>
                  Apply(s, step).events == s.events + [FileConfirmed(id, row.KeyOf(id), row.verifiedMime.value,
                                                                     row.verifiedSize.value, row.confirmedAt.value)])
  {
    var c := s.confirms[step.p];
    assert ConfirmOk(s, c);
    if id in s.files {
      assert CopyOf(s, id, s.files[id]);
    }
  }

  /**
   * A file is confirmed only after its owner has asked for it and its stored object was looked at
   * twice: the length then, and the type of the bytes after that, are the declared ones and are
   * what the row's verified columns record, and the event that commits with it announces.
   */
  lemma ConfirmedWasInspected(states: seq<State>, steps: seq<Step>, n: nat, id: Id) returns (l: nat, h: nat, k: nat)
    requires IsRun(states, steps) && n < |steps| && id !in states[n].confirmed && id in states[n + 1].confirmed
    ensures steps[n].Commit? && l < h < k < n && id in states[n + 1].files
    ensures var row, p := states[n + 1].files[id], steps[n].p;
            && steps[l] == Load(p, id, row.organization, row.owner)
            && row.verifiedSize == Some(row.declaredSize) && row.verifiedMime == Some(row.declaredMime)
            && SizedAt(states[h], steps[h], p, row.KeyOf(id), row.declaredSize)
            && ReadAt(states[k], steps[k], p, row.KeyOf(id), Some(row.declaredMime))
            && row.confirmedAt == Some(states[k].now)
            && states[n + 1].events == states[n].events + [FileConfirmed(id, row.KeyOf(id), row.declaredMime,
                                                                         row.declaredSize, states[k].now)]
  {
    RunKeeps(states, steps, n);
    NewlyConfirmed(states[n], steps[n], id);
    CommitWrites(states[n], steps[n], id);
    RunFollows(states, steps, steps[n].p);
    l, h, k := WasInspected(states, steps, n, steps[n].p);
  }

  /** A confirm that saves a discard had seen bytes that are not what was declared, or not allowed. */
  lemma DiscardedForCause(states: seq<State>, steps: seq<Step>, n: nat) returns (l: nat, h: nat, k: nat)
    requires IsRun(states, steps) && n < |steps| && steps[n].SaveDiscard?
    ensures l < h < k < n && ConfirmAt(states[n], steps[n].p).Discarding?
    ensures Inspected(states, steps, l, h, k, steps[n].p, ConfirmAt(states[n], steps[n].p))
  {
    RunFollows(states, steps, steps[n].p);
    l, h, k := WasInspected(states, steps, n, steps[n].p);
  }

  // ----- cleaners -----

  /** The cleaner is to deal with this file, as its row then was. */
  ghost predicate Has(c: Cleaner, target: Target) {
    c.Cleaning? && (target in c.todo || (!c.stage.Choosing? && c.stage.target == target))
  }

  /** The step chose the file: a purge, its owner's; a sweep, a discarded upload or one pending too long. */
  ghost predicate Chooses(s: State, step: Step, w: nat, sweeping: bool, target: Target) {
    && target.id in s.files && s.files[target.id] == target.file
    && if sweeping then
         && step.StartSweep? && step.w == w
         && (target.file.status.Discarded?
             || (target.file.status.Pending? && target.file.createdAt + s.limits.pendingTtl < s.now))
       else step.StartPurge? && step.w == w && target.file.owner == step.owner
  }

  lemma CleanerMoves(s: State, step: Step, w: nat, target: Target)
    requires Enabled(s, step) && Has(CleanerAt(Apply(s, step), w), target)
    ensures var c := CleanerAt(Apply(s, step), w);
            || (Has(CleanerAt(s, w), target) && CleanerAt(s, w).sweeping == c.sweeping)
            || Chooses(s, step, w, c.sweeping, target)
  {
    if step.Pick? {
      PickTakesOne(s, step, w, target);
    } else if (step.StartSweep? || step.StartPurge?) && step.w == w {
      StartChooses(s, step, target);
    }
  }

  lemma StartChooses(s: State, step: Step, target: Target)
    requires (step.StartSweep? || step.StartPurge?) && Enabled(s, step)
    requires Has(CleanerAt(Apply(s, step), step.w), target)
    ensures Chooses(s, step, step.w, CleanerAt(Apply(s, step), step.w).sweeping, target)
  {
    var targets := Targets(s.files, step.ids);
    var i :| 0 <= i < |targets| && targets[i] == target;
  }

  /** The cleaner after a pick: over, or past its first file, which it may be removing. */
  ghost predicate Picked(c: Cleaner, next: Cleaner)
    requires c.Cleaning? && c.todo != []
  {
    next.Off?
    || (next.todo == c.todo[1..] && next.sweeping == c.sweeping
        && (next.stage.Choosing? || next.stage == Removing(c.todo[0])))
  }

  lemma PickMoves(s: State, step: Step)
    requires step.Pick? && Enabled(s, step)
    ensures step.w in Apply(s, step).cleaners && Picked(s.cleaners[step.w], Apply(s, step).cleaners[step.w])
    ensures Apply(s, step).cleaners == s.cleaners[step.w := Apply(s, step).cleaners[step.w]]
  {
    var after, next := PickIs(s, step);
  }

  lemma PickedHas(c: Cleaner, next: Cleaner, target: Target)
    requires c.Cleaning? && c.todo != [] && Picked(c, next) && Has(next, target)
    ensures Has(c, target) && next.sweeping == c.sweeping
  {
    assert c.todo == [c.todo[0]] + c.todo[1..];
  }

  lemma PickTakesOne(s: State, step: Step, w: nat, target: Target)
    requires step.Pick? && Enabled(s, step) && Has(CleanerAt(Apply(s, step), w), target)
    ensures Has(CleanerAt(s, w), target) && CleanerAt(s, w).sweeping == CleanerAt(Apply(s, step), w).sweeping
  {
    PickMoves(s, step);
    if step.w == w {
      PickedHas(s.cleaners[w], Apply(s, step).cleaners[w], target);
    }
  }

  ghost predicate Kept(states: seq<State>, steps: seq<Step>, i: nat, w: nat, target: Target)
    requires i < |steps| && |states| == |steps| + 1
  {
    Has(CleanerAt(states[i + 1], w), target) ==>
      var c := CleanerAt(states[i + 1], w);
      || (Has(CleanerAt(states[i], w), target) && CleanerAt(states[i], w).sweeping == c.sweeping)
      || Chooses(states[i], steps[i], w, c.sweeping, target)
  }

  lemma {:induction false} ChosenBefore(states: seq<State>, steps: seq<Step>, n: nat, w: nat, target: Target)
    returns (m: nat)
    requires |states| == |steps| + 1 && n < |states|
    requires Has(CleanerAt(states[n], w), target) && CleanerAt(states[0], w) == Off
    requires forall i: nat :: i < |steps| ==> Kept(states, steps, i, w, target)
    ensures m < n && Chooses(states[m], steps[m], w, CleanerAt(states[n], w).sweeping, target)
  {
    m := n - 1;
    assert Kept(states, steps, m, w, target);
    if !Chooses(states[m], steps[m], w, CleanerAt(states[n], w).sweeping, target) {
      m := ChosenBefore(states, steps, m, w, target);
    }
  }

  /**
   * Whatever object or row a cleaner takes, it had chosen for a reason: a purge takes files of the
   * owner it was started for, a sweep files that were discarded or had been pending too long.
   */
  lemma RemovedWasChosen(states: seq<State>, steps: seq<Step>, n: nat) returns (m: nat)
    requires IsRun(states, steps) && n < |steps| && (steps[n].Remove? || steps[n].Delete?)
    ensures var c := CleanerAt(states[n], steps[n].w);
            && c.Cleaning? && !c.stage.Choosing?
            && m < n && Chooses(states[m], steps[m], steps[n].w, c.sweeping, c.stage.target)
  {
    var w := steps[n].w;
    var target := states[n].cleaners[w].stage.target;
    forall i: nat | i < |steps| ensures Kept(states, steps, i, w, target) {
      if Has(CleanerAt(states[i + 1], w), target) {
        CleanerMoves(states[i], steps[i], w, target);
      }
    }
    m := ChosenBefore(states, steps, n, w, target);
  }

  // ----- uploads -----

  ghost predicate Signs(s: State, step: Step, id: Id, until: Time) {
    step == Sign(id) && until == s.now + s.limits.urlLife
  }

  ghost predicate UrlKept(states: seq<State>, steps: seq<Step>, i: nat, id: Id)
    requires i < |steps| && |states| == |steps| + 1
  {
    id in states[i + 1].urls ==>
      || (id in states[i].urls && states[i].urls[id] == states[i + 1].urls[id])
      || Signs(states[i], steps[i], id, states[i + 1].urls[id])
  }

  lemma UrlAppears(s: State, step: Step, id: Id)
    requires Enabled(s, step) && id in Apply(s, step).urls
    ensures (id in s.urls && s.urls[id] == Apply(s, step).urls[id]) || Signs(s, step, id, Apply(s, step).urls[id])
  {
    if step.Pick? {
      var after, next := PickIs(s, step);
    }
  }

  lemma {:induction false} SignedBefore(states: seq<State>, steps: seq<Step>, n: nat, id: Id) returns (m: nat)
    requires |states| == |steps| + 1 && n < |states| && id in states[n].urls && id !in states[0].urls
    requires forall i: nat :: i < |steps| ==> UrlKept(states, steps, i, id)
    ensures m < n && Signs(states[m], steps[m], id, states[n].urls[id])
  {
    m := n - 1;
    assert UrlKept(states, steps, m, id);
    if !Signs(states[m], steps[m], id, states[n].urls[id]) {
      m := SignedBefore(states, steps, m, id);
    }
  }

  /** Bytes arrive only under a URL signed for that file no longer ago than URLs live, and of the declared length. */
  lemma UploadsAreSigned(states: seq<State>, steps: seq<Step>, n: nat) returns (m: nat)
    requires IsRun(states, steps) && n < |steps| && steps[n].Upload?
    ensures m < n && steps[m] == Sign(steps[n].key.id)
    ensures states[n].now <= states[m].now + states[m].limits.urlLife
    ensures var id := steps[n].key.id;
            && id in states[n].presigned && steps[n].key == states[n].presigned[id].KeyOf(id)
            && steps[n].facts.size == states[n].presigned[id].declaredSize
  {
    var id := steps[n].key.id;
    forall i: nat | i < |steps| ensures UrlKept(states, steps, i, id) {
      if id in states[i + 1].urls {
        UrlAppears(states[i], steps[i], id);
      }
    }
    m := SignedBefore(states, steps, n, id);
  }
}
