/**
 * Confirms, sweepers and owner purges interleaving over one file table and one
 * object store. A confirm inspects the object in two calls, and acts on what it saw.
 */
module UploadProtocol {
  import opened Common
  import opened StoredFiles

  // ----- state -----

  datatype Confirm =
    | Resting
    | Loaded(id: Id, file: FileRow)
    | Sized(id: Id, file: FileRow, size: int)   // the object's length is known, its bytes are not
    | Discarding(id: Id, file: FileRow)   // the bytes were wrong; the discard is about to be saved
    | Committing(id: Id, file: FileRow)   // the bytes matched; the transaction is about to run

  datatype Target = Target(id: Id, file: FileRow)

  datatype Stage = Choosing | Removing(target: Target) | Deleting(target: Target)

  /** A sweeper or an owner purge: object first, row second, one file at a time. */
  datatype Cleaner = Off | Cleaning(sweeping: bool, todo: seq<Target>, stage: Stage)

  /** How long an upload URL works, and how long an upload may stay pending. */
  datatype Limits = Limits(urlLife: Time, pendingTtl: Time)

  datatype State = State(
    now: Time,
    limits: Limits,                       // configured; no step changes it
    files: Files,
    objects: map<StorageKey, Facts>,
    events: seq<FileEvent>,               // committed uploads.confirmed events
    confirms: map<nat, Confirm>,
    cleaners: map<nat, Cleaner>,
    presigned: map<Id, FileRow>,          // every row ever created, as created
    confirmed: set<Id>,                   // ids whose row was ever confirmed
    discarded: set<Id>,                   // ids whose row was ever discarded
    removed: set<StorageKey>,             // keys a cleaner has removed from storage
    urls: map<Id, Time>,                  // until when each signed upload URL works
    purged: set<StorageKey>,              // keys an owner purge has removed from storage
    expired: set<Id>)                     // ids a sweeper discarded for never being confirmed

  datatype Step =
    | Tick(to: Time)
    | Create(id: Id, row: FileRow, filename: string, maxSize: int)
    | Sign(id: Id)
    | Upload(key: StorageKey, facts: Facts)
    | Load(p: nat, id: Id, organization: Id, owner: Id)
    | HeadObject(p: nat)
    | ReadBytes(p: nat)
    | SaveDiscard(p: nat, outcome: Outcome)
    | Commit(p: nat, outcome: Outcome)
    | StopConfirm(p: nat)
    | StartSweep(w: nat, cutoff: Time, ids: seq<Id>)
    | StartPurge(w: nat, owner: Id, ids: seq<Id>)
    | Pick(w: nat, outcome: Outcome)
    | Remove(w: nat, outcome: Outcome)
    | Delete(w: nat, outcome: Outcome)
    | StopCleaner(w: nat)

  function ConfirmAt(s: State, p: nat): Confirm {
    if p in s.confirms then s.confirms[p] else Resting
  }

  function CleanerAt(s: State, w: nat): Cleaner {
    if w in s.cleaners then s.cleaners[w] else Off
  }

  ghost predicate Enabled(s: State, step: Step) {
    match step
    case Tick(to) => s.now <= to
    case Create(id, row, filename, maxSize) =>
      id !in s.presigned && row.createdAt <= s.now
      && Presign(row.organization, row.owner, filename, row.declaredMime, row.declaredSize, maxSize, row.createdAt)
          == Ok(row)
    case Sign(id) => id in s.presigned && id !in s.urls
    case Upload(key, facts) =>
      && key.id in s.urls && s.now <= s.urls[key.id]
      && key.id in s.presigned && s.presigned[key.id].KeyOf(key.id) == key
      && facts.size == s.presigned[key.id].declaredSize
    case Load(p, id, organization, owner) => ConfirmAt(s, p).Resting?
    case HeadObject(p) => ConfirmAt(s, p).Loaded?
    case ReadBytes(p) => ConfirmAt(s, p).Sized?
    case SaveDiscard(p, outcome) => ConfirmAt(s, p).Discarding?
    case Commit(p, outcome) => ConfirmAt(s, p).Committing?
    case StopConfirm(p) => true
    case StartSweep(w, cutoff, ids) =>
      CleanerAt(s, w).Off? && |ids| <= SWEEP_BATCH_SIZE && cutoff <= s.now - s.limits.pendingTtl
      && forall i :: 0 <= i < |ids| ==> ids[i] in s.files && IsStale(s.files[ids[i]], cutoff)
    case StartPurge(w, owner, ids) =>
      CleanerAt(s, w).Off? && forall i :: 0 <= i < |ids| ==> ids[i] in s.files && s.files[ids[i]].owner == owner
    case Pick(w, outcome) =>
      CleanerAt(s, w).Cleaning? && s.cleaners[w].stage.Choosing? && s.cleaners[w].todo != []
    case Remove(w, outcome) => CleanerAt(s, w).Cleaning? && s.cleaners[w].stage.Removing?
    case Delete(w, outcome) => CleanerAt(s, w).Cleaning? && s.cleaners[w].stage.Deleting?
    case StopCleaner(w) => true
  }

  function WithConfirm(s: State, p: nat, c: Confirm): State {
    s.(confirms := s.confirms[p := c])
  }

  function WithCleaner(s: State, w: nat, c: Cleaner): State {
    s.(cleaners := s.cleaners[w := c])
  }

  function Targets(files: Files, ids: seq<Id>): (r: seq<Target>)
    requires forall i :: 0 <= i < |ids| ==> ids[i] in files
    ensures |r| == |ids| && forall i :: 0 <= i < |r| ==> r[i] == Target(ids[i], files[ids[i]])
  {
    seq(|ids|, i requires 0 <= i < |ids| => Target(ids[i], files[ids[i]]))
  }

  /** A saved discard, wherever it comes from. */
  function Discard(s: State, id: Id, file: FileRow): State {
    if Saves(s.files, id, file, Pending)
    then s.(files := CompareAndSave(s.files, id, AsDiscarded(file), Pending), discarded := s.discarded + {id})
    else s
  }

  /** The sweeper's claim on a pending upload. */
  function Expire(s: State, id: Id, file: FileRow): State {
    Discard(s, id, file).(expired := if Saves(s.files, id, file, Pending) then s.expired + {id} else s.expired)
  }

  function OrElse<T>(value: Option<T>, other: T): T {
    if value.Some? then value.value else other
  }

  /** The transaction: the compare-and-set and its event commit together or not at all. */
  function CommitConfirm(s: State, id: Id, file: FileRow): State {
    if Saves(s.files, id, file, Pending)
    then s.(files := CompareAndSave(s.files, id, file, Pending),
            events := s.events + [FileConfirmed(id, file.KeyOf(id), OrElse(file.verifiedMime, file.declaredMime),
                                                OrElse(file.verifiedSize, file.declaredSize),
                                                OrElse(file.confirmedAt, s.now))],
            confirmed := s.confirmed + {id})
    else s
  }

  function AfterInspect(s: State, id: Id, file: FileRow, facts: Facts): Confirm {
    if Objection(file, facts).None? then Committing(id, AsConfirmed(file, facts, s.now))
    else if file.status.Pending? then Discarding(id, AsDiscarded(file))
    else Resting
  }

  ghost function Apply(s: State, step: Step): State
    requires Enabled(s, step)
  {
    match step
    case Tick(to) => s.(now := to)
    case Create(id, row, filename, maxSize) =>
      s.(files := s.files[id := row], presigned := s.presigned[id := row])
    case Sign(id) => s.(urls := s.urls[id := s.now + s.limits.urlLife])
    case Upload(key, facts) => s.(objects := s.objects[key := facts])
    case Load(p, id, organization, owner) =>
      if id in s.files && s.files[id].organization == organization && s.files[id].owner == owner
      then WithConfirm(s, p, Loaded(id, s.files[id])) else s
    case HeadObject(p) =>
      var c := s.confirms[p];
      var key := c.file.KeyOf(c.id);
      WithConfirm(s, p, if key in s.objects then Sized(c.id, c.file, s.objects[key].size) else Resting)
    case ReadBytes(p) =>
      var c := s.confirms[p];
      var key := c.file.KeyOf(c.id);
      WithConfirm(s, p, if key in s.objects then AfterInspect(s, c.id, c.file, Facts(s.objects[key].mime, c.size))
                        else Resting)
    case SaveDiscard(p, outcome) =>
      var c := s.confirms[p];
      WithConfirm(if outcome.Lost? then s else Discard(s, c.id, c.file), p, Resting)
    case Commit(p, outcome) =>
      var c := s.confirms[p];
      WithConfirm(if outcome.Lost? then s else CommitConfirm(s, c.id, c.file), p, Resting)
    case StopConfirm(p) => WithConfirm(s, p, Resting)
    case StartSweep(w, cutoff, ids) => WithCleaner(s, w, Cleaning(true, Targets(s.files, ids), Choosing))
    case StartPurge(w, owner, ids) => WithCleaner(s, w, Cleaning(false, Targets(s.files, ids), Choosing))
    case Pick(w, outcome) => ApplyPick(s, w, outcome)
    case Remove(w, outcome) =>
      var c := s.cleaners[w];
      var key := c.stage.target.file.KeyOf(c.stage.target.id);
      var after := if outcome.Lost? then s
                   else s.(objects := s.objects - {key}, removed := s.removed + {key},
                           purged := if c.sweeping then s.purged else s.purged + {key});
      WithCleaner(after, w, if outcome.Acked? then c.(stage := Deleting(c.stage.target)) else Off)
    case Delete(w, outcome) =>
      var c := s.cleaners[w];
      WithCleaner(if outcome.Lost? then s else s.(files := s.files - {c.stage.target.id}), w,
                  if outcome.Acked? then c.(stage := Choosing) else Off)
    case StopCleaner(w) => WithCleaner(s, w, Off)
  }

  /** The sweeper claims a pending file before touching it; losing the claim skips the file. */
  function ApplyPick(s: State, w: nat, outcome: Outcome): State
    requires CleanerAt(s, w).Cleaning? && s.cleaners[w].todo != []
  {
    var c := s.cleaners[w];
    var head := c.todo[0];
    var chosen := c.(todo := c.todo[1..], stage := Removing(head));
    if !c.sweeping || !head.file.status.Pending? then WithCleaner(s, w, chosen)
    else
      var after := if outcome.Lost? then s else Expire(s, head.id, head.file);
      WithCleaner(after, w,
                  if !outcome.Acked? then Off
                  else if Saves(s.files, head.id, head.file, Pending) then chosen
                  else c.(todo := c.todo[1..]))
  }

  ghost predicate Init(s: State) {
    && s.files == map[] && s.objects == map[] && s.events == [] && s.confirms == map[] && s.cleaners == map[]
    && s.presigned == map[] && s.confirmed == {} && s.discarded == {} && s.removed == {}
    && s.urls == map[] && s.purged == {} && s.expired == {}
  }

  ghost predicate IsRun(states: seq<State>, steps: seq<Step>) {
    && |states| == |steps| + 1
    && Init(states[0])
    && forall i :: 0 <= i < |steps| ==> Enabled(states[i], steps[i]) && states[i + 1] == Apply(states[i], steps[i])
  }

  // ----- invariant -----

  /** A copy of the row of some created file. */
  ghost predicate CopyOf(s: State, id: Id, file: FileRow) {
    id in s.presigned && file.SameFile(s.presigned[id])
  }

  ghost predicate FilesOk(s: State) {
    forall id :: id in s.files ==>
      && CopyOf(s, id, s.files[id])
      && (s.files[id].status.Confirmed? <==> id in s.confirmed)
      && (s.files[id].status.Discarded? <==> id in s.discarded)
      && (s.files[id].status.Confirmed? ==> Verified(s.files[id]))
  }

  ghost predicate HistoryOk(s: State) {
    && s.confirmed !! s.discarded
    && s.confirmed <= s.presigned.Keys
    && s.discarded <= s.presigned.Keys
    && forall id :: id in s.presigned ==> s.presigned[id].declaredMime in ALLOWED_MIME_TYPES
  }

  /** How many committed events announce this file. */
  function CountOf(events: seq<FileEvent>, id: Id): nat {
    if events == [] then 0
    else
      var n := |events| - 1;
      CountOf(events[..n], id) + if events[n].FileConfirmed? && events[n].fileId == id then 1 else 0
  }

  /** The event announces its file: its key, and its declared and thereby verified type and size. */
  ghost predicate EventSound(s: State, e: FileEvent) {
    && e.FileConfirmed? && e.fileId in s.confirmed && e.fileId in s.presigned
    && e.key == s.presigned[e.fileId].KeyOf(e.fileId)
    && e.mime == s.presigned[e.fileId].declaredMime && e.size == s.presigned[e.fileId].declaredSize
  }

  ghost predicate EventsOk(s: State) {
    && (forall id :: CountOf(s.events, id) == if id in s.confirmed then 1 else 0)
    && (forall i :: 0 <= i < |s.events| ==> EventSound(s, s.events[i]))
  }

  ghost predicate ConfirmOk(s: State, c: Confirm) {
    match c
    case Resting => true
    case Loaded(id, file) => CopyOf(s, id, file)
    case Sized(id, file, size) => CopyOf(s, id, file)
    case Discarding(id, file) => CopyOf(s, id, file) && file.status.Discarded?
    case Committing(id, file) => CopyOf(s, id, file) && file.status.Confirmed? && Verified(file)
  }

  /** What a sweeper holds was pending when it was read, or is discarded for good. */
  ghost predicate SweepTarget(s: State, t: Target) {
    t.file.status.Pending? || t.id in s.discarded
  }

  ghost predicate CleanerOk(s: State, c: Cleaner) {
    c.Cleaning? ==>
      && (forall i :: 0 <= i < |c.todo| ==>
            CopyOf(s, c.todo[i].id, c.todo[i].file) && (c.sweeping ==> SweepTarget(s, c.todo[i])))
      && (!c.stage.Choosing? ==>
            CopyOf(s, c.stage.target.id, c.stage.target.file)
            && (c.sweeping ==> c.stage.target.id in s.discarded))
      && (c.stage.Deleting? ==> c.stage.target.file.KeyOf(c.stage.target.id) in s.removed)
  }

  ghost predicate RowOrRemoved(s: State) {
    forall id :: id in s.presigned ==> id in s.files || s.presigned[id].KeyOf(id) in s.removed
  }

  ghost predicate Inv(s: State) {
    && FilesOk(s) && HistoryOk(s) && EventsOk(s) && RowOrRemoved(s)
    && (forall p :: p in s.confirms ==> ConfirmOk(s, s.confirms[p]))
    && (forall w :: w in s.cleaners ==> CleanerOk(s, s.cleaners[w]))
  }

  ghost predicate Grows(s: State, t: State) {
    && s.discarded <= t.discarded && s.removed <= t.removed
    && forall id :: id in s.presigned ==> id in t.presigned && t.presigned[id] == s.presigned[id]
  }

  lemma ProcessesFrame(s: State, t: State)
    requires Inv(s) && Grows(s, t)
    ensures forall p :: p in s.confirms ==> ConfirmOk(t, s.confirms[p])
    ensures forall w :: w in s.cleaners ==> CleanerOk(t, s.cleaners[w])
  {
  }

  // ----- every step keeps the invariant -----

  lemma DiscardKeeps(s: State, id: Id, file: FileRow)
    requires Inv(s) && CopyOf(s, id, file)
    ensures Inv(Discard(s, id, file)) && Grows(s, Discard(s, id, file))
    ensures Saves(s.files, id, file, Pending) ==> id in Discard(s, id, file).discarded
  {
    var t := Discard(s, id, file);
    if Saves(s.files, id, file, Pending) {
      assert Grows(s, t);
      ProcessesFrame(s, t);
      assert FilesOk(t) && HistoryOk(t) && RowOrRemoved(t);
      forall i | 0 <= i < |t.events| ensures EventSound(t, t.events[i]) {
        assert EventSound(s, s.events[i]);
      }
    }
  }

  lemma CommitKeeps(s: State, id: Id, file: FileRow)
    requires Inv(s) && CopyOf(s, id, file) && file.status.Confirmed? && Verified(file)
    ensures Inv(CommitConfirm(s, id, file))
  {
    var t := CommitConfirm(s, id, file);
    if Saves(s.files, id, file, Pending) {
      ProcessesFrame(s, t);
      forall other ensures CountOf(t.events, other) == if other in t.confirmed then 1 else 0 {
        assert t.events[..|s.events|] == s.events;
      }
      forall i | 0 <= i < |t.events| ensures EventSound(t, t.events[i]) {
        if i < |s.events| {
          assert t.events[i] == s.events[i] && EventSound(s, s.events[i]);
        }
      }
    }
  }

  /** The invariant does not look at URLs, nor at why keys and files went. */
  lemma UrlsFrame(s: State, urls: map<Id, Time>, purged: set<StorageKey>, expired: set<Id>)
    requires Inv(s)
    ensures Inv(s.(urls := urls, purged := purged, expired := expired))
  {
    ProcessesFrame(s, s.(urls := urls, purged := purged, expired := expired));
  }

  /** A confirm that moves to a sound stage keeps the invariant. */
  lemma ConfirmMove(s: State, p: nat, c: Confirm)
    requires Inv(s) && ConfirmOk(s, c)
    ensures Inv(WithConfirm(s, p, c))
  {
    var t := WithConfirm(s, p, c);
    ProcessesFrame(s, t);
    assert FilesOk(t) && HistoryOk(t) && EventsOk(t) && RowOrRemoved(t);
  }

  lemma CleanerMove(s: State, w: nat, c: Cleaner)
    requires Inv(s) && CleanerOk(s, c)
    ensures Inv(WithCleaner(s, w, c))
  {
    var t := WithCleaner(s, w, c);
    ProcessesFrame(s, t);
    assert FilesOk(t) && HistoryOk(t) && EventsOk(t) && RowOrRemoved(t);
  }

  lemma ConfirmWriteKeeps(s: State, step: Step)
    requires (step.SaveDiscard? || step.Commit?) && Enabled(s, step) && Inv(s)
    ensures Inv(Apply(s, step))
  {
    var c := s.confirms[step.p];
    assert ConfirmOk(s, c);
    if step.SaveDiscard? {
      DiscardKeeps(s, c.id, c.file);
      ConfirmMove(if step.outcome.Lost? then s else Discard(s, c.id, c.file), step.p, Resting);
    } else {
      CommitKeeps(s, c.id, c.file);
      ConfirmMove(if step.outcome.Lost? then s else CommitConfirm(s, c.id, c.file), step.p, Resting);
    }
  }

  lemma ConfirmSideKeeps(s: State, step: Step)
    requires step.Load? || step.HeadObject? || step.ReadBytes? || step.SaveDiscard? || step.Commit? || step.StopConfirm?
    requires Enabled(s, step) && Inv(s)
    ensures Inv(Apply(s, step))
  {
    match step
    case Load(p, id, organization, owner) =>
      if id in s.files { ConfirmMove(s, p, Loaded(id, s.files[id])); }
    case HeadObject(p) => ConfirmMove(s, p, Apply(s, step).confirms[p]);
    case ReadBytes(p) => ConfirmMove(s, p, Apply(s, step).confirms[p]);
    case StopConfirm(p) => ConfirmMove(s, p, Resting);
    case _ => ConfirmWriteKeeps(s, step);
  }

  lemma ExpireKeeps(s: State, id: Id, file: FileRow)
    requires Inv(s) && CopyOf(s, id, file)
    ensures Inv(Expire(s, id, file)) && Grows(s, Expire(s, id, file))
    ensures Saves(s.files, id, file, Pending) ==> id in Expire(s, id, file).discarded
  {
    DiscardKeeps(s, id, file);
    var t := Discard(s, id, file);
    UrlsFrame(t, t.urls, t.purged, Expire(s, id, file).expired);
  }

  /** What the cleaner goes on with, once its pick is made on the state it leaves. */
  lemma PickedOk(s: State, t: State, c: Cleaner, next: Cleaner)
    requires c.Cleaning? && c.todo != [] && CleanerOk(s, c) && Grows(s, t) && c.stage.Choosing?
    requires next == c.(todo := c.todo[1..])
             || (next == c.(todo := c.todo[1..], stage := Removing(c.todo[0]))
                 && (c.sweeping ==> c.todo[0].id in t.discarded))
    ensures CleanerOk(t, next)
  {
  }

  lemma PickKeeps(s: State, step: Step)
    requires step.Pick? && Enabled(s, step) && Inv(s)
    ensures Inv(Apply(s, step))
  {
    var c := s.cleaners[step.w];
    var head := c.todo[0];
    assert CleanerOk(s, c);
    assert CopyOf(s, head.id, head.file);
    if !c.sweeping || !head.file.status.Pending? {
      PickedOk(s, s, c, c.(todo := c.todo[1..], stage := Removing(head)));
      CleanerMove(s, step.w, c.(todo := c.todo[1..], stage := Removing(head)));
    } else {
      ExpireKeeps(s, head.id, head.file);
      var after := if step.outcome.Lost? then s else Expire(s, head.id, head.file);
      var next := Apply(s, step).cleaners[step.w];
      if next.Cleaning? {
        PickedOk(s, after, c, next);
      }
      CleanerMove(after, step.w, next);
    }
  }

  lemma KeyRemoved(s: State, key: StorageKey, purged: set<StorageKey>)
    requires Inv(s)
    ensures Inv(s.(objects := s.objects - {key}, removed := s.removed + {key}, purged := purged))
  {
    var t := s.(objects := s.objects - {key}, removed := s.removed + {key}, purged := purged);
    ProcessesFrame(s, t);
    assert FilesOk(t) && HistoryOk(t) && RowOrRemoved(t);
    forall i | 0 <= i < |t.events| ensures EventSound(t, t.events[i]) {
      assert EventSound(s, s.events[i]);
    }
  }

  lemma RemoveKeeps(s: State, step: Step)
    requires step.Remove? && Enabled(s, step) && Inv(s)
    ensures Inv(Apply(s, step))
  {
    var c := s.cleaners[step.w];
    var key := c.stage.target.file.KeyOf(c.stage.target.id);
    var purged := if c.sweeping then s.purged else s.purged + {key};
    assert CleanerOk(s, c);
    if step.outcome.Lost? {
      CleanerMove(s, step.w, Off);
    } else {
      KeyRemoved(s, key, purged);
      var after := s.(objects := s.objects - {key}, removed := s.removed + {key}, purged := purged);
      CleanerMove(after, step.w, if step.outcome.Acked? then c.(stage := Deleting(c.stage.target)) else Off);
    }
  }

  lemma RowGone(s: State, id: Id)
    requires Inv(s) && id in s.presigned && s.presigned[id].KeyOf(id) in s.removed
    ensures Inv(s.(files := s.files - {id}))
  {
    var t := s.(files := s.files - {id});
    ProcessesFrame(s, t);
    assert FilesOk(t) && HistoryOk(t) && RowOrRemoved(t);
    forall i | 0 <= i < |t.events| ensures EventSound(t, t.events[i]) {
      assert EventSound(s, s.events[i]);
    }
  }

  lemma DeleteKeeps(s: State, step: Step)
    requires step.Delete? && Enabled(s, step) && Inv(s)
    ensures Inv(Apply(s, step))
  {
    var c := s.cleaners[step.w];
    var id := c.stage.target.id;
    assert CleanerOk(s, c);
    var after := if step.outcome.Lost? then s else s.(files := s.files - {id});
    RowGone(s, id);
    CleanerMove(after, step.w, if step.outcome.Acked? then c.(stage := Choosing) else Off);
  }

  lemma StartKeeps(s: State, step: Step)
    requires step.StartSweep? || step.StartPurge? || step.StopCleaner?
    requires Enabled(s, step) && Inv(s)
    ensures Inv(Apply(s, step))
  {
    CleanerMove(s, step.w, Apply(s, step).cleaners[step.w]);
  }

  lemma CreateKeepsEvents(s: State, id: Id, row: FileRow)
    requires EventsOk(s) && id !in s.presigned
    ensures EventsOk(s.(files := s.files[id := row], presigned := s.presigned[id := row]))
  {
    var t := s.(files := s.files[id := row], presigned := s.presigned[id := row]);
    forall i | 0 <= i < |t.events| ensures EventSound(t, t.events[i]) {
      assert EventSound(s, s.events[i]);
    }
  }

  lemma CreateMove(s: State, id: Id, row: FileRow)
    requires Inv(s) && id !in s.presigned && row.status.Pending? && row.declaredMime in ALLOWED_MIME_TYPES
    ensures Inv(s.(files := s.files[id := row], presigned := s.presigned[id := row]))
  {
    var t := s.(files := s.files[id := row], presigned := s.presigned[id := row]);
    ProcessesFrame(s, t);
    CreateKeepsEvents(s, id, row);
    assert FilesOk(t) && HistoryOk(t) && RowOrRemoved(t);
  }

  lemma CreateKeeps(s: State, step: Step)
    requires step.Create? && Enabled(s, step) && Inv(s)
    ensures Inv(Apply(s, step))
  {
    CreateMove(s, step.id, step.row);
  }

  lemma QuietKeeps(s: State, step: Step)
    requires (step.Tick? || step.Upload? || step.Sign?) && Enabled(s, step) && Inv(s)
    ensures Inv(Apply(s, step))
  {
    ProcessesFrame(s, Apply(s, step));
  }

  lemma StepKeeps(s: State, step: Step)
    requires Enabled(s, step) && Inv(s)
    ensures Inv(Apply(s, step))
  {
    match step
    case Tick(_) => QuietKeeps(s, step);
    case Create(_, _, _, _) => CreateKeeps(s, step);
    case Sign(_) => QuietKeeps(s, step);
    case Upload(_, _) => QuietKeeps(s, step);
    case Pick(_, _) => PickKeeps(s, step);
    case Remove(_, _) => RemoveKeeps(s, step);
    case Delete(_, _) => DeleteKeeps(s, step);
    case _ =>
      if step.StartSweep? || step.StartPurge? || step.StopCleaner? {
        StartKeeps(s, step);
      } else {
        ConfirmSideKeeps(s, step);
      }
  }

  lemma {:induction false} RunKeeps(states: seq<State>, steps: seq<Step>, n: nat)
    requires IsRun(states, steps) && n < |states|
    ensures Inv(states[n])
  {
    if n > 0 {
      RunKeeps(states, steps, n - 1);
      StepKeeps(states[n - 1], steps[n - 1]);
    }
  }

  // ----- what holds of every run -----

  /** History is never rewritten. */
  ghost predicate Remembers(s: State, t: State) {
    && s.confirmed <= t.confirmed && s.discarded <= t.discarded
    && forall id :: id in s.presigned ==> id in t.presigned && t.presigned[id] == s.presigned[id]
  }

  lemma StepRemembers(s: State, step: Step)
    requires Enabled(s, step)
    ensures Remembers(s, Apply(s, step))
  {
  }

  ghost predicate Chained(states: seq<State>) {
    forall i :: 0 < i < |states| ==> Remembers(states[i - 1], states[i])
  }

  lemma {:induction false} ChainRemembers(states: seq<State>, m: nat, n: nat)
    requires Chained(states) && m <= n < |states|
    ensures Remembers(states[m], states[n])
  {
    if m < n {
      ChainRemembers(states, m, n - 1);
      assert Remembers(states[n - 1], states[n]);
    }
  }

  lemma HistoryGrows(states: seq<State>, steps: seq<Step>, m: nat, n: nat)
    requires IsRun(states, steps) && m <= n < |states|
    ensures Remembers(states[m], states[n])
  {
    forall i | 0 < i < |states| ensures Remembers(states[i - 1], states[i]) {
      StepRemembers(states[i - 1], steps[i - 1]);
    }
    ChainRemembers(states, m, n);
  }

  predicate ConfirmedIn(s: State, id: Id) {
    id in s.files && s.files[id].status.Confirmed?
  }

  /** A statement with which a sweeper removes an object or deletes a row of this file. */
  ghost predicate SweepsAway(s: State, step: Step, id: Id) {
    && (step.Remove? || step.Delete?)
    && CleanerAt(s, step.w).Cleaning? && s.cleaners[step.w].sweeping
    && !s.cleaners[step.w].stage.Choosing? && s.cleaners[step.w].stage.target.id == id
  }

  /** No sweeper ever touches the object or row of a file that is, was or becomes confirmed. */
  lemma SweepersSpareConfirmedFiles(states: seq<State>, steps: seq<Step>, m: nat, n: nat, id: Id)
    requires IsRun(states, steps) && m < |states| && n < |steps|
    requires SweepsAway(states[n], steps[n], id)
    ensures !ConfirmedIn(states[m], id)
  {
    RunKeeps(states, steps, n);
    RunKeeps(states, steps, m);
    assert CleanerOk(states[n], states[n].cleaners[steps[n].w]);
    assert id in states[n].discarded;
    if m <= n {
      HistoryGrows(states, steps, m, n);
      assert id !in states[m].confirmed;
    } else {
      HistoryGrows(states, steps, n, m);
    }
  }

  ghost predicate Moves(a: FileRow, b: FileRow) {
    a.SameFile(b) && (a.status == b.status || a.status.Pending?)
  }

  /** A row's fixed columns never change, and its status moves at most once, from pending. */
  lemma StatusMovesOnce(states: seq<State>, steps: seq<Step>, m: nat, n: nat, id: Id)
    requires IsRun(states, steps) && m <= n < |states|
    requires id in states[m].files && id in states[n].files
    ensures Moves(states[m].files[id], states[n].files[id])
  {
    RunKeeps(states, steps, m);
    RunKeeps(states, steps, n);
    HistoryGrows(states, steps, m, n);
    assert CopyOf(states[m], id, states[m].files[id]) && CopyOf(states[n], id, states[n].files[id]);
  }

  lemma OnlyCommitsConfirm(s: State, step: Step)
    requires Enabled(s, step) && !step.Commit?
    ensures Apply(s, step).confirmed == s.confirmed
  {
  }

  lemma NewlyConfirmed(s: State, step: Step, id: Id)
    requires Enabled(s, step) && Inv(s) && id !in s.confirmed && id in Apply(s, step).confirmed
    ensures step.Commit? && ConfirmedIn(Apply(s, step), id)
  {
    if step.Commit? {
      assert ConfirmOk(s, s.confirms[step.p]);
    } else {
      OnlyCommitsConfirm(s, step);
    }
  }

  lemma {:induction false} ConfirmedWasStored(states: seq<State>, steps: seq<Step>, n: nat, id: Id)
    requires IsRun(states, steps) && n < |states| && id in states[n].confirmed
    ensures exists m :: 0 <= m <= n && ConfirmedIn(states[m], id)
  {
    if n > 0 {
      RunKeeps(states, steps, n - 1);
      if id in states[n - 1].confirmed {
        ConfirmedWasStored(states, steps, n - 1, id);
      } else {
        NewlyConfirmed(states[n - 1], steps[n - 1], id);
      }
    }
  }

  /** A file was confirmed at some point exactly when exactly one event announces it; otherwise none does. */
  lemma ConfirmedExactlyOnce(states: seq<State>, steps: seq<Step>, n: nat, id: Id)
    requires IsRun(states, steps) && n < |states|
    ensures (exists m :: 0 <= m <= n && ConfirmedIn(states[m], id)) <==> CountOf(states[n].events, id) == 1
    ensures CountOf(states[n].events, id) <= 1
  {
    RunKeeps(states, steps, n);
    if id in states[n].confirmed {
      ConfirmedWasStored(states, steps, n, id);
    }
    forall m | 0 <= m <= n && ConfirmedIn(states[m], id) ensures id in states[n].confirmed {
      RunKeeps(states, steps, m);
      HistoryGrows(states, steps, m, n);
    }
  }

  /** Every confirmed row was checked: stored size and type are the declared ones, and the type is allowed. */
  lemma ConfirmedIsVerified(states: seq<State>, steps: seq<Step>, n: nat, id: Id)
    requires IsRun(states, steps) && n < |states| && ConfirmedIn(states[n], id)
    ensures var file := states[n].files[id];
            && file.verifiedSize == Some(file.declaredSize)
            && file.verifiedMime == Some(file.declaredMime)
            && file.declaredMime in {"image/png", "image/jpeg", "image/webp", "image/gif", "application/pdf"}
  {
    RunKeeps(states, steps, n);
  }

  /** Every committed event announces the file as it was created, and as its row still says while there is one. */
  lemma EventsDescribeTheirFiles(states: seq<State>, steps: seq<Step>, n: nat, i: nat)
    requires IsRun(states, steps) && n < |states| && i < |states[n].events|
    ensures var e := states[n].events[i];
            && e.FileConfirmed? && e.fileId in states[n].presigned
            && e.key == states[n].presigned[e.fileId].KeyOf(e.fileId)
            && e.mime == states[n].presigned[e.fileId].declaredMime
            && e.size == states[n].presigned[e.fileId].declaredSize
            && (e.fileId in states[n].files ==>
                  && ConfirmedIn(states[n], e.fileId)
                  && e.key == states[n].files[e.fileId].KeyOf(e.fileId)
                  && Some(e.mime) == states[n].files[e.fileId].verifiedMime
                  && Some(e.size) == states[n].files[e.fileId].verifiedSize)
  {
    RunKeeps(states, steps, n);
    assert EventSound(states[n], states[n].events[i]);
  }
}
