/** The stored-file aggregate: what may be presigned, confirmed and discarded. */
module StoredFiles {
  import opened Common

  datatype Status = Pending | Confirmed | Discarded

  const ALLOWED_MIME_TYPES: set<string> :=
    {"image/png", "image/jpeg", "image/webp", "image/gif", "application/pdf"}

  /** `uploads/{organization}/{owner}/{id}`. */
  datatype StorageKey = StorageKey(organization: Id, owner: Id, id: Id)

  datatype FileRow = FileRow(
    organization: Id,
    owner: Id,
    filename: string,
    declaredMime: string,
    declaredSize: int,
    status: Status,
    createdAt: Time,
    verifiedMime: Option<string>,
    verifiedSize: Option<int>,
    confirmedAt: Option<Time>)
  {
    function KeyOf(id: Id): StorageKey {
      StorageKey(organization, owner, id)
    }

    /** The columns fixed when the row is created. */
    predicate SameFile(other: FileRow) {
      && organization == other.organization && owner == other.owner && filename == other.filename
      && declaredMime == other.declaredMime && declaredSize == other.declaredSize
      && createdAt == other.createdAt
    }
  }

  /** What object storage reports about the bytes that arrived. */
  datatype Facts = Facts(mime: Option<string>, size: int)

  datatype Refusal =
    | MimeNotAllowed | SizeOutOfRange | FilenameInvalid                 // presign
    | AlreadyConfirmed | NotAwaiting | SizeMismatch | BytesNotAllowed | TypeMismatch  // confirm

  datatype DiscardReason = ContentMismatch | TypeNotAllowed | NeverUploaded

  datatype FileEvent =
    | FileConfirmed(fileId: Id, key: StorageKey, mime: string, size: int, at: Time)
    | FileDiscarded(fileId: Id, key: StorageKey, reason: DiscardReason, at: Time)

  // ----- file names -----

  const MAX_FILENAME: nat := 255

  predicate IsSeparator(c: char) {
    c == '/' || c == '\\'
  }

  predicate IsUnsafe(c: char) {
    c < ' ' || c == '\U{7F}' || c == '"'
  }

  /** What trimming drops at either end. */
  predicate IsSpace(c: char) {
    || '\t' <= c <= '\r' || c == ' ' || c == '\U{A0}' || c == '\U{1680}' || '\U{2000}' <= c <= '\U{200A}'
    || c == '\U{2028}' || c == '\U{2029}' || c == '\U{202F}' || c == '\U{205F}' || c == '\U{3000}' || c == '\U{FEFF}'
  }

  /** The part after the last separator. */
  function BaseName(raw: string): (base: string)
    ensures forall i :: 0 <= i < |base| ==> !IsSeparator(base[i]) && base[i] in raw
  {
    if raw == "" || IsSeparator(raw[|raw| - 1]) then "" else BaseName(raw[..|raw| - 1]) + [raw[|raw| - 1]]
  }

  function Strip(value: string): (r: string)
    ensures forall i :: 0 <= i < |r| ==> !IsUnsafe(r[i]) && r[i] in value
  {
    if value == "" then ""
    else if IsUnsafe(value[0]) then Strip(value[1..]) else [value[0]] + Strip(value[1..])
  }

  function Trim(value: string): (r: string)
    ensures forall i :: 0 <= i < |r| ==> r[i] in value
    ensures r != "" ==> !IsSpace(r[0]) && !IsSpace(r[|r| - 1])
    decreases |value|
  {
    if value == "" then ""
    else if IsSpace(value[0]) then Trim(value[1..])
    else if IsSpace(value[|value| - 1]) then Trim(value[..|value| - 1])
    else value
  }

  /** A stored name: not empty, not a directory, short, and free of separators, controls and quotes. */
  predicate SafeName(name: string) {
    && name != "" && name != "." && name != ".." && |name| <= 255
    && forall i :: 0 <= i < |name| ==> name[i] !in {'/', '\\', '"', '\U{7F}'} && name[i] as int >= 32
  }

  function SanitiseFilename(raw: string): (r: Option<string>)
    ensures r.Some? ==> SafeName(r.value) && !IsSpace(r.value[0])
    ensures r.Some? <==> Trim(Strip(BaseName(raw))) !in {"", ".", ".."}
  {
    var cleaned := Trim(Strip(BaseName(raw)));
    if cleaned == "" || cleaned == "." || cleaned == ".." then None
    else
      CleanedIsPlain(raw);
      PlainIsSafe(cleaned);
      Some(if |cleaned| <= MAX_FILENAME then cleaned else cleaned[..MAX_FILENAME])
  }

  lemma CleanedIsPlain(raw: string)
    ensures forall c :: c in Trim(Strip(BaseName(raw))) ==> !IsSeparator(c) && !IsUnsafe(c)
  {
    var base := BaseName(raw);
    var stripped := Strip(base);
    forall c | c in Trim(stripped) ensures !IsSeparator(c) && !IsUnsafe(c) {
      assert c in stripped;
      assert c in base;
    }
  }

  lemma PlainIsSafe(name: string)
    requires name !in {"", ".", ".."} && forall c :: c in name ==> !IsSeparator(c) && !IsUnsafe(c)
    ensures SafeName(if |name| <= MAX_FILENAME then name else name[..MAX_FILENAME])
  {
    var cut := if |name| <= MAX_FILENAME then name else name[..MAX_FILENAME];
    forall i | 0 <= i < |cut| ensures cut[i] in name {
    }
  }

  lemma {:induction false} StripsNothing(value: string)
    requires forall i :: 0 <= i < |value| ==> !IsUnsafe(value[i])
    ensures Strip(value) == value
  {
    if value != "" {
      StripsNothing(value[1..]);
    }
  }

  lemma TrimsNothing(value: string)
    requires value == "" || (!IsSpace(value[0]) && !IsSpace(value[|value| - 1]))
    ensures Trim(value) == value
  {
  }

  lemma {:induction false} BaseNameIs(directory: string, name: string)
    requires forall i :: 0 <= i < |name| ==> !IsSeparator(name[i])
    requires directory == "" || IsSeparator(directory[|directory| - 1])
    ensures BaseName(directory + name) == name
    decreases |name|
  {
    var raw := directory + name;
    if name != "" {
      var init := name[..|name| - 1];
      BaseNameIs(directory, init);
      assert raw[..|raw| - 1] == directory + init;
      assert name == init + [name[|name| - 1]];
    } else {
      assert raw == directory;
    }
  }

  /** What trimming drops are the white space and line ends of ECMA-262. */
  lemma SpacesAre(c: char)
    ensures IsSpace(c)
            <==> c in "\t\n\U{B}\U{C}\r \U{A0}\U{1680}\U{2000}\U{2001}\U{2002}\U{2003}\U{2004}\U{2005}\U{2006}"
                 || c in "\U{2007}\U{2008}\U{2009}\U{200A}\U{2028}\U{2029}\U{202F}\U{205F}\U{3000}\U{FEFF}"
  {
  }

  /** A safe name is stored as it is, and no directory put before it makes a difference. */
  lemma SafeNamesStand(directory: string, name: string)
    requires SafeName(name) && !IsSpace(name[0]) && !IsSpace(name[|name| - 1])
    requires directory == "" || directory[|directory| - 1] == '/' || directory[|directory| - 1] == '\\'
    ensures SanitiseFilename(directory + name) == Some(name)
  {
    BaseNameIs(directory, name);
    StripsNothing(name);
    TrimsNothing(name);
  }

  /** No directory is a name, however it is reached. */
  lemma DirectoriesAreNoNames(directory: string, name: string)
    requires directory == "" || directory[|directory| - 1] == '/' || directory[|directory| - 1] == '\\'
    requires name == "" || name == "." || name == ".."
    ensures SanitiseFilename(directory + name) == None
  {
    BaseNameIs(directory, name);
    DotsStand(name);
  }

  lemma DotsStand(name: string)
    requires name == "" || name == "." || name == ".."
    ensures Trim(Strip(name)) == name
  {
    assert forall i :: 0 <= i < |name| ==> name[i] == '.';
    StripsNothing(name);
    TrimsNothing(name);
  }

  // ----- the aggregate -----

  function Presign(organization: Id, owner: Id, filename: string, mime: string, size: int, maxSize: int, now: Time)
    : (r: Result<FileRow, Refusal>)
    ensures r.Ok?
            <==> mime in {"image/png", "image/jpeg", "image/webp", "image/gif", "application/pdf"}
                 && 0 < size <= maxSize && SanitiseFilename(filename).Some?
    ensures r.Ok? ==> r.value.status.Pending? && r.value.declaredMime == mime && r.value.declaredSize == size
                      && r.value.organization == organization && r.value.owner == owner && r.value.createdAt == now
                      && SanitiseFilename(filename) == Some(r.value.filename) && SafeName(r.value.filename)
  {
    if mime !in ALLOWED_MIME_TYPES then Err(MimeNotAllowed)
    else if size <= 0 || size > maxSize then Err(SizeOutOfRange)
    else
      match SanitiseFilename(filename)
      case None => Err(FilenameInvalid)
      case Some(name) => Ok(FileRow(organization, owner, name, mime, size, Pending, now, None, None, None))
  }

  /** Why confirming this file against these bytes is refused, if it is. */
  function Objection(file: FileRow, facts: Facts): Option<Refusal> {
    if file.status.Confirmed? then Some(AlreadyConfirmed)
    else if !file.status.Pending? then Some(NotAwaiting)
    else if facts.size != file.declaredSize then Some(SizeMismatch)
    else if facts.mime.None? || facts.mime.value !in ALLOWED_MIME_TYPES then Some(BytesNotAllowed)
    else if facts.mime.value != file.declaredMime then Some(TypeMismatch)
    else None
  }

  /** A confirmed file carries the verified size and type, equal to the declared and allowed ones. */
  predicate Verified(file: FileRow) {
    && file.verifiedMime == Some(file.declaredMime)
    && file.verifiedSize == Some(file.declaredSize)
    && file.declaredMime in ALLOWED_MIME_TYPES
  }

  class StoredFile {
    const id: Id
    const organization: Id
    const owner: Id
    const filename: string
    const declaredMime: string
    const declaredSize: int
    const createdAt: Time
    var status: Status
    var verifiedMime: Option<string>
    var verifiedSize: Option<int>
    var confirmedAt: Option<Time>
    var events: seq<FileEvent>

    /** Rehydrates the aggregate from its row; no event is pending. */
    constructor (id: Id, row: FileRow)
      ensures this.id == id && Row() == row && events == []
    {
      this.id := id;
      organization, owner, filename := row.organization, row.owner, row.filename;
      declaredMime, declaredSize, createdAt := row.declaredMime, row.declaredSize, row.createdAt;
      status, verifiedMime, verifiedSize := row.status, row.verifiedMime, row.verifiedSize;
      confirmedAt, events := row.confirmedAt, [];
    }

    function Row(): FileRow
      reads this
    {
      FileRow(organization, owner, filename, declaredMime, declaredSize, status, createdAt,
              verifiedMime, verifiedSize, confirmedAt)
    }

    method Confirm(facts: Facts, now: Time) returns (refusal: Option<Refusal>)
      modifies this
      ensures refusal.None?
              <==> old(status).Pending? && facts.size == declaredSize && facts.mime == Some(declaredMime)
                   && declaredMime in {"image/png", "image/jpeg", "image/webp", "image/gif", "application/pdf"}
      ensures refusal.None? ==>
                && status.Confirmed? && verifiedSize == Some(facts.size) && verifiedMime == facts.mime
                && confirmedAt == Some(now)
                && events == old(events) + [FileConfirmed(id, Row().KeyOf(id), declaredMime, facts.size, now)]
      ensures refusal == Objection(old(Row()), facts)
      ensures refusal == Some(AlreadyConfirmed) <==> old(status).Confirmed?
      ensures refusal == Some(NotAwaiting) <==> old(status).Discarded?
      ensures refusal == Some(SizeMismatch) <==> old(status).Pending? && facts.size != declaredSize
      ensures refusal == Some(BytesNotAllowed)
              <==> old(status).Pending? && facts.size == declaredSize
                   && (facts.mime.None? || facts.mime.value !in ALLOWED_MIME_TYPES)
      ensures refusal.Some? && old(status).Pending? ==>
                && status.Discarded? && Row() == old(Row()).(status := Discarded)
                && var reason := if refusal.value.BytesNotAllowed? then TypeNotAllowed else ContentMismatch;
                   events == old(events) + [FileDiscarded(id, Row().KeyOf(id), reason, now)]
      ensures !old(status).Pending? ==> Row() == old(Row()) && events == old(events)
    {
      if status == Confirmed { return Some(AlreadyConfirmed); }
      if status != Pending { return Some(NotAwaiting); }
      if facts.size != declaredSize {
        Discard(ContentMismatch, now);
        return Some(SizeMismatch);
      }
      if facts.mime.None? || facts.mime.value !in ALLOWED_MIME_TYPES {
        Discard(TypeNotAllowed, now);
        return Some(BytesNotAllowed);
      }
      if facts.mime.value != declaredMime {
        Discard(ContentMismatch, now);
        return Some(TypeMismatch);
      }
      status := Confirmed;
      verifiedMime, verifiedSize, confirmedAt := facts.mime, Some(facts.size), Some(now);
      events := events + [FileConfirmed(id, StorageKey(organization, owner, id), facts.mime.value, facts.size, now)];
      refusal := None;
    }

    /** Only a pending upload can be discarded. */
    method Discard(reason: DiscardReason, now: Time)
      modifies `status, `events
      ensures old(status).Pending? ==>
                && status.Discarded? && Row() == AsDiscarded(old(Row()))
                && events == old(events) + [FileDiscarded(id, Row().KeyOf(id), reason, now)]
      ensures !old(status).Pending? ==> Row() == old(Row()) && events == old(events)
    {
      if status != Pending { return; }
      status := Discarded;
      events := events + [FileDiscarded(id, StorageKey(organization, owner, id), reason, now)];
    }

    method PullEvents() returns (pulled: seq<FileEvent>)
      modifies `events
      ensures pulled == old(events) && events == []
    {
      pulled := events;
      events := [];
    }
  }

  /** Confirmed against these bytes, which are what the verified columns record. */
  function AsConfirmed(file: FileRow, facts: Facts, now: Time): FileRow {
    file.(status := Confirmed, verifiedMime := facts.mime, verifiedSize := Some(facts.size), confirmedAt := Some(now))
  }

  function AsDiscarded(file: FileRow): FileRow {
    file.(status := Discarded)
  }

  // ----- statements on the file table -----

  const SWEEP_BATCH_SIZE: nat := 200

  /** What the sweep looks for: discarded uploads, and pending ones past their time. */
  predicate IsStale(file: FileRow, cutoff: Time) {
    file.status.Discarded? || (file.status.Pending? && file.createdAt < cutoff)
  }

  type Files = map<Id, FileRow>

  predicate Saves(files: Files, id: Id, file: FileRow, expected: Status) {
    id in files && files[id].organization == file.organization && files[id].status == expected
  }

  /** UPDATE ... WHERE id, organization and status match; only the mutable columns are written. */
  function CompareAndSave(files: Files, id: Id, file: FileRow, expected: Status): Files {
    if Saves(files, id, file, expected) then
      files[id := files[id].(status := file.status, verifiedMime := file.verifiedMime,
                             verifiedSize := file.verifiedSize, confirmedAt := file.confirmedAt)]
    else files
  }
}
