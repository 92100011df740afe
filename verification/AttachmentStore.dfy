/**
 Attachments on disk: ids made for uploads and threads, the file an id stands for, the
 claim of a pending upload by a thread, and the sweep of uploads nobody claimed.
 Names are taken after path normalisation, so the directory is a set of plain names.
 */
module AttachmentStore {
  import opened Wrappers
  import opened AttachmentIds
  import opened Text

  const PENDING_MAX_AGE_MS: int := 24 * 60 * 60 * 1000
  const PARTIAL_MAX_AGE_MS: int := 60 * 60 * 1000
  const PARTIAL_EXTENSION := ".part"

  /** Tried in this order for ids without an extension. */
  const FILE_EXTENSIONS: seq<string> := [
    ".avif", ".bmp", ".gif", ".heic", ".heif", ".ico", ".jpeg", ".jpg", ".png", ".svg", ".tiff", ".webp", ".bin"
  ]

  /** The parts of an id as given, upper case allowed. */
  function ParseId(id: string): Option<Parts> {
    if '/' in id || '.' in id then None else Parse(Lower(id))
  }

  /** The extension an id is made with, if it is made with one. */
  function NormalExtension(extension: Option<string>): Option<string> {
    if extension.None? || extension.value == "" then None
    else
      var e := Lower(if extension.value[0] == '.' then extension.value[1..] else extension.value);
      Some(if IsExtension(e) then e else "bin")
  }

  function CreateId(threadId: string, uuid: string, extension: Option<string>): Option<string> {
    var segment := SafeSegment(threadId);
    if segment.None? then None else Some(segment.value + "-" + uuid + Suffix(NormalExtension(extension)))
  }

  function CreatePendingId(uuid: string, extension: Option<string>): string {
    PENDING_SEGMENT + "-" + uuid + Suffix(NormalExtension(extension))
  }

  lemma JoinedIsPlain(p: Parts)
    requires WellFormed(p)
    ensures forall i :: 0 <= i < |Join(p)| ==> IsAllowed(Join(p)[i])
  {
    SegmentIsDashed(p.segment);
    forall i | 0 <= i < |Join(p)|
      ensures IsAllowed(Join(p)[i])
    {
      var n, m := |p.segment|, |p.segment| + 1 + |p.uuid|;
      if i < n {
        assert Join(p)[i] == p.segment[i];
      } else if n < i < m {
        assert Join(p)[i] == p.uuid[i - n - 1];
      } else if i > m {
        assert Join(p)[i] == p.extension.value[i - m - 1];
      }
    }
  }

  /** An id joined from well-formed parts is read back as those parts. */
  lemma JoinedReadsBack(p: Parts)
    requires WellFormed(p)
    ensures ParseId(Join(p)) == Some(p)
  {
    JoinedIsPlain(p);
    assert Lower(Join(p)) == Join(p);
    ParseOfJoin(p);
  }

  lemma NormalExtensionFits(extension: Option<string>)
    ensures NormalExtension(extension).Some? ==> IsExtension(NormalExtension(extension).value)
  {
    assert IsExtension("bin");
  }

  /** An extension is read with or without its dot and in either case; what is no extension counts as "bin". */
  lemma NormalExtensionReads(extension: string)
    requires extension != "" && extension[0] != '.'
    ensures NormalExtension(Some("." + extension)) == NormalExtension(Some(extension))
    ensures NormalExtension(Some(extension)) ==
            Some(if IsExtension(Lower(extension)) then Lower(extension) else "bin")
  {
    assert ("." + extension)[1..] == extension;
  }

  /** Segment, UUID and extension of a created id round-trip, and the segment is never "pending". */
  lemma CreatedReadsBack(threadId: string, uuid: string, extension: Option<string>)
    requires IsUuid(uuid) && CreateId(threadId, uuid, extension).Some?
    ensures ParseId(CreateId(threadId, uuid, extension).value) ==
            Some(Parts(SafeSegment(threadId).value, uuid, NormalExtension(extension)))
    ensures SafeSegment(threadId).value != PENDING_SEGMENT
  {
    SafeSegmentIsSegment(threadId);
    NormalExtensionFits(extension);
    JoinedReadsBack(Parts(SafeSegment(threadId).value, uuid, NormalExtension(extension)));
  }

  lemma PendingReadsBack(uuid: string, extension: Option<string>)
    requires IsUuid(uuid)
    ensures ParseId(CreatePendingId(uuid, extension)) == Some(Parts(PENDING_SEGMENT, uuid, NormalExtension(extension)))
  {
    assert IsWord(PENDING_SEGMENT);
    NormalExtensionFits(extension);
    JoinedReadsBack(Parts(PENDING_SEGMENT, uuid, NormalExtension(extension)));
  }

  // ---------------------------------------------------------------------------
  // Files

  /** The first of the given extensions under which the id has a file. */
  function FirstExisting(files: set<string>, id: string, extensions: seq<string>): Option<string> {
    if extensions == [] then None
    else if id + extensions[0] in files then Some(id + extensions[0])
    else FirstExisting(files, id, extensions[1..])
  }

  /** The file an id stands for. */
  function Resolve(files: set<string>, id: string): Option<string> {
    if id == "" || '/' in id || '.' in id then None
    else
      var parts := ParseId(id);
      if parts.Some? && parts.value.extension.Some? then
        var name := id + "." + parts.value.extension.value;
        if name in files then Some(name) else None
      else FirstExisting(files, id, FILE_EXTENSIONS)
  }

  method ResolveAttachmentPathById(files: set<string>, id: string) returns (path: Option<string>)
    ensures path == Resolve(files, id)
  {
    if id == "" || '/' in id || '.' in id {
      return None;
    }
    var parts := ParseId(id);
    if parts.Some? && parts.value.extension.Some? {
      var name := id + "." + parts.value.extension.value;
      return if name in files then Some(name) else None;
    }
    for i := 0 to |FILE_EXTENSIONS|
      invariant FirstExisting(files, id, FILE_EXTENSIONS) == FirstExisting(files, id, FILE_EXTENSIONS[i..])
    {
      if id + FILE_EXTENSIONS[i] in files {
        return Some(id + FILE_EXTENSIONS[i]);
      }
    }
    return None;
  }

  function LastIndexOf(s: string, c: char): (i: int)
    ensures -1 <= i < |s|
    ensures i >= 0 ==> s[i] == c
    ensures forall k :: i < k < |s| ==> s[k] != c
  {
    if s == "" then -1
    else if s[|s|-1] == c then |s| - 1
    else LastIndexOf(s[..|s|-1], c)
  }

  /** The part of a name from its last dot on. */
  function ExtName(name: string): string {
    var i := LastIndexOf(name, '.');
    if i <= 0 then "" else name[i..]
  }

  /** The id a file name begins with. */
  function IdOfFile(name: string): Option<string> {
    var i := LastIndexOf(name, '.');
    if '/' in name || i <= 0 || '.' in name[..i] then None else Some(name[..i])
  }

  lemma {:induction false} LastIndexIs(s: string, c: char, i: nat)
    requires i < |s| && s[i] == c && forall k :: i < k < |s| ==> s[k] != c
    ensures LastIndexOf(s, c) == i
    decreases |s|
  {
    if i < |s| - 1 {
      LastIndexIs(s[..|s|-1], c, i);
    }
  }

  /** A dot followed by extension characters. */
  predicate IsDotExtension(e: string) {
    |e| > 1 && e[0] == '.' && forall i :: 1 <= i < |e| ==> IsExtensionChar(e[i])
  }

  lemma NamedFile(id: string, extension: string)
    requires id != "" && '.' !in id && '/' !in id && IsDotExtension(extension)
    ensures ExtName(id + extension) == extension && IdOfFile(id + extension) == Some(id)
  {
    var name := id + extension;
    assert name[|id|] == '.';
    forall k | |id| < k < |name|
      ensures name[k] != '.'
    {
      assert name[k] == extension[k - |id|];
    }
    LastIndexIs(name, '.', |id|);
    assert name[|id|..] == extension && name[..|id|] == id;
    forall k | 0 <= k < |name|
      ensures name[k] != '/'
    {
      if k < |id| {
        assert name[k] == id[k];
      } else {
        assert name[k] == extension[k - |id|];
      }
    }
  }

  lemma ListedExtension(i: nat)
    requires i < |FILE_EXTENSIONS|
    ensures IsDotExtension(FILE_EXTENSIONS[i]) && FILE_EXTENSIONS[i] != PARTIAL_EXTENSION
  {
  }

  lemma {:induction false} FirstExistingIsListed(files: set<string>, id: string, i: nat)
    requires i <= |FILE_EXTENSIONS| && FirstExisting(files, id, FILE_EXTENSIONS[i..]).Some?
    ensures exists j :: i <= j < |FILE_EXTENSIONS| && id + FILE_EXTENSIONS[j] in files &&
                        FirstExisting(files, id, FILE_EXTENSIONS[i..]) == Some(id + FILE_EXTENSIONS[j])
    decreases |FILE_EXTENSIONS| - i
  {
    if i < |FILE_EXTENSIONS| && id + FILE_EXTENSIONS[i] !in files {
      FirstExistingIsListed(files, id, i + 1);
    }
  }

  /** If only one of the listed extensions exists for an id, that is the one found. */
  lemma {:induction false} OnlyOneExisting(files: set<string>, id: string, i: nat, j: nat)
    requires i <= j < |FILE_EXTENSIONS| && id + FILE_EXTENSIONS[j] in files
    requires forall k :: 0 <= k < |FILE_EXTENSIONS| && id + FILE_EXTENSIONS[k] in files ==>
              FILE_EXTENSIONS[k] == FILE_EXTENSIONS[j]
    ensures FirstExisting(files, id, FILE_EXTENSIONS[i..]) == Some(id + FILE_EXTENSIONS[j])
    decreases j - i
  {
    if id + FILE_EXTENSIONS[i] !in files {
      OnlyOneExisting(files, id, i + 1, j);
    }
  }

  // ---------------------------------------------------------------------------
  // Claiming a pending upload

  datatype Refusal = InvalidAttachmentId | InvalidThreadId | NotPending | NotFound

  datatype Claim = Refused(reason: Refusal) | Planned(finalId: string, currentPath: string, finalPath: string)

  function PlanClaim(files: set<string>, threadId: string, attachmentId: string, freshUuid: string): Claim {
    var parts := ParseId(attachmentId);
    if parts.None? then Refused(InvalidAttachmentId)
    else if SafeSegment(threadId).None? then Refused(InvalidThreadId)
    else if parts.value.segment != PENDING_SEGMENT then Refused(NotPending)
    else
      var current := Resolve(files, attachmentId);
      if current.None? then Refused(NotFound)
      else
        var finalId := CreateId(threadId, freshUuid, parts.value.extension).value;
        Planned(finalId, current.value, finalId + ExtName(current.value))
  }

  /** The file an id stands for is named by the id's own extension, or else by one of the listed ones. */
  lemma CurrentExtension(files: set<string>, id: string, current: string)
    requires ParseId(id).Some? && Resolve(files, id) == Some(current)
    ensures current in files && IsDotExtension(ExtName(current))
    ensures match ParseId(id).value.extension
            case Some(e) => IsExtension(e) && ExtName(current) == "." + e
            case None => ExtName(current) in FILE_EXTENSIONS
  {
    JoinOfParse(Lower(id));
    match ParseId(id).value.extension {
      case Some(e) =>
        OwnFile(id, e);
      case None =>
        ListedFile(files, id, current);
    }
  }

  lemma OwnFile(id: string, e: string)
    requires id != "" && '.' !in id && '/' !in id && IsExtension(e)
    ensures ExtName(id + "." + e) == "." + e && IsDotExtension("." + e)
  {
    NamedFile(id, "." + e);
    assert id + "." + e == id + ("." + e);
  }

  lemma ListedFile(files: set<string>, id: string, current: string)
    requires id != "" && '.' !in id && '/' !in id && FirstExisting(files, id, FILE_EXTENSIONS) == Some(current)
    ensures current in files && ExtName(current) in FILE_EXTENSIONS && IsDotExtension(ExtName(current))
  {
    assert FILE_EXTENSIONS[0..] == FILE_EXTENSIONS;
    FirstExistingIsListed(files, id, 0);
    var j :| 0 <= j < |FILE_EXTENSIONS| && current == id + FILE_EXTENSIONS[j] && current in files;
    ListedExtension(j);
    NamedFile(id, FILE_EXTENSIONS[j]);
  }

  /** An extension an id was read with is kept when an id is made with it. */
  lemma NormalExtensionKept(extension: Option<string>)
    requires extension.Some? ==> IsExtension(extension.value)
    ensures NormalExtension(extension) == extension
  {
    if extension.Some? {
      assert Lower(extension.value) == extension.value;
    }
  }

  lemma AllowedIsPlain(s: string)
    requires forall i :: 0 <= i < |s| ==> IsAllowed(s[i])
    ensures '.' !in s && '/' !in s
  {
  }

  lemma CreatedIsPlain(threadId: string, uuid: string, extension: Option<string>)
    requires IsUuid(uuid) && CreateId(threadId, uuid, extension).Some?
    ensures var id := CreateId(threadId, uuid, extension).value; id != "" && '.' !in id && '/' !in id
  {
    SafeSegmentIsSegment(threadId);
    NormalExtensionFits(extension);
    var parts := Parts(SafeSegment(threadId).value, uuid, NormalExtension(extension));
    JoinedIsPlain(parts);
    AllowedIsPlain(Join(parts));
  }

  /** What a planned claim renames, and how the id of the result reads. */
  lemma ClaimKeepsExtension(files: set<string>, threadId: string, attachmentId: string, freshUuid: string)
    requires IsUuid(freshUuid) && PlanClaim(files, threadId, attachmentId, freshUuid).Planned?
    ensures var claim := PlanClaim(files, threadId, attachmentId, freshUuid);
            && claim.currentPath in files && IsDotExtension(ExtName(claim.currentPath))
            && claim.finalId != "" && '.' !in claim.finalId && '/' !in claim.finalId
            && ParseId(claim.finalId) ==
               Some(Parts(SafeSegment(threadId).value, freshUuid, ParseId(attachmentId).value.extension))
            && match ParseId(attachmentId).value.extension
               case Some(e) => ExtName(claim.currentPath) == "." + e
               case None => ExtName(claim.currentPath) in FILE_EXTENSIONS
  {
    var extension := ParseId(attachmentId).value.extension;
    CurrentExtension(files, attachmentId, Resolve(files, attachmentId).value);
    NormalExtensionKept(extension);
    CreatedReadsBack(threadId, freshUuid, extension);
    CreatedIsPlain(threadId, freshUuid, extension);
  }

  /** Only a pending id is claimed, in any case of letters, and only if its file is there. */
  lemma ClaimedWasPending(files: set<string>, threadId: string, attachmentId: string, freshUuid: string)
    requires PlanClaim(files, threadId, attachmentId, freshUuid).Planned?
    ensures ParseId(attachmentId).Some? && SafeSegment(threadId).Some?
    ensures var parts := ParseId(attachmentId).value;
            IsUuid(parts.uuid) && Lower(attachmentId) == CreatePendingId(parts.uuid, parts.extension)
    ensures PlanClaim(files, threadId, attachmentId, freshUuid).currentPath in files
  {
    JoinOfParse(Lower(attachmentId));
    NormalExtensionKept(ParseId(attachmentId).value.extension);
    CurrentExtension(files, attachmentId, Resolve(files, attachmentId).value);
  }

  /** An attachment of a thread, and so one that was claimed, cannot be claimed by any thread, this one included. */
  lemma CreatedIsNotClaimable(files: set<string>, threadId: string, uuid: string, extension: Option<string>,
                              other: string, freshUuid: string)
    requires IsUuid(uuid) && CreateId(threadId, uuid, extension).Some? && SafeSegment(other).Some?
    ensures PlanClaim(files, other, CreateId(threadId, uuid, extension).value, freshUuid) == Refused(NotPending)
  {
    CreatedReadsBack(threadId, uuid, extension);
  }

  lemma PendingIsPlain(uuid: string, extension: Option<string>)
    requires IsUuid(uuid)
    ensures var id := CreatePendingId(uuid, extension); id != "" && '.' !in id && '/' !in id
  {
    assert IsWord(PENDING_SEGMENT);
    NormalExtensionFits(extension);
    var parts := Parts(PENDING_SEGMENT, uuid, NormalExtension(extension));
    JoinedIsPlain(parts);
    AllowedIsPlain(Join(parts));
  }

  lemma {:induction false} ListedIsFound(files: set<string>, id: string, i: nat)
    requires i <= |FILE_EXTENSIONS|
    ensures FirstExisting(files, id, FILE_EXTENSIONS[i..]).Some? <==>
            exists j :: i <= j < |FILE_EXTENSIONS| && id + FILE_EXTENSIONS[j] in files
    decreases |FILE_EXTENSIONS| - i
  {
    if i < |FILE_EXTENSIONS| && id + FILE_EXTENSIONS[i] !in files {
      ListedIsFound(files, id, i + 1);
    }
  }

  /** A pending upload is found exactly if its file is there, under its own extension or else a listed one. */
  lemma PendingIsFound(files: set<string>, uuid: string, extension: Option<string>)
    requires IsUuid(uuid)
    ensures var id := CreatePendingId(uuid, extension);
            Resolve(files, id).Some? <==>
            match NormalExtension(extension)
            case Some(e) => id + "." + e in files
            case None => exists j :: 0 <= j < |FILE_EXTENSIONS| && id + FILE_EXTENSIONS[j] in files
  {
    PendingReadsBack(uuid, extension);
    PendingIsPlain(uuid, extension);
    assert FILE_EXTENSIONS[0..] == FILE_EXTENSIONS;
    ListedIsFound(files, CreatePendingId(uuid, extension), 0);
  }

  /** A thread without a segment can claim nothing. */
  lemma NoSegmentNoClaim(files: set<string>, threadId: string, uuid: string, extension: Option<string>,
                         freshUuid: string)
    requires IsUuid(uuid) && SafeSegment(threadId).None?
    ensures PlanClaim(files, threadId, CreatePendingId(uuid, extension), freshUuid) == Refused(InvalidThreadId)
  {
    PendingReadsBack(uuid, extension);
  }

  /** A pending upload that is found can be claimed by any thread that has a segment, and this is the plan. */
  lemma PendingIsClaimable(files: set<string>, threadId: string, uuid: string, extension: Option<string>,
                           freshUuid: string)
    requires IsUuid(uuid) && SafeSegment(threadId).Some?
    ensures var current := Resolve(files, CreatePendingId(uuid, extension));
            var finalId := CreateId(threadId, freshUuid, extension).value;
            PlanClaim(files, threadId, CreatePendingId(uuid, extension), freshUuid) ==
            if current.None? then Refused(NotFound)
            else Planned(finalId, current.value, finalId + ExtName(current.value))
  {
    PendingReadsBack(uuid, extension);
    NormalExtensionFits(extension);
    NormalExtensionKept(NormalExtension(extension));
  }

  /** In a directory where no other name begins with the id, the id stands for its own file. */
  lemma OwnFileResolves(files: set<string>, id: string, extension: string)
    requires id != "" && '.' !in id && '/' !in id && ParseId(id).Some?
    requires id + extension in files && forall name <- files :: id <= name ==> name == id + extension
    requires match ParseId(id).value.extension
             case Some(e) => extension == "." + e
             case None => extension in FILE_EXTENSIONS
    ensures Resolve(files, id) == Some(id + extension)
  {
    match ParseId(id).value.extension {
      case Some(e) =>
        assert id + "." + e == id + ("." + e);
      case None =>
        var j :| 0 <= j < |FILE_EXTENSIONS| && FILE_EXTENSIONS[j] == extension;
        forall k | 0 <= k < |FILE_EXTENSIONS| && id + FILE_EXTENSIONS[k] in files
          ensures FILE_EXTENSIONS[k] == FILE_EXTENSIONS[j]
        {
          var name := id + FILE_EXTENSIONS[k];
          assert id <= name;
          assert name[|id|..] == FILE_EXTENSIONS[k];
          assert (id + extension)[|id|..] == extension;
        }
        assert FILE_EXTENSIONS[0..] == FILE_EXTENSIONS;
        OnlyOneExisting(files, id, 0, j);
    }
  }

  lemma RenamedResolves(files: set<string>, id: string, current: string, extension: string)
    requires id != "" && '.' !in id && '/' !in id && ParseId(id).Some?
    requires forall name <- files :: !(id <= name)
    requires match ParseId(id).value.extension
             case Some(e) => extension == "." + e
             case None => extension in FILE_EXTENSIONS
    ensures Resolve(files - {current} + {id + extension}, id) == Some(id + extension)
  {
    OwnFileResolves(files - {current} + {id + extension}, id, extension);
  }

  /** After the rename the claimed id stands for the planned final path, given that the UUID is fresh. */
  lemma ClaimedIdResolves(files: set<string>, threadId: string, attachmentId: string, freshUuid: string)
    requires IsUuid(freshUuid) && PlanClaim(files, threadId, attachmentId, freshUuid).Planned?
    requires forall name <- files :: !(PlanClaim(files, threadId, attachmentId, freshUuid).finalId <= name)
    ensures var claim := PlanClaim(files, threadId, attachmentId, freshUuid);
            Resolve(files - {claim.currentPath} + {claim.finalPath}, claim.finalId) == Some(claim.finalPath)
  {
    var claim := PlanClaim(files, threadId, attachmentId, freshUuid);
    ClaimKeepsExtension(files, threadId, attachmentId, freshUuid);
    RenamedResolves(files, claim.finalId, claim.currentPath, ExtName(claim.currentPath));
  }

  // ---------------------------------------------------------------------------
  // The sweep

  predicate EndsWith(s: string, suffix: string) {
    |suffix| <= |s| && s[|s| - |suffix|..] == suffix
  }

  /** Old enough to be removed: an unfinished upload, or one still pending. */
  predicate Stale(name: string, modified: int, now: int) {
    if EndsWith(name, PARTIAL_EXTENSION) then now - modified > PARTIAL_MAX_AGE_MS
    else
      && IdOfFile(name).Some? && ParseId(IdOfFile(name).value).Some?
      && ParseId(IdOfFile(name).value).value.segment == PENDING_SEGMENT
      && now - modified > PENDING_MAX_AGE_MS
  }

  /** Remove what is stale.  If a file cannot be examined or removed, it stays. */
  method SweepStalePendingAttachments(files: map<string, int>, now: int, reliable: bool)
    returns (left: map<string, int>, deleted: nat)
    ensures left.Keys <= files.Keys && forall name <- left :: left[name] == files[name]
    ensures forall name <- files :: name !in left ==> Stale(name, files[name], now)
    ensures reliable ==> forall name <- left :: !Stale(name, left[name], now)
    ensures deleted == |files| - |left|
  {
    left, deleted := files, 0;
    var entries := files.Keys;
    while entries != {}
      invariant entries <= left.Keys <= files.Keys
      invariant forall name <- left :: left[name] == files[name]
      invariant forall name <- files :: name !in left ==> Stale(name, files[name], now)
      invariant reliable ==> forall name <- left.Keys - entries :: !Stale(name, left[name], now)
      invariant deleted == |files| - |left|
      decreases entries
    {
      var entry :| entry in entries;
      entries := entries - {entry};
      var isPartial := EndsWith(entry, PARTIAL_EXTENSION);
      if !isPartial {
        var id := IdOfFile(entry);
        if id.None? || ParseId(id.value).None? || ParseId(id.value).value.segment != PENDING_SEGMENT {
          continue;
        }
      }
      var works := *;
      var maxAge := if isPartial then PARTIAL_MAX_AGE_MS else PENDING_MAX_AGE_MS;
      if (reliable || works) && now - files[entry] > maxAge {
        assert left.Keys == (left - {entry}).Keys + {entry};
        left := left - {entry};
        deleted := deleted + 1;
      }
    }
  }

  /**
   The file of a claimed attachment is stale exactly when its extension is that of an
   unfinished upload and it is old; so with any other extension it is never swept,
   however old it gets and whatever the thread is called.
   */
  lemma ClaimedIsNotSwept(files: set<string>, threadId: string, attachmentId: string, freshUuid: string,
                          modified: int, now: int)
    requires IsUuid(freshUuid) && PlanClaim(files, threadId, attachmentId, freshUuid).Planned?
    ensures var claim := PlanClaim(files, threadId, attachmentId, freshUuid);
            Stale(claim.finalPath, modified, now) <==>
            ExtName(claim.currentPath) == PARTIAL_EXTENSION && now - modified > PARTIAL_MAX_AGE_MS
  {
    var claim := PlanClaim(files, threadId, attachmentId, freshUuid);
    var extension := ExtName(claim.currentPath);
    ClaimKeepsExtension(files, threadId, attachmentId, freshUuid);
    NamedFile(claim.finalId, extension);
    SafeSegmentIsSegment(threadId);
    PartialByExtension(claim.finalId, extension);
  }

  lemma PartialByExtension(id: string, extension: string)
    requires IsDotExtension(extension)
    ensures EndsWith(id + extension, PARTIAL_EXTENSION) <==> extension == PARTIAL_EXTENSION
  {
    var name := id + extension;
    var dot := |name| - |PARTIAL_EXTENSION|;
    assert name[|id|..] == extension;
    forall k | |id| < k < |name|
      ensures name[k] != '.'
    {
      assert name[k] == extension[k - |id|];
    }
    LastIndexIs(name, '.', |id|);
    if EndsWith(name, PARTIAL_EXTENSION) {
      forall k | dot < k < |name|
        ensures name[k] == name[dot..][k - dot] != '.'
      {
      }
      LastIndexIs(name, '.', dot);
    }
  }

  /** A file still pending is stale exactly past its age, which is shorter for an unfinished upload. */
  lemma PendingIsSwept(uuid: string, idExtension: Option<string>, extension: string, modified: int, now: int)
    requires IsUuid(uuid) && IsDotExtension(extension)
    ensures Stale(CreatePendingId(uuid, idExtension) + extension, modified, now) <==>
            now - modified > if extension == PARTIAL_EXTENSION then PARTIAL_MAX_AGE_MS else PENDING_MAX_AGE_MS
  {
    PendingReadsBack(uuid, idExtension);
    PendingIsPlain(uuid, idExtension);
    NamedFile(CreatePendingId(uuid, idExtension), extension);
    PartialByExtension(CreatePendingId(uuid, idExtension), extension);
  }

  // ---------------------------------------------------------------------------
  // The life of an uploaded file

  /** The last part of a path, slashes at its end aside. */
  function BaseName(path: string): string {
    if path == "" then ""
    else if path[|path|-1] == '/' then BaseName(path[..|path|-1])
    else path[LastIndexOf(path, '/') + 1..]
  }

  /** The extension an uploaded file is stored under; that of unfinished uploads is reserved. */
  function FileExtension(fileName: string): string {
    var e := Lower(ExtName(BaseName(fileName)));
    if e == PARTIAL_EXTENSION || e == "" || e[0] != '.' || !IsExtension(e[1..]) then ".bin" else e
  }

  lemma FileExtensionFits(fileName: string)
    ensures var e := FileExtension(fileName);
            && e != "" && e[0] == '.' && IsExtension(e[1..]) && IsDotExtension(e) && e != PARTIAL_EXTENSION
            && NormalExtension(Some(e)) == Some(e[1..])
  {
    var e := FileExtension(fileName);
    assert ".bin"[1..] == "bin" && IsExtension("bin");
    assert e[0] == '.' && IsExtension(e[1..]);
    assert forall i :: 1 <= i < |e| ==> e[i] == e[1..][i - 1];
    NormalExtensionKept(Some(e[1..]));
  }

  lemma {:induction false} LastOfJoined(s: string, t: string, c: char)
    requires c in s && c !in t
    ensures LastIndexOf(s + t, c) == LastIndexOf(s, c)
    decreases |t|
  {
    if t == "" {
      assert s + t == s;
    } else {
      assert (s + t)[..|s| + |t| - 1] == s + t[..|t|-1];
      LastOfJoined(s, t[..|t|-1], c);
    }
  }

  /** The directories of a path do not matter. */
  lemma BaseOfPath(directory: string, file: string)
    requires file != "" && '/' !in file
    ensures BaseName(directory + "/" + file) == file && BaseName(file) == file
  {
    var path := directory + "/" + file;
    assert path == (directory + "/") + file;
    LastOfJoined(directory + "/", file, '/');
    assert path[|directory| + 1..] == file;
  }

  lemma ExtOfFile(stem: string, extension: string)
    requires stem != "" && '.' !in extension
    ensures ExtName(stem + "." + extension) == "." + extension
  {
    var file := stem + "." + extension;
    assert file == (stem + ".") + extension;
    LastOfJoined(stem + ".", extension, '.');
    assert file[|stem|..] == "." + extension;
  }

  lemma LowerOfDotted(extension: string)
    ensures Lower("." + extension) == "." + Lower(extension) && ("." + Lower(extension))[1..] == Lower(extension)
    ensures "." + Lower(extension) == PARTIAL_EXTENSION <==> Lower(extension) == "part"
  {
    if "." + Lower(extension) == PARTIAL_EXTENSION {
      assert ("." + Lower(extension))[1..] == "part";
    }
  }

  /** A file keeps its extension, in lower case, if it is short and plain and not the reserved one. */
  lemma FileExtensionReads(stem: string, extension: string)
    requires stem != "" && '/' !in stem && '.' !in extension && '/' !in extension
    ensures var e := Lower(extension);
            FileExtension(stem + "." + extension) == if IsExtension(e) && e != "part" then "." + e else ".bin"
  {
    BaseOfPath("", stem + "." + extension);
    ExtOfFile(stem, extension);
    LowerOfDotted(extension);
  }

  /**
   Whatever its name, an uploaded file is found under its pending id as long as it is there and can be claimed;
   it is stale exactly past the age of a pending upload before the claim, and never after it.
   */
  lemma UploadedFileIsKept(files: set<string>, fileName: string, uuid: string, threadId: string, freshUuid: string,
                           modified: int, now: int)
    requires IsUuid(uuid) && IsUuid(freshUuid) && SafeSegment(threadId).Some?
    requires CreatePendingId(uuid, Some(FileExtension(fileName))) + FileExtension(fileName) in files
    ensures var e := FileExtension(fileName);
            var id := CreatePendingId(uuid, Some(e));
            var finalId := CreateId(threadId, freshUuid, Some(e)).value;
            && PlanClaim(files, threadId, id, freshUuid) == Planned(finalId, id + e, finalId + e)
            && (Stale(id + e, modified, now) <==> now - modified > PENDING_MAX_AGE_MS)
            && !Stale(finalId + e, modified, now)
  {
    var e := FileExtension(fileName);
    var id := CreatePendingId(uuid, Some(e));
    FileExtensionFits(fileName);
    UploadedFileResolves(files, id, uuid, e);
    PendingIsClaimable(files, threadId, uuid, Some(e), freshUuid);
    PendingIsPlain(uuid, Some(e));
    NamedFile(id, e);
    PendingIsSwept(uuid, Some(e), e, modified, now);
    ClaimedIsNotSwept(files, threadId, id, freshUuid, modified, now);
  }

  lemma UploadedFileResolves(files: set<string>, id: string, uuid: string, e: string)
    requires IsUuid(uuid) && id == CreatePendingId(uuid, Some(e)) && id + e in files
    requires e != "" && e[0] == '.' && IsExtension(e[1..]) && NormalExtension(Some(e)) == Some(e[1..])
    ensures Resolve(files, id) == Some(id + e)
  {
    PendingReadsBack(uuid, Some(e));
    PendingIsPlain(uuid, Some(e));
    assert e == "." + e[1..];
    assert id + "." + e[1..] == id + e;
  }
}
