/**
 The grammar of attachment ids: a thread segment, a UUID and an optional extension, joined
 by dashes.  Segments contain dashes themselves; ids are nevertheless read in one way only.
 */
module AttachmentIds {
  import opened Text
  import opened Wrappers

  const SEGMENT_MAX_CHARS: nat := 80
  const EXTENSION_MAX_CHARS: nat := 10
  const UUID_CHARS: nat := 36
  const UUID_LAST_GROUP_CHARS: nat := 12
  const PENDING_SEGMENT := "pending"

  predicate IsWordChar(c: char) {
    'a' <= c <= 'z' || '0' <= c <= '9' || c == '_'
  }

  predicate IsExtensionChar(c: char) {
    'a' <= c <= 'z' || '0' <= c <= '9'
  }

  predicate IsHexChar(c: char) {
    'a' <= c <= 'f' || '0' <= c <= '9'
  }

  /** One or more word characters. */
  predicate IsWord(s: string) {
    s != "" && forall i :: 0 <= i < |s| ==> IsWordChar(s[i])
  }

  /** Words joined by single dashes. */
  predicate IsSegment(s: string)
    decreases |s|, 1
  {
    IsWord(s) || exists k :: 0 < k < |s| && SplitsAt(s, k)
  }

  /** A word, a dash, and a shorter segment. */
  predicate SplitsAt(s: string, k: nat)
    requires 0 < k < |s|
    decreases |s|, 0
  {
    s[k] == '-' && IsWord(s[..k]) && IsSegment(s[k + 1..])
  }

  /** Five groups of 8, 4, 4, 4 and 12 hexadecimal digits. */
  predicate IsUuid(s: string) {
    && |s| == UUID_CHARS
    && forall i :: 0 <= i < |s| ==> if i in {8, 13, 18, 23} then s[i] == '-' else IsHexChar(s[i])
  }

  predicate IsExtension(s: string) {
    1 <= |s| <= EXTENSION_MAX_CHARS && forall i :: 0 <= i < |s| ==> IsExtensionChar(s[i])
  }

  datatype Parts = Parts(segment: string, uuid: string, extension: Option<string>)

  function Suffix(extension: Option<string>): string {
    if extension.None? then "" else "-" + extension.value
  }

  function Join(p: Parts): string {
    p.segment + "-" + p.uuid + Suffix(p.extension)
  }

  predicate WellFormed(p: Parts) {
    IsSegment(p.segment) && IsUuid(p.uuid) && (p.extension.Some? ==> IsExtension(p.extension.value))
  }

  // ---------------------------------------------------------------------------
  // Segments

  predicate NoDoubleDash(s: string) {
    forall i, j | 0 <= i < |s| && 0 <= j < |s| && j == i + 1 :: !(s[i] == '-' && s[j] == '-')
  }

  /** The same language without recursion: word characters and single inner dashes. */
  predicate IsDashed(s: string) {
    && s != "" && s[0] != '-' && s[|s|-1] != '-'
    && (forall i :: 0 <= i < |s| ==> IsWordChar(s[i]) || s[i] == '-')
    && NoDoubleDash(s)
  }

  lemma JoinedIsDashed(word: string, rest: string)
    requires IsWord(word) && IsDashed(rest)
    ensures IsDashed(word + "-" + rest)
  {
    var s := word + "-" + rest;
    forall i | 0 <= i < |s|
      ensures IsWordChar(s[i]) || s[i] == '-'
      ensures i < |s| - 1 ==> !(s[i] == '-' && s[i + 1] == '-')
    {
      if i < |word| {
        assert s[i] == word[i];
      } else if i > |word| {
        assert s[i] == rest[i - |word| - 1];
      }
    }
  }

  lemma RestIsDashed(s: string, k: nat)
    requires IsDashed(s) && k < |s| - 1 && s[k] == '-'
    ensures IsDashed(s[k + 1..])
  {
    assert s[k + 1] != '-';
  }

  lemma WordIsDashed(s: string)
    requires IsWord(s)
    ensures IsDashed(s)
  {
  }

  lemma SplitAtDash(s: string, k: nat)
    requires k < |s| && s[k] == '-'
    ensures s == s[..k] + "-" + s[k + 1..]
  {
  }

  lemma FirstWord(s: string) returns (word: string, rest: string)
    requires IsSegment(s) && !IsWord(s)
    ensures s == word + "-" + rest && IsWord(word) && IsSegment(rest)
  {
    var k :| 0 < k < |s| && SplitsAt(s, k);
    word, rest := s[..k], s[k + 1..];
    SplitAtDash(s, k);
  }

  lemma {:induction false} SegmentIsDashed(s: string)
    requires IsSegment(s)
    ensures IsDashed(s)
    decreases |s|
  {
    if IsWord(s) {
      WordIsDashed(s);
    } else {
      var word, rest := FirstWord(s);
      SegmentIsDashed(rest);
      JoinedIsDashed(word, rest);
    }
  }

  lemma {:induction false} DashedIsSegment(s: string)
    requires IsDashed(s)
    ensures IsSegment(s)
    decreases |s|
  {
    if !IsWord(s) {
      var k := FirstDash(s);
      RestIsDashed(s, k);
      DashedIsSegment(s[k + 1..]);
      assert SplitsAt(s, k);
    }
  }

  lemma FirstDash(s: string) returns (k: nat)
    requires IsDashed(s) && !IsWord(s)
    ensures 0 < k < |s| - 1 && s[k] == '-' && IsWord(s[..k]) && s[k + 1] != '-'
  {
    k := 0;
    while k < |s| && s[k] != '-'
      invariant k <= |s| && forall i :: 0 <= i < k ==> s[i] != '-'
    {
      k := k + 1;
    }
  }

  // ---------------------------------------------------------------------------
  // Reading ids

  /** Reading an id whose last group is the end of the UUID. */
  function ParseBare(id: string): Option<Parts> {
    if |id| > UUID_CHARS && IsUuid(id[|id| - UUID_CHARS..]) && id[|id| - UUID_CHARS - 1] == '-'
       && IsSegment(id[..|id| - UUID_CHARS - 1])
    then Some(Parts(id[..|id| - UUID_CHARS - 1], id[|id| - UUID_CHARS..], None))
    else None
  }

  /** How many characters follow the last dash. */
  function TailLength(id: string): (n: nat)
    ensures n <= |id|
    ensures forall i :: |id| - n <= i < |id| ==> id[i] != '-'
    ensures n < |id| ==> id[|id| - n - 1] == '-'
  {
    if id == "" || id[|id|-1] == '-' then 0 else TailLength(id[..|id|-1]) + 1
  }

  /** Reading an id with an extension after the last dash. */
  function ParseExtended(id: string): Option<Parts> {
    var n := TailLength(id);
    if n < |id| && IsExtension(id[|id| - n..]) && ParseBare(id[..|id| - n - 1]).Some?
    then Some(ParseBare(id[..|id| - n - 1]).value.(extension := Some(id[|id| - n..])))
    else None
  }

  /** The parts of a lower-case id. */
  function Parse(id: string): Option<Parts> {
    if ParseBare(id).Some? then ParseBare(id) else ParseExtended(id)
  }

  lemma {:induction false} TailLengthIs(id: string, n: nat)
    requires n < |id| && id[|id| - n - 1] == '-'
    requires forall i :: |id| - n <= i < |id| ==> id[i] != '-'
    ensures TailLength(id) == n
    decreases n
  {
    if n > 0 {
      TailLengthIs(id[..|id|-1], n - 1);
    }
  }

  lemma BareTail(id: string)
    requires ParseBare(id).Some?
    ensures TailLength(id) == UUID_LAST_GROUP_CHARS
  {
    var uuid := id[|id| - UUID_CHARS..];
    assert uuid[23] == id[|id| - 13];
    forall i | |id| - 12 <= i < |id|
      ensures id[i] != '-'
    {
      assert id[i] == uuid[i - (|id| - UUID_CHARS)];
    }
    TailLengthIs(id, UUID_LAST_GROUP_CHARS);
  }

  lemma ParseBareJoins(p: Parts)
    requires WellFormed(p) && p.extension == None
    ensures ParseBare(Join(p)) == Some(p)
  {
    var id := Join(p);
    assert id == p.segment + "-" + p.uuid;
    assert id[|id| - UUID_CHARS..] == p.uuid;
    assert id[..|id| - UUID_CHARS - 1] == p.segment;
  }

  lemma TailOfExtended(front: string, extension: string)
    requires front != "" && front[|front|-1] == '-'
    requires forall i :: 0 <= i < |extension| ==> extension[i] != '-'
    ensures TailLength(front + extension) == |extension|
  {
    var id := front + extension;
    assert id[|front|-1] == '-';
    assert id[|front|..] == extension;
    forall i | |front| <= i < |id|
      ensures id[i] != '-'
    {
      assert id[i] == extension[i - |front|];
    }
    TailLengthIs(id, |extension|);
  }

  /** Reading what was joined gives the parts back. */
  lemma ParseOfJoin(p: Parts)
    requires WellFormed(p)
    ensures Parse(Join(p)) == Some(p)
  {
    if p.extension == None {
      ParseBareJoins(p);
    } else {
      var bare, e := p.(extension := None), p.extension.value;
      var id := Join(p);
      assert id == Join(bare) + "-" + e;
      ParseBareJoins(bare);
      assert id == (Join(bare) + "-") + e;
      TailOfExtended(Join(bare) + "-", e);
      assert id[|id| - |e|..] == e;
      assert id[..|id| - |e| - 1] == Join(bare);
      if ParseBare(id).Some? {
        BareTail(id);
      }
    }
  }

  /** What is read are well-formed parts that join to the id. */
  lemma JoinOfParse(id: string)
    requires Parse(id).Some?
    ensures WellFormed(Parse(id).value) && Join(Parse(id).value) == id
  {
    if ParseBare(id).None? {
      var n := TailLength(id);
      assert id == id[..|id| - n - 1] + "-" + id[|id| - n..];
    }
  }

  /** An id has at most one reading, so the pattern's groups do not depend on how it is matched. */
  lemma ReadOneWay(p: Parts, q: Parts)
    requires WellFormed(p) && WellFormed(q) && Join(p) == Join(q)
    ensures p == q
  {
    ParseOfJoin(p);
    ParseOfJoin(q);
  }

  // ---------------------------------------------------------------------------
  // Making segments out of thread ids

  predicate IsAllowed(c: char) {
    IsWordChar(c) || c == '-'
  }

  /** Replace each run of other characters by one dash. */
  function ReplaceOthers(s: string, inRun: bool := false): (r: string)
    ensures forall i :: 0 <= i < |r| ==> IsAllowed(r[i])
  {
    if s == "" then ""
    else if IsAllowed(s[0]) then [s[0]] + ReplaceOthers(s[1..], false)
    else if inRun then ReplaceOthers(s[1..], true)
    else "-" + ReplaceOthers(s[1..], true)
  }

  /** Replace each run of dashes by one. */
  function CollapseDashes(s: string): (r: string)
    requires forall i :: 0 <= i < |s| ==> IsAllowed(s[i])
    ensures forall i :: 0 <= i < |r| ==> IsAllowed(r[i])
    ensures NoDoubleDash(r)
    ensures s != "" ==> r != "" && r[0] == s[0]
  {
    if |s| <= 1 then s
    else if s[0] == '-' && s[1] == '-' then CollapseDashes(s[1..])
    else [s[0]] + CollapseDashes(s[1..])
  }

  predicate IsTrimmed(c: char) {
    c == '-' || c == '_'
  }

  function TrimLeft(s: string): (r: string)
    ensures r == "" || !IsTrimmed(r[0])
    ensures |r| <= |s| && r == s[|s| - |r|..]
  {
    if s != "" && IsTrimmed(s[0]) then TrimLeft(s[1..]) else s
  }

  function TrimRight(s: string): (r: string)
    ensures r == "" || !IsTrimmed(r[|r|-1])
    ensures |r| <= |s| && r == s[..|r|]
  {
    if s != "" && IsTrimmed(s[|s|-1]) then TrimRight(s[..|s|-1]) else s
  }

  function Take(s: string, n: nat): string {
    if |s| <= n then s else s[..n]
  }

  /** The segment of a thread id, if it leaves any. */
  function SafeSegment(threadId: string): Option<string> {
    var segment := TrimmedSegment(threadId);
    if segment == "" then None
    else if segment == PENDING_SEGMENT then Some("_pending") else Some(segment)
  }

  lemma SlicesStayClean(s: string, from: nat, to: nat)
    requires NoDoubleDash(s) && from <= to <= |s|
    ensures NoDoubleDash(s[from..to])
  {
    assert forall i :: 0 <= i < to - from ==> s[from..to][i] == s[from + i];
  }

  /** What SafeSegment computes before it sets pending aside. */
  function TrimmedSegment(threadId: string): string {
    TrimRight(Take(TrimRight(TrimLeft(CollapseDashes(ReplaceOthers(Lower(Trim(threadId)))))), SEGMENT_MAX_CHARS))
  }

  lemma TrimmedSegmentIsDashed(threadId: string)
    requires TrimmedSegment(threadId) != ""
    ensures IsDashed(TrimmedSegment(threadId)) && |TrimmedSegment(threadId)| <= SEGMENT_MAX_CHARS
  {
    TrimmingGivesDashed(CollapseDashes(ReplaceOthers(Lower(Trim(threadId)))));
  }

  lemma TrimmingGivesDashed(s: string)
    requires NoDoubleDash(s) && forall i :: 0 <= i < |s| ==> IsAllowed(s[i])
    ensures var segment := TrimRight(Take(TrimRight(TrimLeft(s)), SEGMENT_MAX_CHARS));
            segment != "" ==> IsDashed(segment) && |segment| <= SEGMENT_MAX_CHARS
  {
    var left := TrimLeft(s);
    var segment := TrimRight(Take(TrimRight(left), SEGMENT_MAX_CHARS));
    CutsArePrefix(left);
    if segment != "" {
      TrimmedSliceIsDashed(s, left, segment);
    }
  }

  lemma PrefixOfPrefix(a: string, b: string, c: string)
    requires |c| <= |b| <= |a| && b == a[..|b|] && c == b[..|c|]
    ensures c == a[..|c|]
  {
  }

  /** The three cuts on the right leave a prefix that does not end in a trimmed character. */
  lemma CutsArePrefix(left: string)
    ensures var segment := TrimRight(Take(TrimRight(left), SEGMENT_MAX_CHARS));
            && |segment| <= |left| && segment == left[..|segment|] && |segment| <= SEGMENT_MAX_CHARS
            && (segment != "" ==> !IsTrimmed(segment[|segment|-1]))
  {
    var both := TrimRight(left);
    var taken := Take(both, SEGMENT_MAX_CHARS);
    PrefixOfPrefix(left, both, taken);
    PrefixOfPrefix(left, taken, TrimRight(taken));
  }

  /** A string cut on both sides, so that it begins and ends with a word character. */
  lemma TrimmedSliceIsDashed(s: string, left: string, segment: string)
    requires NoDoubleDash(s) && forall i :: 0 <= i < |s| ==> IsAllowed(s[i])
    requires |left| <= |s| && left == s[|s| - |left|..] && |segment| <= |left| && segment == left[..|segment|]
    requires segment != "" && !IsTrimmed(left[0]) && !IsTrimmed(segment[|segment|-1])
    ensures IsDashed(segment)
  {
    var from := |s| - |left|;
    assert segment == s[from..][..|segment|];
    assert s[from] == left[0] && s[from + |segment| - 1] == segment[|segment|-1];
    CleanSliceIsDashed(s, from, |segment|);
  }

  lemma CleanSliceIsDashed(s: string, from: nat, n: nat)
    requires NoDoubleDash(s) && (forall i :: 0 <= i < |s| ==> IsAllowed(s[i]))
    requires 0 < n && from + n <= |s| && s[from] != '-' && s[from + n - 1] != '-'
    ensures IsDashed(s[from..][..n])
  {
    var t := s[from..][..n];
    assert t == s[from..from + n];
    SlicesStayClean(s, from, from + n);
  }

  lemma WordIsSegment(s: string)
    requires IsWord(s)
    ensures IsSegment(s)
  {
  }

  lemma PendingSetAside()
    ensures IsSegment("_pending")
  {
    WordIsSegment("_pending");
  }

  /** A segment made from any thread id fits the grammar and is never the one of pending uploads. */
  lemma SafeSegmentIsSegment(threadId: string)
    requires SafeSegment(threadId).Some?
    ensures IsSegment(SafeSegment(threadId).value)
    ensures |SafeSegment(threadId).value| <= SEGMENT_MAX_CHARS && SafeSegment(threadId).value != PENDING_SEGMENT
  {
    var segment := TrimmedSegment(threadId);
    if segment == PENDING_SEGMENT {
      PendingSetAside();
    } else {
      TrimmedSegmentIsDashed(threadId);
      DashedIsSegment(segment);
    }
  }

  /** A segment that fits already, starts and ends with neither dash nor underscore, and is short enough, is kept. */
  lemma SegmentIsKept(s: string)
    requires IsDashed(s) && s[0] != '_' && s[|s|-1] != '_' && |s| <= SEGMENT_MAX_CHARS && s != PENDING_SEGMENT
    ensures SafeSegment(s) == Some(s)
  {
    DashedIsCollapsed(s);
    NothingToTrim(s);
  }

  lemma DashedIsCollapsed(s: string)
    requires IsDashed(s)
    ensures CollapseDashes(ReplaceOthers(Lower(Trim(s)))) == s
  {
    TrimKeeps(s);
    assert Lower(s) == s;
    AllowedIsKept(s, false);
    SingleDashesAreKept(s);
  }

  lemma NothingToTrim(s: string)
    requires s != "" && !IsTrimmed(s[0]) && !IsTrimmed(s[|s|-1])
    ensures TrimLeft(s) == s && TrimRight(s) == s
  {
  }

  lemma {:induction false} AllowedIsKept(s: string, inRun: bool)
    requires forall i :: 0 <= i < |s| ==> IsAllowed(s[i])
    ensures ReplaceOthers(s, inRun) == s
    decreases |s|
  {
    if s != "" {
      AllowedIsKept(s[1..], false);
    }
  }

  lemma {:induction false} SingleDashesAreKept(s: string)
    requires NoDoubleDash(s) && forall i :: 0 <= i < |s| ==> IsAllowed(s[i])
    ensures CollapseDashes(s) == s
    decreases |s|
  {
    if |s| > 1 {
      assert forall i :: 0 <= i < |s[1..]| ==> s[1..][i] == s[i + 1];
      SingleDashesAreKept(s[1..]);
    }
  }
}
