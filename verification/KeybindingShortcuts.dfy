/**
 Shortcuts as users write them, "mod+shift+k", and their canonical spelling.  Two rules
 conflict if their canonical spellings agree, so spelling must lose nothing.
 */
module KeybindingShortcuts {
  import opened Text
  import opened Wrappers

  datatype Shortcut = Shortcut(key: string, modKey: bool, metaKey: bool, ctrlKey: bool, altKey: bool, shiftKey: bool)

  /** What has been read so far; the key may not have come yet. */
  datatype Reading = Reading(key: Option<string>, modKey: bool, metaKey: bool, ctrlKey: bool, altKey: bool,
                             shiftKey: bool)

  const NOTHING := Reading(None, false, false, false, false, false)

  /** The parts of a string between plus signs. */
  function Split(s: string): (tokens: seq<string>)
    ensures tokens != [] && forall t <- tokens :: '+' !in t
  {
    if s == "" then [""]
    else
      var rest := Split(s[1..]);
      if s[0] == '+' then [""] + rest else [[s[0]] + rest[0]] + rest[1..]
  }

  function Join(tokens: seq<string>): string
    requires tokens != []
  {
    if |tokens| == 1 then tokens[0] else tokens[0] + "+" + Join(tokens[1..])
  }

  function Trimmed(tokens: seq<string>): (r: seq<string>)
    ensures |r| == |tokens|
  {
    seq(|tokens|, i requires 0 <= i < |tokens| => Trim(tokens[i]))
  }

  function WithoutTrailingEmpty(tokens: seq<string>): (r: seq<string>)
    ensures |r| <= |tokens|
  {
    if tokens != [] && tokens[|tokens|-1] == "" then WithoutTrailingEmpty(tokens[..|tokens|-1]) else tokens
  }

  /** Empty parts at the end stand for the plus key. */
  function Tokens(value: string): seq<string> {
    var raw := Trimmed(Split(Lower(value)));
    var kept := WithoutTrailingEmpty(raw);
    if |kept| < |raw| then kept + ["+"] else kept
  }

  function NormalKey(token: string): string {
    if token == "space" then " " else if token == "esc" then "escape" else token
  }

  predicate IsModifier(token: string) {
    token == "cmd" || token == "meta" || token == "ctrl" || token == "control" || token == "shift" ||
    token == "alt" || token == "option" || token == "mod"
  }

  /** One more token; None if there is a second key. */
  function ReadToken(token: string, r: Reading): Option<Reading> {
    if token == "cmd" || token == "meta" then Some(r.(metaKey := true))
    else if token == "ctrl" || token == "control" then Some(r.(ctrlKey := true))
    else if token == "shift" then Some(r.(shiftKey := true))
    else if token == "alt" || token == "option" then Some(r.(altKey := true))
    else if token == "mod" then Some(r.(modKey := true))
    else if r.key.Some? then None
    else Some(r.(key := Some(NormalKey(token))))
  }

  function ReadTokens(tokens: seq<string>, r: Reading): Option<Reading> {
    if tokens == [] then Some(r)
    else match ReadToken(tokens[0], r)
      case None => None
      case Some(next) => ReadTokens(tokens[1..], next)
  }

  function ParseShortcut(value: string): Option<Shortcut> {
    if "" in Tokens(value) then None
    else match ReadTokens(Tokens(value), NOTHING)
      case None => None
      case Some(r) =>
        if r.key.None? then None
        else Some(Shortcut(r.key.value, r.modKey, r.metaKey, r.ctrlKey, r.altKey, r.shiftKey))
  }

  function Flag(flag: bool, token: string): seq<string> {
    if flag then [token] else []
  }

  function Modifiers(s: Shortcut): seq<string> {
    Flag(s.modKey, "mod") + Flag(s.metaKey, "meta") + Flag(s.ctrlKey, "ctrl") + Flag(s.altKey, "alt") +
    Flag(s.shiftKey, "shift")
  }

  function KeyName(key: string): string {
    if key == " " then "space" else key
  }

  function EncodeShortcut(s: Shortcut): Option<string> {
    if s.key == "" || (s.key != "+" && '+' in s.key) then None
    else Some(Join(Modifiers(s) + [KeyName(s.key)]))
  }

  // ---------------------------------------------------------------------------
  // Splitting undoes joining

  lemma {:induction false} SplitOne(t: string)
    requires '+' !in t
    ensures Split(t) == [t]
    decreases |t|
  {
    if t != "" {
      SplitOne(t[1..]);
      assert [t[0]] + t[1..] == t;
    }
  }

  lemma {:induction false} SplitFirst(t: string, rest: string)
    requires '+' !in t
    ensures Split(t + "+" + rest) == [t] + Split(rest)
    decreases |t|
  {
    var s := t + "+" + rest;
    if t == "" {
      assert s[1..] == rest;
    } else {
      assert s[1..] == t[1..] + "+" + rest;
      SplitFirst(t[1..], rest);
      assert [t[0]] + t[1..] == t;
    }
  }

  lemma {:induction false} SplitOfJoin(tokens: seq<string>)
    requires tokens != [] && forall t <- tokens :: '+' !in t
    ensures Split(Join(tokens)) == tokens
    decreases |tokens|
  {
    if |tokens| == 1 {
      SplitOne(tokens[0]);
    } else {
      SplitOfJoin(tokens[1..]);
      SplitFirst(tokens[0], Join(tokens[1..]));
    }
  }

  // ---------------------------------------------------------------------------
  // What a shortcut means

  /** The tokens that are no modifiers. */
  function Keys(tokens: seq<string>): seq<string> {
    if tokens == [] then []
    else (if IsModifier(tokens[0]) then [] else [tokens[0]]) + Keys(tokens[1..])
  }

  /** Of tokens only one can be the key. */
  lemma {:induction false} ReadingKey(tokens: seq<string>, r: Reading)
    ensures ReadTokens(tokens, r).Some? <==> |Keys(tokens)| + (if r.key.Some? then 1 else 0) <= 1
    ensures var read := ReadTokens(tokens, r);
            read.Some? ==>
              read.value.key == if Keys(tokens) == [] then r.key else Some(NormalKey(Keys(tokens)[0]))
    decreases |tokens|
  {
    if tokens != [] && ReadToken(tokens[0], r).Some? {
      ReadingKey(tokens[1..], ReadToken(tokens[0], r).value);
    }
  }

  predicate SameModifiers(a: Reading, b: Reading) {
    a.(key := None) == b.(key := None)
  }

  /** These modifiers and those named by the tokens. */
  function WithModifiers(tokens: seq<string>, r: Reading): Reading {
    Reading(r.key, r.modKey || "mod" in tokens, r.metaKey || "cmd" in tokens || "meta" in tokens,
            r.ctrlKey || "ctrl" in tokens || "control" in tokens, r.altKey || "alt" in tokens || "option" in tokens,
            r.shiftKey || "shift" in tokens)
  }

  lemma TokenModifiers(token: string, r: Reading)
    requires ReadToken(token, r).Some?
    ensures SameModifiers(ReadToken(token, r).value, WithModifiers([token], r))
  {
    assert forall t :: t in [token] <==> t == token;
  }

  lemma MoreModifiers(token: string, rest: seq<string>, r: Reading, next: Reading)
    requires SameModifiers(next, WithModifiers([token], r))
    ensures SameModifiers(WithModifiers(rest, next), WithModifiers([token] + rest, r))
  {
    assert forall t :: t in [token] + rest <==> t in [token] || t in rest;
  }

  /** Every modifier named by the tokens is read, in any order, and no other. */
  lemma {:induction false} ReadingModifiers(tokens: seq<string>, r: Reading)
    requires ReadTokens(tokens, r).Some?
    ensures SameModifiers(ReadTokens(tokens, r).value, WithModifiers(tokens, r))
    decreases |tokens|
  {
    if tokens != [] {
      var next := ReadToken(tokens[0], r).value;
      TokenModifiers(tokens[0], r);
      ReadingModifiers(tokens[1..], next);
      MoreModifiers(tokens[0], tokens[1..], r, next);
      assert tokens == [tokens[0]] + tokens[1..];
    }
  }

  /**
   A shortcut is read exactly if it has one key and no empty part. It means that key, with the modifiers named
   anywhere in it under any of their names.
   */
  lemma ParsedMeans(value: string)
    ensures var tokens := Tokens(value);
            var parsed := ParseShortcut(value);
            && (parsed.Some? <==> "" !in tokens && |Keys(tokens)| == 1)
            && (parsed.Some? ==>
                  parsed.value == Shortcut(NormalKey(Keys(tokens)[0]), "mod" in tokens,
                                           "cmd" in tokens || "meta" in tokens,
                                           "ctrl" in tokens || "control" in tokens,
                                           "alt" in tokens || "option" in tokens, "shift" in tokens))
  {
    ReadingKey(Tokens(value), NOTHING);
    if ReadTokens(Tokens(value), NOTHING).Some? {
      ReadingModifiers(Tokens(value), NOTHING);
    }
  }

  /** Case does not matter. */
  lemma CaseDoesNotMatter(value: string)
    ensures ParseShortcut(Lower(value)) == ParseShortcut(value)
  {
    assert Lower(Lower(value)) == Lower(value);
  }

  // ---------------------------------------------------------------------------
  // Reading undoes spelling

  /** A key as reading leaves it. */
  predicate IsKey(key: string) {
    || key == "+" || key == " "
    || (key != "" && '+' !in key && Trim(key) == key && Lower(key) == key && !IsModifier(key) && NormalKey(key) == key)
  }

  /** A part of a lower-case string between plus signs, trimmed; or the plus key. */
  predicate IsToken(t: string) {
    t == "+" || ('+' !in t && Trim(t) == t && Lower(t) == t)
  }

  lemma EscapeIsKey()
    ensures IsKey("escape")
  {
    TrimKeeps("escape");
  }

  lemma NormalKeyIsKey(token: string)
    requires IsToken(token) && token != "" && !IsModifier(token)
    ensures IsKey(NormalKey(token))
  {
    if token == "esc" {
      EscapeIsKey();
    }
  }

  lemma TokenGivesKey(token: string, r: Reading)
    requires IsToken(token) && token != "" && (r.key.Some? ==> IsKey(r.key.value)) && ReadToken(token, r).Some?
    ensures ReadToken(token, r).value.key.Some? ==> IsKey(ReadToken(token, r).value.key.value)
  {
    var next := ReadToken(token, r).value;
    if IsModifier(token) {
      assert next.key == r.key;
    } else {
      NormalKeyIsKey(token);
      assert next.key == Some(NormalKey(token));
    }
  }

  lemma {:induction false} ReadingGivesKey(tokens: seq<string>, r: Reading)
    requires forall t <- tokens :: IsToken(t) && t != ""
    requires r.key.Some? ==> IsKey(r.key.value)
    ensures var read := ReadTokens(tokens, r); read.Some? && read.value.key.Some? ==> IsKey(read.value.key.value)
    decreases |tokens|
  {
    if tokens != [] && ReadToken(tokens[0], r).Some? {
      TokenGivesKey(tokens[0], r);
      ReadingGivesKey(tokens[1..], ReadToken(tokens[0], r).value);
    }
  }

  lemma {:induction false} SplitParts(s: string)
    ensures forall t <- Split(s), c <- t :: c in s
    decreases |s|
  {
    if s != "" {
      SplitParts(s[1..]);
      forall t <- Split(s), c <- t
        ensures c in s
      {
        var rest := Split(s[1..]);
        assert t == "" || t == [s[0]] + rest[0] || t in rest;
        assert c == s[0] || exists u <- rest :: c in u;
      }
    }
  }

  lemma PartIsToken(value: string, t: string)
    requires t in Split(Lower(value))
    ensures IsToken(Trim(t))
  {
    SplitParts(Lower(value));
    TrimIsPart(t);
    TrimKeeps(Trim(t));
    forall c <- Trim(t)
      ensures LowerChar(c) == c
    {
      assert c in t && c in Lower(value);
    }
    assert Lower(Trim(t)) == Trim(t);
  }

  lemma {:induction false} KeptIsPrefix(tokens: seq<string>)
    ensures WithoutTrailingEmpty(tokens) == tokens[..|WithoutTrailingEmpty(tokens)|]
    decreases |tokens|
  {
    if tokens != [] && tokens[|tokens|-1] == "" {
      KeptIsPrefix(tokens[..|tokens|-1]);
    }
  }

  /** The key of a shortcut that was read is in normal form. */
  lemma ParsedHasKey(value: string)
    requires ParseShortcut(value).Some?
    ensures IsKey(ParseShortcut(value).value.key)
  {
    var parts := Split(Lower(value));
    var raw := Trimmed(parts);
    forall t <- raw
      ensures IsToken(t)
    {
      var i :| 0 <= i < |raw| && raw[i] == t;
      PartIsToken(value, parts[i]);
    }
    KeptIsPrefix(raw);
    forall t <- Tokens(value)
      ensures IsToken(t) && t != ""
    {
      assert t == "+" || t in raw;
    }
    ReadingGivesKey(Tokens(value), NOTHING);
  }

  lemma {:induction false} ReadInTwo(first: seq<string>, second: seq<string>, r: Reading)
    requires ReadTokens(first, r).Some?
    ensures ReadTokens(first + second, r) == ReadTokens(second, ReadTokens(first, r).value)
    decreases |first|
  {
    if first == [] {
      assert first + second == second;
    } else {
      assert (first + second)[1..] == first[1..] + second;
      ReadInTwo(first[1..], second, ReadToken(first[0], r).value);
    }
  }

  /** A modifier that may be there, before further tokens. */
  lemma ReadFlag(token: string, flag: bool, rest: seq<string>, r: Reading)
    requires IsModifier(token)
    ensures ReadToken(token, r).Some?
    ensures ReadTokens(Flag(flag, token) + rest, r) == ReadTokens(rest, if flag then ReadToken(token, r).value else r)
  {
    if flag {
      assert ([token] + rest)[1..] == rest;
    } else {
      assert [] + rest == rest;
    }
  }

  lemma FromTheRight(a: seq<string>, b: seq<string>, c: seq<string>, d: seq<string>, e: seq<string>, f: seq<string>)
    ensures a + b + c + d + e + f == a + (b + (c + (d + (e + f))))
  {
  }

  /** The modifiers are read back, whatever key follows. */
  lemma ReadModifiers(s: Shortcut, rest: seq<string>)
    ensures ReadTokens(Modifiers(s) + rest, NOTHING) ==
            ReadTokens(rest, Reading(None, s.modKey, s.metaKey, s.ctrlKey, s.altKey, s.shiftKey))
  {
    var shift := Flag(s.shiftKey, "shift") + rest;
    var alt := Flag(s.altKey, "alt") + shift;
    var ctrl := Flag(s.ctrlKey, "ctrl") + alt;
    var meta := Flag(s.metaKey, "meta") + ctrl;
    FromTheRight(Flag(s.modKey, "mod"), Flag(s.metaKey, "meta"), Flag(s.ctrlKey, "ctrl"), Flag(s.altKey, "alt"),
                 Flag(s.shiftKey, "shift"), rest);
    ReadFlag("mod", s.modKey, meta, NOTHING);
    ReadFlag("meta", s.metaKey, ctrl, NOTHING.(modKey := s.modKey));
    ReadFlag("ctrl", s.ctrlKey, alt, NOTHING.(modKey := s.modKey, metaKey := s.metaKey));
    ReadFlag("alt", s.altKey, shift, NOTHING.(modKey := s.modKey, metaKey := s.metaKey, ctrlKey := s.ctrlKey));
    ReadFlag("shift", s.shiftKey, rest, Reading(None, s.modKey, s.metaKey, s.ctrlKey, s.altKey, false));
  }

  /** A token that lower-casing, trimming and splitting leave alone. */
  predicate IsPlain(t: string) {
    t != "" && '+' !in t && Trim(t) == t && Lower(t) == t
  }

  predicate AllPlain(tokens: seq<string>) {
    forall t <- tokens :: IsPlain(t)
  }

  lemma WordIsPlain(t: string)
    requires t in {"mod", "meta", "ctrl", "alt", "shift", "space", "esc"}
    ensures IsPlain(t)
  {
    TrimKeeps(t);
  }

  lemma FlagIsPlain(flag: bool, t: string)
    requires t in {"mod", "meta", "ctrl", "alt", "shift"}
    ensures AllPlain(Flag(flag, t))
  {
    WordIsPlain(t);
  }

  lemma PlainTogether(a: seq<string>, b: seq<string>)
    requires AllPlain(a) && AllPlain(b)
    ensures AllPlain(a + b)
  {
  }

  lemma ModifiersArePlain(s: Shortcut)
    ensures AllPlain(Modifiers(s))
  {
    var mods := Flag(s.modKey, "mod");
    FlagIsPlain(s.modKey, "mod");
    FlagIsPlain(s.metaKey, "meta");
    PlainTogether(mods, Flag(s.metaKey, "meta"));
    mods := mods + Flag(s.metaKey, "meta");
    FlagIsPlain(s.ctrlKey, "ctrl");
    PlainTogether(mods, Flag(s.ctrlKey, "ctrl"));
    mods := mods + Flag(s.ctrlKey, "ctrl");
    FlagIsPlain(s.altKey, "alt");
    PlainTogether(mods, Flag(s.altKey, "alt"));
    mods := mods + Flag(s.altKey, "alt");
    FlagIsPlain(s.shiftKey, "shift");
    PlainTogether(mods, Flag(s.shiftKey, "shift"));
  }

  lemma {:induction false} LowerOfJoin(tokens: seq<string>)
    requires tokens != [] && forall t <- tokens :: Lower(t) == t
    ensures Lower(Join(tokens)) == Join(tokens)
    decreases |tokens|
  {
    if |tokens| > 1 {
      LowerOfJoin(tokens[1..]);
      var first, rest := tokens[0], Join(tokens[1..]);
      LowerOfThree(first, rest);
    }
  }

  lemma LowerOfThree(first: string, rest: string)
    requires Lower(first) == first && Lower(rest) == rest
    ensures Lower(first + "+" + rest) == first + "+" + rest
  {
    var s := first + "+" + rest;
    forall i | 0 <= i < |s|
      ensures LowerChar(s[i]) == s[i]
    {
      if i < |first| {
        assert s[i] == first[i] && Lower(first)[i] == first[i];
      } else if i > |first| {
        assert s[i] == rest[i - |first| - 1] && Lower(rest)[i - |first| - 1] == rest[i - |first| - 1];
      }
    }
  }

  /** Joined tokens are read as those tokens, with empty ones at the end still to be dropped. */
  lemma TokensOfJoin(tokens: seq<string>)
    requires tokens != [] && forall t <- tokens :: '+' !in t && Trim(t) == t && Lower(t) == t
    ensures var kept := WithoutTrailingEmpty(tokens);
            Tokens(Join(tokens)) == if |kept| < |tokens| then kept + ["+"] else kept
  {
    LowerOfJoin(tokens);
    SplitOfJoin(tokens);
    assert Trimmed(tokens) == tokens;
  }

  lemma {:induction false} JoinPlus(tokens: seq<string>)
    ensures Join(tokens + ["+"]) == Join(tokens + ["", ""])
    decreases |tokens|
  {
    if tokens == [] {
      assert Join(["", ""]) == "" + "+" + Join(["", ""][1..]);
      assert tokens + ["+"] == ["+"] && tokens + ["", ""] == ["", ""] && ["", ""][1..] == [""];
    } else {
      JoinPlus(tokens[1..]);
      assert (tokens + ["+"])[1..] == tokens[1..] + ["+"];
      assert (tokens + ["", ""])[1..] == tokens[1..] + ["", ""];
    }
  }

  lemma DropTwo(tokens: seq<string>)
    requires tokens != [] ==> tokens[|tokens|-1] != ""
    ensures WithoutTrailingEmpty(tokens + ["", ""]) == tokens
  {
    var one, two := tokens + [""], tokens + ["", ""];
    assert two[|two|-1] == "" && two[..|two|-1] == one;
    assert one[|one|-1] == "" && one[..|one|-1] == tokens;
    assert WithoutTrailingEmpty(one) == WithoutTrailingEmpty(tokens);
  }

  /** The tokens of the given modifiers joined with a key are those modifiers and the key. */
  lemma JoinedTokens(mods: seq<string>, key: string)
    requires AllPlain(mods) && (key == "+" || IsPlain(key))
    ensures Tokens(Join(mods + [key])) == mods + [key]
  {
    if key == "+" {
      JoinPlus(mods);
      assert mods != [] ==> mods[|mods|-1] in mods;
      DropTwo(mods);
      TokensOfJoin(mods + ["", ""]);
    } else {
      TokensOfJoin(mods + [key]);
    }
  }

  lemma KeyNameIsPlain(key: string)
    requires IsKey(key)
    ensures KeyName(key) == "+" || IsPlain(KeyName(key))
  {
    if key == " " {
      WordIsPlain("space");
    }
  }

  /** The tokens of a spelled shortcut are its modifiers and its key. */
  lemma SpelledTokens(s: Shortcut)
    requires IsKey(s.key)
    ensures EncodeShortcut(s).Some?
    ensures Tokens(EncodeShortcut(s).value) == Modifiers(s) + [KeyName(s.key)]
  {
    ModifiersArePlain(s);
    KeyNameIsPlain(s.key);
    JoinedTokens(Modifiers(s), KeyName(s.key));
  }

  lemma ReadKey(key: string, r: Reading)
    requires IsKey(key) && r.key == None
    ensures ReadTokens([KeyName(key)], r) == Some(r.(key := Some(key)))
  {
    assert [KeyName(key)][1..] == [];
    assert ReadToken(KeyName(key), r) == Some(r.(key := Some(key)));
  }

  /** A spelled shortcut is read back as it is. */
  lemma SpelledReadsBack(s: Shortcut)
    requires IsKey(s.key)
    ensures EncodeShortcut(s).Some? && ParseShortcut(EncodeShortcut(s).value) == Some(s)
  {
    SpelledTokens(s);
    NoEmptyToken(s);
    ReadModifiers(s, [KeyName(s.key)]);
    ReadKey(s.key, Reading(None, s.modKey, s.metaKey, s.ctrlKey, s.altKey, s.shiftKey));
  }

  lemma ReadEsc(r: Reading)
    requires r.key == None
    ensures ReadTokens(["esc"], r) == Some(r.(key := Some("escape")))
  {
    assert ["esc"][1..] == [];
    assert ReadToken("esc", r) == Some(r.(key := Some("escape")));
  }

  lemma EscTokens(s: Shortcut)
    ensures Tokens(Join(Modifiers(s) + ["esc"])) == Modifiers(s) + ["esc"]
    ensures "" !in Modifiers(s) + ["esc"]
  {
    ModifiersArePlain(s);
    WordIsPlain("esc");
    JoinedTokens(Modifiers(s), "esc");
    assert forall t <- Modifiers(s) :: IsPlain(t);
  }

  /** The escape key has a short name. */
  lemma EscIsEscape(s: Shortcut)
    requires s.key == "escape"
    ensures ParseShortcut(Join(Modifiers(s) + ["esc"])) == Some(s)
  {
    EscTokens(s);
    ReadModifiers(s, ["esc"]);
    ReadEsc(Reading(None, s.modKey, s.metaKey, s.ctrlKey, s.altKey, s.shiftKey));
  }

  lemma NoEmptyToken(s: Shortcut)
    requires IsKey(s.key)
    ensures "" !in Modifiers(s) + [KeyName(s.key)]
  {
    ModifiersArePlain(s);
    KeyNameIsPlain(s.key);
    assert forall t <- Modifiers(s) :: IsPlain(t);
  }

  /** Two shortcuts that were read are spelled the same exactly if they are the same. */
  lemma SpelledApart(value: string, other: string)
    requires ParseShortcut(value).Some? && ParseShortcut(other).Some?
    ensures EncodeShortcut(ParseShortcut(value).value).Some?
    ensures EncodeShortcut(ParseShortcut(value).value) == EncodeShortcut(ParseShortcut(other).value) <==>
            ParseShortcut(value) == ParseShortcut(other)
  {
    ParsedHasKey(value);
    ParsedHasKey(other);
    SpelledReadsBack(ParseShortcut(value).value);
    SpelledReadsBack(ParseShortcut(other).value);
  }

  /** Two keys that are no modifiers, joined by a plus sign, are no shortcut. */
  lemma TwoKeysDoNotParse(first: string, second: string)
    requires IsKey(first) && IsKey(second) && first != "+" && first != " " && second != "+" && second != " "
    ensures ParseShortcut(first + "+" + second) == None
  {
    var tokens := [first] + [second];
    JoinedTokens([first], second);
    assert Join(tokens) == first + "+" + second by {
      assert tokens[1..] == [second];
    }
    ReadKey(first, NOTHING);
    ReadInTwo([first], [second], NOTHING);
    assert ReadToken(second, NOTHING.(key := Some(first))) == None;
  }
}
