/**
 The keybindings file and the cache in front of it: the startup backfill of missing
 defaults, and rules put in and taken out by the user.
 The file and the cache are treated for any rule language; RulesOf is the one in use.
 */
module Keybindings {
  import opened KeybindingShortcuts
  import opened Wrappers

  const MAX_KEYBINDINGS_COUNT: nat := 256

  datatype Rule = Rule(key: string, command: string, when: Option<string>)

  /** A rule ready for use: what it runs, and on what. */
  datatype Resolved = Resolved(command: string, shortcut: Shortcut, condition: Option<string>)

  /** One element of the array on disk. */
  datatype Entry = Junk | Entry(rule: Rule)

  datatype Disk = Missing | Malformed | Entries(entries: seq<Entry>)

  datatype Issue = MalformedConfig | InvalidEntry(index: nat)

  datatype State = State(keybindings: seq<Resolved>, issues: seq<Issue>)

  /** The default rules, what a rule compiles to, and what it reacts to. */
  datatype Language = Language(
    defaults: seq<Rule>,
    compile: Rule -> Option<Resolved>,
    context: Rule -> Option<(string, string)>
  )

  /** A rule is accepted when it is read from disk exactly if it compiles. */
  predicate Accepted(l: Language, r: Rule) {
    l.compile(r).Some?
  }

  /** The last n elements, or all of them. */
  function Last<T>(s: seq<T>, n: nat): (r: seq<T>)
    ensures |r| <= n
  {
    if |s| <= n then s else s[|s| - n..]
  }

  predicate Good(l: Language, e: Entry) {
    e.Entry? && Accepted(l, e.rule)
  }

  /** The rules of the entries that are read without an issue, in order. */
  function Kept(l: Language, entries: seq<Entry>): seq<Rule> {
    if entries == [] then []
    else
      var last := entries[|entries|-1];
      Kept(l, entries[..|entries|-1]) + if Good(l, last) then [last.rule] else []
  }

  function Issues(l: Language, entries: seq<Entry>): seq<Issue> {
    if entries == [] then []
    else
      Issues(l, entries[..|entries|-1]) +
      if Good(l, entries[|entries|-1]) then [] else [InvalidEntry(|entries| - 1)]
  }

  function EntriesOf(rules: seq<Rule>): (entries: seq<Entry>)
    ensures |entries| == |rules|
  {
    seq(|rules|, i requires 0 <= i < |rules| => Entry(rules[i]))
  }

  function CompileAll(l: Language, rules: seq<Rule>): seq<Resolved> {
    if rules == [] then []
    else
      var last := rules[|rules|-1];
      CompileAll(l, rules[..|rules|-1]) +
      match l.compile(last)
      case Some(resolved) => [resolved]
      case None => []
  }

  function Compile(l: Language, rules: seq<Rule>): seq<Resolved> {
    Last(CompileAll(l, rules), MAX_KEYBINDINGS_COUNT)
  }

  /** The user has bound this command. */
  predicate Overridden(custom: seq<Resolved>, command: string) {
    exists b <- custom :: b.command == command
  }

  function Retained(defaults: seq<Resolved>, custom: seq<Resolved>): seq<Resolved> {
    if defaults == [] then []
    else
      var last := defaults[|defaults|-1];
      Retained(defaults[..|defaults|-1], custom) + if Overridden(custom, last.command) then [] else [last]
  }

  function Merge(l: Language, custom: seq<Resolved>): seq<Resolved> {
    if custom == [] then Compile(l, l.defaults)
    else Last(Retained(Compile(l, l.defaults), custom) + custom, MAX_KEYBINDINGS_COUNT)
  }

  /** What a fresh load from disk gives. */
  function Load(l: Language, disk: Disk): State {
    match disk
    case Missing => State(Merge(l, Compile(l, [])), [])
    case Malformed => State(Merge(l, Compile(l, [])), [MalformedConfig])
    case Entries(entries) => State(Merge(l, Compile(l, Kept(l, entries))), Issues(l, entries))
  }

  // ---------------------------------------------------------------------------
  // What is read back

  /** There is an issue for exactly the entries that are not good, under their index. */
  lemma {:induction false} IssueAt(l: Language, entries: seq<Entry>, issue: Issue)
    ensures issue in Issues(l, entries) <==>
            issue.InvalidEntry? && issue.index < |entries| && !Good(l, entries[issue.index])
    decreases |entries|
  {
    if entries != [] {
      IssueAt(l, entries[..|entries|-1], issue);
    }
  }

  lemma NoIssues(l: Language, entries: seq<Entry>)
    ensures Issues(l, entries) == [] <==> forall e <- entries :: Good(l, e)
  {
    if Issues(l, entries) == [] {
      forall i | 0 <= i < |entries|
        ensures Good(l, entries[i])
      {
        IssueAt(l, entries, InvalidEntry(i));
      }
    } else {
      IssueAt(l, entries, Issues(l, entries)[0]);
    }
  }

  /** Entries that are all good are kept as they are. */
  lemma {:induction false} GoodAreKept(l: Language, entries: seq<Entry>)
    requires forall e <- entries :: Good(l, e)
    ensures EntriesOf(Kept(l, entries)) == entries
    decreases |entries|
  {
    if entries != [] {
      var n := |entries| - 1;
      GoodAreKept(l, entries[..n]);
      assert entries == entries[..n] + [entries[n]];
      assert entries[n] in entries && EntriesOf([entries[n].rule]) == [entries[n]];
    }
  }

  lemma {:induction false} KeptAreAccepted(l: Language, entries: seq<Entry>)
    ensures forall r <- Kept(l, entries) :: Accepted(l, r)
    ensures |Kept(l, entries)| <= |entries|
    decreases |entries|
  {
    if entries != [] {
      KeptAreAccepted(l, entries[..|entries|-1]);
    }
  }

  lemma WrittenIsGood(l: Language, rules: seq<Rule>)
    ensures (forall e <- EntriesOf(rules) :: Good(l, e)) <==> forall r <- rules :: Accepted(l, r)
  {
    var entries := EntriesOf(rules);
    if forall e <- entries :: Good(l, e) {
      forall i | 0 <= i < |rules|
        ensures Accepted(l, rules[i])
      {
        assert entries[i] in entries && entries[i] == Entry(rules[i]);
      }
    }
  }

  /** Rules that are written and accepted are read back as they are, without an issue. */
  lemma {:induction false} WrittenReadsBack(l: Language, rules: seq<Rule>)
    requires forall r <- rules :: Accepted(l, r)
    ensures Kept(l, EntriesOf(rules)) == rules && Issues(l, EntriesOf(rules)) == []
    decreases |rules|
  {
    if rules != [] {
      var n := |rules| - 1;
      WrittenReadsBack(l, rules[..n]);
      assert EntriesOf(rules)[..n] == EntriesOf(rules[..n]);
    }
  }

  lemma CompileOneMore(l: Language, rules: seq<Rule>, r: Rule)
    ensures CompileAll(l, rules + if Accepted(l, r) then [r] else []) ==
            CompileAll(l, rules) + if Accepted(l, r) then [l.compile(r).value] else []
  {
    assert (rules + [r])[..|rules|] == rules;
    assert rules + [] == rules;
  }

  /** Whatever rules are written, reading them back gives the same bindings: what is not accepted does not compile. */
  lemma {:induction false} WrittenBindsTheSame(l: Language, rules: seq<Rule>)
    ensures CompileAll(l, Kept(l, EntriesOf(rules))) == CompileAll(l, rules)
    decreases |rules|
  {
    if rules != [] {
      var n := |rules| - 1;
      var kept := Kept(l, EntriesOf(rules[..n]));
      WrittenBindsTheSame(l, rules[..n]);
      assert EntriesOf(rules)[..n] == EntriesOf(rules[..n]);
      CompileOneMore(l, kept, rules[n]);
    }
  }

  /** A rule and what it compiles to. */
  predicate CompilesTo(l: Language, r: Rule, b: Resolved) {
    l.compile(r) == Some(b)
  }

  /** The bindings of some rules are what the rules compile to, and nothing else. */
  lemma {:induction false} CompiledMembers(l: Language, rules: seq<Rule>, b: Resolved)
    ensures b in CompileAll(l, rules) <==> exists r <- rules :: CompilesTo(l, r, b)
    ensures |CompileAll(l, rules)| <= |rules|
    decreases |rules|
  {
    if rules != [] {
      var n := |rules| - 1;
      CompiledMembers(l, rules[..n], b);
      assert rules == rules[..n] + [rules[n]];
      if CompilesTo(l, rules[n], b) {
        assert rules[n] in rules;
      }
    }
  }

  /** They come in the order of the rules, one for each rule that compiles. */
  lemma {:induction false} CompiledInOrder(l: Language, front: seq<Rule>, back: seq<Rule>)
    ensures CompileAll(l, front + back) == CompileAll(l, front) + CompileAll(l, back)
    decreases |back|
  {
    if back == [] {
      assert front + back == front;
    } else {
      var n := |back| - 1;
      CompiledInOrder(l, front, back[..n]);
      var all := front + back;
      assert all[..|all| - 1] == front + back[..n] && all[|all| - 1] == back[n];
    }
  }

  /** What is kept of a file comes in the order of its entries, each good one once. */
  lemma {:induction false} KeptInOrder(l: Language, front: seq<Entry>, back: seq<Entry>)
    ensures Kept(l, front + back) == Kept(l, front) + Kept(l, back)
    decreases |back|
  {
    if back == [] {
      assert front + back == front;
    } else {
      var n := |back| - 1;
      KeptInOrder(l, front, back[..n]);
      var all := front + back;
      assert all[..|all| - 1] == front + back[..n] && all[|all| - 1] == back[n];
    }
  }

  /** The defaults retained come in the order of the defaults, each once. */
  lemma {:induction false} RetainedInOrder(front: seq<Resolved>, back: seq<Resolved>, custom: seq<Resolved>)
    ensures Retained(front + back, custom) == Retained(front, custom) + Retained(back, custom)
    decreases |back|
  {
    if back == [] {
      assert front + back == front;
    } else {
      var n := |back| - 1;
      RetainedInOrder(front, back[..n], custom);
      var all := front + back;
      assert all[..|all| - 1] == front + back[..n] && all[|all| - 1] == back[n];
    }
  }

  /** With nothing bound by the user all defaults are retained. */
  lemma {:induction false} AllRetained(defaults: seq<Resolved>)
    ensures Retained(defaults, []) == defaults
  {
    if defaults != [] {
      var n := |defaults| - 1;
      AllRetained(defaults[..n]);
      assert defaults == defaults[..n] + [defaults[n]];
    }
  }

  /**
   The bindings in use end with those of the user; before them come the defaults retained, of which the first
   ones fall out if there are too many in all.
   */
  lemma MergedInOrder(l: Language, rules: seq<Rule>)
    ensures var custom := Compile(l, rules);
            var all := Retained(Compile(l, l.defaults), custom) + custom;
            exists dropped :: all == dropped + Merge(l, custom)
    ensures var custom := Compile(l, rules);
            var all := Retained(Compile(l, l.defaults), custom) + custom;
            |Merge(l, custom)| == if |all| < MAX_KEYBINDINGS_COUNT then |all| else MAX_KEYBINDINGS_COUNT
  {
    var custom := Compile(l, rules);
    var all := Retained(Compile(l, l.defaults), custom) + custom;
    if custom == [] {
      AllRetained(Compile(l, l.defaults));
      assert all == Compile(l, l.defaults);
    }
    assert all == all[..|all| - |Merge(l, custom)|] + Merge(l, custom);
  }

  lemma {:induction false} RetainedMembers(defaults: seq<Resolved>, custom: seq<Resolved>, b: Resolved)
    ensures b in Retained(defaults, custom) <==> b in defaults && !Overridden(custom, b.command)
    ensures |Retained(defaults, custom)| <= |defaults|
  {
    if defaults != [] {
      var n := |defaults| - 1;
      RetainedMembers(defaults[..n], custom, b);
      assert defaults == defaults[..n] + [defaults[n]];
    }
  }

  /**
   Merging keeps every binding of the user, after the defaults and never evicted by them;
   a default appears only for a command the user has not bound, and always does while there is room.
   */
  lemma CustomWins(l: Language, rules: seq<Rule>, b: Resolved)
    ensures var custom := Compile(l, rules);
            var merged := Merge(l, custom);
            && |merged| <= MAX_KEYBINDINGS_COUNT && Last(merged, |custom|) == custom
            && (b in merged ==> b in custom || b in Compile(l, l.defaults))
            && (b in merged && b !in custom ==> forall c <- custom :: c.command != b.command)
            && (|merged| < MAX_KEYBINDINGS_COUNT && b in Compile(l, l.defaults) &&
                (forall c <- custom :: c.command != b.command) ==>
                  b in merged)
  {
    var custom, defaults := Compile(l, rules), Compile(l, l.defaults);
    if custom != [] {
      RetainedMembers(defaults, custom, b);
      LastOfJoined(Retained(defaults, custom), custom, MAX_KEYBINDINGS_COUNT, b);
    }
  }

  lemma LastOfJoined<T>(front: seq<T>, back: seq<T>, n: nat, x: T)
    requires |back| <= n
    ensures var last := Last(front + back, n);
            && |last| <= n && Last(last, |back|) == back
            && (x in last ==> x in front || x in back)
            && (x in front && |last| < n ==> x in last)
  {
  }

  // ---------------------------------------------------------------------------
  // Startup backfill

  predicate Bound(custom: seq<Rule>, command: string) {
    exists r <- custom :: r.command == command
  }

  predicate SameContext(l: Language, a: Rule, b: Rule) {
    l.context(a).Some? && l.context(a) == l.context(b)
  }

  predicate Conflicting(l: Language, custom: seq<Rule>, rule: Rule) {
    exists r <- custom :: SameContext(l, r, rule)
  }

  predicate Addable(l: Language, custom: seq<Rule>, rule: Rule) {
    !Bound(custom, rule.command) && !Conflicting(l, custom, rule)
  }

  /** The defaults, of those given, whose command is unbound and whose context is free. */
  function MissingDefaults(l: Language, defaults: seq<Rule>, custom: seq<Rule>): seq<Rule> {
    if defaults == [] then []
    else
      var last := defaults[|defaults|-1];
      MissingDefaults(l, defaults[..|defaults|-1], custom) + if Addable(l, custom, last) then [last] else []
  }

  function AvailableSlots(custom: seq<Rule>): nat {
    if |custom| < MAX_KEYBINDINGS_COUNT then MAX_KEYBINDINGS_COUNT - |custom| else 0
  }

  function Take<T>(s: seq<T>, n: nat): seq<T> {
    if |s| <= n then s else s[..n]
  }

  /** What a sync adds to a readable file. */
  function Added(l: Language, entries: seq<Entry>): seq<Rule> {
    Take(MissingDefaults(l, l.defaults, Kept(l, entries)), AvailableSlots(Kept(l, entries)))
  }

  /** The file after a startup sync whose write does not fail. */
  function Synced(l: Language, disk: Disk): Disk {
    match disk
    case Missing => if |l.defaults| <= MAX_KEYBINDINGS_COUNT then Entries(EntriesOf(l.defaults)) else Missing
    case Malformed => Malformed
    case Entries(entries) =>
      if Issues(l, entries) != [] || Added(l, entries) == [] then disk
      else Entries(EntriesOf(Kept(l, entries) + Added(l, entries)))
  }

  lemma {:induction false} MissingMembers(l: Language, defaults: seq<Rule>, custom: seq<Rule>, rule: Rule)
    ensures rule in MissingDefaults(l, defaults, custom) <==> rule in defaults && Addable(l, custom, rule)
    ensures |MissingDefaults(l, defaults, custom)| <= |defaults|
  {
    if defaults != [] {
      var n := |defaults| - 1;
      MissingMembers(l, defaults[..n], custom, rule);
      assert defaults == defaults[..n] + [defaults[n]];
    }
  }

  /** The defaults to add come in the order of the defaults, each once. */
  lemma {:induction false} MissingInOrder(l: Language, front: seq<Rule>, back: seq<Rule>, custom: seq<Rule>)
    ensures MissingDefaults(l, front + back, custom) ==
            MissingDefaults(l, front, custom) + MissingDefaults(l, back, custom)
    decreases |back|
  {
    if back == [] {
      assert front + back == front;
    } else {
      var n := |back| - 1;
      MissingInOrder(l, front, back[..n], custom);
      var all := front + back;
      assert all[..|all| - 1] == front + back[..n] && all[|all| - 1] == back[n];
    }
  }

  lemma NoneMissing(l: Language, custom: seq<Rule>)
    requires forall d <- l.defaults :: !Addable(l, custom, d)
    ensures MissingDefaults(l, l.defaults, custom) == []
  {
    var missing := MissingDefaults(l, l.defaults, custom);
    if missing != [] {
      MissingMembers(l, l.defaults, custom, missing[0]);
      assert false;
    }
  }

  /** A second sync finds nothing left to add, whatever was on disk. */
  lemma SyncTwice(l: Language, disk: Disk)
    ensures Synced(l, Synced(l, disk)) == Synced(l, disk)
  {
    match disk {
      case Missing => DefaultsSuffice(l);
      case Malformed =>
      case Entries(entries) => SecondSyncAddsNothing(l, entries);
    }
  }

  /** A file holding exactly the defaults lacks none. */
  lemma DefaultsSuffice(l: Language)
    ensures Synced(l, Entries(EntriesOf(l.defaults))) == Entries(EntriesOf(l.defaults))
  {
    var entries := EntriesOf(l.defaults);
    if Issues(l, entries) == [] {
      NoIssues(l, entries);
      WrittenIsGood(l, l.defaults);
      WrittenReadsBack(l, l.defaults);
      forall d <- l.defaults
        ensures !Addable(l, l.defaults, d)
      {
        assert Bound(l.defaults, d.command);
      }
      NoneMissing(l, l.defaults);
    }
  }

  /** Once all missing defaults have been added, none can be. */
  lemma NothingMoreAddable(l: Language, custom: seq<Rule>, defaults: seq<Rule>, d: Rule)
    requires d in defaults
    ensures !Addable(l, custom + MissingDefaults(l, defaults, custom), d)
  {
    var grown := custom + MissingDefaults(l, defaults, custom);
    MissingMembers(l, defaults, custom, d);
    if Addable(l, custom, d) {
      assert d in grown;
    } else if Bound(custom, d.command) {
      var r :| r in custom && r.command == d.command;
      assert r in grown;
    } else {
      var r :| r in custom && SameContext(l, r, d);
      assert r in grown;
    }
  }

  lemma SecondSyncAddsNothing(l: Language, entries: seq<Entry>)
    ensures Synced(l, Synced(l, Entries(entries))) == Synced(l, Entries(entries))
  {
    var custom := Kept(l, entries);
    var grown := custom + Added(l, entries);
    var now := EntriesOf(grown);
    if Issues(l, entries) == [] && Added(l, entries) != [] && Issues(l, now) == [] {
      NoIssues(l, now);
      WrittenIsGood(l, grown);
      WrittenReadsBack(l, grown);
      if |Added(l, entries)| == |MissingDefaults(l, l.defaults, custom)| {
        forall d <- l.defaults
          ensures !Addable(l, grown, d)
        {
          NothingMoreAddable(l, custom, l.defaults, d);
        }
        NoneMissing(l, grown);
      }
    }
  }

  /** A sync keeps the entries of a readable file in order as a prefix, and does not grow the file past the maximum. */
  lemma SyncKeepsEntries(l: Language, entries: seq<Entry>)
    requires Issues(l, entries) == []
    ensures Synced(l, Entries(entries)) == Entries(entries + EntriesOf(Added(l, entries)))
    ensures |entries| + |Added(l, entries)| <= MAX_KEYBINDINGS_COUNT || Added(l, entries) == []
  {
    NoIssues(l, entries);
    GoodAreKept(l, entries);
    var custom, added := Kept(l, entries), Added(l, entries);
    assert EntriesOf(custom + added) == EntriesOf(custom) + EntriesOf(added);
    assert |EntriesOf(custom)| == |custom|;
    if added == [] {
      assert entries + EntriesOf(added) == entries;
    }
  }

  /**
   It adds only defaults whose command is unbound and whose context is free, and every
   such default while room remains.
   */
  lemma SyncBackfills(l: Language, entries: seq<Entry>, rule: Rule)
    requires Issues(l, entries) == []
    ensures rule in Added(l, entries) ==> rule in l.defaults && Addable(l, Kept(l, entries), rule)
    ensures Addable(l, Kept(l, entries), rule) <==>
            forall r <- Kept(l, entries) ::
              r.command != rule.command && (l.context(r).Some? ==> l.context(r) != l.context(rule))
    ensures rule in l.defaults && Addable(l, Kept(l, entries), rule) &&
            |entries| + |Added(l, entries)| < MAX_KEYBINDINGS_COUNT ==>
              rule in Added(l, entries)
  {
    NoIssues(l, entries);
    GoodAreKept(l, entries);
    assert |EntriesOf(Kept(l, entries))| == |Kept(l, entries)|;
    MissingMembers(l, l.defaults, Kept(l, entries), rule);
  }

  /** A file with an issue is left alone. */
  lemma SyncSkipsIssues(l: Language, disk: Disk)
    requires Load(l, disk).issues != []
    ensures Synced(l, disk) == disk
  {
  }

  // ---------------------------------------------------------------------------
  // Rules put in and taken out

  /** The rules other than the given ones, in order. */
  function Without(rules: seq<Rule>, gone: set<Rule>): seq<Rule> {
    if rules == [] then []
    else
      var last := rules[|rules|-1];
      Without(rules[..|rules|-1], gone) + if last in gone then [] else [last]
  }

  /** The rules an upsert takes out before it puts its own in. */
  function Replaced(rule: Rule, replace: Option<Rule>): set<Rule> {
    if replace.Some? then {replace.value, rule} else {rule}
  }

  function Upserted(custom: seq<Rule>, rule: Rule, replace: Option<Rule>): seq<Rule> {
    Last(Without(custom, Replaced(rule, replace)) + [rule], MAX_KEYBINDINGS_COUNT)
  }

  lemma {:induction false} WithoutMembers(rules: seq<Rule>, gone: set<Rule>, rule: Rule)
    ensures rule in Without(rules, gone) <==> rule in rules && rule !in gone
    ensures |Without(rules, gone)| <= |rules|
  {
    if rules != [] {
      var n := |rules| - 1;
      WithoutMembers(rules[..n], gone, rule);
      assert rules == rules[..n] + [rules[n]];
    }
  }

  /** The rules left come in the order they had, each as often as before. */
  lemma {:induction false} WithoutInOrder(front: seq<Rule>, back: seq<Rule>, gone: set<Rule>)
    ensures Without(front + back, gone) == Without(front, gone) + Without(back, gone)
    decreases |back|
  {
    if back == [] {
      assert front + back == front;
    } else {
      var n := |back| - 1;
      WithoutInOrder(front, back[..n], gone);
      var all := front + back;
      assert all[..|all| - 1] == front + back[..n] && all[|all| - 1] == back[n];
    }
  }

  lemma {:induction false} WithoutNothing(rules: seq<Rule>, gone: set<Rule>)
    requires forall r <- gone :: r !in rules
    ensures Without(rules, gone) == rules
  {
    if rules != [] {
      var n := |rules| - 1;
      assert rules == rules[..n] + [rules[n]];
      WithoutNothing(rules[..n], gone);
    }
  }

  lemma WithoutLast(kept: seq<Rule>, gone: set<Rule>, rule: Rule)
    requires rule in gone && forall r <- gone :: r !in kept
    ensures Without(kept + [rule], gone) == kept
  {
    assert (kept + [rule])[..|kept|] == kept;
    WithoutNothing(kept, gone);
  }

  /** The rules an upsert keeps, and that none of them is one it drops. */
  lemma UpsertedSplit(custom: seq<Rule>, rule: Rule, gone: set<Rule>) returns (kept: seq<Rule>)
    ensures kept == Last(Without(custom, gone), MAX_KEYBINDINGS_COUNT - 1)
    ensures Last(Without(custom, gone) + [rule], MAX_KEYBINDINGS_COUNT) == kept + [rule]
    ensures forall r <- gone :: r !in kept
  {
    kept := Last(Without(custom, gone), MAX_KEYBINDINGS_COUNT - 1);
    forall r <- gone
      ensures r !in kept
    {
      WithoutMembers(custom, gone, r);
    }
  }

  /**
   After an upsert the new rule comes last and nowhere else, the rule it replaces is gone, and any other rule
   stays; only from a full file one rule, the first, may be evicted.
   */
  lemma UpsertedRules(custom: seq<Rule>, rule: Rule, replace: Option<Rule>, other: Rule)
    requires other != rule
    ensures var next := Upserted(custom, rule, replace);
            && next != [] && next[|next|-1] == rule && rule !in next[..|next|-1]
            && (other in next ==> other in custom && replace != Some(other))
            && (other in custom && replace != Some(other) && |custom| < MAX_KEYBINDINGS_COUNT ==> other in next)
  {
    var gone := Replaced(rule, replace);
    var kept := UpsertedSplit(custom, rule, gone);
    WithoutMembers(custom, gone, other);
    assert (kept + [rule])[..|kept|] == kept;
  }

  /** It evicts no rule but the first of those that were to stay, and that only if no room is left. */
  lemma UpsertEvictsOne(custom: seq<Rule>, rule: Rule, replace: Option<Rule>)
    requires |custom| <= MAX_KEYBINDINGS_COUNT
    ensures var stay := Without(custom, Replaced(rule, replace));
            var next := Upserted(custom, rule, replace);
            && |stay| <= MAX_KEYBINDINGS_COUNT
            && next == (if |stay| < MAX_KEYBINDINGS_COUNT then stay else stay[1..]) + [rule]
  {
    WithoutMembers(custom, Replaced(rule, replace), rule);
  }

  /** Taking out what was put in leaves the other rules, less the one evicted if the file was full. */
  lemma RemoveUndoesUpsert(custom: seq<Rule>, rule: Rule)
    ensures Without(Upserted(custom, rule, None), {rule}) == Last(Without(custom, {rule}), MAX_KEYBINDINGS_COUNT - 1)
  {
    var kept := UpsertedSplit(custom, rule, {rule});
    WithoutLast(kept, {rule}, rule);
  }

  /** Putting the same rule in again changes nothing. */
  lemma UpsertTwice(custom: seq<Rule>, rule: Rule, replace: Option<Rule>)
    ensures Upserted(Upserted(custom, rule, replace), rule, replace) == Upserted(custom, rule, replace)
  {
    var gone := Replaced(rule, replace);
    var kept := UpsertedSplit(custom, rule, gone);
    WithoutLast(kept, gone, rule);
  }

  /** What the cache is set to after these rules were written. */
  function Assumed(l: Language, rules: seq<Rule>): State {
    State(Merge(l, Compile(l, rules)), [])
  }

  /**
   After a write the cached bindings are those of a fresh load, whatever was written; the
   whole cached state is exactly if every rule written is accepted.
   */
  lemma CacheAfterWrite(l: Language, rules: seq<Rule>)
    ensures Assumed(l, rules).keybindings == Load(l, Entries(EntriesOf(rules))).keybindings
    ensures Assumed(l, rules) == Load(l, Entries(EntriesOf(rules))) <==> forall r <- rules :: Accepted(l, r)
  {
    var entries := EntriesOf(rules);
    WrittenBindsTheSame(l, rules);
    NoIssues(l, entries);
    WrittenIsGood(l, rules);
  }

  /** Of the rules an upsert writes, only the new one may be one that is not accepted. */
  lemma UpsertedAccepted(l: Language, entries: seq<Entry>, rule: Rule, replace: Option<Rule>)
    ensures (forall r <- Upserted(Kept(l, entries), rule, replace) :: Accepted(l, r)) <==> Accepted(l, rule)
    ensures 0 < |Upserted(Kept(l, entries), rule, replace)| <= MAX_KEYBINDINGS_COUNT
  {
    var custom, gone := Kept(l, entries), Replaced(rule, replace);
    var kept := UpsertedSplit(custom, rule, gone);
    KeptAreAccepted(l, entries);
    forall r <- kept
      ensures Accepted(l, r)
    {
      WithoutMembers(custom, gone, r);
    }
    assert rule in kept + [rule];
  }

  // ---------------------------------------------------------------------------
  // The rule language in use

  function CompileRule(parseWhen: string -> Option<string>, r: Rule): Option<Resolved> {
    match ParseShortcut(r.key)
    case None => None
    case Some(shortcut) =>
      match r.when
      case None => Some(Resolved(r.command, shortcut, None))
      case Some(when) =>
        if parseWhen(when).None? then None else Some(Resolved(r.command, shortcut, parseWhen(when)))
  }

  function ConditionOf(r: Rule): string {
    if r.when.Some? then r.when.value else ""
  }

  /** What a rule reacts to: its shortcut in canonical spelling, and its condition as it is written. */
  function ShortcutContext(r: Rule): Option<(string, string)> {
    match ParseShortcut(r.key)
    case None => None
    case Some(shortcut) =>
      match EncodeShortcut(shortcut)
      case None => None
      case Some(spelled) => Some((spelled, ConditionOf(r)))
  }

  function RulesOf(defaults: seq<Rule>, parseWhen: string -> Option<string>): Language {
    Language(defaults, r => CompileRule(parseWhen, r), ShortcutContext)
  }

  /** Rules conflict exactly if they mean the same shortcut, however they spell it, under the same condition. */
  lemma ConflictMeansSameShortcut(l: Language, defaults: seq<Rule>, parseWhen: string -> Option<string>, a: Rule,
                                  b: Rule)
    requires l == RulesOf(defaults, parseWhen)
    ensures SameContext(l, a, b) <==>
            ParseShortcut(a.key).Some? && ParseShortcut(a.key) == ParseShortcut(b.key) &&
              ConditionOf(a) == ConditionOf(b)
  {
    assert l.context(a) == ShortcutContext(a) && l.context(b) == ShortcutContext(b);
    if ParseShortcut(a.key).Some? && ParseShortcut(b.key).Some? {
      SpelledApart(a.key, b.key);
      SpelledApart(b.key, a.key);
    }
  }

  /** A rule binds its own command, to the shortcut its key means, under its condition if that can be read. */
  lemma CompiledRule(defaults: seq<Rule>, parseWhen: string -> Option<string>, r: Rule, b: Resolved)
    ensures CompilesTo(RulesOf(defaults, parseWhen), r, b) <==>
            && ParseShortcut(r.key) == Some(b.shortcut) && b.command == r.command
            && (r.when.None? ==> b.condition.None?)
            && (r.when.Some? ==> b.condition.Some? && parseWhen(r.when.value) == b.condition)
  {
    var l := RulesOf(defaults, parseWhen);
    assert l.compile(r) == CompileRule(parseWhen, r);
  }

  /** For instance, a rule for "a+b" is not accepted. */
  lemma JoinedLettersAreNotAccepted(defaults: seq<Rule>, parseWhen: string -> Option<string>, rule: Rule)
    requires rule.key == "a+b"
    ensures !Accepted(RulesOf(defaults, parseWhen), rule)
  {
    assert IsKey("a") && IsKey("b");
    assert "a" + "+" + "b" == "a+b";
    TwoKeysDoNotParse("a", "b");
  }

  /**
   The condition on the cache is needed: a rule whose key joins two keys, such as "a+b", can be
   put in but is not accepted, so the cache reports no issue where a fresh load does.
   */
  lemma TwoKeysSpoilTheCache(defaults: seq<Rule>, parseWhen: string -> Option<string>, entries: seq<Entry>,
                             first: string, second: string, rule: Rule, replace: Option<Rule>)
    requires IsKey(first) && IsKey(second) && first != "+" && first != " " && second != "+" && second != " "
    requires rule.key == first + "+" + second
    ensures var l := RulesOf(defaults, parseWhen);
            var written := Upserted(Kept(l, entries), rule, replace);
            Assumed(l, written).issues == [] && Load(l, Entries(EntriesOf(written))).issues != []
  {
    var l := RulesOf(defaults, parseWhen);
    var written := Upserted(Kept(l, entries), rule, replace);
    TwoKeysDoNotParse(first, second);
    assert l.compile(rule) == None;
    UpsertedAccepted(l, entries, rule, replace);
    CacheAfterWrite(l, written);
  }

  datatype Request =
    | SyncDefaults
    | UpsertRule(rule: Rule, replace: Option<Rule>)
    | RemoveRule(target: Rule)
    | Read
    | Revalidate

  class Store {
    const language: Language
    var disk: Disk
    var cache: Option<State>
    var published: seq<State>

    /** A filled cache is what a fresh load would give. */
    predicate Coherent()
      reads this
    {
      cache.Some? ==> cache.value == Load(language, disk)
    }

    /** The bindings of a filled cache are those of a fresh load. */
    predicate BindingsCoherent()
      reads this
    {
      cache.Some? ==> cache.value.keybindings == Load(language, disk).keybindings
    }

    constructor (language: Language, disk: Disk)
      ensures Coherent() && this.language == language && this.disk == disk && published == []
    {
      this.language, this.disk, this.cache, this.published := language, disk, None, [];
    }

    /** Read the file entry by entry, noting an issue for each that cannot be used. */
    method LoadRuntime() returns (rules: seq<Rule>, issues: seq<Issue>)
      ensures disk.Entries? ==> rules == Kept(language, disk.entries)
      ensures !disk.Entries? ==> rules == []
      ensures issues == Load(language, disk).issues
    {
      rules, issues := [], [];
      match disk {
        case Missing =>
        case Malformed =>
          issues := [MalformedConfig];
        case Entries(entries) =>
          for i := 0 to |entries|
            invariant rules == Kept(language, entries[..i])
            invariant issues == Issues(language, entries[..i])
          {
            assert entries[..i+1][..i] == entries[..i];
            if Good(language, entries[i]) {
              rules := rules + [entries[i].rule];
            } else {
              issues := issues + [InvalidEntry(i)];
            }
          }
          assert entries[..|entries|] == entries;
      }
    }

    method LoadState() returns (state: State)
      ensures state == Load(language, disk)
    {
      var rules, issues := LoadRuntime();
      state := State(Merge(language, Compile(language, rules)), issues);
    }

    /** The rules to build the next file from; entries that cannot be used are dropped, a malformed file is refused. */
    method LoadWritable() returns (rules: Option<seq<Rule>>)
      ensures rules == match disk
                       case Missing => Some([])
                       case Malformed => None
                       case Entries(entries) => Some(Kept(language, entries))
    {
      if disk.Malformed? {
        return None;
      }
      var kept, _ := LoadRuntime();
      rules := Some(kept);
    }

    /** Replace the file as a whole; too many rules are refused. */
    method WriteConfig(rules: seq<Rule>, works: bool) returns (ok: bool)
      modifies this`disk
      ensures ok == (works && |rules| <= MAX_KEYBINDINGS_COUNT)
      ensures disk == if ok then Entries(EntriesOf(rules)) else old(disk)
    {
      ok := works && |rules| <= MAX_KEYBINDINGS_COUNT;
      if ok {
        disk := Entries(EntriesOf(rules));
      }
    }

    method GetSnapshot() returns (state: State)
      modifies this`cache
      ensures cache == Some(state)
      ensures state == if old(cache).Some? then old(cache).value else Load(language, disk)
    {
      if cache.Some? {
        return cache.value;
      }
      state := LoadState();
      cache := Some(state);
    }

    /** After an edit from outside: the cache is a fresh load again, and subscribers are told. */
    method RevalidateAndEmit()
      modifies this`cache, this`published
      ensures Coherent() && cache.Some? && published == old(published) + [cache.value]
    {
      cache := None;
      var state := GetSnapshot();
      published := published + [state];
    }

    /** Backfill the defaults.  If the write fails, neither the file nor the cache is touched. */
    method SyncDefaultKeybindings(works: bool) returns (ok: bool)
      modifies this`disk, this`cache
      ensures works && (old(disk).Missing? ==> |language.defaults| <= MAX_KEYBINDINGS_COUNT) ==> ok
      ensures ok ==> disk == Synced(language, old(disk)) && cache == None
      ensures !ok ==> disk == old(disk) && cache == old(cache)
    {
      if disk.Missing? {
        ok := WriteConfig(language.defaults, works);
        if ok {
          cache := None;
        }
        return;
      }
      var custom, issues := LoadRuntime();
      if issues != [] {
        cache := None;
        return true;
      }
      var defaults := language.defaults;
      var missing := [];
      for i := 0 to |defaults|
        invariant missing == MissingDefaults(language, defaults[..i], custom)
      {
        assert defaults[..i+1][..i] == defaults[..i];
        if Bound(custom, defaults[i].command) {
          continue;
        }
        if Conflicting(language, custom, defaults[i]) {
          continue;
        }
        missing := missing + [defaults[i]];
      }
      assert defaults[..|defaults|] == defaults;
      var added := Take(missing, AvailableSlots(custom));
      if added == [] {
        cache := None;
        return true;
      }
      ok := WriteConfig(custom + added, works);
      if ok {
        cache := None;
      }
    }

    /** Put a rule in, in place of another or of itself. */
    method UpsertKeybindingRule(rule: Rule, replace: Option<Rule>, works: bool) returns (ok: bool)
      modifies this`disk, this`cache, this`published
      ensures ok == (works && !old(disk).Malformed?)
      ensures !ok ==> disk == old(disk) && cache == old(cache) && published == old(published)
      ensures ok ==> disk == Entries(EntriesOf(Upserted(
                                                 if old(disk).Entries? then Kept(language, old(disk).entries) else [],
                                                 rule, replace)))
      ensures ok ==> cache.Some? && published == old(published) + [cache.value]
      ensures ok ==> BindingsCoherent() && (Coherent() <==> Accepted(language, rule))
      ensures ok ==> cache.value.keybindings ==
                     Merge(language, Compile(language, Upserted(
                                               if old(disk).Entries? then Kept(language, old(disk).entries) else [],
                                               rule, replace)))
    {
      var custom := LoadWritable();
      if custom.None? {
        return false;
      }
      var next := Upserted(custom.value, rule, replace);
      UpsertedAccepted(language, if disk.Entries? then disk.entries else [], rule, replace);
      ok := WriteConfig(next, works);
      if ok {
        CacheAfterWrite(language, next);
        cache := Some(Assumed(language, next));
        published := published + [cache.value];
      }
    }

    /** Take a rule out.  A file left with too many rules is not written. */
    method RemoveKeybindingRule(target: Rule, works: bool) returns (ok: bool)
      modifies this`disk, this`cache, this`published
      ensures !ok ==> disk == old(disk) && cache == old(cache) && published == old(published)
      ensures ok ==> !old(disk).Malformed? && Coherent()
      ensures ok ==> disk == Entries(EntriesOf(Without(
                                                 if old(disk).Entries? then Kept(language, old(disk).entries) else [],
                                                 {target})))
      ensures ok ==> cache.Some? && published == old(published) + [cache.value]
      ensures works && !old(disk).Malformed? &&
              (old(disk).Entries? ==> |old(disk).entries| <= MAX_KEYBINDINGS_COUNT) ==>
                ok
    {
      var custom := LoadWritable();
      if custom.None? {
        return false;
      }
      var next := Without(custom.value, {target});
      KeptAreAccepted(language, if disk.Entries? then disk.entries else []);
      WithoutMembers(custom.value, {target}, target);
      ok := WriteConfig(next, works);
      if ok {
        forall r <- next
          ensures Accepted(language, r)
        {
          WithoutMembers(custom.value, {target}, r);
        }
        CacheAfterWrite(language, next);
        cache := Some(Assumed(language, next));
        published := published + [cache.value];
      }
    }

    /**
     Any mix of syncs, upserts, removals and reads, with failing writes among them and no
     edit from outside: the bindings read are always those of a fresh load, and so is all of
     what is read if every rule put in is accepted.
     */
    method Serve(requests: seq<Request>, works: seq<bool>)
      requires |works| == |requests| && BindingsCoherent()
      modifies this
      ensures BindingsCoherent()
      ensures old(Coherent()) && (forall r <- requests :: r.UpsertRule? ==> Accepted(language, r.rule)) ==> Coherent()
    {
      for i := 0 to |requests|
        invariant BindingsCoherent()
        invariant old(Coherent()) && (forall r <- requests :: r.UpsertRule? ==> Accepted(language, r.rule)) ==>
                  Coherent()
      {
        assert requests[i] in requests;
        match requests[i] {
          case SyncDefaults =>
            var _ := SyncDefaultKeybindings(works[i]);
          case UpsertRule(rule, replace) =>
            var _ := UpsertKeybindingRule(rule, replace, works[i]);
          case RemoveRule(target) =>
            var _ := RemoveKeybindingRule(target, works[i]);
          case Read =>
            var state := GetSnapshot();
            assert state.keybindings == Load(language, disk).keybindings;
          case Revalidate =>
            RevalidateAndEmit();
        }
      }
    }
  }
}
