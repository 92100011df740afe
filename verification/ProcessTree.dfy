/**
 Observing a process tree from one reading of the process table: a worklist walk from the
 root, and the later check which of the observed processes are still there.
 */
module ProcessTree {
  import opened Wrappers

  type Pid = nat

  datatype Entry = Entry(pid: Pid, parent: Pid, createdAt: int)

  predicate DistinctPids(table: seq<Entry>) {
    forall i, j :: 0 <= i < j < |table| ==> table[i].pid != table[j].pid
  }

  /** One entry can be a child of another: it names it as parent and was not created before it. */
  predicate ChildOf(child: Entry, parent: Entry) {
    child.parent == parent.pid && child.createdAt >= parent.createdAt
  }

  /** A line of descent within the table, eldest first. */
  predicate Descent(table: seq<Entry>, chain: seq<Entry>) {
    && chain != []
    && (forall i :: 0 <= i < |chain| ==> chain[i] in table)
    && (forall i :: 0 <= i < |chain| - 1 ==> ChildOf(chain[i + 1], chain[i]))
  }

  predicate Leads(table: seq<Entry>, chain: seq<Entry>, root: Pid, pid: Pid) {
    Descent(table, chain) && chain[0].pid == root && chain[|chain|-1].pid == pid
  }

  /** The listed process `e` has a line of descent from the listed root. */
  ghost predicate Descends(table: seq<Entry>, root: Pid, e: Entry) {
    exists chain: seq<Entry> :: Leads(table, chain, root, e.pid) && chain[|chain|-1] == e
  }

  /** The root itself, or a process with a line of descent from the listed root. */
  ghost predicate InTree(table: seq<Entry>, root: Pid, pid: Pid) {
    pid == root || exists chain: seq<Entry> :: Leads(table, chain, root, pid)
  }

  /** The entry a map from pids to entries would hold: the last one listed. */
  function Find(table: seq<Entry>, pid: Pid): (r: Option<Entry>)
    ensures r.Some? ==> r.value in table && r.value.pid == pid
    ensures r.None? ==> forall e <- table :: e.pid != pid
  {
    if table == [] then None
    else if table[|table|-1].pid == pid then Some(table[|table|-1])
    else Find(table[..|table|-1], pid)
  }

  /** Strictly increasing, so sorted and without repeats. */
  predicate StrictlySorted(pids: seq<Pid>) {
    forall i, j :: 0 <= i < j < |pids| ==> pids[i] < pids[j]
  }

  lemma Least(s: set<Pid>) returns (least: Pid)
    requires s != {}
    ensures least in s && forall n <- s :: least <= n
  {
    least :| least in s;
    var rest := s - {least};
    assert forall n <- s :: n == least || n in rest;
    if rest != {} {
      var other := Least(rest);
      if other < least {
        least := other;
      }
    }
  }

  /** The numbers of a set in increasing order. */
  method InOrder(s: set<Pid>) returns (r: seq<Pid>)
    ensures StrictlySorted(r)
    ensures forall n :: n in r <==> n in s
  {
    r := [];
    var rest := s;
    while rest != {}
      invariant rest <= s && StrictlySorted(r)
      invariant forall n :: n in s <==> n in r || n in rest
      invariant forall i, n :: 0 <= i < |r| && n in rest ==> r[i] < n
      decreases rest
    {
      ghost var first := Least(rest);
      var least :| least in rest && forall n <- rest :: least <= n;
      r, rest := r + [least], rest - {least};
    }
  }

  /** The table's entries by their parent. */
  method GroupByParent(table: seq<Entry>) returns (children: map<Pid, seq<Entry>>)
    ensures forall p, e :: p in children && e in children[p] ==> e in table && e.parent == p
    ensures forall e <- table :: e.parent in children && e in children[e.parent]
  {
    children := map[];
    for i := 0 to |table|
      invariant forall p, e :: p in children && e in children[p] ==> e in table && e.parent == p
      invariant forall e <- table[..i] :: e.parent in children && e in children[e.parent]
    {
      var e := table[i];
      var siblings := if e.parent in children then children[e.parent] else [];
      children := children[e.parent := siblings + [e]];
      assert table[..i + 1] == table[..i] + [e];
    }
    assert table[..|table|] == table;
  }

  // ---------------------------------------------------------------------------
  // The walk

  /** Every collected process that is not waiting has its children collected. */
  predicate Closed(table: seq<Entry>, collected: set<Pid>, pending: seq<Entry>) {
    forall e, c {:trigger ChildOf(c, e)} ::
      e in table && c in table && e.pid in collected && e !in pending && ChildOf(c, e) ==> c.pid in collected
  }

  lemma ExtendDescent(table: seq<Entry>, root: Pid, parent: Entry, child: Entry)
    requires child in table && ChildOf(child, parent) && Descends(table, root, parent)
    ensures Descends(table, root, child) && InTree(table, root, child.pid)
  {
    var chain: seq<Entry> :| Leads(table, chain, root, parent.pid) && chain[|chain|-1] == parent;
    assert Leads(table, chain + [child], root, child.pid);
  }

  lemma LeadsFromListed(table: seq<Entry>, chain: seq<Entry>, root: Pid, pid: Pid)
    requires Leads(table, chain, root, pid)
    ensures exists e <- table :: e.pid == root
  {
    assert chain[0] in table;
  }

  /** A set that holds the root and is closed under admissible children holds all of the tree. */
  lemma {:induction false} ClosedHoldsDescent(table: seq<Entry>, collected: set<Pid>, chain: seq<Entry>)
    requires Descent(table, chain) && chain[0].pid in collected && Closed(table, collected, [])
    ensures chain[|chain|-1].pid in collected
    decreases |chain|
  {
    if |chain| > 1 {
      var rest := chain[..|chain|-1];
      assert Descent(table, rest);
      ClosedHoldsDescent(table, collected, rest);
      assert ChildOf(chain[|chain|-2 + 1], chain[|chain|-2]);
    }
  }

  lemma ClosedHoldsTree(table: seq<Entry>, root: Pid, collected: set<Pid>, pid: Pid)
    requires root in collected && Closed(table, collected, []) && InTree(table, root, pid)
    ensures pid in collected
  {
    if pid != root {
      var chain: seq<Entry> :| Leads(table, chain, root, pid);
      ClosedHoldsDescent(table, collected, chain);
    }
  }

  lemma UnlistedRootIsAlone(table: seq<Entry>, root: Pid, pid: Pid)
    requires (forall e <- table :: e.pid != root) && InTree(table, root, pid)
    ensures pid == root
  {
    if pid != root {
      var chain: seq<Entry> :| Leads(table, chain, root, pid);
      LeadsFromListed(table, chain, root, pid);
    }
  }

  /** Putting a newly collected child on the worklist keeps closure. */
  lemma Enqueue(table: seq<Entry>, parent: Entry, child: Entry, collected: set<Pid>, pending: seq<Entry>)
    requires DistinctPids(table) && child in table && Closed(table, collected, pending + [parent])
    ensures Closed(table, collected + {child.pid}, pending + [child] + [parent])
  {
    assert forall e :: e in pending + [child] + [parent] <==> e in pending + [parent] || e == child;
    forall e | e in table && e.pid == child.pid
      ensures e == child
    {
      var i :| 0 <= i < |table| && table[i] == e;
      var j :| 0 <= j < |table| && table[j] == child;
    }
  }

  /** A parent all of whose children are collected need not wait any longer. */
  lemma Finish(table: seq<Entry>, parent: Entry, collected: set<Pid>, pending: seq<Entry>)
    requires Closed(table, collected, pending + [parent])
    requires forall c <- table :: ChildOf(c, parent) ==> c.pid in collected
    ensures Closed(table, collected, pending)
  {
    assert forall e :: e in pending + [parent] <==> e in pending || e == parent;
  }

  function PidsOf(entries: set<Entry>): set<Pid> {
    set e | e in entries :: e.pid
  }

  /** The walk stays within `tree`, which holds the admissible children of each of its members. */
  predicate Within(table: seq<Entry>, tree: set<Entry>, collected: set<Pid>, pending: seq<Entry>) {
    && collected <= PidsOf(tree)
    && (forall e <- pending :: e in tree)
    && forall e, c {:trigger ChildOf(c, e)} :: e in tree && c in table && ChildOf(c, e) ==> c in tree
  }

  /** Look at one child of a parent just taken off the worklist. */
  method VisitChild(table: seq<Entry>, parent: Entry, child: Entry, ghost tree: set<Entry>,
                    collected0: set<Pid>, pending0: seq<Entry>)
    returns (collected: set<Pid>, pending: seq<Entry>)
    requires child in table && child.parent == parent.pid && parent in tree
    requires Within(table, tree, collected0, pending0)
    requires DistinctPids(table) ==> Closed(table, collected0, pending0 + [parent])
    ensures collected0 <= collected
    ensures collected == collected0 ==> pending == pending0
    ensures ChildOf(child, parent) ==> child.pid in collected
    ensures Within(table, tree, collected, pending)
    ensures DistinctPids(table) ==> Closed(table, collected, pending + [parent])
  {
    collected, pending := collected0, pending0;
    if child.pid !in collected && child.createdAt >= parent.createdAt {
      assert ChildOf(child, parent);
      if DistinctPids(table) {
        Enqueue(table, parent, child, collected, pending);
      }
      collected, pending := collected + {child.pid}, pending + [child];
    }
  }

  /** One turn of the walk: all children of a parent just taken off the worklist. */
  method VisitChildren(table: seq<Entry>, parent: Entry, siblings: seq<Entry>, ghost tree: set<Entry>,
                       collected0: set<Pid>, pending0: seq<Entry>)
    returns (collected: set<Pid>, pending: seq<Entry>)
    requires forall e <- siblings :: e in table && e.parent == parent.pid
    requires forall e <- table :: e.parent == parent.pid ==> e in siblings
    requires parent in tree && Within(table, tree, collected0, pending0)
    requires DistinctPids(table) ==> Closed(table, collected0, pending0 + [parent])
    ensures collected0 <= collected
    ensures collected == collected0 ==> pending == pending0
    ensures Within(table, tree, collected, pending)
    ensures DistinctPids(table) ==> Closed(table, collected, pending)
  {
    collected, pending := collected0, pending0;
    for i := 0 to |siblings|
      invariant collected0 <= collected
      invariant collected == collected0 ==> pending == pending0
      invariant Within(table, tree, collected, pending)
      invariant DistinctPids(table) ==> Closed(table, collected, pending + [parent])
      invariant forall j :: 0 <= j < i && ChildOf(siblings[j], parent) ==> siblings[j].pid in collected
    {
      collected, pending := VisitChild(table, parent, siblings[i], tree, collected, pending);
    }
    if DistinctPids(table) {
      Finish(table, parent, collected, pending);
    }
  }

  /** The walk over all of the tree. */
  method Walk(table: seq<Entry>, root: Entry, ghost tree: set<Entry>) returns (collected: set<Pid>)
    requires root in table && root in tree && Within(table, tree, {}, [])
    requires DistinctPids(table) ==> forall e <- table :: e.pid == root.pid ==> e == root
    ensures root.pid in collected && collected <= PidsOf(tree)
    ensures DistinctPids(table) ==> Closed(table, collected, [])
  {
    var children := GroupByParent(table);
    collected := {root.pid};
    var pending := [root];
    while pending != []
      invariant root.pid in collected && Within(table, tree, collected, pending)
      invariant DistinctPids(table) ==> Closed(table, collected, pending)
      decreases PidsOf(tree) - collected, |pending|
    {
      var parent := pending[|pending|-1];
      assert pending == pending[..|pending|-1] + [parent];
      var siblings := if parent.pid in children then children[parent.pid] else [];
      collected, pending := VisitChildren(table, parent, siblings, tree, collected, pending[..|pending|-1]);
    }
  }

  /** The root and everything the table reaches from it, sorted and without repeats; cycles do no harm. */
  method CollectProcessTree(root: Pid, table: seq<Entry>) returns (r: seq<Pid>)
    ensures StrictlySorted(r) && root in r
    ensures forall pid <- r :: InTree(table, root, pid)
    ensures DistinctPids(table) ==> forall pid :: InTree(table, root, pid) ==> pid in r
  {
    var found := Find(table, root);
    if found.None? {
      forall pid | InTree(table, root, pid)
        ensures pid == root
      {
        UnlistedRootIsAlone(table, root, pid);
      }
      return [root];
    }
    ghost var tree := set e | e in table && Descends(table, root, e);
    assert Leads(table, [found.value], root, root);
    forall e, c | e in tree && c in table && ChildOf(c, e)
      ensures c in tree
    {
      ExtendDescent(table, root, e, c);
    }
    var collected := Walk(table, found.value, tree);
    forall pid | DistinctPids(table) && InTree(table, root, pid)
      ensures pid in collected
    {
      ClosedHoldsTree(table, root, collected, pid);
    }
    r := InOrder(collected);
  }

  // ---------------------------------------------------------------------------
  // Who survives a kill

  /** One later reading of the table, if it succeeded, and whether the deadline had passed by then. */
  datatype Poll = Poll(table: Option<seq<Entry>>, late: bool)

  /** The process that was observed is listed, and is not another one reusing its number. */
  predicate StillThere(table: seq<Entry>, createdAt: map<Pid, int>, pid: Pid) {
    pid in createdAt && exists e <- table :: e.pid == pid && e.createdAt == createdAt[pid]
  }

  /** A reading in time that still lists someone observed. */
  predicate WaitsOn(poll: Poll, observed: seq<Pid>, createdAt: map<Pid, int>) {
    !poll.late && poll.table.Some? && exists pid <- observed :: StillThere(poll.table.value, createdAt, pid)
  }

  /** Poll until nobody observed is left or the deadline has passed; None if the table could not be read. */
  method WaitForObservedExit(observed: seq<Pid>, createdAt: map<Pid, int>, polls: seq<Poll>)
    returns (alive: Option<seq<Pid>>, last: nat)
    requires polls != [] && polls[|polls|-1].late
    ensures last < |polls| && (alive.None? <==> polls[last].table.None?)
    ensures alive.Some? ==>
              && (forall pid :: pid in alive.value <==>
                                pid in observed && StillThere(polls[last].table.value, createdAt, pid))
              && (alive.value == [] || polls[last].late)
    ensures forall k :: 0 <= k < last ==> WaitsOn(polls[k], observed, createdAt)
  {
    last := 0;
    while true
      invariant last < |polls|
      invariant forall k :: 0 <= k < last ==> WaitsOn(polls[k], observed, createdAt)
      decreases |polls| - last
    {
      if polls[last].table.None? {
        return None, last;
      }
      var left := StillThereOf(observed, createdAt, polls[last].table.value);
      if left == [] || polls[last].late {
        return Some(left), last;
      }
      assert left[0] in observed;
      last := last + 1;
    }
  }

  method StillThereOf(observed: seq<Pid>, createdAt: map<Pid, int>, table: seq<Entry>) returns (left: seq<Pid>)
    ensures forall pid :: pid in left <==> pid in observed && StillThere(table, createdAt, pid)
  {
    left := [];
    for i := 0 to |observed|
      invariant forall pid :: pid in left <==> pid in observed[..i] && StillThere(table, createdAt, pid)
    {
      if StillThere(table, createdAt, observed[i]) {
        left := left + [observed[i]];
      }
      assert observed[..i + 1] == observed[..i] + [observed[i]];
    }
    assert observed[..|observed|] == observed;
  }

  datatype StopResult =
    | RootExited
    | NotEnumerated
    | Observed(tracked: seq<Pid>, survivors: seq<Pid>, verified: bool)

  /** A process listed before the kill is listed by a later poll with the same creation time. */
  predicate LivesOn(table: seq<Entry>, poll: Poll, pid: Pid) {
    poll.table.Some? && exists before <- table, now <- poll.table.value ::
      before.pid == pid && now.pid == pid && now.createdAt == before.createdAt
  }

  /** A reading in time, of a table that still lists some of these. */
  predicate KeepsWaiting(table: seq<Entry>, poll: Poll, tracked: seq<Pid>) {
    !poll.late && exists pid <- tracked :: LivesOn(table, poll, pid)
  }

  /**
   Kill the tree and report who of it is left at the last reading: nobody is, the deadline has passed, or the
   table could not be read any more.
   */
  method StopProcessTree(root: Pid, rootExited: bool, table: Option<seq<Entry>>, polls: seq<Poll>)
    returns (r: StopResult, last: nat)
    requires polls != [] && polls[|polls|-1].late
    ensures last < |polls|
    ensures r == RootExited <==> rootExited
    ensures r == NotEnumerated <==> !rootExited && table.None?
    ensures r.Observed? ==> StrictlySorted(r.tracked) && forall pid <- r.tracked :: InTree(table.value, root, pid)
    ensures r.Observed? && DistinctPids(table.value) ==> forall pid :: InTree(table.value, root, pid) ==>
              pid in r.tracked
    ensures r.Observed? ==> (r.verified <==> polls[last].table.Some?)
    ensures r.Observed? && !r.verified ==> r.survivors == []
    ensures r.Observed? && r.verified ==> r.survivors == [] || polls[last].late
    ensures r.Observed? ==> forall pid <- r.survivors :: pid in r.tracked && LivesOn(table.value, polls[last], pid)
    ensures r.Observed? && r.verified && DistinctPids(table.value) ==> forall pid <- r.tracked ::
              LivesOn(table.value, polls[last], pid) ==> pid in r.survivors
    ensures r.Observed? ==> forall k :: 0 <= k < last ==> KeepsWaiting(table.value, polls[k], r.tracked)
  {
    last := 0;
    if rootExited {
      return RootExited, 0;
    }
    if table.None? {
      return NotEnumerated, 0;
    }
    var tracked := CollectProcessTree(root, table.value);
    var createdAt := map pid | pid in tracked && Find(table.value, pid).Some? :: Find(table.value, pid).value.createdAt;
    forall poll: Poll, pid | poll.table.Some? && pid in tracked
      ensures StillThere(poll.table.value, createdAt, pid) ==> LivesOn(table.value, poll, pid)
      ensures DistinctPids(table.value) && LivesOn(table.value, poll, pid) ==>
                StillThere(poll.table.value, createdAt, pid)
    {
    }
    var alive;
    alive, last := WaitForObservedExit(tracked, createdAt, polls);
    r := Observed(tracked, if alive.Some? then alive.value else [], alive.Some?);
  }
}
