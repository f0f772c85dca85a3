/**
 Following a launch's processes (bridge-manager/runtime/ownership.py): one complete walk of
 a snapshot's parent links, and the tracker's walk of the kernel's child lists.
 */
module ProcessTree {
  import opened Bytes

  // ------------------------------------------------ descendants in a snapshot

  datatype Record = Record(pid: nat, parent: nat, start: nat)

  predicate DistinctPids(records: seq<Record>) {
    forall i, j :: 0 <= i < j < |records| ==> records[i].pid != records[j].pid
  }

  /** Parent links from the root, down to the last record. */
  ghost predicate Chain(records: seq<Record>, root: nat, path: seq<Record>) {
    && path != [] && path[0].parent == root
    && (forall i :: 0 <= i < |path| ==> path[i] in Members(records))
    && (forall i :: 0 < i < |path| ==> path[i].parent == path[i - 1].pid)
  }

  ghost predicate Descends(records: seq<Record>, root: nat, r: Record) {
    exists path :: Chain(records, root, path) && path[|path| - 1] == r
  }

  lemma ChildDescends(records: seq<Record>, root: nat, parent: Option<Record>, child: Record)
    requires child in Members(records)
    requires match parent case None => child.parent == root
                          case Some(p) => Descends(records, root, p) && child.parent == p.pid
    ensures Descends(records, root, child)
  {
    match parent {
      case None =>
        assert Chain(records, root, [child]);
      case Some(p) =>
        var path :| Chain(records, root, path) && path[|path| - 1] == p;
        assert Chain(records, root, path + [child]);
    }
  }

  /** Whatever contains the root's children and every member's children contains all descendants. */
  lemma {:induction false} DescendantsWithin(records: seq<Record>, root: nat, path: seq<Record>, found: set<Record>)
    requires Chain(records, root, path)
    requires forall r :: r in Members(records) && (r.parent == root || r.parent in PidsOf(found)) ==> r in found
    ensures path[|path| - 1] in found
    decreases |path|
  {
    var last := path[|path| - 1];
    if |path| > 1 {
      var before := path[..|path| - 1];
      DescendantsWithin(records, root, before, found);
      assert last.parent == before[|before| - 1].pid;
    }
  }

  /** Somewhere a rank that parents are below their children at: no process is its own ancestor. */
  ghost predicate Acyclic(records: seq<Record>, rank: map<nat, nat>) {
    forall i :: 0 <= i < |records| ==>
      records[i].pid in rank && records[i].parent in rank && rank[records[i].parent] < rank[records[i].pid]
  }

  lemma {:induction false} RanksRise(records: seq<Record>, root: nat, path: seq<Record>, rank: map<nat, nat>)
    requires Chain(records, root, path) && Acyclic(records, rank)
    ensures root in rank && path[|path| - 1].pid in rank && rank[root] < rank[path[|path| - 1].pid]
    decreases |path|
  {
    if |path| > 1 {
      RanksRise(records, root, path[..|path| - 1], rank);
    }
  }

  function Members<T>(s: seq<T>): (m: set<T>)
    ensures forall i :: 0 <= i < |s| ==> s[i] in m
  {
    set i | 0 <= i < |s| :: s[i]
  }

  lemma MembersOn<T>(s: seq<T>, x: T)
    ensures Members(s + [x]) == Members(s) + {x}
    ensures s != [] ==> Members(s) == {s[0]} + Members(s[1..])
  {
    var t := s + [x];
    assert t[|s|] == x;
    forall y ensures y in Members(t) <==> y in Members(s) + {x} {
      if y in Members(s) {
        var i :| 0 <= i < |s| && s[i] == y;
        assert t[i] == y;
      }
    }
    if s != [] {
      assert forall i :: 1 <= i < |s| ==> s[i] == s[1..][i - 1];
    }
  }

  lemma PrefixOn<T>(s: seq<T>, i: nat)
    requires i < |s|
    ensures Members(s[..i + 1]) == Members(s[..i]) + {s[i]}
  {
    MembersOn(s[..i], s[i]);
    assert s[..i + 1] == s[..i] + [s[i]];
  }

  function PidsOf(records: set<Record>): (p: set<nat>)
    ensures forall r :: r in records ==> r.pid in p
  {
    set r | r in records :: r.pid
  }

  /** What has been found so far, by sets: descendants, with exactly their pids seen. */
  ghost predicate Found(records: seq<Record>, root: nat, result: seq<Record>, seen: set<nat>) {
    && Members(result) <= Members(records) && seen == PidsOf(Members(result)) && DistinctPids(result)
    && forall r :: r in Members(result) ==> Descends(records, root, r)
  }

  /** All children of these processes have been found. */
  ghost predicate Expanded(records: set<Record>, result: set<Record>, expanded: set<nat>) {
    forall r :: r in records && r.parent in expanded ==> r in result
  }

  /** `descendant_identities`: every record below the root, once each; the root itself only if
      it is its own ancestor. */
  method DescendantIdentities(root: nat, records: seq<Record>) returns (result: seq<Record>)
    requires DistinctPids(records)
    ensures DistinctPids(result)
    ensures forall r :: r in Members(result) <==> r in Members(records) && Descends(records, root, r)
    ensures forall rank :: Acyclic(records, rank) ==> root !in PidsOf(Members(result))
  {
    result := [];
    var seen: set<nat>, queue: seq<nat> := {}, [root];
    ghost var expanded: set<nat> := {};
    assert Members(queue) == {queue[0]};
    while queue != []
      invariant Found(records, root, result, seen) && Expanded(Members(records), Members(result), expanded)
      invariant seen + {root} <= expanded + Members(queue) && Members(queue) <= seen + {root}
      decreases |PidsOf(Members(records)) - seen|, |queue|
    {
      var parent := queue[0];
      MembersOn(queue, parent);
      ghost var seen0, waiting, rest := seen, Members(queue), Members(queue[1..]);
      result, seen, queue := Expand(root, records, parent, result, seen, queue[1..]);
      Turn(root, parent, seen0, seen, expanded, waiting, rest, Members(queue));
      expanded := expanded + {parent};
    }
    Conclude(records, root, result, seen, expanded);
  }

  lemma Turn(root: nat, parent: nat, seen0: set<nat>, seen: set<nat>, expanded: set<nat>, waiting: set<nat>,
             rest: set<nat>, queue: set<nat>)
    requires seen0 + {root} <= expanded + waiting && waiting <= seen0 + {root} && seen0 <= seen
    requires waiting == {parent} + rest && queue == rest + (seen - seen0)
    ensures seen + {root} <= expanded + {parent} + queue && queue <= seen + {root}
  {
  }

  lemma Conclude(records: seq<Record>, root: nat, result: seq<Record>, seen: set<nat>, expanded: set<nat>)
    requires Found(records, root, result, seen) && Expanded(Members(records), Members(result), expanded)
    requires seen + {root} <= expanded
    ensures forall r :: r in Members(result) <==> r in Members(records) && Descends(records, root, r)
    ensures forall rank :: Acyclic(records, rank) ==> root !in PidsOf(Members(result))
  {
    forall r | r in Members(records) && Descends(records, root, r) ensures r in Members(result) {
      var path :| Chain(records, root, path) && path[|path| - 1] == r;
      DescendantsWithin(records, root, path, Members(result));
    }
    forall rank | Acyclic(records, rank) ensures root !in PidsOf(Members(result)) {
      if root in PidsOf(Members(result)) {
        var r :| r in Members(result) && r.pid == root;
        var path :| Chain(records, root, path) && path[|path| - 1] == r;
        RanksRise(records, root, path, rank);
      }
    }
  }

  /** The unseen children of one process, found and queued in the snapshot's order. */
  method Expand(root: nat, records: seq<Record>, parent: nat, result0: seq<Record>, seen0: set<nat>, queue0: seq<nat>)
    returns (result: seq<Record>, seen: set<nat>, queue: seq<nat>)
    requires DistinctPids(records) && Found(records, root, result0, seen0) && (parent == root || parent in seen0)
    ensures Found(records, root, result, seen) && Members(result0) <= Members(result) && seen0 <= seen
    ensures Expanded(Members(records), Members(result), {parent})
    ensures Members(queue) == Members(queue0) + (seen - seen0)
    ensures seen == seen0 ==> queue == queue0
    ensures seen != seen0 ==> |PidsOf(Members(records)) - seen| < |PidsOf(Members(records)) - seen0|
  {
    result, seen, queue := result0, seen0, queue0;
    var i := 0;
    while i < |records|
      invariant 0 <= i <= |records| && Found(records, root, result, seen) && Members(result0) <= Members(result)
                && seen0 <= seen
      invariant Expanded(Members(records[..i]), Members(result), {parent})
      invariant Members(queue) == Members(queue0) + (seen - seen0) && (seen == seen0 ==> queue == queue0)
    {
      if records[i].parent == parent {
        ghost var seen1, queue1 := seen, Members(queue);
        result, seen, queue := Visit(root, records, parent, records[i], result, seen, queue);
        Queued(Members(queue0), queue1, Members(queue), seen0, seen1, seen);
      }
      PrefixOn(records, i);
      i := i + 1;
    }
    assert records[..i] == records;
    if seen != seen0 {
      Fewer(PidsOf(Members(records)), seen0, seen);
    }
  }

  lemma Queued(queue0: set<nat>, queue1: set<nat>, queue: set<nat>, seen0: set<nat>, seen1: set<nat>, seen: set<nat>)
    requires queue1 == queue0 + (seen1 - seen0) && queue == queue1 + (seen - seen1) && seen0 <= seen1 <= seen
    ensures queue == queue0 + (seen - seen0) && (seen == seen0 ==> seen1 == seen0)
  {
  }

  method Visit(root: nat, records: seq<Record>, parent: nat, child: Record, result0: seq<Record>, seen0: set<nat>,
               queue0: seq<nat>)
    returns (result: seq<Record>, seen: set<nat>, queue: seq<nat>)
    requires DistinctPids(records) && Found(records, root, result0, seen0) && (parent == root || parent in seen0)
    requires child in Members(records) && child.parent == parent
    ensures Found(records, root, result, seen) && Members(result) == Members(result0) + {child}
    ensures seen == seen0 + {child.pid} && Members(queue) == Members(queue0) + (seen - seen0)
    ensures seen == seen0 ==> queue == queue0
  {
    result, seen, queue := result0, seen0, queue0;
    if child.pid in seen {
      SeenIsFound(records, Members(result), child);
    } else {
      Adopt(records, root, result, seen, parent, child);
      MembersOn(result, child);
      MembersOn(queue, child.pid);
      result, seen, queue := result + [child], seen + {child.pid}, queue + [child.pid];
    }
  }

  lemma SeenIsFound(records: seq<Record>, result: set<Record>, child: Record)
    requires DistinctPids(records) && result <= Members(records) && child in Members(records)
             && child.pid in PidsOf(result)
    ensures child in result
  {
    var r :| r in result && r.pid == child.pid;
    var j :| 0 <= j < |records| && records[j] == r;
    var k :| 0 <= k < |records| && records[k] == child;
    assert j == k;
  }

  lemma Adopt(records: seq<Record>, root: nat, result: seq<Record>, seen: set<nat>, parent: nat, child: Record)
    requires Found(records, root, result, seen) && (parent == root || parent in seen)
    requires child in Members(records) && child.parent == parent && child.pid !in seen
    ensures Found(records, root, result + [child], seen + {child.pid})
  {
    if parent == root {
      ChildDescends(records, root, None, child);
    } else {
      var r :| r in Members(result) && r.pid == parent;
      ChildDescends(records, root, Some(r), child);
    }
    MembersOn(result, child);
    PidsOn(Members(result), child);
    assert forall i :: 0 <= i < |result| ==> result[i] in Members(result);
  }

  lemma PidsOn(records: set<Record>, r: Record)
    ensures PidsOf(records + {r}) == PidsOf(records) + {r.pid}
  {
  }

  lemma Fewer<T>(all: set<T>, seen0: set<T>, seen: set<T>)
    requires seen0 < seen <= all
    ensures |all - seen| < |all - seen0|
  {
    var x :| x in seen && x !in seen0;
    assert x in all - seen0 && x !in all - seen;
    SubsetCount(all - seen, all - seen0 - {x});
  }

  // ------------------------------------------------------------ the tracker

  /** A process as the tracker owns it: a pid alone is never enough. */
  datatype Key = Key(pid: nat, start: nat)

  function KeysOf(records: set<Record>): set<Key> {
    set r | r in records :: Key(r.pid, r.start)
  }

  datatype Identity = Identity(start: nat, parent: nat)

  /** The process table during one walk: what each pid is, and the child lists of all its threads. */
  datatype Table = Table(identities: map<nat, Identity>, children: map<nat, seq<nat>>) {
    /** The pid still is the process with this start time, and its threads can be listed. */
    predicate Live(k: Key) {
      k.pid in identities && identities[k.pid].start == k.start && k.pid in children
    }

    /** The kernel lists `c` below the live process `p`, and `c` agrees. */
    predicate Child(p: Key, c: Key) {
      Live(p) && c.pid in Members(children[p.pid]) && c.pid in identities
          && identities[c.pid] == Identity(c.start, p.pid)
    }
  }

  /** A line of descent that starts at an owned process. */
  ghost predicate Line(t: Table, owned: set<Key>, path: seq<Key>) {
    path != [] && path[0] in owned && forall i :: 0 < i < |path| ==> t.Child(path[i - 1], path[i])
  }

  ghost predicate Owes(t: Table, owned: set<Key>, k: Key) {
    exists path :: Line(t, owned, path) && path[|path| - 1] == k
  }

  lemma OwesChild(t: Table, owned: set<Key>, p: Key, c: Key)
    requires Owes(t, owned, p) && t.Child(p, c)
    ensures Owes(t, owned, c)
  {
    var path :| Line(t, owned, path) && path[|path| - 1] == p;
    assert Line(t, owned, path + [c]);
  }

  /** All live processes of `done` have their children in `found`. */
  ghost predicate Walked(t: Table, done: set<Key>, found: set<Key>) {
    forall p, c :: p in done && t.Child(p, c) ==> c in found
  }

  lemma {:induction false} LinesStayWithin(t: Table, owned: set<Key>, path: seq<Key>, found: set<Key>)
    requires Line(t, owned, path) && owned <= found && Walked(t, found, found)
    ensures path[|path| - 1] in found
    decreases |path|
  {
    if |path| > 1 {
      LinesStayWithin(t, owned, path[..|path| - 1], found);
      assert t.Child(path[|path| - 2], path[|path| - 1]);
    }
  }

  /** A vanished pid leads nowhere, nor does one that has another start time by now; and a
      child counts exactly if the kernel lists it under a parent that is still the same
      process, and it names that parent itself. */
  lemma RecycledOwnNothing(t: Table, p: Key, c: Key)
    ensures p.pid !in t.identities || t.identities[p.pid].start != p.start ==> !t.Child(p, c)
    ensures t.Child(p, c) <==>
              && p.pid in t.identities && t.identities[p.pid].start == p.start
              && p.pid in t.children && c.pid in t.children[p.pid]
              && c.pid in t.identities && t.identities[c.pid].start == c.start && t.identities[c.pid].parent == p.pid
  {
    if p.pid in t.children {
      var listed := t.children[p.pid];
      if c.pid in listed {
        var i :| 0 <= i < |listed| && listed[i] == c.pid;
      }
    }
  }

  /** Everything the walk can ever own. */
  function Universe(t: Table, owned: set<Key>): set<Key> {
    owned + set pid | pid in t.identities :: Key(pid, t.identities[pid].start)
  }

  class ProcessTracker {
    var owned: set<Key>

    /** Owned at first: the launch's root and all its descendants in the census. */
    constructor (root: nat, census: seq<Record>)
      requires DistinctPids(census)
      ensures owned == KeysOf(set r | r in Members(census) && (r.pid == root || Descends(census, root, r)))
    {
      owned := {};
      new;
      var below := DescendantIdentities(root, census);
      owned := KeysOf((set r | r in Members(census) && r.pid == root) + Members(below));
    }

    /** `update`, on a table that does not change during the walk: exactly what was owned and
        everything in a line of live descent from it. */
    method Update(t: Table)
      modifies this
      ensures forall k :: k in owned <==> Owes(t, old(owned), k)
      ensures old(owned) <= owned
    {
      owned := Walk(t, owned);
    }
  }

  /** Part way through the walk: what is owned is owed, and only of what is pending can more be. */
  ghost predicate Walking(t: Table, first: set<Key>, owned: set<Key>, visited: set<Key>, pending: set<Key>) {
    && first <= owned <= Universe(t, first) && visited <= owned && pending <= owned <= visited + pending
    && Walked(t, visited, owned) && forall k :: k in owned ==> Owes(t, first, k)
  }

  /** The walk: owned processes first, then whatever their child lists add. */
  method Walk(t: Table, first: set<Key>) returns (owned: set<Key>)
    ensures first <= owned && forall k :: k in owned <==> Owes(t, first, k)
  {
    owned := first;
    var pending := Listed(owned);
    var visited: set<Key> := {};
    OwnedOwe(t, owned);
    while pending != []
      invariant Walking(t, first, owned, visited, Members(pending))
      decreases |Universe(t, first) - visited|, |pending|
    {
      var k := pending[0];
      MembersOn(pending, k);
      if k in visited {
        pending := pending[1..];
      } else {
        owned, pending := Look(t, first, k, owned, visited, pending);
        Fewer(Universe(t, first), visited, visited + {k});
        visited := visited + {k};
      }
    }
    Closure(t, first, owned);
  }

  /** One process of the walk: its children, if it still is what it was. */
  method Look(t: Table, ghost first: set<Key>, k: Key, owned0: set<Key>, ghost visited: set<Key>, pending0: seq<Key>)
    returns (owned: set<Key>, pending: seq<Key>)
    requires pending0 != [] && pending0[0] == k && Walking(t, first, owned0, visited, Members(pending0))
    ensures Walking(t, first, owned, visited + {k}, Members(pending))
  {
    MembersOn(pending0, k);
    owned, pending := owned0, pending0[1..];
    if t.Live(k) {
      owned, pending := Adopted(t, first, k, owned, pending);
    }
    WalkedOn(t, k, visited, owned0, owned, Members(pending0), Members(pending0[1..]), Members(pending));
  }

  lemma WalkedOn(t: Table, k: Key, visited: set<Key>, owned0: set<Key>, owned: set<Key>, waiting: set<Key>,
                 rest: set<Key>, pending: set<Key>)
    requires Walked(t, visited, owned0) && owned0 <= owned <= visited + waiting + pending && visited <= owned0
    requires waiting == {k} + rest && rest <= pending <= rest + owned && waiting <= owned0
             && (t.Live(k) ==> Walked(t, {k}, owned))
    ensures Walked(t, visited + {k}, owned) && pending <= owned <= visited + {k} + pending && visited + {k} <= owned
  {
    forall p, c | p in visited + {k} && t.Child(p, c) ensures c in owned {
      if p == k {
        assert t.Live(k) && c in owned;
      }
    }
  }

  lemma Closure(t: Table, first: set<Key>, owned: set<Key>)
    requires first <= owned && Walked(t, owned, owned)
    ensures forall k :: Owes(t, first, k) ==> k in owned
  {
    forall k | Owes(t, first, k) ensures k in owned {
      var path :| Line(t, first, path) && path[|path| - 1] == k;
      LinesStayWithin(t, first, path, owned);
    }
  }

  lemma OwnedOwe(t: Table, owned: set<Key>)
    ensures forall k :: k in owned ==> Owes(t, owned, k)
  {
    forall k | k in owned ensures Owes(t, owned, k) {
      assert Line(t, owned, [k]);
    }
  }

  /** The listed children of a live process that agree about their parent. */
  method Adopted(t: Table, ghost first: set<Key>, p: Key, owned0: set<Key>, pending0: seq<Key>)
    returns (owned: set<Key>, pending: seq<Key>)
    requires t.Live(p) && p in owned0 && owned0 <= Universe(t, first) && forall k :: k in owned0 ==> Owes(t, first, k)
    ensures owned0 <= owned <= Universe(t, first) && forall k :: k in owned ==> Owes(t, first, k)
    ensures Members(pending0) <= Members(pending) && owned <= owned0 + Members(pending)
            && Members(pending) <= Members(pending0) + owned
    ensures Walked(t, {p}, owned)
  {
    owned, pending := owned0, pending0;
    var listed := t.children[p.pid];
    var i := 0;
    while i < |listed|
      invariant 0 <= i <= |listed| && owned0 <= owned <= Universe(t, first) && forall k :: k in owned ==>
                Owes(t, first, k)
      invariant Members(pending0) <= Members(pending) && owned <= owned0 + Members(pending)
                && Members(pending) <= Members(pending0) + owned
      invariant forall c: Key :: c.pid in Members(listed[..i]) && t.Child(p, c) ==> c in owned
    {
      var pid := listed[i];
      if pid in t.identities && t.identities[pid].parent == p.pid {
        var key := Key(pid, t.identities[pid].start);
        OwesChild(t, first, p, key);
        MembersOn(pending, key);
        owned, pending := owned + {key}, pending + [key];
      }
      PrefixOn(listed, i);
      i := i + 1;
    }
    assert listed[..i] == listed;
  }

  /** The members of a set in some order. */
  method Listed<T(==)>(s: set<T>) returns (q: seq<T>)
    ensures Members(q) == s
  {
    q := [];
    var rest := s;
    while rest != {}
      invariant rest <= s && Members(q) == s - rest
    {
      var x :| x in rest;
      MembersOn(q, x);
      q, rest := q + [x], rest - {x};
    }
  }
}
