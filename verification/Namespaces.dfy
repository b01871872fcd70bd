/**
 The namespace tree of a generated client: operations, notifications and streams are put into tries by their visible
 paths, and the tries are merged into one. Nodes keep the order in which their segments first appeared.
 */
module Namespaces {
  import opened Wrappers

  type Path = seq<string>

  /** Something to place: its path in the client, and the contract path it stands for, of which a root may be hidden. */
  datatype Entry<T> = Entry(visible: Path, source: Path, item: T)

  datatype Tree<T> = Tree(segment: string, path: Path, source: Path, items: seq<T>, children: seq<Tree<T>>)

  ghost predicate AllPlaceable<T>(entries: seq<Entry<T>>) {
    forall i :: 0 <= i < |entries| ==> 0 < |entries[i].visible| <= |entries[i].source|
  }

  /** The first node with the segment, or the end. */
  function IndexOf<T>(nodes: seq<Tree<T>>, segment: string): (i: nat)
    ensures i <= |nodes| && (i < |nodes| ==> nodes[i].segment == segment)
    ensures forall j :: 0 <= j < i ==> nodes[j].segment != segment
  {
    if nodes == [] || nodes[0].segment == segment then 0 else 1 + IndexOf(nodes[1..], segment)
  }

  lemma IndexIs<T>(nodes: seq<Tree<T>>, segment: string, i: nat)
    requires i <= |nodes| && (i < |nodes| ==> nodes[i].segment == segment)
    requires forall j :: 0 <= j < i ==> nodes[j].segment != segment
    ensures IndexOf(nodes, segment) == i
  {
    var found := IndexOf(nodes, segment);
    assert !(found < i) && !(i < found);
  }

  /** The contract path that the first `n` visible segments stand for. */
  function SourcePrefix<T>(e: Entry<T>, n: nat): Path
    requires n <= |e.visible| <= |e.source|
  {
    e.source[..|e.source| - |e.visible| + n]
  }

  /** The node the entry walks through at its `k`-th segment: the one that is there, or a new one. */
  function NodeFor<T>(nodes: seq<Tree<T>>, e: Entry<T>, k: nat): Tree<T>
    requires k < |e.visible| <= |e.source|
  {
    var i := IndexOf(nodes, e.visible[k]);
    if i < |nodes| then nodes[i] else Tree(e.visible[k], e.visible[..k + 1], SourcePrefix(e, k + 1), [], [])
  }

  /** That node with the entry added below it, or at it when the path ends. */
  function Grown<T>(nodes: seq<Tree<T>>, e: Entry<T>, k: nat): Tree<T>
    requires k < |e.visible| <= |e.source|
    decreases |e.visible| - k, 0
  {
    var node := NodeFor(nodes, e, k);
    if k + 1 == |e.visible| then node.(items := node.items + [e.item])
    else node.(children := Insert(node.children, e, k + 1))
  }

  function Insert<T>(nodes: seq<Tree<T>>, e: Entry<T>, k: nat): seq<Tree<T>>
    requires k < |e.visible| <= |e.source|
    decreases |e.visible| - k, 1
  {
    var i := IndexOf(nodes, e.visible[k]);
    if i < |nodes| then nodes[i := Grown(nodes, e, k)] else nodes + [Grown(nodes, e, k)]
  }

  function Build<T>(entries: seq<Entry<T>>): seq<Tree<T>>
    requires AllPlaceable(entries)
  {
    if entries == [] then [] else Insert(Build(entries[..|entries| - 1]), entries[|entries| - 1], 0)
  }

  /** The loop that fills the tree, entry by entry. */
  method FillTree<T>(entries: seq<Entry<T>>) returns (nodes: seq<Tree<T>>)
    requires AllPlaceable(entries)
    ensures nodes == Build(entries)
  {
    nodes := [];
    for n := 0 to |entries|
      invariant nodes == Build(entries[..n])
    {
      assert entries[..n + 1][..n] == entries[..n];
      nodes := Insert(nodes, entries[n], 0);
    }
    assert entries[..|entries|] == entries;
  }

  // ----- looking up a path -----

  /** The node that the path leads to from its `k`-th segment on. */
  function NodeAt<T>(nodes: seq<Tree<T>>, p: Path, k: nat): Option<Tree<T>>
    requires k < |p|
    decreases |p| - k
  {
    var i := IndexOf(nodes, p[k]);
    if i == |nodes| then None
    else if k + 1 == |p| then Some(nodes[i])
    else NodeAt(nodes[i].children, p, k + 1)
  }

  function ItemsAt<T>(nodes: seq<Tree<T>>, p: Path, k: nat): seq<T>
    requires k < |p|
  {
    var node := NodeAt(nodes, p, k);
    if node.Some? then node.value.items else []
  }

  /** The items of the entries whose visible path is `p`, in input order. */
  function Placed<T>(entries: seq<Entry<T>>, p: Path): seq<T> {
    if entries == [] then []
    else
      var last := entries[|entries| - 1];
      Placed(entries[..|entries| - 1], p) + if last.visible == p then [last.item] else []
  }

  /** `p` is a prefix of `q` as far as the segments from `k` on are concerned. */
  predicate Leads(p: Path, q: Path, k: nat) {
    |p| <= |q| && forall i :: k <= i < |p| ==> p[i] == q[i]
  }

  lemma LeadsOn(p: Path, q: Path, k: nat)
    requires k < |p| && k < |q|
    ensures Leads(p, q, k) <==> p[k] == q[k] && Leads(p, q, k + 1)
  {
  }

  lemma LeadsEnds(p: Path, q: Path, k: nat)
    ensures |p| <= k && |p| <= |q| ==> Leads(p, q, k)
    ensures |p| > |q| ==> !Leads(p, q, k)
  {
  }

  /** Inserting an entry replaces the node of its segment and leaves the others alone. */
  lemma InsertFinds<T>(nodes: seq<Tree<T>>, e: Entry<T>, k: nat, segment: string)
    requires k < |e.visible| <= |e.source|
    ensures var after, i := Insert(nodes, e, k), IndexOf(nodes, segment);
      && (segment == e.visible[k] ==> IndexOf(after, segment) < |after| && after[IndexOf(after, segment)] == Grown(nodes, e, k))
      && (segment != e.visible[k] ==>
            if i < |nodes| then IndexOf(after, segment) < |after| && after[IndexOf(after, segment)] == nodes[i]
            else IndexOf(after, segment) == |after|)
  {
    var after, i := Insert(nodes, e, k), IndexOf(nodes, segment);
    assert Grown(nodes, e, k).segment == e.visible[k];
    if segment == e.visible[k] {
      IndexIs(after, segment, i);
    } else {
      IndexIs(after, segment, if i < |nodes| then i else |after|);
    }
  }

  /** What inserting one entry does to every lookup. */
  lemma {:induction false} InsertLooksUp<T>(nodes: seq<Tree<T>>, e: Entry<T>, p: Path, k: nat)
    requires k < |e.visible| <= |e.source| && k < |p|
    ensures ItemsAt(Insert(nodes, e, k), p, k)
         == ItemsAt(nodes, p, k) + (if |p| == |e.visible| && Leads(p, e.visible, k) then [e.item] else [])
    ensures NodeAt(Insert(nodes, e, k), p, k).Some? <==> NodeAt(nodes, p, k).Some? || Leads(p, e.visible, k)
    decreases |e.visible| - k
  {
    hide Insert, Leads;
    InsertFinds(nodes, e, k, p[k]);
    LeadsOn(p, e.visible, k);
    if p[k] == e.visible[k] {
      var node := NodeFor(nodes, e, k);
      if k + 1 < |e.visible| && k + 1 < |p| {
        InsertLooksUp(node.children, e, p, k + 1);
      }
      var was := ItemsAt(nodes, p, k);
      assert was + [] == was;
      if k + 1 == |p| || k + 1 == |e.visible| {
        LeadsEnds(p, e.visible, k + 1);
        assert ItemsAt(Insert(nodes, e, k), p, k)
            == if k + 1 == |p| then Grown(nodes, e, k).items else ItemsAt(node.children, p, k + 1);
      }
    }
  }

  /** Where a node is, what it stands for: an inserted entry changes neither for the nodes that were there. */
  lemma {:induction false} InsertKeepsSources<T>(nodes: seq<Tree<T>>, e: Entry<T>, p: Path, k: nat)
    requires k < |e.visible| <= |e.source| && k < |p|
    ensures var was, now := NodeAt(nodes, p, k), NodeAt(Insert(nodes, e, k), p, k);
      && (was.Some? ==> now.Some? && now.value.source == was.value.source && now.value.path == was.value.path)
      && (was.None? && now.Some? ==>
            Leads(p, e.visible, k) && now.value.source == SourcePrefix(e, |p|) && now.value.path == e.visible[..|p|])
    decreases |e.visible| - k
  {
    hide Insert, Leads;
    InsertFinds(nodes, e, k, p[k]);
    LeadsOn(p, e.visible, k);
    if p[k] == e.visible[k] {
      var node := NodeFor(nodes, e, k);
      if k + 1 < |e.visible| && k + 1 < |p| {
        InsertKeepsSources(node.children, e, p, k + 1);
      }
      LeadsEnds(p, e.visible, k + 1);
    }
  }

  /** In the tree of all entries, every path holds exactly the entries placed there, in input order. */
  lemma {:induction false} BuildLooksUp<T>(entries: seq<Entry<T>>, p: Path)
    requires AllPlaceable(entries) && p != []
    ensures ItemsAt(Build(entries), p, 0) == Placed(entries, p)
    ensures NodeAt(Build(entries), p, 0).Some? <==> exists i :: 0 <= i < |entries| && Leads(p, entries[i].visible, 0)
  {
    if entries != [] {
      var before, last := entries[..|entries| - 1], entries[|entries| - 1];
      BuildLooksUp(before, p);
      InsertLooksUp(Build(before), last, p, 0);
      assert |p| == |last.visible| && Leads(p, last.visible, 0) <==> p == last.visible;
      if NodeAt(Build(before), p, 0).Some? {
        var i :| 0 <= i < |before| && Leads(p, before[i].visible, 0);
        assert Leads(p, entries[i].visible, 0);
      }
      forall i | 0 <= i < |entries| && Leads(p, entries[i].visible, 0)
        ensures NodeAt(Build(before), p, 0).Some? || Leads(p, last.visible, 0)
      {
        assert i < |before| ==> Leads(p, before[i].visible, 0);
      }
    }
  }

  // ----- sibling segments -----

  ghost predicate Unique<T>(nodes: seq<Tree<T>>) {
    && (forall i, j :: 0 <= i < j < |nodes| ==> nodes[i].segment != nodes[j].segment)
    && (forall i :: 0 <= i < |nodes| ==> Unique(nodes[i].children))
  }

  lemma {:induction false} InsertStaysUnique<T>(nodes: seq<Tree<T>>, e: Entry<T>, k: nat)
    requires k < |e.visible| <= |e.source| && Unique(nodes)
    ensures Unique(Insert(nodes, e, k))
    decreases |e.visible| - k
  {
    var node := NodeFor(nodes, e, k);
    if k + 1 < |e.visible| {
      InsertStaysUnique(node.children, e, k + 1);
    }
    assert Unique(Grown(nodes, e, k).children);
  }

  lemma {:induction false} BuildIsUnique<T>(entries: seq<Entry<T>>)
    requires AllPlaceable(entries)
    ensures Unique(Build(entries))
  {
    if entries != [] {
      BuildIsUnique(entries[..|entries| - 1]);
      InsertStaysUnique(Build(entries[..|entries| - 1]), entries[|entries| - 1], 0);
    }
  }

  // ----- the contract paths behind the nodes -----

  /** Two entries share a visible prefix that stands for different contract paths. */
  predicate Conflict<T, U>(e: Entry<T>, f: Entry<U>, n: nat) {
    n <= |e.visible| <= |e.source| && n <= |f.visible| <= |f.source|
    && e.visible[..n] == f.visible[..n] && SourcePrefix(e, n) != SourcePrefix(f, n)
  }

  ghost predicate Consistent<T>(entries: seq<Entry<T>>) {
    forall i, j, n :: 0 <= i < |entries| && 0 <= j < |entries| && 0 < n ==> !Conflict(entries[i], entries[j], n)
  }

  /** The pair of entry `j` and prefix length `m` comes before entry `i` and length `n`. */
  predicate Seen<T>(entries: seq<Entry<T>>, i: nat, n: nat, j: int, m: int) {
    0 <= j < |entries| && 0 < m <= |entries[j].visible| && (j < i || (j == i && m < n))
  }

  /** The dictionary of visible prefixes: it has the source of every pair seen, and nothing else. */
  ghost predicate Recorded<T>(entries: seq<Entry<T>>, sources: map<Path, Path>, i: nat, n: nat)
    requires AllPlaceable(entries)
  {
    && (forall j, m :: Seen(entries, i, n, j, m) ==>
          entries[j].visible[..m] in sources && sources[entries[j].visible[..m]] == SourcePrefix(entries[j], m))
    && (forall q :: q in sources ==> exists j, m :: Seen(entries, i, n, j, m) && q == entries[j].visible[..m]
                                                    && sources[q] == SourcePrefix(entries[j], m))
  }

  /** The check of the visible paths: it accepts exactly the entries without a conflict. */
  method CheckPaths<T>(entries: seq<Entry<T>>) returns (ok: bool)
    requires AllPlaceable(entries)
    ensures ok <==> Consistent(entries)
  {
    var sources: map<Path, Path> := map[];
    for i := 0 to |entries|
      invariant Recorded(entries, sources, i, 1)
    {
      var e := entries[i];
      for n := 1 to |e.visible| + 1
        invariant Recorded(entries, sources, i, n)
      {
        var prefix, source := e.visible[..n], SourcePrefix(e, n);
        if prefix in sources && sources[prefix] != source {
          ConflictFound(entries, sources, i, n);
          return false;
        }
        RecordsOneMore(entries, sources, i, n);
        sources := sources[prefix := source];
      }
      RowDone(entries, sources, i);
    }
    NoConflict(entries, sources);
    ok := true;
  }

  lemma ConflictFound<T>(entries: seq<Entry<T>>, sources: map<Path, Path>, i: nat, n: nat)
    requires AllPlaceable(entries) && Recorded(entries, sources, i, n) && i < |entries| && 0 < n <= |entries[i].visible|
    requires entries[i].visible[..n] in sources && sources[entries[i].visible[..n]] != SourcePrefix(entries[i], n)
    ensures !Consistent(entries)
  {
    var q := entries[i].visible[..n];
    var j, m :| Seen(entries, i, n, j, m) && q == entries[j].visible[..m] && sources[q] == SourcePrefix(entries[j], m);
    assert m == n;
    assert Conflict(entries[i], entries[j], n);
  }

  lemma RecordsOneMore<T>(entries: seq<Entry<T>>, sources: map<Path, Path>, i: nat, n: nat)
    requires AllPlaceable(entries) && Recorded(entries, sources, i, n) && i < |entries| && 0 < n <= |entries[i].visible|
    requires entries[i].visible[..n] in sources ==> sources[entries[i].visible[..n]] == SourcePrefix(entries[i], n)
    ensures Recorded(entries, sources[entries[i].visible[..n] := SourcePrefix(entries[i], n)], i, n + 1)
  {
    var prefix := entries[i].visible[..n];
    var now := sources[prefix := SourcePrefix(entries[i], n)];
    assert Seen(entries, i, n + 1, i, n);
    forall j, m | Seen(entries, i, n + 1, j, m)
      ensures entries[j].visible[..m] in now && now[entries[j].visible[..m]] == SourcePrefix(entries[j], m)
    {
      assert (j == i && m == n) || Seen(entries, i, n, j, m);
    }
    forall q | q in now
      ensures exists j, m :: Seen(entries, i, n + 1, j, m) && q == entries[j].visible[..m] && now[q] == SourcePrefix(entries[j], m)
    {
      if q != prefix {
        var j, m :| Seen(entries, i, n, j, m) && q == entries[j].visible[..m] && sources[q] == SourcePrefix(entries[j], m);
        assert Seen(entries, i, n + 1, j, m);
      }
    }
  }

  lemma RowDone<T>(entries: seq<Entry<T>>, sources: map<Path, Path>, i: nat)
    requires AllPlaceable(entries) && i < |entries| && Recorded(entries, sources, i, |entries[i].visible| + 1)
    ensures Recorded(entries, sources, i + 1, 1)
  {
    var n, next := |entries[i].visible| + 1, i + 1;
    assert forall j, m :: Seen(entries, i, n, j, m) <==> Seen(entries, next, 1, j, m);
  }

  lemma NoConflict<T>(entries: seq<Entry<T>>, sources: map<Path, Path>)
    requires AllPlaceable(entries) && Recorded(entries, sources, |entries|, 1)
    ensures Consistent(entries)
  {
    forall i, j, n | 0 <= i < |entries| && 0 <= j < |entries| && 0 < n ensures !Conflict(entries[i], entries[j], n) {
      if n <= |entries[i].visible| && n <= |entries[j].visible| && entries[i].visible[..n] == entries[j].visible[..n] {
        assert Seen(entries, |entries|, 1, i, n) && Seen(entries, |entries|, 1, j, n);
      }
    }
  }

  /**
   When the check accepts, a visible prefix determines its contract path: the node at `p` has the contract prefix of
   every entry placed at or below it.
   */
  lemma {:induction false} SourcesAreRight<T>(entries: seq<Entry<T>>, p: Path, i: nat)
    requires AllPlaceable(entries) && Consistent(entries)
    requires p != [] && i < |entries| && Leads(p, entries[i].visible, 0)
    ensures var node := NodeAt(Build(entries), p, 0);
      node.Some? && node.value.path == p && node.value.source == SourcePrefix(entries[i], |p|)
  {
    BuildLooksUp(entries, p);
    FirstSource(entries, p);
    var j :| 0 <= j < |entries| && StandsFor(NodeAt(Build(entries), p, 0).value, entries[j], p);
    assert entries[i].visible[..|p|] == p == entries[j].visible[..|p|];
    assert !Conflict(entries[i], entries[j], |p|);
  }

  /** The node at `p` has the path and the contract path that the entry gives it. */
  ghost predicate StandsFor<T>(node: Tree<T>, e: Entry<T>, p: Path) {
    |e.visible| <= |e.source| && Leads(p, e.visible, 0) && node.source == SourcePrefix(e, |p|) && node.path == e.visible[..|p|]
  }

  lemma {:induction false} FirstSource<T>(entries: seq<Entry<T>>, p: Path)
    requires AllPlaceable(entries) && p != [] && NodeAt(Build(entries), p, 0).Some?
    ensures exists j :: 0 <= j < |entries| && StandsFor(NodeAt(Build(entries), p, 0).value, entries[j], p)
  {
    if entries != [] {
      var before, last := entries[..|entries| - 1], entries[|entries| - 1];
      InsertKeepsSources(Build(before), last, p, 0);
      if NodeAt(Build(before), p, 0).Some? {
        FirstSource(before, p);
        var j :| 0 <= j < |before| && StandsFor(NodeAt(Build(before), p, 0).value, before[j], p);
        assert StandsFor(NodeAt(Build(entries), p, 0).value, entries[j], p);
      } else {
        assert StandsFor(NodeAt(Build(entries), p, 0).value, entries[|entries| - 1], p);
      }
    }
  }

  /** The node at `p` has the contract path of every entry at or below it. */
  ghost predicate RightAt<T>(entries: seq<Entry<T>>, p: Path, i: nat)
    requires AllPlaceable(entries) && p != [] && i < |entries|
  {
    Leads(p, entries[i].visible, 0) ==>
      var node := NodeAt(Build(entries), p, 0);
      node.Some? && node.value.source == SourcePrefix(entries[i], |p|)
  }

  lemma RightWhenEqual<T>(entries: seq<Entry<T>>, p: Path, i: nat)
    requires AllPlaceable(entries) && p != [] && i < |entries|
    requires Leads(p, entries[i].visible, 0) ==>
      NodeAt(Build(entries), p, 0).Some? && NodeAt(Build(entries), p, 0).value.source == SourcePrefix(entries[i], |p|)
    ensures RightAt(entries, p, i)
  {
  }

  lemma ConflictIsWrong<T>(entries: seq<Entry<T>>, i: nat, j: nat, n: nat) returns (p: Path)
    requires AllPlaceable(entries) && i < |entries| && j < |entries| && 0 < n && Conflict(entries[i], entries[j], n)
    ensures p != [] && !(RightAt(entries, p, i) && RightAt(entries, p, j))
  {
    hide Build, NodeAt;
    p := entries[i].visible[..n];
    assert p == entries[j].visible[..n];
    assert Leads(p, entries[i].visible, 0) && Leads(p, entries[j].visible, 0) && |p| == n;
  }

  /** Exactly then: a conflict leaves some node with a contract path that is wrong for an entry below it. */
  lemma SourcesAreRightExactly<T>(entries: seq<Entry<T>>)
    requires AllPlaceable(entries)
    ensures Consistent(entries) <==> forall p: Path, i :: p != [] && 0 <= i < |entries| ==> RightAt(entries, p, i)
  {
    hide Build, RightAt, Conflict;
    if Consistent(entries) {
      forall p: Path, i | p != [] && 0 <= i < |entries| ensures RightAt(entries, p, i) {
        if Leads(p, entries[i].visible, 0) {
          SourcesAreRight(entries, p, i);
        }
        RightWhenEqual(entries, p, i);
      }
    } else {
      var i, j, n :| 0 <= i < |entries| && 0 <= j < |entries| && 0 < n && Conflict(entries[i], entries[j], n);
      var p := ConflictIsWrong(entries, i, j, n);
      assert p != [] && !(RightAt(entries, p, i) && RightAt(entries, p, j));
    }
  }
}
