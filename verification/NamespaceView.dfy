/** The three tries of a client, for operations, notifications and streams, merged into one tree of namespaces. */
module NamespaceView {
  import opened Wrappers
  import opened Namespaces

  datatype Stream<S> = Binary(stream: S) | RawSocket(stream: S)

  datatype Space<R, E, S> = Space(
    segment: string, path: Path, source: Path, operations: seq<R>, notifications: seq<E>, streams: seq<S>, rawSockets: seq<S>,
    children: seq<Space<R, E, S>>)

  function BinaryOf<S>(items: seq<Stream<S>>): seq<S> {
    if items == [] then []
    else BinaryOf(items[..|items| - 1]) + if items[|items| - 1].Binary? then [items[|items| - 1].stream] else []
  }

  function RawOf<S>(items: seq<Stream<S>>): seq<S> {
    if items == [] then []
    else RawOf(items[..|items| - 1]) + if items[|items| - 1].RawSocket? then [items[|items| - 1].stream] else []
  }

  /** Binary streams and raw sockets are told apart: each item is in exactly one of the two lists. */
  lemma {:induction false} StreamsAreSplit<S>(items: seq<Stream<S>>, stream: S)
    ensures stream in BinaryOf(items) <==> Binary(stream) in items
    ensures stream in RawOf(items) <==> RawSocket(stream) in items
    ensures |BinaryOf(items)| + |RawOf(items)| == |items|
  {
    if items != [] {
      StreamsAreSplit(items[..|items| - 1], stream);
      assert items == items[..|items| - 1] + [items[|items| - 1]];
    }
  }

  function Max(a: nat, b: nat): nat {
    if a < b then b else a
  }

  function Height<T>(nodes: seq<Tree<T>>): nat {
    if nodes == [] then 0 else Max(1 + Height(nodes[0].children), Height(nodes[1..]))
  }

  lemma {:induction false} ChildrenAreLower<T>(nodes: seq<Tree<T>>, i: nat)
    requires i < |nodes|
    ensures Height(nodes[i].children) < Height(nodes)
  {
    if i > 0 {
      ChildrenAreLower(nodes[1..], i - 1);
    }
  }

  function Child<T>(nodes: seq<Tree<T>>, segment: string): (child: Option<Tree<T>>)
    ensures child.Some? ==> Height(child.value.children) < Height(nodes)
  {
    var i := IndexOf(nodes, segment);
    if i < |nodes| then
      ChildrenAreLower(nodes, i);
      Some(nodes[i])
    else None
  }

  function ChildrenOf<T>(node: Option<Tree<T>>): seq<Tree<T>> {
    if node.Some? then node.value.children else []
  }

  function ItemsOf<T>(node: Option<Tree<T>>): seq<T> {
    if node.Some? then node.value.items else []
  }

  /** The segments of the nodes that are not listed yet, in order. */
  function AddSegments<T>(segments: seq<string>, nodes: seq<Tree<T>>): (all: seq<string>)
    ensures forall s :: s in all <==> s in segments || Child(nodes, s).Some?
    ensures Distinct(segments) ==> Distinct(all)
    decreases |nodes|
  {
    if nodes == [] then segments
    else
      var more := if nodes[0].segment in segments then segments else segments + [nodes[0].segment];
      AddSegments(more, nodes[1..])
  }

  predicate Distinct(segments: seq<string>) {
    forall i, j :: 0 <= i < j < |segments| ==> segments[i] != segments[j]
  }

  function Segments<R, E, S>(r: seq<Tree<R>>, e: seq<Tree<E>>, s: seq<Tree<Stream<S>>>): seq<string> {
    AddSegments(AddSegments(AddSegments([], r), e), s)
  }

  predicate Present<R, E, S>(r: seq<Tree<R>>, e: seq<Tree<E>>, s: seq<Tree<Stream<S>>>, segment: string) {
    Child(r, segment).Some? || Child(e, segment).Some? || Child(s, segment).Some?
  }

  lemma SegmentsArePresent<R, E, S>(r: seq<Tree<R>>, e: seq<Tree<E>>, s: seq<Tree<Stream<S>>>)
    ensures Distinct(Segments(r, e, s)) && forall g :: g in Segments(r, e, s) <==> Present(r, e, s, g)
  {
  }

  function MergeNodes<R, E, S>(r: seq<Tree<R>>, e: seq<Tree<E>>, s: seq<Tree<Stream<S>>>): seq<Space<R, E, S>>
    decreases Height(r) + Height(e) + Height(s), 2, 0
  {
    MergeEach(Segments(r, e, s), r, e, s)
  }

  function MergeEach<R, E, S>(segments: seq<string>, r: seq<Tree<R>>, e: seq<Tree<E>>, s: seq<Tree<Stream<S>>>)
    : seq<Space<R, E, S>>
    requires forall g :: g in segments ==> Present(r, e, s, g)
    decreases Height(r) + Height(e) + Height(s), 1, |segments|
  {
    if segments == [] then []
    else MergeEach(segments[..|segments| - 1], r, e, s) + [MergeOne(segments[|segments| - 1], r, e, s)]
  }

  /** One namespace: what the three tries have at its segment. Its path is that of the first of them that has it. */
  function MergeOne<R, E, S>(segment: string, r: seq<Tree<R>>, e: seq<Tree<E>>, s: seq<Tree<Stream<S>>>): Space<R, E, S>
    requires Present(r, e, s, segment)
    decreases Height(r) + Height(e) + Height(s), 0, 0
  {
    var route, event, stream := Child(r, segment), Child(e, segment), Child(s, segment);
    var path := if route.Some? then route.value.path else if event.Some? then event.value.path else stream.value.path;
    var source := if route.Some? then route.value.source else if event.Some? then event.value.source else stream.value.source;
    Space(segment, path, source, ItemsOf(route), ItemsOf(event), BinaryOf(ItemsOf(stream)), RawOf(ItemsOf(stream)),
          MergeNodes(ChildrenOf(route), ChildrenOf(event), ChildrenOf(stream)))
  }

  // ----- looking up a path in the merged tree -----

  function FindSpace<R, E, S>(spaces: seq<Space<R, E, S>>, segment: string): Option<Space<R, E, S>> {
    if spaces == [] then None
    else if spaces[|spaces| - 1].segment == segment then Some(spaces[|spaces| - 1])
    else FindSpace(spaces[..|spaces| - 1], segment)
  }

  function SpaceAt<R, E, S>(spaces: seq<Space<R, E, S>>, p: Path, k: nat): Option<Space<R, E, S>>
    requires k < |p|
    decreases |p| - k
  {
    var space := FindSpace(spaces, p[k]);
    if space.None? || k + 1 == |p| then space else SpaceAt(space.value.children, p, k + 1)
  }

  lemma MergedSegment<R, E, S>(segment: string, r: seq<Tree<R>>, e: seq<Tree<E>>, s: seq<Tree<Stream<S>>>)
    requires Present(r, e, s, segment)
    ensures MergeOne(segment, r, e, s).segment == segment
  {
  }

  lemma {:induction false} MergeEachFinds<R, E, S>(
      segments: seq<string>, r: seq<Tree<R>>, e: seq<Tree<E>>, s: seq<Tree<Stream<S>>>, segment: string)
    requires forall g :: g in segments ==> Present(r, e, s, g)
    ensures FindSpace(MergeEach(segments, r, e, s), segment)
         == if segment in segments then Some(MergeOne(segment, r, e, s)) else None
  {
    hide MergeOne, Child, Height;
    if segments != [] {
      var before, last := segments[..|segments| - 1], segments[|segments| - 1];
      MergeEachFinds(before, r, e, s, segment);
      MergedSegment(last, r, e, s);
    }
  }

  ghost predicate SameLookup<R, E, S>(
      space: Option<Space<R, E, S>>, route: Option<Tree<R>>, event: Option<Tree<E>>, stream: Option<Tree<Stream<S>>>) {
    && (space.Some? <==> route.Some? || event.Some? || stream.Some?)
    && (space.Some? ==>
          && space.value.operations == ItemsOf(route) && space.value.notifications == ItemsOf(event)
          && space.value.streams == BinaryOf(ItemsOf(stream)) && space.value.rawSockets == RawOf(ItemsOf(stream))
          && (route.Some? ==> space.value.path == route.value.path && space.value.source == route.value.source)
          && (route.None? && event.Some? ==> space.value.path == event.value.path && space.value.source == event.value.source)
          && (route.None? && event.None? ==> space.value.path == stream.value.path && space.value.source == stream.value.source))
  }

  lemma NodeAtChild<T>(nodes: seq<Tree<T>>, p: Path, k: nat)
    requires k < |p|
    ensures NodeAt(nodes, p, k)
         == if k + 1 == |p| then Child(nodes, p[k]) else NodeAt(ChildrenOf(Child(nodes, p[k])), p, k + 1)
  {
  }

  lemma NothingBelow<T>(p: Path, k: nat)
    requires k < |p|
    ensures k + 1 < |p| ==> NodeAt<T>([], p, k + 1).None?
  {
  }

  /** One merged namespace has what the three tries have at its segment. */
  lemma MergedLooksUp<R, E, S>(segment: string, r: seq<Tree<R>>, e: seq<Tree<E>>, s: seq<Tree<Stream<S>>>)
    requires Present(r, e, s, segment)
    ensures SameLookup(Some(MergeOne(segment, r, e, s)), Child(r, segment), Child(e, segment), Child(s, segment))
    ensures MergeOne(segment, r, e, s).children
         == MergeNodes(ChildrenOf(Child(r, segment)), ChildrenOf(Child(e, segment)), ChildrenOf(Child(s, segment)))
  {
    hide Child, MergeEach;
  }

  lemma NothingToLookUp<R, E, S>(r: Option<Tree<R>>, e: Option<Tree<E>>, s: Option<Tree<Stream<S>>>)
    requires r.None? && e.None? && s.None?
    ensures SameLookup<R, E, S>(None, r, e, s)
  {
  }

  /** Looking up any path in the merged tree gives the lookups in the three tries. */
  lemma {:induction false} MergeLooksUp<R, E, S>(
      r: seq<Tree<R>>, e: seq<Tree<E>>, s: seq<Tree<Stream<S>>>, p: Path, k: nat)
    requires k < |p|
    ensures SameLookup(SpaceAt(MergeNodes(r, e, s), p, k), NodeAt(r, p, k), NodeAt(e, p, k), NodeAt(s, p, k))
    decreases |p| - k
  {
    hide Segments, MergeEach, Child, IndexOf;
    SegmentsArePresent(r, e, s);
    MergeEachFinds(Segments(r, e, s), r, e, s, p[k]);
    NodeAtChild(r, p, k);
    NodeAtChild(e, p, k);
    NodeAtChild(s, p, k);
    hide NodeAt, MergeOne, MergeNodes, SameLookup;
    var route, event, stream := Child(r, p[k]), Child(e, p[k]), Child(s, p[k]);
    if !Present(r, e, s, p[k]) {
      NothingBelow<R>(p, k);
      NothingBelow<E>(p, k);
      NothingBelow<Stream<S>>(p, k);
      NothingToLookUp(NodeAt(r, p, k), NodeAt(e, p, k), NodeAt(s, p, k));
    } else {
      MergedLooksUp(p[k], r, e, s);
      if k + 1 < |p| {
        MergeLooksUp(ChildrenOf(route), ChildrenOf(event), ChildrenOf(stream), p, k + 1);
      }
    }
  }

  /** Sibling namespaces have different segments, at every level. */
  ghost predicate UniqueSpaces<R, E, S>(spaces: seq<Space<R, E, S>>) {
    && (forall i, j :: 0 <= i < j < |spaces| ==> spaces[i].segment != spaces[j].segment)
    && (forall i :: 0 <= i < |spaces| ==> UniqueSpaces(spaces[i].children))
  }

  lemma {:induction false} MergedAreUnique<R, E, S>(r: seq<Tree<R>>, e: seq<Tree<E>>, s: seq<Tree<Stream<S>>>)
    ensures UniqueSpaces(MergeNodes(r, e, s))
    decreases Height(r) + Height(e) + Height(s), 2, 0
  {
    MergedEachAreUnique(Segments(r, e, s), r, e, s);
  }

  lemma {:induction false} MergedEachAreUnique<R, E, S>(
      segments: seq<string>, r: seq<Tree<R>>, e: seq<Tree<E>>, s: seq<Tree<Stream<S>>>)
    requires Distinct(segments) && forall g :: g in segments ==> Present(r, e, s, g)
    ensures var spaces := MergeEach(segments, r, e, s);
      UniqueSpaces(spaces) && |spaces| == |segments| && forall i :: 0 <= i < |spaces| ==> spaces[i].segment == segments[i]
    decreases Height(r) + Height(e) + Height(s), 1, |segments|
  {
    hide MergeOne, Child, Height, Present, IndexOf;
    if segments != [] {
      var g := segments[|segments| - 1];
      assert g in segments && Present(r, e, s, g);
      MergedEachAreUnique(segments[..|segments| - 1], r, e, s);
      MergedOneIsUnique(g, r, e, s);
      OneMoreIsUnique(MergeEach(segments[..|segments| - 1], r, e, s), segments, MergeOne(g, r, e, s));
    }
  }

  lemma {:induction false} MergedOneIsUnique<R, E, S>(
      segment: string, r: seq<Tree<R>>, e: seq<Tree<E>>, s: seq<Tree<Stream<S>>>)
    requires Present(r, e, s, segment)
    ensures UniqueSpaces(MergeOne(segment, r, e, s).children) && MergeOne(segment, r, e, s).segment == segment
    decreases Height(r) + Height(e) + Height(s), 0, 0
  {
    MergedAreUnique(ChildrenOf(Child(r, segment)), ChildrenOf(Child(e, segment)), ChildrenOf(Child(s, segment)));
  }

  lemma OneMoreIsUnique<R, E, S>(spaces: seq<Space<R, E, S>>, segments: seq<string>, one: Space<R, E, S>)
    requires Distinct(segments) && segments != [] && one.segment == segments[|segments| - 1]
    requires |spaces| == |segments| - 1 && forall i :: 0 <= i < |spaces| ==> spaces[i].segment == segments[i]
    requires UniqueSpaces(spaces) && UniqueSpaces(one.children)
    ensures UniqueSpaces(spaces + [one])
  {
  }

  // ----- the whole view -----

  /**
   Every operation, notification, stream and raw socket is in the client view at its visible path and nowhere else, in
   input order; and a namespace exists exactly where something is placed at or below it.
   */
  lemma ClientViewPlaces<R, E, S>(routes: seq<Entry<R>>, events: seq<Entry<E>>, streams: seq<Entry<Stream<S>>>, p: Path)
    requires AllPlaceable(routes) && AllPlaceable(events) && AllPlaceable(streams) && p != []
    ensures var space := SpaceAt(MergeNodes(Build(routes), Build(events), Build(streams)), p, 0);
      && (space.Some? <==> Occupied(routes, p) || Occupied(events, p) || Occupied(streams, p))
      && (space.Some? ==>
            && space.value.path == p
            && space.value.operations == Placed(routes, p) && space.value.notifications == Placed(events, p)
            && space.value.streams == BinaryOf(Placed(streams, p)) && space.value.rawSockets == RawOf(Placed(streams, p)))
  {
    MergeLooksUp(Build(routes), Build(events), Build(streams), p, 0);
    BuildLooksUp(routes, p);
    BuildLooksUp(events, p);
    BuildLooksUp(streams, p);
    PathIsRight(routes, p);
    PathIsRight(events, p);
    PathIsRight(streams, p);
  }

  lemma PathIsRight<T>(entries: seq<Entry<T>>, p: Path)
    requires AllPlaceable(entries) && p != []
    ensures NodeAt(Build(entries), p, 0).Some? ==> NodeAt(Build(entries), p, 0).value.path == p
  {
    if NodeAt(Build(entries), p, 0).Some? {
      FirstSource(entries, p);
    }
  }

  ghost predicate Occupied<T>(entries: seq<Entry<T>>, p: Path) {
    exists i :: 0 <= i < |entries| && Leads(p, entries[i].visible, 0)
  }

  // ----- the contract paths of the merged namespaces -----

  /** No entry of the one list shares a visible prefix with one of the other that stands for a different contract path. */
  ghost predicate Harmless<T, U>(a: seq<Entry<T>>, b: seq<Entry<U>>) {
    forall i, j, n :: 0 <= i < |a| && 0 <= j < |b| && 0 < n ==> !Conflict(a[i], b[j], n)
  }

  ghost predicate AllConsistent<R, E, S>(routes: seq<Entry<R>>, events: seq<Entry<E>>, streams: seq<Entry<Stream<S>>>) {
    Consistent(routes) && Consistent(events) && Consistent(streams)
    && Harmless(routes, events) && Harmless(routes, streams) && Harmless(events, streams)
  }

  /** The namespace at `p` exists and has the contract path of the entry, which is placed at or below it. */
  ghost predicate SpaceRight<R, E, S, T>(spaces: seq<Space<R, E, S>>, e: Entry<T>, p: Path)
    requires p != []
  {
    |e.visible| <= |e.source| && Leads(p, e.visible, 0) ==>
      SpaceAt(spaces, p, 0).Some? && SpaceAt(spaces, p, 0).value.source == SourcePrefix(e, |p|)
  }

  ghost predicate AllRight<R, E, S, T>(spaces: seq<Space<R, E, S>>, entries: seq<Entry<T>>) {
    forall p: Path, i :: p != [] && 0 <= i < |entries| ==> SpaceRight(spaces, entries[i], p)
  }

  /** The contract path `source` is the one that the entry gives to the visible path `p`. */
  ghost predicate GivesSource<T>(entries: seq<Entry<T>>, p: Path, source: Path) {
    exists j :: 0 <= j < |entries| && Gives(entries[j], p, source)
  }

  ghost predicate Gives<T>(e: Entry<T>, p: Path, source: Path) {
    |e.visible| <= |e.source| && Leads(p, e.visible, 0) && source == SourcePrefix(e, |p|)
  }

  lemma NodeGivesSource<T>(entries: seq<Entry<T>>, p: Path)
    requires AllPlaceable(entries) && p != [] && NodeAt(Build(entries), p, 0).Some?
    ensures GivesSource(entries, p, NodeAt(Build(entries), p, 0).value.source)
  {
    FirstSource(entries, p);
    var node := NodeAt(Build(entries), p, 0).value;
    var j :| 0 <= j < |entries| && StandsFor(node, entries[j], p);
    assert Gives(entries[j], p, node.source);
  }

  /** Two entries without a conflict give a path the same source. */
  lemma NoConflictSameSource<T, U>(a: seq<Entry<T>>, e: Entry<U>, p: Path, source: Path)
    requires GivesSource(a, p, source) && p != [] && |e.visible| <= |e.source| && Leads(p, e.visible, 0)
    requires forall j, n :: 0 <= j < |a| && 0 < n ==> !Conflict(a[j], e, n)
    ensures source == SourcePrefix(e, |p|)
  {
    var j :| 0 <= j < |a| && Gives(a[j], p, source);
    assert a[j].visible[..|p|] == p == e.visible[..|p|];
    assert !Conflict(a[j], e, |p|);
  }

  /** The contract path of a merged namespace comes from an entry of one of the three lists. */
  lemma SpaceGivesSource<R, E, S>(routes: seq<Entry<R>>, events: seq<Entry<E>>, streams: seq<Entry<Stream<S>>>, p: Path)
    requires AllPlaceable(routes) && AllPlaceable(events) && AllPlaceable(streams) && p != []
    requires SpaceAt(MergeNodes(Build(routes), Build(events), Build(streams)), p, 0).Some?
    ensures var source := SpaceAt(MergeNodes(Build(routes), Build(events), Build(streams)), p, 0).value.source;
      GivesSource(routes, p, source) || GivesSource(events, p, source) || GivesSource(streams, p, source)
  {
    hide Build, NodeAt, MergeNodes, SpaceAt, GivesSource;
    MergeLooksUp(Build(routes), Build(events), Build(streams), p, 0);
    if NodeAt(Build(routes), p, 0).Some? {
      NodeGivesSource(routes, p);
    } else if NodeAt(Build(events), p, 0).Some? {
      NodeGivesSource(events, p);
    } else {
      NodeGivesSource(streams, p);
    }
  }

  lemma ConflictIsMutual<T, U>(e: Entry<T>, f: Entry<U>, n: nat)
    ensures Conflict(e, f, n) <==> Conflict(f, e, n)
  {
  }

  lemma HarmlessIsMutual<T, U>(a: seq<Entry<T>>, b: seq<Entry<U>>)
    requires Harmless(a, b)
    ensures Harmless(b, a)
  {
    forall i, j, n | 0 <= i < |b| && 0 <= j < |a| && 0 < n ensures !Conflict(b[i], a[j], n) {
      ConflictIsMutual(b[i], a[j], n);
    }
  }

  /** An entry that conflicts with none is right wherever a namespace leads to it. */
  lemma EntryIsRight<R, E, S, T>(
      routes: seq<Entry<R>>, events: seq<Entry<E>>, streams: seq<Entry<Stream<S>>>, entries: seq<Entry<T>>, i: nat, p: Path)
    requires AllPlaceable(routes) && AllPlaceable(events) && AllPlaceable(streams) && p != [] && i < |entries|
    requires Harmless(routes, entries) && Harmless(events, entries) && Harmless(streams, entries)
    requires Leads(p, entries[i].visible, 0) ==> Occupied(routes, p) || Occupied(events, p) || Occupied(streams, p)
    ensures SpaceRight(MergeNodes(Build(routes), Build(events), Build(streams)), entries[i], p)
  {
    hide Build, MergeNodes, SpaceAt, GivesSource, Conflict;
    if |entries[i].visible| <= |entries[i].source| && Leads(p, entries[i].visible, 0) {
      ClientViewPlaces(routes, events, streams, p);
      SpaceGivesSource(routes, events, streams, p);
      var source := SpaceAt(MergeNodes(Build(routes), Build(events), Build(streams)), p, 0).value.source;
      if GivesSource(routes, p, source) {
        NoConflictSameSource(routes, entries[i], p, source);
      } else if GivesSource(events, p, source) {
        NoConflictSameSource(events, entries[i], p, source);
      } else {
        NoConflictSameSource(streams, entries[i], p, source);
      }
    }
  }

  lemma RightMeansHarmless<R, E, S, T, U>(spaces: seq<Space<R, E, S>>, a: seq<Entry<T>>, b: seq<Entry<U>>)
    requires AllRight(spaces, a) && AllRight(spaces, b)
    ensures Harmless(a, b)
  {
    forall i, j, n | 0 <= i < |a| && 0 <= j < |b| && 0 < n ensures !Conflict(a[i], b[j], n) {
      if n <= |a[i].visible| <= |a[i].source| && n <= |b[j].visible| <= |b[j].source| && a[i].visible[..n] == b[j].visible[..n] {
        var p := a[i].visible[..n];
        assert Leads(p, a[i].visible, 0) && Leads(p, b[j].visible, 0);
        assert SpaceRight(spaces, a[i], p) && SpaceRight(spaces, b[j], p);
      }
    }
  }

  /**
   Every merged namespace stands for the right contract path of everything at or below it, be it an operation, a
   notification or a stream, exactly when no two entries of the three lists conflict.
   */
  lemma MergedSourcesAreRightExactly<R, E, S>(
      routes: seq<Entry<R>>, events: seq<Entry<E>>, streams: seq<Entry<Stream<S>>>)
    requires AllPlaceable(routes) && AllPlaceable(events) && AllPlaceable(streams)
    ensures var spaces := MergeNodes(Build(routes), Build(events), Build(streams));
      AllConsistent(routes, events, streams) <==> AllRight(spaces, routes) && AllRight(spaces, events) && AllRight(spaces, streams)
  {
    hide Build, MergeNodes, SpaceRight, Conflict;
    var spaces := MergeNodes(Build(routes), Build(events), Build(streams));
    if AllConsistent(routes, events, streams) {
      HarmlessIsMutual(routes, events);
      HarmlessIsMutual(routes, streams);
      HarmlessIsMutual(events, streams);
      forall p: Path, i | p != [] && 0 <= i < |routes| ensures SpaceRight(spaces, routes[i], p) {
        EntryIsRight(routes, events, streams, routes, i, p);
      }
      forall p: Path, i | p != [] && 0 <= i < |events| ensures SpaceRight(spaces, events[i], p) {
        EntryIsRight(routes, events, streams, events, i, p);
      }
      forall p: Path, i | p != [] && 0 <= i < |streams| ensures SpaceRight(spaces, streams[i], p) {
        EntryIsRight(routes, events, streams, streams, i, p);
      }
    }
    if AllRight(spaces, routes) && AllRight(spaces, events) && AllRight(spaces, streams) {
      RightMeansHarmless(spaces, routes, routes);
      RightMeansHarmless(spaces, events, events);
      RightMeansHarmless(spaces, streams, streams);
      RightMeansHarmless(spaces, routes, events);
      RightMeansHarmless(spaces, routes, streams);
      RightMeansHarmless(spaces, events, streams);
    }
  }

  /** The check looks at operations only, so an alias can give a notification's namespace a wrong contract path. */
  lemma UncheckedEvent()
    ensures var routes := [Entry(["jobs"], ["tasks"], 1)];
      var events := [Entry(["jobs"], ["jobs"], 2)];
      && Consistent(routes) && Consistent(events) && !Harmless(routes, events)
  {
    var routes, events := [Entry(["jobs"], ["tasks"], 1)], [Entry(["jobs"], ["jobs"], 2)];
    assert routes[0].visible[..1] == events[0].visible[..1];
    assert SourcePrefix(routes[0], 1) == ["tasks"] && SourcePrefix(events[0], 1) == ["jobs"];
    assert Conflict(routes[0], events[0], 1);
  }
}
