/** The client's view of the operations: a hidden root, renamed segments, and the checks that refuse a configuration. */
module ApiView {
  import opened Wrappers
  import opened Namespaces

  datatype Route = Route(path: Path, id: nat)

  datatype ViewError = UnknownRoot | UnknownAliases(names: set<string>) | AmbiguousPaths

  datatype ViewResult = View(rootOperations: seq<Route>, nodes: seq<Tree<Route>>) | Unsupported(error: ViewError)

  function Join(path: Path): string {
    if path == [] then "" else if |path| == 1 then path[0] else Join(path[..|path| - 1]) + "." + path[|path| - 1]
  }

  /** How many leading segments the root hides. */
  function Hidden(path: Path, root: Path): (n: nat)
    ensures n <= |path|
  {
    if root <= path then |root| else 0
  }

  /** The alias names that apply to a segment, in order of precedence. */
  function AliasKeys(path: Path, hidden: nat, index: nat): seq<string>
    requires hidden + index < |path|
  {
    [Join(path[..hidden + index + 1]), Join(path[hidden..hidden + index + 1]), path[hidden + index]]
  }

  function FirstAlias(keys: seq<string>, aliases: map<string, string>): (key: Option<string>)
    ensures key.Some? ==> key.value in aliases
  {
    if keys == [] then None else if keys[0] in aliases then Some(keys[0]) else FirstAlias(keys[1..], aliases)
  }

  function ApiName(path: Path, hidden: nat, index: nat, aliases: map<string, string>): string
    requires hidden + index < |path|
  {
    var key := FirstAlias(AliasKeys(path, hidden, index), aliases);
    if key.Some? then aliases[key.value] else path[hidden + index]
  }

  function VisiblePath(path: Path, root: Path, aliases: map<string, string>): (visible: Path)
    ensures |visible| == |path| - Hidden(path, root)
  {
    var hidden := Hidden(path, root);
    seq(|path| - hidden, index requires 0 <= index < |path| - hidden => ApiName(path, hidden, index, aliases))
  }

  function Projected(routes: seq<Route>, root: Path, aliases: map<string, string>): (entries: seq<Entry<Route>>)
    ensures AllPlaceable(entries)
  {
    if routes == [] then []
    else
      var last := routes[|routes| - 1];
      var visible := VisiblePath(last.path, root, aliases);
      Projected(routes[..|routes| - 1], root, aliases) + if visible == [] then [] else [Entry(visible, last.path, last)]
  }

  /** Routes that the hidden root leaves without a path: they become operations of the client itself. */
  function AtRoot(routes: seq<Route>, root: Path): seq<Route> {
    if routes == [] then []
    else
      var last := routes[|routes| - 1];
      AtRoot(routes[..|routes| - 1], root) + if last.path != [] && |last.path| == Hidden(last.path, root) then [last] else []
  }

  /** The aliases that rename one of the first `n` segments of a path. */
  function MatchedBy(path: Path, root: Path, aliases: map<string, string>, n: nat): set<string>
    requires n <= |path| - Hidden(path, root)
  {
    if n == 0 then {}
    else
      var key := FirstAlias(AliasKeys(path, Hidden(path, root), n - 1), aliases);
      MatchedBy(path, root, aliases, n - 1) + if key.Some? then {key.value} else {}
  }

  function Matched(paths: seq<Path>, root: Path, aliases: map<string, string>): set<string> {
    if paths == [] then {}
    else
      var last := paths[|paths| - 1];
      Matched(paths[..|paths| - 1], root, aliases) + MatchedBy(last, root, aliases, |last| - Hidden(last, root))
  }

  function PathsOf(routes: seq<Route>): seq<Path> {
    seq(|routes|, i requires 0 <= i < |routes| => routes[i].path)
  }

  predicate RootExists(api: seq<Tree<Route>>, notifications: seq<Path>, root: Path) {
    root == [] || NodeAt(api, root, 0).Some? || exists i :: 0 <= i < |notifications| && root <= notifications[i]
  }

  /** The names of one path, with the aliases they used. */
  method Rename(path: Path, root: Path, aliases: map<string, string>, matched: set<string>)
    returns (visible: Path, all: set<string>)
    ensures visible == VisiblePath(path, root, aliases)
    ensures all == matched + MatchedBy(path, root, aliases, |path| - Hidden(path, root))
  {
    hide FirstAlias, AliasKeys, Join;
    var hidden := Hidden(path, root);
    visible, all := [], matched;
    for index := 0 to |path| - hidden
      invariant visible == VisiblePath(path, root, aliases)[..index]
      invariant all == matched + MatchedBy(path, root, aliases, index)
    {
      var key := FirstAlias(AliasKeys(path, hidden, index), aliases);
      if key.Some? {
        all := all + {key.value};
        visible := visible + [aliases[key.value]];
      } else {
        visible := visible + [path[hidden + index]];
      }
    }
  }

  /** What the next route adds. */
  lemma NextRoute(routes: seq<Route>, n: nat, root: Path, aliases: map<string, string>)
    requires n < |routes|
    ensures var path := routes[n].path;
      var visible := VisiblePath(path, root, aliases);
      && Projected(routes[..n + 1], root, aliases)
         == Projected(routes[..n], root, aliases) + (if visible == [] then [] else [Entry(visible, path, routes[n])])
      && AtRoot(routes[..n + 1], root)
         == AtRoot(routes[..n], root) + (if path != [] && visible == [] then [routes[n]] else [])
      && Matched(PathsOf(routes)[..n + 1], root, aliases)
         == Matched(PathsOf(routes)[..n], root, aliases) + MatchedBy(path, root, aliases, |path| - Hidden(path, root))
  {
    hide VisiblePath, MatchedBy, AliasKeys, FirstAlias, Join;
    var front, paths := routes[..n + 1], PathsOf(routes)[..n + 1];
    assert front[..|front| - 1] == routes[..n] && front[|front| - 1] == routes[n];
    assert paths[..|paths| - 1] == PathsOf(routes)[..n] && paths[|paths| - 1] == routes[n].path;
    NextMatches(paths, root, aliases);
    hide Matched;
  }

  lemma NextMatches(paths: seq<Path>, root: Path, aliases: map<string, string>)
    requires paths != []
    ensures var last := paths[|paths| - 1];
      Matched(paths, root, aliases)
      == Matched(paths[..|paths| - 1], root, aliases) + MatchedBy(last, root, aliases, |last| - Hidden(last, root))
  {
    hide MatchedBy;
  }

  /** One route goes to the client itself when the root hides all of it, and is projected otherwise. */
  method ProjectOne(route: Route, root: Path, aliases: map<string, string>,
                    atRoot: seq<Route>, projected: seq<Entry<Route>>, matched: set<string>)
    returns (atRoot': seq<Route>, projected': seq<Entry<Route>>, matched': set<string>)
    ensures var path, visible := route.path, VisiblePath(route.path, root, aliases);
      && projected' == projected + (if visible == [] then [] else [Entry(visible, path, route)])
      && atRoot' == atRoot + (if path != [] && visible == [] then [route] else [])
      && matched' == matched + MatchedBy(path, root, aliases, |path| - Hidden(path, root))
  {
    hide VisiblePath, MatchedBy;
    var visible;
    visible, matched' := Rename(route.path, root, aliases, matched);
    atRoot', projected' := atRoot, projected;
    if visible != [] {
      projected' := projected + [Entry(visible, route.path, route)];
    } else if route.path != [] {
      atRoot' := atRoot + [route];
    }
  }

  /** All routes: those without a visible path go to the client itself, the others are projected. */
  method ProjectAll(rootOperations: seq<Route>, operations: seq<Route>, root: Path, aliases: map<string, string>)
    returns (atRoot: seq<Route>, projected: seq<Entry<Route>>, matched: set<string>)
    ensures atRoot == rootOperations + AtRoot(operations, root)
    ensures projected == Projected(operations, root, aliases)
    ensures matched == Matched(PathsOf(operations), root, aliases)
  {
    atRoot, projected, matched := rootOperations, [], {};
    var paths := PathsOf(operations);
    assert rootOperations + [] == rootOperations;
    assert AtRoot(operations[..0], root) == [] && Projected(operations[..0], root, aliases) == [];
    hide VisiblePath, MatchedBy, Projected, AtRoot;
    for n := 0 to |operations|
      invariant projected == Projected(operations[..n], root, aliases)
      invariant atRoot == rootOperations + AtRoot(operations[..n], root)
      invariant matched == Matched(paths[..n], root, aliases)
    {
      NextRoute(operations, n, root, aliases);
      atRoot, projected, matched := ProjectOne(operations[n], root, aliases, atRoot, projected, matched);
    }
    assert operations[..|operations|] == operations && paths[..|paths|] == paths;
  }

  method MatchAll(paths: seq<Path>, root: Path, aliases: map<string, string>, matched: set<string>) returns (all: set<string>)
    ensures all == matched + Matched(paths, root, aliases)
  {
    hide MatchedBy, VisiblePath;
    all := matched;
    for n := 0 to |paths|
      invariant all == matched + Matched(paths[..n], root, aliases)
    {
      assert paths[..n + 1][..n] == paths[..n];
      var _, more := Rename(paths[n], root, aliases, all);
      all := more;
    }
    assert paths[..|paths|] == paths;
  }

  /** The aliases that rename nothing. */
  function Unknown(operations: seq<Route>, notifications: seq<Path>, root: Path, aliases: map<string, string>): set<string> {
    aliases.Keys - (Matched(PathsOf(operations), root, aliases) + Matched(notifications, root, aliases))
  }

  /**
   The view is refused when the root is not in the contract, when an alias renames nothing, or when two contract paths
   would share a visible one; otherwise it is the tree of the renamed paths.
   */
  method BuildView(rootOperations: seq<Route>, operations: seq<Route>, api: seq<Tree<Route>>, notifications: seq<Path>,
                   root: Path, aliases: map<string, string>) returns (result: ViewResult)
    ensures var badRoot := root != [] && ("" in root || !RootExists(api, notifications, root));
      var unknown := Unknown(operations, notifications, root, aliases);
      var entries := Projected(operations, root, aliases);
      && (result == Unsupported(UnknownRoot) <==> badRoot)
      && (!badRoot && unknown != {} ==> result == Unsupported(UnknownAliases(unknown)))
      && (!badRoot && unknown == {} && !Consistent(entries) ==> result == Unsupported(AmbiguousPaths))
      && (!badRoot && unknown == {} && Consistent(entries) ==>
            result == View(rootOperations + AtRoot(operations, root), Build(entries)))
  {
    if root != [] && ("" in root || !RootExists(api, notifications, root)) {
      return Unsupported(UnknownRoot);
    }
    hide Projected, AtRoot, Matched, Consistent, Build;
    var atRoot, projected, matched := ProjectAll(rootOperations, operations, root, aliases);
    matched := MatchAll(notifications, root, aliases, matched);
    var unknown := aliases.Keys - matched;
    if unknown != {} {
      return Unsupported(UnknownAliases(unknown));
    }
    var ok := CheckPaths(projected);
    if !ok {
      return Unsupported(AmbiguousPaths);
    }
    var nodes := FillTree(projected);
    result := View(atRoot, nodes);
  }

  // ----- what a view holds -----

  /** The routes that are visible at `p`, in input order. */
  function RoutesAt(routes: seq<Route>, p: Path, root: Path, aliases: map<string, string>): seq<Route> {
    if routes == [] then []
    else
      var last := routes[|routes| - 1];
      RoutesAt(routes[..|routes| - 1], p, root, aliases) + if VisiblePath(last.path, root, aliases) == p then [last] else []
  }

  lemma {:induction false} ProjectedPlaces(routes: seq<Route>, p: Path, root: Path, aliases: map<string, string>)
    requires p != []
    ensures Placed(Projected(routes, root, aliases), p) == RoutesAt(routes, p, root, aliases)
  {
    if routes != [] {
      var before, last := routes[..|routes| - 1], routes[|routes| - 1];
      ProjectedPlaces(before, p, root, aliases);
      var visible := VisiblePath(last.path, root, aliases);
      var entries := Projected(before, root, aliases);
      if visible != [] {
        assert (entries + [Entry(visible, last.path, last)])[..|entries|] == entries;
      } else {
        assert entries + [] == entries;
      }
    }
  }

  /**
   In an accepted view, each path holds exactly the routes visible there, in input order; and every node at or above a
   route stands for the route's own contract path, cut to the same depth.
   */
  lemma ViewHoldsEveryRoute(routes: seq<Route>, p: Path, root: Path, aliases: map<string, string>)
    requires p != [] && Consistent(Projected(routes, root, aliases))
    ensures ItemsAt(Build(Projected(routes, root, aliases)), p, 0) == RoutesAt(routes, p, root, aliases)
    ensures forall i :: 0 <= i < |routes| && p <= VisiblePath(routes[i].path, root, aliases) ==>
      NodeAt(Build(Projected(routes, root, aliases)), p, 0).Some?
      && NodeAt(Build(Projected(routes, root, aliases)), p, 0).value.source
         == routes[i].path[..Hidden(routes[i].path, root) + |p|]
  {
    BuildLooksUp(Projected(routes, root, aliases), p);
    ProjectedPlaces(routes, p, root, aliases);
    forall i | 0 <= i < |routes| && p <= VisiblePath(routes[i].path, root, aliases)
      ensures NodeAt(Build(Projected(routes, root, aliases)), p, 0).Some?
      ensures NodeAt(Build(Projected(routes, root, aliases)), p, 0).value.source
         == routes[i].path[..Hidden(routes[i].path, root) + |p|]
    {
      SourceOfRoute(routes, i, p, root, aliases);
    }
  }

  lemma SourceOfRoute(routes: seq<Route>, i: nat, p: Path, root: Path, aliases: map<string, string>)
    requires p != [] && Consistent(Projected(routes, root, aliases))
    requires i < |routes| && p <= VisiblePath(routes[i].path, root, aliases)
    ensures var node := NodeAt(Build(Projected(routes, root, aliases)), p, 0);
      node.Some? && node.value.source == routes[i].path[..Hidden(routes[i].path, root) + |p|]
  {
    hide Build, Consistent, VisiblePath;
    var entries := Projected(routes, root, aliases);
    RouteIsProjected(routes, i, root, aliases);
    var entry := Entry(VisiblePath(routes[i].path, root, aliases), routes[i].path, routes[i]);
    var j :| 0 <= j < |entries| && entries[j] == entry;
    SourcesAreRight(entries, p, j);
  }

  lemma {:induction false} RouteIsProjected(routes: seq<Route>, i: nat, root: Path, aliases: map<string, string>)
    requires i < |routes| && VisiblePath(routes[i].path, root, aliases) != []
    ensures Entry(VisiblePath(routes[i].path, root, aliases), routes[i].path, routes[i]) in Projected(routes, root, aliases)
  {
    if i < |routes| - 1 {
      RouteIsProjected(routes[..|routes| - 1], i, root, aliases);
    }
  }

  /**
   An alias for the whole contract prefix decides the name of a segment; otherwise one for the visible prefix does, and
   then one for the segment alone; without any of them the segment keeps its name.
   */
  lemma NamesByPrecedence(path: Path, root: Path, aliases: map<string, string>, i: nat)
    requires i < |path| - Hidden(path, root)
    ensures var hidden := Hidden(path, root);
      var contract, visible, segment := Join(path[..hidden + i + 1]), Join(path[hidden..hidden + i + 1]), path[hidden + i];
      var name := VisiblePath(path, root, aliases)[i];
      && (contract in aliases ==> name == aliases[contract])
      && (contract !in aliases && visible in aliases ==> name == aliases[visible])
      && (contract !in aliases && visible !in aliases && segment in aliases ==> name == aliases[segment])
      && (contract !in aliases && visible !in aliases && segment !in aliases ==> name == segment)
  {
    hide Join;
    var keys := AliasKeys(path, Hidden(path, root), i);
    PrefersFirst(keys, aliases);
    PrefersFirst(keys[1..], aliases);
    PrefersFirst(keys[1..][1..], aliases);
  }

  lemma PrefersFirst(keys: seq<string>, aliases: map<string, string>)
    requires keys != []
    ensures FirstAlias(keys, aliases) == if keys[0] in aliases then Some(keys[0]) else FirstAlias(keys[1..], aliases)
  {
  }

  /** A joined path has its segments in order, with one dot between each two of them. */
  lemma {:induction false} JoinPutsDots(a: Path, b: Path)
    requires a != [] && b != []
    ensures Join(a + b) == Join(a) + "." + Join(b)
    ensures |a| == 1 ==> Join(a) == a[0]
    decreases |b|
  {
    var last := b[|b| - 1];
    if |b| == 1 {
      assert (a + b)[..|a + b| - 1] == a;
    } else {
      var front := b[..|b| - 1];
      assert (a + b)[..|a + b| - 1] == a + front;
      JoinPutsDots(a, front);
    }
  }

  /** An alias is used exactly when it decides the name of a segment. */
  predicate Decides(key: string, path: Path, hidden: nat, aliases: map<string, string>, i: nat)
    requires hidden + i < |path|
  {
    var contract, visible, segment := Join(path[..hidden + i + 1]), Join(path[hidden..hidden + i + 1]), path[hidden + i];
    key in aliases
    && (key == contract
        || (contract !in aliases && key == visible)
        || (contract !in aliases && visible !in aliases && key == segment))
  }

  lemma {:induction false} UsedAliasesDecide(path: Path, root: Path, aliases: map<string, string>, n: nat, key: string)
    requires n <= |path| - Hidden(path, root)
    ensures key in MatchedBy(path, root, aliases, n)
      <==> exists i :: 0 <= i < n && Decides(key, path, Hidden(path, root), aliases, i)
  {
    if n > 0 {
      var hidden := Hidden(path, root);
      UsedAliasesDecide(path, root, aliases, n - 1, key);
      FirstDecides(key, path, hidden, aliases, n - 1);
      hide Decides, Join, AliasKeys, FirstAlias;
      assert Decides(key, path, hidden, aliases, n - 1) ==> exists i :: 0 <= i < n && Decides(key, path, hidden, aliases, i);
    }
  }

  lemma FirstDecides(key: string, path: Path, hidden: nat, aliases: map<string, string>, i: nat)
    requires hidden + i < |path|
    ensures Decides(key, path, hidden, aliases, i) <==> FirstAlias(AliasKeys(path, hidden, i), aliases) == Some(key)
  {
    hide Join;
    var keys := AliasKeys(path, hidden, i);
    PrefersFirst(keys, aliases);
    PrefersFirst(keys[1..], aliases);
    PrefersFirst(keys[1..][1..], aliases);
  }

  /** The operations of the client itself are those whose contract path is the hidden root. */
  lemma {:induction false} AtRootExactly(routes: seq<Route>, root: Path, route: Route)
    ensures route in AtRoot(routes, root) <==> route in routes && root != [] && route.path == root
  {
    if routes != [] {
      var front, last := routes[..|routes| - 1], routes[|routes| - 1];
      AtRootExactly(front, root, route);
      assert routes == front + [last];
      assert last.path != [] && |last.path| == Hidden(last.path, root) <==> root != [] && last.path == root;
    }
  }

  /** A root that leads to the path is hidden, and any other root hides nothing. */
  lemma RootIsHidden(path: Path, root: Path, rest: Path)
    ensures path == root + rest ==> VisiblePath(path, root, map[]) == rest
    ensures !(root <= path) ==> VisiblePath(path, root, map[]) == path
  {
    PlainPathsStay(path, root);
  }

  /** Without aliases, the visible path is the contract path behind the hidden root. */
  lemma PlainPathsStay(path: Path, root: Path)
    ensures VisiblePath(path, root, map[]) == path[Hidden(path, root)..]
  {
  }
}
