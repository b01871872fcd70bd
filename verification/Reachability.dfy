/** Which declarations a generated client keeps: those its own API surface reaches, by a work list over names. */
module Reachability {
  type Name = string

  datatype TypeExpr =
    | Primitive
    | Literal
    | EnumLiteral(enum: Name)
    | Named(name: Name)
    | ListOf(item: TypeExpr)
    | MapOf(value: TypeExpr)
    | UnionOf(members: seq<TypeExpr>)

  datatype Declaration = ModelDecl(name: Name, fields: seq<TypeExpr>) | AliasDecl(name: Name, target: TypeExpr) | EnumDecl(name: Name)

  /** The declarations a type expression depends on. */
  function NamedTypes(e: TypeExpr): set<Name> {
    match e
    case EnumLiteral(enum) => {enum}
    case Named(name) => {name}
    case ListOf(item) => NamedTypes(item)
    case MapOf(value) => NamedTypes(value)
    case UnionOf(members) => set m, n | m in members && n in NamedTypes(m) :: n
    case _ => {}
  }

  /** The expressions a type expression is made of, one level down. */
  ghost predicate PartOf(part: TypeExpr, e: TypeExpr) {
    match e
    case ListOf(item) => part == item
    case MapOf(value) => part == value
    case UnionOf(members) => part in members
    case _ => false
  }

  /** A way down from `e`, each step into a part, that ends at an expression that is the name `n`. */
  ghost predicate LeadsTo(path: seq<TypeExpr>, e: TypeExpr, n: Name) {
    && path != [] && path[0] == e
    && (forall i :: 0 <= i < |path| - 1 ==> PartOf(path[i + 1], path[i]))
    && (path[|path| - 1] == Named(n) || path[|path| - 1] == EnumLiteral(n))
  }

  /** The named types are the names that occur in the expression, at any depth. */
  lemma {:induction false} NamedTypesOccur(e: TypeExpr, n: Name)
    ensures n in NamedTypes(e) <==> exists path :: LeadsTo(path, e, n)
    decreases e
  {
    if n in NamedTypes(e) {
      NameIsReached(e, n);
    }
    if exists path :: LeadsTo(path, e, n) {
      var path :| LeadsTo(path, e, n);
      ReachedIsNamed(path, e, n);
    }
  }

  lemma {:induction false} NameIsReached(e: TypeExpr, n: Name)
    requires n in NamedTypes(e)
    ensures exists path :: LeadsTo(path, e, n)
    decreases e
  {
    match e
    case EnumLiteral(_) => assert LeadsTo([e], e, n);
    case Named(_) => assert LeadsTo([e], e, n);
    case ListOf(item) =>
      NameIsReached(item, n);
      PathGrows(e, item, n);
    case MapOf(value) =>
      NameIsReached(value, n);
      PathGrows(e, value, n);
    case UnionOf(members) =>
      var m :| m in members && n in NamedTypes(m);
      NameIsReached(m, n);
      PathGrows(e, m, n);
    case _ =>
  }

  lemma PathGrows(e: TypeExpr, part: TypeExpr, n: Name)
    requires PartOf(part, e) && exists path :: LeadsTo(path, part, n)
    ensures exists path :: LeadsTo(path, e, n)
  {
    var path :| LeadsTo(path, part, n);
    assert LeadsTo([e] + path, e, n);
  }

  lemma {:induction false} ReachedIsNamed(path: seq<TypeExpr>, e: TypeExpr, n: Name)
    requires LeadsTo(path, e, n)
    ensures n in NamedTypes(e)
    decreases |path|
  {
    if |path| > 1 {
      assert LeadsTo(path[1..], path[1], n);
      ReachedIsNamed(path[1..], path[1], n);
      assert PartOf(path[1], e);
    }
  }

  /** A declaration depends on the names that occur in its fields, or in its target. */
  lemma DependenciesOccur(d: Declaration, n: Name)
    ensures n in Dependencies(d) <==>
      match d
      case ModelDecl(_, fields) => exists f, path :: f in fields && LeadsTo(path, f, n)
      case AliasDecl(_, target) => exists path :: LeadsTo(path, target, n)
      case EnumDecl(_) => false
  {
    if d.ModelDecl? {
      forall f | f in d.fields ensures n in NamedTypes(f) <==> exists path :: LeadsTo(path, f, n) {
        NamedTypesOccur(f, n);
      }
    } else if d.AliasDecl? {
      NamedTypesOccur(d.target, n);
    }
  }

  function Dependencies(d: Declaration): set<Name> {
    match d
    case ModelDecl(_, fields) => set f, n | f in fields && n in NamedTypes(f) :: n
    case AliasDecl(_, target) => NamedTypes(target)
    case EnumDecl(_) => {}
  }

  /** A dictionary by name: of several declarations with one name the last counts. */
  function ByName(declarations: seq<Declaration>): (byName: map<Name, Declaration>)
    ensures forall d :: d in declarations ==> d.name in byName
    ensures forall n :: n in byName ==> byName[n] in declarations && byName[n].name == n
  {
    if declarations == [] then map[]
    else ByName(declarations[..|declarations| - 1])[declarations[|declarations| - 1].name := declarations[|declarations| - 1]]
  }

  /** The known dependencies of a known name. */
  function Successors(byName: map<Name, Declaration>, n: Name): set<Name>
    requires n in byName
  {
    set d | d in Dependencies(byName[n]) && d in byName
  }

  /** A set of known names with all known roots, closed under dependencies. */
  ghost predicate Closed(byName: map<Name, Declaration>, roots: set<Name>, names: set<Name>) {
    && (forall n :: n in roots && n in byName ==> n in names)
    && (forall n :: n in names && n in byName ==> Successors(byName, n) <= names)
  }

  ghost predicate LeastClosed(byName: map<Name, Declaration>, roots: set<Name>, names: set<Name>) {
    Closed(byName, roots, names) && names <= byName.Keys
    && forall other :: Closed(byName, roots, other) ==> names <= other
  }

  function Keep(declarations: seq<Declaration>, names: set<Name>): seq<Declaration> {
    if declarations == [] then []
    else
      var last := declarations[|declarations| - 1];
      Keep(declarations[..|declarations| - 1], names) + if last.name in names then [last] else []
  }

  /** Appends the elements of a set, in any order. */
  method Extend(pending: seq<Name>, names: set<Name>) returns (extended: seq<Name>)
    ensures forall n :: n in extended <==> n in pending || n in names
  {
    extended := pending;
    var todo := names;
    while todo != {}
      invariant todo <= names
      invariant forall n :: n in extended <==> n in pending || n in names - todo
      decreases |todo|
    {
      var n :| n in todo;
      extended := extended + [n];
      todo := todo - {n};
    }
  }

  function NameSet(names: seq<Name>): set<Name> {
    set n | n in names
  }

  lemma LastApart(pending: seq<Name>)
    requires pending != []
    ensures NameSet(pending) == NameSet(pending[..|pending| - 1]) + {pending[|pending| - 1]}
  {
    assert pending == pending[..|pending| - 1] + [pending[|pending| - 1]];
  }

  method KeepDeclarations(declarations: seq<Declaration>, names: set<Name>) returns (kept: seq<Declaration>)
    ensures kept == Keep(declarations, names)
  {
    kept := [];
    for i := 0 to |declarations|
      invariant kept == Keep(declarations[..i], names)
    {
      assert declarations[..i + 1][..i] == declarations[..i];
      if declarations[i].name in names {
        kept := kept + [declarations[i]];
      }
    }
    assert declarations[..|declarations|] == declarations;
  }

  /** Everything kept or waiting must be kept, and what the kept names need is kept or waiting. */
  ghost predicate Working(byName: map<Name, Declaration>, roots: set<Name>, keep: set<Name>, waiting: set<Name>) {
    && keep <= byName.Keys && waiting <= byName.Keys
    && (forall n :: n in roots && n in byName ==> n in keep + waiting)
    && (forall n :: n in keep && n in byName ==> Successors(byName, n) <= keep + waiting)
    && (forall other :: Closed(byName, roots, other) ==> keep + waiting <= other)
  }

  lemma Begins(byName: map<Name, Declaration>, roots: set<Name>, waiting: set<Name>)
    requires waiting == set n | n in roots && n in byName
    ensures Working(byName, roots, {}, waiting)
  {
  }

  lemma WaitingIsKnown(byName: map<Name, Declaration>, roots: set<Name>, keep: set<Name>, waiting: set<Name>)
    requires Working(byName, roots, keep, waiting)
    ensures waiting <= byName.Keys
  {
  }

  lemma Skips(byName: map<Name, Declaration>, roots: set<Name>, keep: set<Name>, waiting: set<Name>, rest: set<Name>, name: Name)
    requires Working(byName, roots, keep, waiting) && waiting == rest + {name} && name in keep
    ensures Working(byName, roots, keep, rest)
  {
    assert keep + rest == keep + waiting;
  }

  lemma Visits(byName: map<Name, Declaration>, roots: set<Name>, keep: set<Name>, waiting: set<Name>, rest: set<Name>, name: Name)
    requires Working(byName, roots, keep, waiting) && waiting == rest + {name} && name !in keep
    ensures Working(byName, roots, keep + {name}, rest + (Successors(byName, name) - (keep + {name})))
    ensures |byName.Keys - (keep + {name})| < |byName.Keys - keep|
  {
    var kept := keep + {name};
    var next := rest + (Successors(byName, name) - kept);
    assert kept + next == keep + waiting + Successors(byName, name);
    assert name in byName.Keys - keep;
    SmallerSet(byName.Keys - kept, byName.Keys - keep);
  }

  lemma Finishes(byName: map<Name, Declaration>, roots: set<Name>, keep: set<Name>)
    requires Working(byName, roots, keep, {})
    ensures LeastClosed(byName, roots, keep)
  {
    assert keep + {} == keep;
  }

  /**
   The work list: keeps, in declaration order, exactly the declarations whose names are in the least set that has the
   known roots and is closed under dependencies. Those are the declarations that a chain of dependencies reaches.
   */
  method Reachable(declarations: seq<Declaration>, roots: set<Name>) returns (kept: seq<Declaration>)
    ensures exists names :: LeastClosed(ByName(declarations), roots, names) && kept == Keep(declarations, names)
    ensures forall d :: d in kept <==> d in declarations && Reached(ByName(declarations), roots, d.name)
  {
    var keep := ReachableNames(ByName(declarations), roots);
    kept := KeepDeclarations(declarations, keep);
    KeptIsReached(declarations, roots, keep);
  }

  lemma KeptIsReached(declarations: seq<Declaration>, roots: set<Name>, names: set<Name>)
    requires LeastClosed(ByName(declarations), roots, names)
    ensures forall d :: d in Keep(declarations, names) <==> d in declarations && Reached(ByName(declarations), roots, d.name)
  {
    hide Keep, LeastClosed, Reached;
    forall d ensures d in Keep(declarations, names) <==> d in declarations && Reached(ByName(declarations), roots, d.name) {
      KeepsByName(declarations, names, d);
      LeastClosedIsReached(ByName(declarations), roots, names, d.name);
    }
  }

  /** The loop of the work list over the names. */
  method ReachableNames(byName: map<Name, Declaration>, roots: set<Name>) returns (keep: set<Name>)
    ensures LeastClosed(byName, roots, keep)
  {
    hide Working, LeastClosed, Successors;
    keep := {};
    var pending := Extend([], set n | n in roots && n in byName);
    ghost var waiting := NameSet(pending);
    Begins(byName, roots, waiting);
    while pending != []
      invariant waiting == NameSet(pending)
      invariant Working(byName, roots, keep, waiting)
      decreases |byName.Keys - keep|, |pending|
    {
      var name := pending[|pending| - 1];
      WaitingIsKnown(byName, roots, keep, waiting);
      var rest := pending[..|pending| - 1];
      ghost var others := NameSet(rest);
      assert waiting == others + {name} by { LastApart(pending); }
      if name in keep {
        Skips(byName, roots, keep, waiting, others, name);
        pending, waiting := rest, others;
      } else {
        Visits(byName, roots, keep, waiting, others, name);
        assert name in waiting;
        keep := keep + {name};
        var found := Successors(byName, name) - keep;
        pending := Extend(rest, found);
        waiting := others + found;
      }
    }
    assert waiting == {};
    Finishes(byName, roots, keep);
  }

  lemma SmallerSet<T>(a: set<T>, b: set<T>)
    requires a < b
    ensures |a| < |b|
  {
    assert b == a + (b - a);
    assert |b| == |a| + |b - a|;
  }

  // ----- what the least closed set is -----

  /** A chain of known names from a root, each a dependency of the one before. */
  ghost predicate Chain(byName: map<Name, Declaration>, roots: set<Name>, chain: seq<Name>) {
    && chain != [] && chain[0] in roots
    && (forall i :: 0 <= i < |chain| ==> chain[i] in byName)
    && (forall i :: 0 < i < |chain| ==> chain[i] in Successors(byName, chain[i - 1]))
  }

  ghost predicate Reached(byName: map<Name, Declaration>, roots: set<Name>, n: Name) {
    exists chain :: Chain(byName, roots, chain) && chain[|chain| - 1] == n
  }

  lemma {:induction false} ChainsStayInside(byName: map<Name, Declaration>, roots: set<Name>, names: set<Name>, chain: seq<Name>)
    requires Closed(byName, roots, names) && Chain(byName, roots, chain)
    ensures chain[|chain| - 1] in names
  {
    if |chain| > 1 {
      ChainsStayInside(byName, roots, names, chain[..|chain| - 1]);
    }
  }

  lemma ChainsGrow(byName: map<Name, Declaration>, roots: set<Name>, n: Name, d: Name)
    requires Reached(byName, roots, n) && n in byName && d in Successors(byName, n)
    ensures Reached(byName, roots, d)
  {
    var chain :| Chain(byName, roots, chain) && chain[|chain| - 1] == n;
    var longer := chain + [d];
    assert Chain(byName, roots, longer) && longer[|longer| - 1] == d;
  }

  /** The names kept are exactly those that a chain of dependencies from a root reaches. */
  lemma LeastClosedIsReached(byName: map<Name, Declaration>, roots: set<Name>, names: set<Name>, n: Name)
    requires LeastClosed(byName, roots, names)
    ensures n in names <==> Reached(byName, roots, n)
  {
    if Reached(byName, roots, n) {
      var chain :| Chain(byName, roots, chain) && chain[|chain| - 1] == n;
      ChainsStayInside(byName, roots, names, chain);
    } else {
      ReachedIsClosed(byName, roots, names);
    }
  }

  lemma ReachedIsClosed(byName: map<Name, Declaration>, roots: set<Name>, names: set<Name>)
    requires LeastClosed(byName, roots, names)
    ensures forall n :: n in names ==> Reached(byName, roots, n)
  {
    var reached := set n | n in byName && Reached(byName, roots, n);
    forall n | n in roots && n in byName ensures n in reached {
      assert Chain(byName, roots, [n]) && [n][|[n]| - 1] == n;
    }
    forall n, d | n in reached && d in Successors(byName, n) ensures d in reached {
      ChainsGrow(byName, roots, n, d);
    }
    assert Closed(byName, roots, reached);
  }

  // ----- what is kept of the declarations -----

  lemma {:induction false} KeepsByName(declarations: seq<Declaration>, names: set<Name>, d: Declaration)
    ensures d in Keep(declarations, names) <==> d in declarations && d.name in names
  {
    if declarations != [] {
      var before, last := declarations[..|declarations| - 1], declarations[|declarations| - 1];
      KeepsByName(before, names, d);
      assert d in declarations <==> d in before || d == last;
    }
  }

  ghost predicate DistinctNames(declarations: seq<Declaration>) {
    forall i, j :: 0 <= i < j < |declarations| ==> declarations[i].name != declarations[j].name
  }

  lemma {:induction false} DistinctNamesAreTheirOwn(declarations: seq<Declaration>, d: Declaration)
    requires DistinctNames(declarations) && d in declarations
    ensures ByName(declarations)[d.name] == d
  {
    var before, last := declarations[..|declarations| - 1], declarations[|declarations| - 1];
    if d != last {
      DistinctNamesAreTheirOwn(before, d);
    }
  }

  /**
   When names are distinct, no kept declaration refers to a declaration that was dropped: each of its dependencies is
   kept as well, or was never declared.
   */
  lemma NothingIsMissing(declarations: seq<Declaration>, roots: set<Name>, names: set<Name>, d: Declaration, dependency: Declaration)
    requires DistinctNames(declarations) && LeastClosed(ByName(declarations), roots, names)
    requires d in Keep(declarations, names) && dependency in declarations && dependency.name in Dependencies(d)
    ensures dependency in Keep(declarations, names)
  {
    KeepsByName(declarations, names, d);
    KeepsByName(declarations, names, dependency);
    DistinctNamesAreTheirOwn(declarations, d);
    assert dependency.name in Successors(ByName(declarations), d.name);
  }
}
