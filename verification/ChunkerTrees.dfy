/** From syntax tree to chunks: which definitions of the tree label which characters of the file. */
module ChunkerTrees {
  import opened Options
  import opened Symbols
  import opened SymbolScopes
  import opened SymbolPlaces
  import opened SourceLines
  import opened Chunker
  import opened ChunkerLabels

  // ---- The labels, defined on the tree alone

  /** The lines of a name's node, and whether they are to be labelled with the name. */
  datatype Mark = Mark(first: nat, last: nat, labelled: bool)

  /** The marks of the names that a node binds itself. `inside` says whether a function encloses the
      node, `holder` whether the innermost enclosing definition is a class. A function is labelled
      where no function encloses it, a class where, moreover, no definition lies directly in it. */
  function OwnMarks(t: Tree, holder: Option<bool>, inside: bool): seq<Mark> {
    match t.shape
    case Define(isClass, _, _) => [Mark(FirstLine(t), t.end, !inside && (!isClass || TopsAll(t.children) == []))]
    case Imports(names) => seq(|names|, i => Mark(t.start, t.end, false))
    case Assigns(targets) => if holder == Some(false) then [] else seq(|targets|, i => Mark(t.start, t.end, false))
    case Other => []
  }

  /** The marks of a tree's names in source order. */
  function Marks(t: Tree, holder: Option<bool>, inside: bool): seq<Mark> {
    OwnMarks(t, holder, inside)
    + (if t.shape.Define? then MarksAll(t.children, Some(t.shape.isClass), inside || !t.shape.isClass)
       else MarksAll(t.children, holder, inside))
  }

  function MarksAll(ts: seq<Tree>, holder: Option<bool>, inside: bool): seq<Mark> {
    if ts == [] then [] else Marks(ts[0], holder, inside) + MarksAll(ts[1..], holder, inside)
  }

  /** A definition starts at the first of its own line and those of its decorators. */
  lemma FirstLineIsFirst(t: Tree)
    requires t.shape.Define?
    ensures FirstLine(t) <= t.start && (forall d | d in t.shape.decorators :: FirstLine(t) <= d)
    ensures FirstLine(t) == t.start || FirstLine(t) in t.shape.decorators
  {
    LeastIsLeast(t.start, t.shape.decorators);
  }

  lemma {:induction false} LeastIsLeast(x: nat, xs: seq<nat>)
    ensures Least(x, xs) <= x && (forall y | y in xs :: Least(x, xs) <= y) && (Least(x, xs) == x || Least(x, xs) in xs)
  {
    if xs != [] {
      LeastIsLeast(if xs[0] < x then xs[0] else x, xs[1..]);
      assert xs == [xs[0]] + xs[1..];
    }
  }

  // ---- The symbol list carries the marks

  ghost predicate Marked(symbols: seq<Symbol>, i: nat, m: Mark)
    requires i < |symbols|
  {
    symbols[i].start == m.first && symbols[i].end == m.last && (Labelled(symbols, i) <==> m.labelled)
  }

  /** A definition listed from `from` on belongs directly to `parent`. */
  ghost predicate Direct(all: seq<Symbol>, from: nat, parent: Option<nat>) {
    exists k | from <= k < |all| :: all[k].kind.Definition() && all[k].parent == parent
  }

  /** What a listing adds behind `from`, in terms of marks. */
  ghost predicate Describes(all: seq<Symbol>, from: nat, parent: Option<nat>, marks: seq<Mark>, direct: bool) {
    && |all| == from + |marks| && Enclosed(all, from, parent) && (Direct(all, from, parent) <==> direct)
    && forall k | 0 <= k < |marks| :: Marked(all, from + k, marks[k])
  }

  lemma {:induction false} InsideStays(some: seq<Symbol>, all: seq<Symbol>, i: nat)
    requires some <= all && i < |some|
    ensures InsideFunction(all, i) <==> InsideFunction(some, i)
    decreases i
  {
    if some[i].parent.Some? && some[i].parent.value < i { InsideStays(some, all, some[i].parent.value); }
  }

  /** Later symbols that belong elsewhere do not change a mark. */
  lemma MarkStays(some: seq<Symbol>, all: seq<Symbol>, i: nat, m: Mark)
    requires some <= all && i < |some| && Marked(some, i, m) && forall k | |some| <= k < |all| :: all[k].parent != Some(i)
    ensures Marked(all, i, m)
  {
    InsideStays(some, all, i);
    if HoldsSome(some, i) {
      var k :| 0 <= k < |some| && some[k].parent == Some(i) && (some[k].kind.Class? || some[k].kind.Method?);
      assert all[k] == some[k];
    }
    hide InsideFunction;
  }

  lemma DescribesBoth(some: seq<Symbol>, all: seq<Symbol>, from: nat, parent: Option<nat>, m1: seq<Mark>, d1: bool, m2: seq<Mark>, d2: bool)
    requires some <= all && Older(parent, from) && Describes(some, from, parent, m1, d1) && Describes(all, |some|, parent, m2, d2)
    ensures Describes(all, from, parent, m1 + m2, d1 || d2)
  {
    forall k | 0 <= k < |m1 + m2| ensures Marked(all, from + k, (m1 + m2)[k]) {
      if k < |m1| {
        MarkStays(some, all, from + k, m1[k]);
      } else {
        assert Marked(all, |some| + (k - |m1|), m2[k - |m1|]);
      }
    }
    hide Marked;
    if d1 {
      var k :| from <= k < |some| && some[k].kind.Definition() && some[k].parent == parent;
      assert all[k] == some[k];
    }
    if Direct(all, from, parent) {
      var k :| from <= k < |all| && all[k].kind.Definition() && all[k].parent == parent;
      if k < |some| { assert some[k] == all[k]; }
    }
  }

  /** What encloses a scope. */
  ghost predicate Encloses(symbols: seq<Symbol>, parent: Option<nat>, holder: Option<bool>, inside: bool)
    requires ScopeOk(symbols, parent)
  {
    && holder == (if parent.Some? then Some(symbols[parent.value].kind == Class) else None)
    && (inside <==> parent.Some? && (symbols[parent.value].kind.Function? || symbols[parent.value].kind.Method? || InsideFunction(symbols, parent.value)))
  }

  /** A class holds a definition exactly if one is listed directly in it. */
  lemma HoldsDirect(all: seq<Symbol>, n: nat)
    requires ListOk(all) && n < |all| && all[n].kind == Class
    ensures HoldsSome(all, n) <==> Direct(all, n + 1, Some(n))
  {
    forall k | 0 <= k < |all| && all[k].parent == Some(n) ensures n < k && all[k].kind != Function { assert SymbolOk(all, k); }
  }

  /** The mark of a definition, once everything in it is listed. */
  lemma DefinitionMarked(all: seq<Symbol>, n: nat, parent: Option<nat>, isClass: bool, holder: Option<bool>, inside: bool, direct: bool)
    requires ListOk(all) && n < |all| && all[n].kind.Definition() && (all[n].kind == Class <==> isClass)
    requires all[n].parent == parent && ScopeOk(all, parent) && Older(parent, n) && Encloses(all, parent, holder, inside)
    requires Direct(all, n + 1, Some(n)) <==> direct
    ensures Labelled(all, n) <==> !inside && (!isClass || !direct)
  {
    if isClass { HoldsDirect(all, n); }
    hide HoldsSome, Direct;
  }

  lemma EnclosesStays(some: seq<Symbol>, all: seq<Symbol>, parent: Option<nat>, holder: Option<bool>, inside: bool)
    requires some <= all && ScopeOk(some, parent) && Encloses(some, parent, holder, inside)
    ensures ScopeOk(all, parent) && Encloses(all, parent, holder, inside)
  {
    if parent.Some? { InsideStays(some, all, parent.value); }
    hide InsideFunction;
  }

  /** A definition followed by what is inside it. */
  lemma DescribesInside(all: seq<Symbol>, n: nat, parent: Option<nat>, marks: seq<Mark>, direct: bool, m: Mark)
    requires n < |all| && Older(parent, n) && all[n].parent == parent && all[n].kind.Definition()
    requires Describes(all, n + 1, Some(n), marks, direct) && Marked(all, n, m)
    ensures Describes(all, n, parent, [m] + marks, true)
  {
    forall k | 0 <= k < |marks| + 1 ensures Marked(all, n + k, ([m] + marks)[k]) {
      if k > 0 { assert Marked(all, n + 1 + (k - 1), marks[k - 1]); }
    }
    hide Marked;
  }

  /** A node that is no definition: its names are never labelled. */
  lemma NamesDescribed(t: Tree, parent: Option<nat>, symbols: seq<Symbol>, holder: Option<bool>, inside: bool)
    requires !t.shape.Define? && ScopeOk(symbols, parent) && Encloses(symbols, parent, holder, inside)
    ensures Describes(symbols + Added(t, symbols, parent), |symbols|, parent, OwnMarks(t, holder, inside), false)
  {
    var added := Added(t, symbols, parent);
    var grown := symbols + added;
    forall k | 0 <= k < |added| ensures grown[|symbols| + k] == added[k] && !added[k].kind.Definition() && added[k].parent == parent {}
    hide InsideFunction;
  }

  /** What a definition adds is one symbol of its kind, on its lines. */
  lemma DefinitionAdded(t: Tree, parent: Option<nat>, symbols: seq<Symbol>, all: seq<Symbol>)
    requires t.shape.Define? && symbols + Added(t, symbols, parent) <= all
    ensures var n := |symbols|;
            && |Added(t, symbols, parent)| == 1 && n < |all| && all[n] == Added(t, symbols, parent)[0]
            && all[n].kind.Definition() && (all[n].kind == Class <==> t.shape.isClass) && all[n].parent == parent
            && all[n].start == FirstLine(t) && all[n].end == t.end
  {
    assert all[|symbols|] == (symbols + Added(t, symbols, parent))[|symbols|];
    hide FirstLine, Prefix;
  }

  lemma DefinitionDescribed(t: Tree, parent: Option<nat>, symbols: seq<Symbol>, all: seq<Symbol>, holder: Option<bool>, inside: bool, marks: seq<Mark>)
    requires t.shape.Define? && symbols + Added(t, symbols, parent) <= all && ListOk(all) && ScopeOk(symbols, parent) && ScopeOk(all, parent)
    requires Encloses(all, parent, holder, inside) && Describes(all, |symbols| + 1, Some(|symbols|), marks, TopsAll(t.children) != [])
    ensures Describes(all, |symbols|, parent, OwnMarks(t, holder, inside) + marks, true)
  {
    var n := |symbols|;
    ParentIsOlder(symbols, parent);
    DefinitionAdded(t, parent, symbols, all);
    hide Describes, Direct, Added, ListOk, Encloses, Labelled, ScopeOk, FirstLine;
    DescribedDirect(all, n + 1, Some(n), marks, TopsAll(t.children) != []);
    DefinitionMarked(all, n, parent, t.shape.isClass, holder, inside, TopsAll(t.children) != []);
    DescribesInside(all, n, parent, marks, TopsAll(t.children) != [], OwnMarks(t, holder, inside)[0]);
  }

  lemma ScopeDescribed(t: Tree, parent: Option<nat>, symbols: seq<Symbol>, holder: Option<bool>, inside: bool)
    requires t.shape.Define? && ListOk(symbols) && ScopeOk(symbols, parent) && Encloses(symbols, parent, holder, inside)
    ensures var grown := symbols + Added(t, symbols, parent);
            |grown| == |symbols| + 1 && ScopeOk(grown, Some(|symbols|)) && Encloses(grown, Some(|symbols|), Some(t.shape.isClass), inside || !t.shape.isClass)
  {
    var grown := symbols + Added(t, symbols, parent);
    ParentIsOlder(symbols, parent);
    EnclosesStays(symbols, grown, parent, holder, inside);
    DefinitionAdded(t, parent, symbols, grown);
    hide Encloses, Added;
    ScopeEnclosed(grown, |symbols|, parent, t.shape.isClass, holder, inside);
  }

  lemma {:induction false} ListingDescribed(t: Tree, parent: Option<nat>, symbols: seq<Symbol>, holder: Option<bool>, inside: bool)
    requires ListOk(symbols) && ScopeOk(symbols, parent) && Encloses(symbols, parent, holder, inside)
    ensures Describes(Listing(t, parent, symbols), |symbols|, parent, Marks(t, holder, inside), Tops(t) != [])
    decreases t
  {
    var grown, scope := symbols + Added(t, symbols, parent), Scope(t, symbols, parent);
    var holding, within := if t.shape.Define? then Some(t.shape.isClass) else holder, inside || (t.shape.Define? && !t.shape.isClass);
    NodeFacts(t, parent, symbols, holder, inside);
    hide Describes, Added, ListOk, Encloses, OwnMarks, ScopeOk;
    ListingAllDescribed(t.children, scope, grown, holding, within);
    if t.shape.Define? {
      DefinitionDescribed(t, parent, symbols, Listing(t, parent, symbols), holder, inside, MarksAll(t.children, holding, within));
    } else {
      DescribesBoth(grown, Listing(t, parent, symbols), |symbols|, parent, OwnMarks(t, holder, inside), false, MarksAll(t.children, holder, inside),
                    TopsAll(t.children) != []);
    }
  }

  /** The scope of a node's children, and what the node itself adds. */
  lemma NodeFacts(t: Tree, parent: Option<nat>, symbols: seq<Symbol>, holder: Option<bool>, inside: bool)
    requires ListOk(symbols) && ScopeOk(symbols, parent) && Encloses(symbols, parent, holder, inside)
    ensures var grown, scope, all := symbols + Added(t, symbols, parent), Scope(t, symbols, parent), Listing(t, parent, symbols);
            && ListOk(grown) && ListOk(all) && ScopeOk(grown, scope) && ScopeOk(all, parent) && Encloses(all, parent, holder, inside) && Older(parent, |symbols|)
            && Encloses(grown, scope, if t.shape.Define? then Some(t.shape.isClass) else holder, inside || (t.shape.Define? && !t.shape.isClass))
            && (t.shape.Define? ==> |grown| == |symbols| + 1)
            && (!t.shape.Define? ==> Describes(grown, |symbols|, parent, OwnMarks(t, holder, inside), false))
  {
    AddedOk(t, parent, symbols);
    ListingOk(t, parent, symbols);
    ParentIsOlder(symbols, parent);
    EnclosesStays(symbols, symbols + Added(t, symbols, parent), parent, holder, inside);
    EnclosesStays(symbols, Listing(t, parent, symbols), parent, holder, inside);
    hide Describes, Added, ListOk, Encloses, OwnMarks, Listing;
    if t.shape.Define? { ScopeDescribed(t, parent, symbols, holder, inside); } else { NamesDescribed(t, parent, symbols, holder, inside); }
  }

  lemma DescribedDirect(all: seq<Symbol>, from: nat, parent: Option<nat>, marks: seq<Mark>, direct: bool)
    requires Describes(all, from, parent, marks, direct)
    ensures Direct(all, from, parent) <==> direct
  {
  }

  /** The scope that a definition opens. */
  lemma ScopeEnclosed(grown: seq<Symbol>, n: nat, parent: Option<nat>, isClass: bool, holder: Option<bool>, inside: bool)
    requires n < |grown| && grown[n].kind.Definition() && (grown[n].kind == Class <==> isClass) && grown[n].parent == parent && Older(parent, n)
    requires ScopeOk(grown, parent) && Encloses(grown, parent, holder, inside)
    ensures Encloses(grown, Some(n), Some(isClass), inside || !isClass)
  {
  }

  lemma {:induction false} ListingAllDescribed(ts: seq<Tree>, parent: Option<nat>, symbols: seq<Symbol>, holder: Option<bool>, inside: bool)
    requires ListOk(symbols) && ScopeOk(symbols, parent) && Encloses(symbols, parent, holder, inside)
    ensures Describes(ListingAll(ts, parent, symbols), |symbols|, parent, MarksAll(ts, holder, inside), TopsAll(ts) != [])
    decreases ts
  {
    if ts != [] {
      var first, all := Listing(ts[0], parent, symbols), ListingAll(ts, parent, symbols);
      ListingDescribed(ts[0], parent, symbols, holder, inside);
      ListingOk(ts[0], parent, symbols);
      EnclosesStays(symbols, first, parent, holder, inside);
      ListingAllDescribed(ts[1..], parent, first, holder, inside);
      hide Describes, ListOk, Encloses, ScopeOk;
      assert Older(parent, |symbols|) by { ParentIsOlder(symbols, parent); }
      DescribesBoth(first, all, |symbols|, parent, Marks(ts[0], holder, inside), Tops(ts[0]) != [], MarksAll(ts[1..], holder, inside), TopsAll(ts[1..]) != []);
    }
  }

  lemma ParentIsOlder(symbols: seq<Symbol>, parent: Option<nat>)
    requires ScopeOk(symbols, parent)
    ensures Older(parent, |symbols|)
  {
  }

  /** The k-th symbol of a file has the lines of the k-th name of its tree, and is to be labelled
      exactly where the tree says so. */
  lemma SymbolsAreMarked(tree: Tree)
    ensures var symbols, marks := Listing(tree, None, []), Marks(tree, None, false);
            |symbols| == |marks| && forall k | 0 <= k < |symbols| :: Marked(symbols, k, marks[k])
  {
    ListingDescribed(tree, None, [], None, false);
    var symbols, marks := Listing(tree, None, []), Marks(tree, None, false);
    forall k | 0 <= k < |symbols| ensures Marked(symbols, k, marks[k]) { assert Marked(symbols, 0 + k, marks[k]); }
  }

  // ---- Results

  /** From syntax tree to chunks: when the definitions of every scope are on separate lines of their
      own scope, every character on the lines of an outermost function, or of a class outside functions
      that holds no definition, is in a chunk labelled with it. */
  lemma ParsedDefinitionsAreLabelled(content: string, tree: Tree, mode: string, limit: nat, i: nat, pos: nat)
    requires Placed(tree) && Apart(Tops(tree)) && SymbolsFit(Listing(tree, None, []), |Starts(content)|) && 4 <= limit
    requires i < |Marks(tree, None, false)| && Marks(tree, None, false)[i].labelled && pos < |content|
    requires Marks(tree, None, false)[i].first <= LineOf(content, pos) <= Marks(tree, None, false)[i].last
    ensures exists k :: 0 <= k < |ChunksOf(content, Listing(tree, None, []), mode, limit)|
              && ChunksOf(content, Listing(tree, None, []), mode, limit)[k].symbol == Some(i)
              && ChunksOf(content, Listing(tree, None, []), mode, limit)[k].start <= pos < ChunksOf(content, Listing(tree, None, []), mode, limit)[k].end
  {
    SymbolsAreMarked(tree);
    assert Marked(Listing(tree, None, []), i, Marks(tree, None, false)[i]);
    ListingOk(tree, None, []);
    ListingKeepsPlaces(tree);
    hide Listing, ListOk, Nested, SiblingsApart, SymbolsFit, Labelled, ChunksOf, Starts, Marks;
    DefinitionsAreLabelled(content, Listing(tree, None, []), mode, limit, i, pos);
  }

  /** And the other way round, for any tree: a chunk with a label lies on the lines of an outermost
      function, or of a class outside functions that holds no definition. */
  lemma ParsedLabelsAreTrue(content: string, tree: Tree, mode: string, limit: nat, k: nat)
    requires SymbolsFit(Listing(tree, None, []), |Starts(content)|) && 4 <= limit
    requires k < |ChunksOf(content, Listing(tree, None, []), mode, limit)| && ChunksOf(content, Listing(tree, None, []), mode, limit)[k].symbol.Some?
    ensures var c := ChunksOf(content, Listing(tree, None, []), mode, limit)[k];
            && c.symbol.value < |Marks(tree, None, false)|
            && var m := Marks(tree, None, false)[c.symbol.value]; m.labelled && m.first <= c.startLine <= c.endLine <= m.last
  {
    SymbolsAreMarked(tree);
    hide Listing, SymbolsFit, Labelled, ChunksOf, Starts, Marks;
    LabelsAreTrue(content, Listing(tree, None, []), mode, limit, k);
  }
}
