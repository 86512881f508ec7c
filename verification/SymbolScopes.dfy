/** What the walker's symbol list means: when it falls back, and that parents, qualified names
    and kinds are the lexical scopes of the syntax tree. */
module SymbolScopes {
  import opened Options
  import opened Sequences
  import opened Symbols

  /** The symbol list without any limit. */
  function Listing(t: Tree, parent: Option<nat>, symbols: seq<Symbol>): (all: seq<Symbol>)
    ensures symbols + Added(t, symbols, parent) <= all
  {
    ListingAll(t.children, Scope(t, symbols, parent), symbols + Added(t, symbols, parent))
  }

  function ListingAll(ts: seq<Tree>, parent: Option<nat>, symbols: seq<Symbol>): (all: seq<Symbol>)
    ensures symbols <= all
  {
    if ts == [] then symbols else ListingAll(ts[1..], parent, Listing(ts[0], parent, symbols))
  }

  // ---- When it falls back

  /** How a walk of `size` nodes that ends in the list `all` may come out, starting from
      `symbols` with `visited` nodes seen. */
  ghost predicate Outcome(w: Walking, all: seq<Symbol>, symbols: seq<Symbol>, visited: nat, size: nat) {
    match w
    case Going(list, count) => list == all && count == visited + size && (size == 0 || count <= MAX_NODES) && (AllFit(symbols) ==> AllFit(all))
    case NodeLimit => visited + size > MAX_NODES
    case SymbolLimit => !AllFit(all)
  }

  lemma FitsPrefix(some: seq<Symbol>, all: seq<Symbol>)
    requires some <= all && AllFit(all)
    ensures AllFit(some)
  {
    forall s | s in some ensures !TooLong(s) {
      var i :| 0 <= i < |some| && some[i] == s;
      assert all[i] == s;
    }
  }

  lemma FitsBoth(a: seq<Symbol>, b: seq<Symbol>)
    ensures AllFit(a + b) <==> AllFit(a) && AllFit(b)
  {
    if AllFit(a + b) {
      forall s | s in b ensures !TooLong(s) { assert s in a + b; }
      forall s | s in a ensures !TooLong(s) { assert s in a + b; }
    }
  }

  lemma {:induction false} WalkOutcome(t: Tree, parent: Option<nat>, symbols: seq<Symbol>, visited: nat)
    ensures Outcome(Walk(t, parent, Going(symbols, visited)), Listing(t, parent, symbols), symbols, visited, Size(t))
    decreases t
  {
    var w := Going(symbols, visited);
    var grown := symbols + Added(t, symbols, parent);
    var next := Enter(t, parent, w);
    FitsBoth(symbols, Added(t, symbols, parent));
    hide Added, TooLong;
    if !next.Going? {
      WalkStopped(t.children, Scope(t, symbols, parent), next);
      if next.SymbolLimit? && AllFit(Listing(t, parent, symbols)) { FitsPrefix(grown, Listing(t, parent, symbols)); }
    } else {
      WalkAllOutcome(t.children, Scope(t, symbols, parent), grown, visited + 1);
    }
  }

  lemma {:induction false} WalkAllOutcome(ts: seq<Tree>, parent: Option<nat>, symbols: seq<Symbol>, visited: nat)
    ensures Outcome(WalkAll(ts, parent, Going(symbols, visited)), ListingAll(ts, parent, symbols), symbols, visited, SizeAll(ts))
    decreases ts
  {
    if ts != [] {
      WalkOutcome(ts[0], parent, symbols, visited);
      var first := Walk(ts[0], parent, Going(symbols, visited));
      if first.Going? {
        WalkAllOutcome(ts[1..], parent, first.symbols, first.visited);
      } else {
        WalkStopped(ts[1..], parent, first);
        if first.SymbolLimit? && AllFit(ListingAll(ts, parent, symbols)) {
          FitsPrefix(Listing(ts[0], parent, symbols), ListingAll(ts, parent, symbols));
        }
      }
    }
  }

  /** No name has more than 512 characters, and no qualified name more than 2048. */
  ghost predicate ShortNames(symbols: seq<Symbol>) {
    forall i | 0 <= i < |symbols| :: |symbols[i].name| <= 512 && |symbols[i].qualified| <= 2048
  }

  lemma FitIsShort(symbols: seq<Symbol>)
    ensures AllFit(symbols) <==> ShortNames(symbols)
  {
    if AllFit(symbols) {
      forall i | 0 <= i < |symbols| ensures |symbols[i].name| <= 512 && |symbols[i].qualified| <= 2048 { assert !TooLong(symbols[i]); }
    }
  }

  /** The walk yields symbols only for the whole tree, within every limit; and as long as no
      name is too long, it falls back exactly when the tree has more than 40000 nodes. */
  lemma FallsBackExactly(tree: Tree)
    ensures var w, all := Walk(tree, None, Going([], 0)), Listing(tree, None, []);
            && (w.Going? ==> w.symbols == all && ShortNames(all) && Size(tree) <= 40000)
            && (ShortNames(all) ==> (w.NodeLimit? <==> Size(tree) > 40000) && !w.SymbolLimit?)
            && (Size(tree) <= 40000 ==> (w.SymbolLimit? <==> !ShortNames(all)) && !w.NodeLimit?)
  {
    WalkOutcome(tree, None, [], 0);
    FitIsShort(Listing(tree, None, []));
  }

  // ---- The shape of the list

  /** Parents come first and are definitions; a function in a class is a method and a method is
      in a class; variables belong to modules and classes. */
  ghost predicate SymbolOk(symbols: seq<Symbol>, i: nat)
    requires i < |symbols|
  {
    var s := symbols[i];
    && (s.parent.Some? ==> s.parent.value < i && symbols[s.parent.value].kind.Definition())
    && s.qualified == (if s.parent.Some? then symbols[s.parent.value].qualified + "." else "") + s.name
    && (s.kind == Function ==> !InClass(symbols, s.parent))
    && (s.kind == Method ==> InClass(symbols, s.parent))
    && (s.kind == Variable ==> s.parent.None? || InClass(symbols, s.parent))
  }

  ghost predicate ListOk(symbols: seq<Symbol>) {
    forall i | 0 <= i < |symbols| :: SymbolOk(symbols, i)
  }

  ghost predicate ScopeOk(symbols: seq<Symbol>, parent: Option<nat>) {
    parent.Some? ==> parent.value < |symbols| && symbols[parent.value].kind.Definition()
  }

  lemma AddedOk(t: Tree, parent: Option<nat>, symbols: seq<Symbol>)
    requires ListOk(symbols) && ScopeOk(symbols, parent)
    ensures var grown := symbols + Added(t, symbols, parent);
            ListOk(grown) && ScopeOk(grown, Scope(t, symbols, parent))
  {
    var grown := symbols + Added(t, symbols, parent);
    forall i | 0 <= i < |grown| ensures SymbolOk(grown, i) {
      if i < |symbols| { assert SymbolOk(symbols, i); }
    }
  }

  lemma {:induction false} ListingOk(t: Tree, parent: Option<nat>, symbols: seq<Symbol>)
    requires ListOk(symbols) && ScopeOk(symbols, parent)
    ensures ListOk(Listing(t, parent, symbols))
    decreases t
  {
    AddedOk(t, parent, symbols);
    ListingAllOk(t.children, Scope(t, symbols, parent), symbols + Added(t, symbols, parent));
  }

  lemma {:induction false} ListingAllOk(ts: seq<Tree>, parent: Option<nat>, symbols: seq<Symbol>)
    requires ListOk(symbols) && ScopeOk(symbols, parent)
    ensures ListOk(ListingAll(ts, parent, symbols))
    decreases ts
  {
    if ts != [] {
      ListingOk(ts[0], parent, symbols);
      ListingAllOk(ts[1..], parent, Listing(ts[0], parent, symbols));
    }
  }

  // ---- Lexical scopes, defined on the tree alone

  /** A name under the definitions that enclose it, outermost first. */
  datatype Scoped = Scoped(path: seq<string>, kind: Kind)

  function Under(path: seq<string>, names: seq<string>, kind: Kind): seq<Scoped> {
    seq(|names|, i requires 0 <= i < |names| => Scoped(path + [names[i]], kind))
  }

  /** What a node binds itself; `holder` says whether the innermost enclosing definition is a
      class, if there is one. */
  function Own(t: Tree, path: seq<string>, holder: Option<bool>): seq<Scoped> {
    match t.shape
    case Define(isClass, name, _) => [Scoped(path + [name], if isClass then Class else if holder == Some(true) then Method else Function)]
    case Imports(names) => Under(path, names, Import)
    case Assigns(targets) => if holder == Some(false) then [] else Under(path, targets, Variable)
    case Other => []
  }

  /** The names of a tree in source order, each with its full path of enclosing definitions. */
  function ScopesOf(t: Tree, path: seq<string>, holder: Option<bool>): seq<Scoped> {
    Own(t, path, holder)
    + (if t.shape.Define? then ScopesOfAll(t.children, path + [t.shape.name], Some(t.shape.isClass))
       else ScopesOfAll(t.children, path, holder))
  }

  function ScopesOfAll(ts: seq<Tree>, path: seq<string>, holder: Option<bool>): seq<Scoped> {
    if ts == [] then [] else ScopesOf(ts[0], path, holder) + ScopesOfAll(ts[1..], path, holder)
  }

  /** A symbol's own path, following parents up. */
  ghost function PathOf(symbols: seq<Symbol>, i: nat): seq<string>
    requires ListOk(symbols) && i < |symbols|
    decreases i
  {
    assert SymbolOk(symbols, i);
    (if symbols[i].parent.Some? then PathOf(symbols, symbols[i].parent.value) else []) + [symbols[i].name]
  }

  /** A qualified name is the dotted join of the names on the way up. */
  lemma {:induction false} QualifiedIsDotted(symbols: seq<Symbol>, i: nat)
    requires ListOk(symbols) && i < |symbols|
    ensures symbols[i].qualified == Join(PathOf(symbols, i), ".") && PathOf(symbols, i) != []
    decreases i
  {
    assert SymbolOk(symbols, i);
    if symbols[i].parent.Some? {
      QualifiedIsDotted(symbols, symbols[i].parent.value);
      JoinLast(PathOf(symbols, symbols[i].parent.value), ".", symbols[i].name);
    }
  }

  /** `symbols[k]` is the scoped name `s`. */
  ghost predicate Matches(symbols: seq<Symbol>, k: nat, s: Scoped)
    requires ListOk(symbols) && k < |symbols|
  {
    PathOf(symbols, k) == s.path && symbols[k].kind == s.kind
  }

  /** The scope handed down agrees with the path and the holder. */
  ghost predicate Agrees(symbols: seq<Symbol>, parent: Option<nat>, path: seq<string>, holder: Option<bool>)
    requires ListOk(symbols) && ScopeOk(symbols, parent)
  {
    && path == (if parent.Some? then PathOf(symbols, parent.value) else [])
    && holder == (if parent.Some? then Some(symbols[parent.value].kind == Class) else None)
  }

  /** From `from` on, the list names exactly `scopes`, in order. */
  ghost predicate Lists(symbols: seq<Symbol>, from: nat, scopes: seq<Scoped>)
    requires ListOk(symbols)
  {
    |symbols| == from + |scopes| && forall k | 0 <= k < |scopes| :: Matches(symbols, from + k, scopes[k])
  }

  lemma {:induction false} PathStays(symbols: seq<Symbol>, more: seq<Symbol>, i: nat)
    requires ListOk(symbols) && ListOk(more) && symbols <= more && i < |symbols|
    ensures PathOf(more, i) == PathOf(symbols, i)
    decreases i
  {
    assert SymbolOk(symbols, i);
    if symbols[i].parent.Some? { PathStays(symbols, more, symbols[i].parent.value); }
  }

  lemma ListsStays(symbols: seq<Symbol>, more: seq<Symbol>, from: nat, scopes: seq<Scoped>, later: seq<Scoped>)
    requires ListOk(symbols) && ListOk(more) && symbols <= more
    requires Lists(symbols, from, scopes) && Lists(more, |symbols|, later)
    ensures Lists(more, from, scopes + later)
  {
    forall k | 0 <= k < |scopes + later| ensures Matches(more, from + k, (scopes + later)[k]) {
      if k < |scopes| {
        assert Matches(symbols, from + k, scopes[k]);
        PathStays(symbols, more, from + k);
      } else {
        assert Matches(more, |symbols| + (k - |scopes|), later[k - |scopes|]);
      }
    }
  }

  lemma OwnListed(t: Tree, parent: Option<nat>, symbols: seq<Symbol>, path: seq<string>, holder: Option<bool>)
    requires ListOk(symbols) && ScopeOk(symbols, parent) && Agrees(symbols, parent, path, holder)
    ensures var grown := symbols + Added(t, symbols, parent);
            ListOk(grown) && Lists(grown, |symbols|, Own(t, path, holder))
  {
    var grown := symbols + Added(t, symbols, parent);
    AddedOk(t, parent, symbols);
    forall k | 0 <= k < |Added(t, symbols, parent)| ensures Matches(grown, |symbols| + k, Own(t, path, holder)[k]) {
      assert grown[|symbols| + k] == Added(t, symbols, parent)[k];
      if parent.Some? { PathStays(symbols, grown, parent.value); }
    }
  }

  lemma {:induction false} ListingScopes(t: Tree, parent: Option<nat>, symbols: seq<Symbol>, path: seq<string>, holder: Option<bool>)
    requires ListOk(symbols) && ScopeOk(symbols, parent) && Agrees(symbols, parent, path, holder)
    ensures ListOk(Listing(t, parent, symbols)) && Lists(Listing(t, parent, symbols), |symbols|, ScopesOf(t, path, holder))
    decreases t
  {
    var grown := symbols + Added(t, symbols, parent);
    AddedOk(t, parent, symbols);
    OwnListed(t, parent, symbols, path, holder);
    var scope := Scope(t, symbols, parent);
    var inner := if t.shape.Define? then path + [t.shape.name] else path;
    var holding := if t.shape.Define? then Some(t.shape.isClass) else holder;
    assert Agrees(grown, scope, inner, holding) by {
      if t.shape.Define? { assert Matches(grown, |symbols|, Own(t, path, holder)[0]); } else if parent.Some? { PathStays(symbols, grown, parent.value); }
    }
    ListingAllScopes(t.children, scope, grown, inner, holding);
    ListsStays(grown, Listing(t, parent, symbols), |symbols|, Own(t, path, holder), ScopesOfAll(t.children, inner, holding));
    hide Lists, Agrees, ListOk, Added;
    assert ScopesOf(t, path, holder) == Own(t, path, holder) + ScopesOfAll(t.children, inner, holding);
  }

  lemma {:induction false} ListingAllScopes(ts: seq<Tree>, parent: Option<nat>, symbols: seq<Symbol>, path: seq<string>, holder: Option<bool>)
    requires ListOk(symbols) && ScopeOk(symbols, parent) && Agrees(symbols, parent, path, holder)
    ensures ListOk(ListingAll(ts, parent, symbols)) && Lists(ListingAll(ts, parent, symbols), |symbols|, ScopesOfAll(ts, path, holder))
    decreases ts
  {
    if ts != [] {
      ListingScopes(ts[0], parent, symbols, path, holder);
      var first := Listing(ts[0], parent, symbols);
      if parent.Some? { PathStays(symbols, first, parent.value); }
      ListingAllScopes(ts[1..], parent, first, path, holder);
      hide Names, Agrees, ListOk, Added;
      ListsStays(first, ListingAll(ts, parent, symbols), |symbols|, ScopesOf(ts[0], path, holder), ScopesOfAll(ts[1..], path, holder));
    }
  }

  /** The symbols of a file are its names in source order: the k-th has the kind and the dotted
      path of the k-th name's lexical scope. */
  lemma SymbolsAreScopes(tree: Tree)
    ensures var symbols, scopes := Listing(tree, None, []), ScopesOf(tree, [], None);
            && ListOk(symbols) && |symbols| == |scopes|
            && forall k | 0 <= k < |symbols| ::
                 symbols[k].kind == scopes[k].kind && symbols[k].qualified == Join(scopes[k].path, ".") && PathOf(symbols, k) == scopes[k].path
  {
    ListingScopes(tree, None, [], [], None);
    var symbols, scopes := Listing(tree, None, []), ScopesOf(tree, [], None);
    forall k | 0 <= k < |symbols|
      ensures symbols[k].kind == scopes[k].kind && symbols[k].qualified == Join(scopes[k].path, ".") && PathOf(symbols, k) == scopes[k].path
    {
      assert Matches(symbols, 0 + k, scopes[k]);
      QualifiedIsDotted(symbols, k);
    }
  }
}
