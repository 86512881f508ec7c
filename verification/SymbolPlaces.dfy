/** Line ranges of definitions: a tree whose scopes hold line-disjoint definitions within their
    own lines gives a symbol list with the same nesting. */
module SymbolPlaces {
  import opened Options
  import opened Symbols
  import opened SymbolScopes

  /** First and last line. */
  type Lines = (nat, nat)

  /** The definitions of a tree that are not inside another one of it. */
  function Tops(t: Tree): seq<Lines> {
    if t.shape.Define? then [(FirstLine(t), t.end)] else TopsAll(t.children)
  }

  function TopsAll(ts: seq<Tree>): seq<Lines> {
    if ts == [] then [] else Tops(ts[0]) + TopsAll(ts[1..])
  }

  predicate Disjoint(a: Lines, b: Lines) {
    a.1 < b.0 || b.1 < a.0
  }

  ghost predicate Apart(rs: seq<Lines>) {
    forall i, j | 0 <= i < j < |rs| :: Disjoint(rs[i], rs[j])
  }

  ghost predicate Within(rs: seq<Lines>, outer: Lines) {
    forall r | r in rs :: outer.0 <= r.0 && r.1 <= outer.1
  }

  /** Every definition holds the definitions of its scope on separate lines of its own. */
  ghost predicate Placed(t: Tree) {
    && (t.shape.Define? ==> Apart(TopsAll(t.children)) && Within(TopsAll(t.children), (FirstLine(t), t.end)))
    && (forall c | c in t.children :: Placed(c))
  }

  function LinesOf(s: Symbol): Lines {
    (s.start, s.end)
  }

  /** The line ranges of the definitions that belong directly to `parent`. */
  function Kids(list: seq<Symbol>, parent: Option<nat>): seq<Lines> {
    if list == [] then []
    else (if list[0].kind.Definition() && list[0].parent == parent then [LinesOf(list[0])] else []) + Kids(list[1..], parent)
  }

  lemma {:induction false} KidsAppend(a: seq<Symbol>, b: seq<Symbol>, parent: Option<nat>)
    ensures Kids(a + b, parent) == Kids(a, parent) + Kids(b, parent)
  {
    if a == [] {
      assert a + b == b;
    } else {
      assert (a + b)[1..] == a[1..] + b;
      KidsAppend(a[1..], b, parent);
    }
  }

  lemma {:induction false} NoKids(list: seq<Symbol>, parent: Option<nat>)
    requires forall s | s in list && s.kind.Definition() :: s.parent != parent
    ensures Kids(list, parent) == []
  {
    if list != [] { NoKids(list[1..], parent); }
  }

  lemma {:induction false} KidsApart(list: seq<Symbol>, parent: Option<nat>, i: nat, j: nat)
    requires Apart(Kids(list, parent)) && i < j < |list| && list[i].kind.Definition() && list[j].kind.Definition()
    requires list[i].parent == parent && list[j].parent == parent
    ensures Disjoint(LinesOf(list[i]), LinesOf(list[j]))
    decreases |list|
  {
    var rest := Kids(list[1..], parent);
    if i == 0 {
      KidHas(list[1..], parent, j - 1);
      var k :| 0 <= k < |rest| && rest[k] == LinesOf(list[j]);
      assert Kids(list, parent)[0] == LinesOf(list[0]) && Kids(list, parent)[k + 1] == LinesOf(list[j]);
    } else {
      assert Apart(rest) by {
        var skip := |Kids(list, parent)| - |rest|;
        forall x, y | 0 <= x < y < |rest| ensures Disjoint(rest[x], rest[y]) {
          assert Kids(list, parent)[skip + x] == rest[x] && Kids(list, parent)[skip + y] == rest[y];
        }
      }
      KidsApart(list[1..], parent, i - 1, j - 1);
    }
  }

  lemma {:induction false} KidHas(list: seq<Symbol>, parent: Option<nat>, i: nat)
    requires i < |list| && list[i].kind.Definition() && list[i].parent == parent
    ensures LinesOf(list[i]) in Kids(list, parent)
    decreases |list|
  {
    if i > 0 { KidHas(list[1..], parent, i - 1); }
  }

  /** Everything listed from `from` on belongs to `parent` or to something listed there. */
  ghost predicate Enclosed(symbols: seq<Symbol>, from: nat, parent: Option<nat>) {
    forall k | from <= k < |symbols| :: symbols[k].parent == parent || (symbols[k].parent.Some? && symbols[k].parent.value >= from)
  }

  /** The definitions of scope k are on separate lines of its own. */
  ghost predicate ScopePlaced(symbols: seq<Symbol>, k: nat)
    requires k < |symbols|
  {
    Apart(Kids(symbols[k + 1..], Some(k))) && Within(Kids(symbols[k + 1..], Some(k)), LinesOf(symbols[k]))
  }

  ghost predicate AllPlaced(symbols: seq<Symbol>, from: nat) {
    forall k | from <= k < |symbols| && symbols[k].kind.Definition() :: ScopePlaced(symbols, k)
  }

  /** What a listing adds behind `from`. */
  ghost predicate Lays(all: seq<Symbol>, from: nat, parent: Option<nat>, tops: seq<Lines>) {
    && from <= |all| && Enclosed(all, from, parent) && Kids(all[from..], parent) == tops && AllPlaced(all, from)
  }

  ghost predicate Older(parent: Option<nat>, n: nat) {
    parent.Some? ==> parent.value < n
  }

  lemma PlacedStays(some: seq<Symbol>, all: seq<Symbol>, k: nat)
    requires some <= all && k < |some| && ScopePlaced(some, k)
    requires forall x | |some| <= x < |all| :: all[x].parent != Some(k)
    ensures ScopePlaced(all, k)
  {
    assert all[k + 1..] == some[k + 1..] + all[|some|..];
    KidsAppend(some[k + 1..], all[|some|..], Some(k));
    NoKids(all[|some|..], Some(k));
  }

  /** Two listings of the same scope, one after the other. */
  lemma LaysBoth(some: seq<Symbol>, all: seq<Symbol>, from: nat, parent: Option<nat>, tops: seq<Lines>, later: seq<Lines>)
    requires some <= all && Lays(some, from, parent, tops) && Lays(all, |some|, parent, later) && Older(parent, from)
    ensures Lays(all, from, parent, tops + later)
  {
    assert all[from..] == some[from..] + all[|some|..];
    KidsAppend(some[from..], all[|some|..], parent);
    forall k | from <= k < |all| && all[k].kind.Definition() ensures ScopePlaced(all, k) {
      if k < |some| { PlacedStays(some, all, k); }
    }
    hide ScopePlaced, Kids;
  }

  /** A definition followed by what is inside it. */
  lemma LaysInside(grown: seq<Symbol>, all: seq<Symbol>, parent: Option<nat>, inner: seq<Lines>)
    requires grown != [] && grown <= all
    requires var n := |grown| - 1;
             Older(parent, n) && grown[n].parent == parent && grown[n].kind.Definition() && Lays(all, n + 1, Some(n), inner)
             && Apart(inner) && Within(inner, LinesOf(grown[n]))
    ensures Lays(all, |grown| - 1, parent, [LinesOf(grown[|grown| - 1])])
  {
    var n := |grown| - 1;
    assert all[n..] == [grown[n]] + all[n + 1..];
    NoKids(all[n + 1..], parent);
    assert Kids(all[n..], parent) == [LinesOf(grown[n])] + Kids(all[n + 1..], parent);
  }

  /** A node that is no definition adds no definition. */
  lemma NothingLaid(t: Tree, parent: Option<nat>, symbols: seq<Symbol>)
    requires !t.shape.Define?
    ensures Lays(symbols + Added(t, symbols, parent), |symbols|, parent, [])
  {
    var added := Added(t, symbols, parent);
    assert (symbols + added)[|symbols|..] == added;
    NoKids(added, parent);
  }

  lemma {:induction false} ListingLays(t: Tree, parent: Option<nat>, symbols: seq<Symbol>)
    requires Placed(t) && Older(parent, |symbols|)
    ensures Lays(Listing(t, parent, symbols), |symbols|, parent, Tops(t))
    decreases t
  {
    var added := Added(t, symbols, parent);
    var grown := symbols + added;
    var all := Listing(t, parent, symbols);
    ListingAllLays(t.children, Scope(t, symbols, parent), grown);
    if t.shape.Define? {
      assert |added| == 1 && added[0].parent == parent && added[0].kind.Definition() && LinesOf(added[0]) == (FirstLine(t), t.end);
      hide Lays, Added, Listing, Apart, Within;
      LaysInside(grown, all, parent, TopsAll(t.children));
    } else {
      NothingLaid(t, parent, symbols);
      hide Lays, Added, Placed;
      LaysBoth(grown, all, |symbols|, parent, [], TopsAll(t.children));
      assert [] + TopsAll(t.children) == TopsAll(t.children);
    }
  }

  lemma {:induction false} ListingAllLays(ts: seq<Tree>, parent: Option<nat>, symbols: seq<Symbol>)
    requires (forall t | t in ts :: Placed(t)) && Older(parent, |symbols|)
    ensures Lays(ListingAll(ts, parent, symbols), |symbols|, parent, TopsAll(ts))
    decreases ts
  {
    if ts != [] {
      ListingLays(ts[0], parent, symbols);
      var first := Listing(ts[0], parent, symbols);
      ListingAllLays(ts[1..], parent, first);
      hide Lays, Placed;
      LaysBoth(first, ListingAll(ts, parent, symbols), |symbols|, parent, Tops(ts[0]), TopsAll(ts[1..]));
    }
  }

  // ---- Results

  /** Definitions lie within the lines of the definition that holds them. */
  ghost predicate Nested(symbols: seq<Symbol>) {
    forall i | 0 <= i < |symbols| && symbols[i].kind.Definition() && symbols[i].parent.Some? ::
      && symbols[i].parent.value < |symbols|
      && symbols[symbols[i].parent.value].start <= symbols[i].start && symbols[i].end <= symbols[symbols[i].parent.value].end
  }

  /** Definitions of the same scope share no line. */
  ghost predicate SiblingsApart(symbols: seq<Symbol>) {
    forall i, j | 0 <= i < j < |symbols| && symbols[i].kind.Definition() && symbols[j].kind.Definition() && symbols[i].parent == symbols[j].parent ::
      Disjoint(LinesOf(symbols[i]), LinesOf(symbols[j]))
  }

  lemma NestedAt(symbols: seq<Symbol>, i: nat)
    requires ListOk(symbols) && AllPlaced(symbols, 0)
    requires i < |symbols| && symbols[i].kind.Definition() && symbols[i].parent.Some?
    ensures var p := symbols[i].parent.value;
            p < |symbols| && symbols[p].start <= symbols[i].start && symbols[i].end <= symbols[p].end
  {
    assert SymbolOk(symbols, i);
    var p := symbols[i].parent.value;
    assert ScopePlaced(symbols, p);
    hide ListOk, AllPlaced, Apart;
    KidHas(symbols[p + 1..], Some(p), i - p - 1);
  }

  lemma ParentPlaced(symbols: seq<Symbol>, i: nat)
    requires ListOk(symbols) && AllPlaced(symbols, 0) && i < |symbols| && symbols[i].parent.Some?
    ensures symbols[i].parent.value < i && Apart(Kids(symbols[symbols[i].parent.value + 1..], symbols[i].parent))
  {
    assert SymbolOk(symbols, i) && ScopePlaced(symbols, symbols[i].parent.value);
    hide Apart, Kids;
  }

  lemma {:induction false} SiblingsAt(symbols: seq<Symbol>, i: nat, j: nat)
    requires ListOk(symbols) && AllPlaced(symbols, 0) && Apart(Kids(symbols, None))
    requires i < j < |symbols| && symbols[i].kind.Definition() && symbols[j].kind.Definition() && symbols[i].parent == symbols[j].parent
    ensures Disjoint(LinesOf(symbols[i]), LinesOf(symbols[j]))
  {
    hide ListOk, AllPlaced, Apart, Disjoint, Kids;
    if symbols[i].parent.None? {
      KidsApart(symbols, None, i, j);
    } else {
      var p := symbols[i].parent.value;
      ParentPlaced(symbols, i);
      var inner := symbols[p + 1..];
      assert inner[i - p - 1] == symbols[i] && inner[j - p - 1] == symbols[j];
      KidsApart(inner, Some(p), i - p - 1, j - p - 1);
    }
  }

  /** The nesting of the tree's definitions carries over to the symbol list. */
  lemma ListingKeepsPlaces(tree: Tree)
    requires Placed(tree) && Apart(Tops(tree))
    ensures Nested(Listing(tree, None, [])) && SiblingsApart(Listing(tree, None, []))
  {
    var symbols := Listing(tree, None, []);
    ListingLays(tree, None, []);
    ListingOk(tree, None, []);
    assert symbols[0..] == symbols;
    hide ListOk, AllPlaced, Apart, Disjoint, Listing, Placed, Enclosed;
    forall i | 0 <= i < |symbols| && symbols[i].kind.Definition() && symbols[i].parent.Some?
      ensures var p := symbols[i].parent.value; p < |symbols| && symbols[p].start <= symbols[i].start && symbols[i].end <= symbols[p].end
    {
      NestedAt(symbols, i);
    }
    forall i, j | 0 <= i < j < |symbols| && symbols[i].kind.Definition() && symbols[j].kind.Definition() && symbols[i].parent == symbols[j].parent
      ensures Disjoint(LinesOf(symbols[i]), LinesOf(symbols[j]))
    {
      SiblingsAt(symbols, i, j);
    }
  }
}
