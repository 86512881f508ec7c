/** The labels of chunks: the regions of the chunker form an antichain of scopes thanks to the
    parser's kinds, so on properly nested symbols no definition loses its region. */
module ChunkerLabels {
  import opened Options
  import opened Symbols
  import opened SymbolScopes
  import opened SymbolPlaces
  import opened SourceLines
  import opened Chunker
  import opened ChunkerResults

  // ---- Which definitions are to be labelled

  /** One of the enclosing definitions is a function or a method. */
  ghost predicate InsideFunction(symbols: seq<Symbol>, i: nat)
    requires i < |symbols|
    decreases i
  {
    && symbols[i].parent.Some? && symbols[i].parent.value < i
    && (symbols[symbols[i].parent.value].kind.Function? || symbols[symbols[i].parent.value].kind.Method?
        || InsideFunction(symbols, symbols[i].parent.value))
  }

  /** A class or a method belongs directly to it. */
  ghost predicate HoldsSome(symbols: seq<Symbol>, i: nat) {
    exists k | 0 <= k < |symbols| :: symbols[k].parent == Some(i) && (symbols[k].kind.Class? || symbols[k].kind.Method?)
  }

  /** Functions and methods that lie in no function, and classes that lie in no function and directly
      hold no class and no method. */
  ghost predicate Labelled(symbols: seq<Symbol>, i: nat)
    requires i < |symbols|
  {
    && !InsideFunction(symbols, i)
    && (symbols[i].kind.Function? || symbols[i].kind.Method? || (symbols[i].kind.Class? && !HoldsSome(symbols, i)))
  }

  lemma {:induction false} InsideIsAncestry(symbols: seq<Symbol>, i: nat)
    requires i < |symbols|
    ensures InFunction(symbols, i) <==> InsideFunction(symbols, i)
    decreases i
  {
    AncestorsExist(symbols, i);
    if symbols[i].parent.Some? && symbols[i].parent.value < i {
      var p := symbols[i].parent.value;
      InsideIsAncestry(symbols, p);
      if InFunction(symbols, p) {
        var a :| a in Ancestors(symbols, p) && a < |symbols| && (symbols[a].kind == Function || symbols[a].kind == Method);
        assert a in Ancestors(symbols, i);
      }
      assert p in Ancestors(symbols, i);
    }
  }

  /** These are the definitions that get a region. */
  lemma LabelledAreEligible(symbols: seq<Symbol>, i: nat)
    requires i < |symbols|
    ensures Eligible(symbols, i) <==> Labelled(symbols, i)
  {
    InsideIsAncestry(symbols, i);
    if HoldsDefinitions(symbols, i) {
      var s :| s in symbols && (s.kind == Class || s.kind == Method) && s.parent == Some(i);
      var k :| 0 <= k < |symbols| && symbols[k] == s;
      assert HoldsSome(symbols, i);
    }
    if HoldsSome(symbols, i) {
      var k :| 0 <= k < |symbols| && symbols[k].parent == Some(i) && (symbols[k].kind.Class? || symbols[k].kind.Method?);
      assert symbols[k] in symbols;
    }
    hide InFunction, InsideFunction, HoldsDefinitions, HoldsSome;
  }

  // ---- Regions are an antichain of scopes

  /** An ancestor's ancestors are ancestors, and none comes after the parent. */
  lemma {:induction false} AncestorsOf(symbols: seq<Symbol>, i: nat)
    requires ListOk(symbols) && i < |symbols|
    ensures forall a | a in Ancestors(symbols, i) :: symbols[i].parent.Some? && a <= symbols[i].parent.value
    ensures symbols[i].parent.Some? ==>
              && symbols[i].parent.value < i
              && Ancestors(symbols, i) == [symbols[i].parent.value] + Ancestors(symbols, symbols[i].parent.value)
    decreases i
  {
    assert SymbolOk(symbols, i);
    if symbols[i].parent.Some? { AncestorsOf(symbols, symbols[i].parent.value); }
  }

  /** A definition under `a` sits in a function, or `a` is a class that holds definitions. Here
      the parser's rule counts: a function directly in a class is a method. */
  lemma {:induction false} HolderOrFunction(symbols: seq<Symbol>, a: nat, j: nat)
    requires ListOk(symbols) && j < |symbols| && symbols[j].kind.Definition() && a in Ancestors(symbols, j)
    ensures a < |symbols| && (InFunction(symbols, j) || (symbols[a].kind == Class && HoldsDefinitions(symbols, a)))
    decreases j
  {
    assert SymbolOk(symbols, j);
    AncestorsOf(symbols, j);
    var p := symbols[j].parent.value;
    if a == p {
      assert symbols[j] in symbols;
    } else {
      HolderOrFunction(symbols, a, p);
      if InFunction(symbols, p) {
        var f :| f in Ancestors(symbols, p) && f < |symbols| && (symbols[f].kind == Function || symbols[f].kind == Method);
        assert f in Ancestors(symbols, j);
      }
    }
  }

  /** No definition with a region lies inside another one. */
  lemma RegionsAreAntichain(symbols: seq<Symbol>, a: nat, j: nat)
    requires ListOk(symbols) && a < |symbols| && j < |symbols| && Labelled(symbols, a) && Labelled(symbols, j)
    ensures a !in Ancestors(symbols, j)
  {
    LabelledAreEligible(symbols, a);
    LabelledAreEligible(symbols, j);
    if a in Ancestors(symbols, j) { HolderOrFunction(symbols, a, j); }
  }

  // ---- Regions do not overlap

  /** Of two definitions, neither inside the other, no line is shared. */
  lemma {:induction false} UnrelatedAreApart(symbols: seq<Symbol>, i: nat, j: nat)
    requires ListOk(symbols) && Nested(symbols) && SiblingsApart(symbols) && i < |symbols| && j < |symbols| && i != j
    requires symbols[i].kind.Definition() && symbols[j].kind.Definition()
    requires i !in Ancestors(symbols, j) && j !in Ancestors(symbols, i)
    ensures Disjoint(LinesOf(symbols[i]), LinesOf(symbols[j]))
    decreases i + j
  {
    AncestorsOf(symbols, i);
    AncestorsOf(symbols, j);
    var p, q := symbols[i].parent, symbols[j].parent;
    if p == q {
      if i < j { assert Disjoint(LinesOf(symbols[i]), LinesOf(symbols[j])); } else { assert Disjoint(LinesOf(symbols[j]), LinesOf(symbols[i])); }
    } else if p.Some? && (q.None? || q.value < p.value) {
      assert SymbolOk(symbols, i);
      UnrelatedAreApart(symbols, p.value, j);
    } else {
      assert SymbolOk(symbols, j);
      UnrelatedAreApart(symbols, i, q.value);
    }
  }

  ghost predicate Unique(rs: seq<Span>) {
    forall x, y | 0 <= x < y < |rs| :: rs[x].symbol != rs[y].symbol
  }

  lemma {:induction false} RegionsUnique(starts: seq<nat>, size: nat, symbols: seq<Symbol>, n: nat)
    requires SymbolsFit(symbols, |starts|) && n <= |symbols|
    ensures Unique(RegionsUpTo(starts, size, symbols, n))
    ensures forall r | r in RegionsUpTo(starts, size, symbols, n) :: r.symbol.Some? && r.symbol.value < n
  {
    if n > 0 { RegionsUnique(starts, size, symbols, n - 1); }
  }

  lemma {:induction false} PlaceUnique(r: Span, sorted: seq<Span>)
    requires Unique(sorted) && forall x | x in sorted :: x.symbol != r.symbol
    ensures Unique(Place(r, sorted))
  {
    if sorted != [] && !Before(r, sorted[0]) {
      PlaceUnique(r, sorted[1..]);
      forall y | 0 <= y < |Place(r, sorted[1..])| ensures Place(r, sorted[1..])[y].symbol != sorted[0].symbol {
        PlaceMembers(r, sorted[1..], Place(r, sorted[1..])[y]);
      }
    }
  }

  lemma {:induction false} SortedUnique(rs: seq<Span>)
    requires Unique(rs)
    ensures Unique(Sorted(rs))
  {
    if rs != [] {
      SortedUnique(rs[1..]);
      forall x | x in Sorted(rs[1..]) ensures x.symbol != rs[0].symbol { SortedMembers(rs[1..], x); }
      PlaceUnique(rs[0], Sorted(rs[1..]));
    }
  }

  /** Each region ends before the next begins. */
  ghost predicate Clear(rs: seq<Span>) {
    forall x, y | 0 <= x < y < |rs| :: rs[x].end <= rs[y].start
  }

  /** Disjoint line ranges give disjoint regions, in sorted order. */
  lemma ApartIsClear(starts: seq<nat>, size: nat, symbols: seq<Symbol>, i: nat, j: nat)
    requires SymbolsFit(symbols, |starts|) && Increasing(starts) && forall x | x in starts :: x <= size
    requires i < |symbols| && j < |symbols| && symbols[i].kind.Definition() && symbols[j].kind.Definition()
    requires Disjoint(LinesOf(symbols[i]), LinesOf(symbols[j]))
    requires Before(Region(starts, size, symbols, i), Region(starts, size, symbols, j))
    ensures Region(starts, size, symbols, i).end <= Region(starts, size, symbols, j).start
  {
    RegionBounds(starts, size, symbols, i);
    RegionBounds(starts, size, symbols, j);
  }

  ghost predicate WellPlaced(symbols: seq<Symbol>) {
    ListOk(symbols) && Nested(symbols) && SiblingsApart(symbols)
  }

  lemma {:induction false} SortedRegionsClear(content: string, symbols: seq<Symbol>)
    requires SymbolsFit(symbols, |Starts(content)|) && WellPlaced(symbols)
    ensures Clear(Sorted(RegionsUpTo(Starts(content), |content|, symbols, |symbols|)))
  {
    var starts := Starts(content);
    var sorted := Sorted(RegionsUpTo(starts, |content|, symbols, |symbols|));
    StartsIncrease(content, |content|);
    SortedOrders(RegionsUpTo(starts, |content|, symbols, |symbols|));
    RegionsUnique(starts, |content|, symbols, |symbols|);
    SortedUnique(RegionsUpTo(starts, |content|, symbols, |symbols|));
    forall x, y | 0 <= x < y < |sorted| ensures sorted[x].end <= sorted[y].start {
      SortedRegionsFit(content, symbols, sorted[x]);
      SortedRegionsFit(content, symbols, sorted[y]);
      assert sorted[x] in sorted && sorted[y] in sorted;
      assert Before(sorted[x], sorted[y]) && sorted[x].symbol != sorted[y].symbol;
      TwoRegionsClear(content, symbols, sorted[x].symbol.value, sorted[y].symbol.value);
    }
  }

  lemma TwoRegionsClear(content: string, symbols: seq<Symbol>, i: nat, j: nat)
    requires SymbolsFit(symbols, |Starts(content)|) && WellPlaced(symbols)
    requires i < |symbols| && j < |symbols| && i != j && Eligible(symbols, i) && Eligible(symbols, j)
    requires Before(Region(Starts(content), |content|, symbols, i), Region(Starts(content), |content|, symbols, j))
    ensures Region(Starts(content), |content|, symbols, i).end <= Region(Starts(content), |content|, symbols, j).start
  {
    LabelledAreEligible(symbols, i);
    LabelledAreEligible(symbols, j);
    hide Labelled, Eligible;
    RegionsAreAntichain(symbols, i, j);
    RegionsAreAntichain(symbols, j, i);
    EligibleIsDefinition(symbols, i);
    EligibleIsDefinition(symbols, j);
    UnrelatedAreApart(symbols, i, j);
    StartsIncrease(content, |content|);
    ApartIsClear(Starts(content), |content|, symbols, i, j);
  }

  lemma {:induction false} ClearKeepsAll(rs: seq<Span>, cursor: nat, size: nat, r: Span)
    requires Clear(rs) && r in rs && forall x | x in rs :: cursor <= x.start <= x.end
    ensures r in SpansFrom(rs, cursor, size)
    decreases |rs|
  {
    assert rs[0] in rs;
    if r != rs[0] {
      forall x | x in rs[1..] ensures rs[0].end <= x.start <= x.end {
        var k :| 0 <= k < |rs| - 1 && rs[1..][k] == x;
        assert rs[0].end <= rs[k + 1].start && rs[k + 1] in rs;
      }
      ClearKeepsAll(rs[1..], rs[0].end, size, r);
    }
  }

  /** No definition with a region of its own is dropped. */
  lemma NoRegionIsDropped(content: string, symbols: seq<Symbol>, i: nat)
    requires SymbolsFit(symbols, |Starts(content)|) && WellPlaced(symbols) && i < |symbols| && Labelled(symbols, i)
    ensures Region(Starts(content), |content|, symbols, i) in SpansOf(content, symbols)
  {
    LabelledAreEligible(symbols, i);
    hide Labelled, Eligible;
    var sorted := Sorted(RegionsUpTo(Starts(content), |content|, symbols, |symbols|));
    SortedRegionsClear(content, symbols);
    forall x | x in sorted ensures 0 <= x.start <= x.end { SortedRegionsFit(content, symbols, x); }
    SortedRegionsFit(content, symbols, Region(Starts(content), |content|, symbols, i));
    ClearKeepsAll(sorted, 0, |content|, Region(Starts(content), |content|, symbols, i));
  }

  // ---- Labels

  /** A region is exactly the definition's lines. */
  lemma RegionIsLines(content: string, symbols: seq<Symbol>, i: nat, pos: nat)
    requires SymbolsFit(symbols, |Starts(content)|) && i < |symbols| && symbols[i].kind.Definition() && pos < |content|
    ensures var r := Region(Starts(content), |content|, symbols, i);
            r.start <= pos < r.end <==> symbols[i].start <= LineOf(content, pos) <= symbols[i].end
  {
    var starts := Starts(content);
    var first, last := symbols[i].start, symbols[i].end;
    LineBounds(content, first - 1, pos);
    if starts[first - 1] <= pos { LinesGrow(content, starts[first - 1], pos); } else { LineBefore(content, first - 1, pos); }
    LineBounds(content, last - 1, pos);
    if last < |starts| {
      LineBounds(content, last, pos);
      if starts[last] <= pos { LinesGrow(content, starts[last], pos); }
    }
  }

  lemma LineBefore(content: string, i: nat, pos: nat)
    requires i < |Starts(content)| && pos <= |content| && pos < Starts(content)[i]
    ensures LineOf(content, pos) <= i
  {
    if i > 0 { LineBounds(content, i - 1, pos); }
  }

  lemma {:induction false} SpansAreRegions(rs: seq<Span>, cursor: nat, size: nat, s: Span)
    requires s in SpansFrom(rs, cursor, size) && s.symbol.Some?
    ensures s in rs
    decreases |rs|
  {
    if rs != [] && s != rs[0] {
      if rs[0].start < cursor { SpansAreRegions(rs[1..], cursor, size, s); } else { SpansAreRegions(rs[1..], rs[0].end, size, s); }
    }
  }

  /** A labelled span is the region of an eligible definition. */
  lemma SpanIsRegion(content: string, symbols: seq<Symbol>, span: Span)
    requires SymbolsFit(symbols, |Starts(content)|) && span in SpansOf(content, symbols) && span.symbol.Some?
    ensures span.symbol.value < |symbols| && Eligible(symbols, span.symbol.value)
    ensures span == Region(Starts(content), |content|, symbols, span.symbol.value)
  {
    SpansAreRegions(Sorted(RegionsUpTo(Starts(content), |content|, symbols, |symbols|)), 0, |content|, span);
    SortedRegionsFit(content, symbols, span);
  }

  /** What lies within a region lies within its definition's lines. */
  lemma RegionLines(content: string, symbols: seq<Symbol>, i: nat, a: nat, b: nat)
    requires SymbolsFit(symbols, |Starts(content)|) && i < |symbols| && symbols[i].kind.Definition()
    requires var r := Region(Starts(content), |content|, symbols, i); r.start <= a < b <= r.end <= |content|
    ensures symbols[i].start <= LineOf(content, a) <= LineOf(content, b - 1) <= symbols[i].end
  {
    RegionIsLines(content, symbols, i, a);
    RegionIsLines(content, symbols, i, b - 1);
    LinesGrow(content, a, b - 1);
  }

  /** A label is never wrong: it names a function or method that lies in no function, or a class that
      lies in no function and directly holds no class and no method, and the chunk lies within the
      lines of that definition. */
  lemma LabelsAreTrue(content: string, symbols: seq<Symbol>, mode: string, limit: nat, k: nat)
    requires SymbolsFit(symbols, |Starts(content)|) && 4 <= limit && k < |ChunksOf(content, symbols, mode, limit)|
    requires ChunksOf(content, symbols, mode, limit)[k].symbol.Some?
    ensures var c := ChunksOf(content, symbols, mode, limit)[k];
            && c.kind == "symbol" && c.symbol.value < |symbols| && Labelled(symbols, c.symbol.value)
            && symbols[c.symbol.value].start <= c.startLine <= c.endLine <= symbols[c.symbol.value].end
  {
    hide ChunksOf, CutRule, SpansOf, SymbolsFit, Region, Eligible, Labelled, Starts, Bytes, LineOf;
    ChunksFollowRule(content, symbols, mode, limit, k);
    var c := ChunksOf(content, symbols, mode, limit)[k];
    var span :| span in SpansOf(content, symbols) && PieceOf(content, span, limit, Span(c.start, c.end, c.symbol));
    SpanIsRegion(content, symbols, span);
    LabelledAreEligible(symbols, c.symbol.value);
    EligibleIsDefinition(symbols, c.symbol.value);
    RegionLines(content, symbols, c.symbol.value, c.start, c.end);
  }

  lemma EligibleIsDefinition(symbols: seq<Symbol>, i: nat)
    requires i < |symbols| && Eligible(symbols, i)
    ensures symbols[i].kind.Definition()
  {
  }

  lemma {:induction false} SpanIsCut(content: string, spans: seq<Span>, limit: nat, span: Span, pos: nat)
    requires SpansFit(spans, |content|) && 4 <= limit && span in spans && span.start <= pos < span.end
    ensures exists p :: p in AllPieces(content, spans, limit) && p.symbol == span.symbol && p.start <= pos < p.end
    decreases |spans|
  {
    FirstFits(spans, |content|);
    if span == spans[0] {
      PiecesFit(content, span, limit);
      TilesHit(Pieces(content, span, limit), span.start, span.end, pos);
      var p :| p in Pieces(content, span, limit) && p.start <= pos < p.end;
      PiecesFollowRule(content, span, limit, p);
      assert p in AllPieces(content, spans, limit);
    } else {
      SpanIsCut(content, spans[1..], limit, span, pos);
      var p :| p in AllPieces(content, spans[1..], limit) && p.symbol == span.symbol && p.start <= pos < p.end;
      assert p in AllPieces(content, spans, limit);
    }
  }

  /** On properly nested symbols, every character on the lines of a function or method that lies in no
      function, or of a class that lies in no function and directly holds no class and no method, is in
      a chunk labelled with it. */
  lemma DefinitionsAreLabelled(content: string, symbols: seq<Symbol>, mode: string, limit: nat, i: nat, pos: nat)
    requires SymbolsFit(symbols, |Starts(content)|) && 4 <= limit && WellPlaced(symbols)
    requires i < |symbols| && Labelled(symbols, i) && pos < |content| && symbols[i].start <= LineOf(content, pos) <= symbols[i].end
    ensures exists k :: 0 <= k < |ChunksOf(content, symbols, mode, limit)|
              && ChunksOf(content, symbols, mode, limit)[k].symbol == Some(i)
              && ChunksOf(content, symbols, mode, limit)[k].start <= pos < ChunksOf(content, symbols, mode, limit)[k].end
  {
    var region, spans := Region(Starts(content), |content|, symbols, i), SpansOf(content, symbols);
    NoRegionIsDropped(content, symbols, i);
    LabelledAreEligible(symbols, i);
    EligibleIsDefinition(symbols, i);
    hide Labelled, Eligible;
    RegionIsLines(content, symbols, i, pos);
    SpansCover(content, symbols);
    SpanIsCut(content, spans, limit, region, pos);
    var pieces := PiecesOf(content, symbols, limit);
    var p :| p in pieces && p.symbol == Some(i) && p.start <= pos < p.end;
    var k :| 0 <= k < |pieces| && pieces[k] == p;
    hide SpansOf, AllPieces, Numbered, SymbolsFit, WellPlaced, Region, Starts;
    NumberedLength(content, symbols, mode, limit);
    ChunkAt(content, symbols, mode, limit, k);
    assert ChunksOf(content, symbols, mode, limit)[k].symbol == Some(i);
  }

  lemma NumberedLength(content: string, symbols: seq<Symbol>, mode: string, limit: nat)
    requires SymbolsFit(symbols, |Starts(content)|) && 4 <= limit
    ensures |ChunksOf(content, symbols, mode, limit)| == |PiecesOf(content, symbols, limit)|
  {
  }
}
