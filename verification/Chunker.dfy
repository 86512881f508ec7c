/** `chunk_source`: non-overlapping source slices that follow the symbol regions and stay within
    a byte limit. */
module Chunker {
  import opened Options
  import opened Sequences
  import opened Symbols
  import opened SourceLines

  /** A stretch of the source, labelled with a symbol or with none. */
  datatype Span = Span(start: nat, end: nat, symbol: Option<nat>)

  datatype Chunk = Chunk(ordinal: nat, start: nat, end: nat, startLine: nat, endLine: nat, symbol: Option<nat>, kind: string, content: string)

  /** What the parser guarantees: parents come first, and line numbers exist in the file. */
  ghost predicate SymbolsFit(symbols: seq<Symbol>, lines: nat) {
    forall i | 0 <= i < |symbols| ::
      && (symbols[i].parent.Some? ==> symbols[i].parent.value < i)
      && (symbols[i].kind.Definition() ==> 1 <= symbols[i].start <= symbols[i].end <= lines)
  }

  // ---- Regions

  /** The enclosing symbols, innermost first. */
  function Ancestors(symbols: seq<Symbol>, i: nat): seq<nat>
    requires i < |symbols|
    decreases i
  {
    if symbols[i].parent.Some? && symbols[i].parent.value < i then [symbols[i].parent.value] + Ancestors(symbols, symbols[i].parent.value)
    else []
  }

  predicate InFunction(symbols: seq<Symbol>, i: nat)
    requires i < |symbols|
  {
    exists a | a in Ancestors(symbols, i) :: a < |symbols| && (symbols[a].kind == Function || symbols[a].kind == Method)
  }

  /** A class with a class or method in it. */
  predicate HoldsDefinitions(symbols: seq<Symbol>, i: nat) {
    exists s | s in symbols :: (s.kind == Class || s.kind == Method) && s.parent == Some(i)
  }

  /** The definitions that get a region of their own. */
  predicate Eligible(symbols: seq<Symbol>, i: nat)
    requires i < |symbols|
  {
    && symbols[i].kind.Definition() && !InFunction(symbols, i)
    && !(symbols[i].kind == Class && HoldsDefinitions(symbols, i))
  }

  /** From the start of the first line to the end of the last, its line break included. */
  function Region(starts: seq<nat>, size: nat, symbols: seq<Symbol>, i: nat): Span
    requires i < |symbols| && 1 <= symbols[i].start <= |starts|
  {
    Span(starts[symbols[i].start - 1], if symbols[i].end < |starts| then starts[symbols[i].end] else size, Some(i))
  }

  function RegionsUpTo(starts: seq<nat>, size: nat, symbols: seq<Symbol>, n: nat): seq<Span>
    requires SymbolsFit(symbols, |starts|) && n <= |symbols|
  {
    if n == 0 then []
    else RegionsUpTo(starts, size, symbols, n - 1) + (if Eligible(symbols, n - 1) then [Region(starts, size, symbols, n - 1)] else [])
  }

  /** Tuple order: start, end, symbol. */
  predicate Before(a: Span, b: Span) {
    a.start < b.start || (a.start == b.start && (a.end < b.end || (a.end == b.end && a.symbol.GetOr(0) <= b.symbol.GetOr(0))))
  }

  function Place(r: Span, sorted: seq<Span>): seq<Span> {
    if sorted == [] || Before(r, sorted[0]) then [r] + sorted else [sorted[0]] + Place(r, sorted[1..])
  }

  function Sorted(rs: seq<Span>): seq<Span> {
    if rs == [] then [] else Place(rs[0], Sorted(rs[1..]))
  }

  // ---- Spans

  /** Regions that begin before the cursor are dropped; gaps become unlabelled spans. */
  function SpansFrom(rs: seq<Span>, cursor: nat, size: nat): seq<Span> {
    if rs == [] then (if cursor < size then [Span(cursor, size, None)] else [])
    else if rs[0].start < cursor then SpansFrom(rs[1..], cursor, size)
    else (if rs[0].start > cursor then [Span(cursor, rs[0].start, None)] else []) + [rs[0]] + SpansFrom(rs[1..], rs[0].end, size)
  }

  function SpansOf(content: string, symbols: seq<Symbol>): seq<Span>
    requires SymbolsFit(symbols, |Starts(content)|)
  {
    SpansFrom(Sorted(RegionsUpTo(Starts(content), |content|, symbols, |symbols|)), 0, |content|)
  }

  // ---- Cuts

  /** How far `room` bytes reach from `stop`. */
  function Window(content: string, stop: nat, end: nat, room: nat): (w: nat)
    requires stop <= end <= |content|
    ensures stop <= w <= end
    decreases end - stop
  {
    if stop == end || Width(content[stop]) > room then stop
    else Window(content, stop + 1, end, room - Width(content[stop]))
  }

  /** The last line break in (begin, stop], or begin. */
  function LastBreak(content: string, begin: nat, stop: nat): (k: nat)
    requires begin <= stop <= |content|
    ensures begin <= k <= stop
    decreases stop
  {
    if stop == begin || BreakEnd(content, stop) then stop else LastBreak(content, begin, stop - 1)
  }

  /** Where the next piece of [begin, end) ends. */
  function Cut(content: string, begin: nat, end: nat, limit: nat): (stop: nat)
    requires begin < end <= |content| && 4 <= limit
    ensures begin < stop <= end
  {
    var w := Window(content, begin, end, limit);
    assert w > begin by { assert Width(content[begin]) <= limit; }
    if w < end && LastBreak(content, begin, w) > begin then LastBreak(content, begin, w) else w
  }

  function Pieces(content: string, span: Span, limit: nat): seq<Span>
    requires span.end <= |content| && 4 <= limit
    decreases span.end - span.start
  {
    if span.start >= span.end then []
    else
      var stop := Cut(content, span.start, span.end, limit);
      [Span(span.start, stop, span.symbol)] + Pieces(content, Span(stop, span.end, span.symbol), limit)
  }

  ghost predicate SpansFit(spans: seq<Span>, size: nat) {
    forall s | s in spans :: s.end <= size
  }

  function AllPieces(content: string, spans: seq<Span>, limit: nat): seq<Span>
    requires SpansFit(spans, |content|) && 4 <= limit
  {
    if spans == [] then []
    else
      assert spans[0] in spans;
      Pieces(content, spans[0], limit) + AllPieces(content, spans[1..], limit)
  }

  // ---- Tilings

  /** Every span has content. */
  ghost predicate Solid(spans: seq<Span>, size: nat) {
    forall p | p in spans :: p.start < p.end <= size
  }

  /** The spans follow one another from a to b. */
  ghost predicate Tiles(spans: seq<Span>, a: nat, b: nat) {
    if spans == [] then a == b
    else spans[0].start == a && a <= spans[0].end && Tiles(spans[1..], spans[0].end, b)
  }

  lemma {:induction false} TilesAppend(p: seq<Span>, q: seq<Span>, a: nat, b: nat, c: nat)
    requires Tiles(p, a, b) && Tiles(q, b, c)
    ensures Tiles(p + q, a, c)
    decreases |p|
  {
    if p == [] {
      assert p + q == q;
    } else {
      assert (p + q)[1..] == p[1..] + q;
      TilesAppend(p[1..], q, p[0].end, b, c);
    }
  }

  lemma {:induction false} TilesWithin(spans: seq<Span>, a: nat, b: nat)
    requires Tiles(spans, a, b)
    ensures a <= b && forall s | s in spans :: a <= s.start <= s.end <= b
  {
    if spans != [] {
      TilesWithin(spans[1..], spans[0].end, b);
      forall s | s in spans ensures a <= s.start <= s.end <= b { assert s == spans[0] || s in spans[1..]; }
    }
  }

  // ---- Regions and spans tile the source

  lemma {:induction false} RegionsFit(starts: seq<nat>, size: nat, symbols: seq<Symbol>, n: nat, r: Span)
    requires SymbolsFit(symbols, |starts|) && n <= |symbols|
    ensures r in RegionsUpTo(starts, size, symbols, n) <==>
              r.symbol.Some? && r.symbol.value < n && Eligible(symbols, r.symbol.value) && r == Region(starts, size, symbols, r.symbol.value)
  {
    if n > 0 { RegionsFit(starts, size, symbols, n - 1, r); }
  }

  lemma RegionBounds(starts: seq<nat>, size: nat, symbols: seq<Symbol>, i: nat)
    requires SymbolsFit(symbols, |starts|) && Increasing(starts) && forall x | x in starts :: x <= size
    requires i < |symbols| && symbols[i].kind.Definition()
    ensures var r := Region(starts, size, symbols, i); r.start <= r.end <= size
  {
    assert starts[symbols[i].start - 1] in starts;
    if symbols[i].end < |starts| { assert starts[symbols[i].end] in starts; }
  }

  lemma {:induction false} PlaceMembers(r: Span, sorted: seq<Span>, x: Span)
    ensures x in Place(r, sorted) <==> x == r || x in sorted
  {
    if sorted != [] && !Before(r, sorted[0]) {
      PlaceMembers(r, sorted[1..], x);
      assert x in sorted <==> x == sorted[0] || x in sorted[1..];
    }
  }

  lemma {:induction false} SortedMembers(rs: seq<Span>, x: Span)
    ensures x in Sorted(rs) <==> x in rs
  {
    if rs != [] {
      SortedMembers(rs[1..], x);
      PlaceMembers(rs[0], Sorted(rs[1..]), x);
    }
  }

  ghost predicate Ordered(rs: seq<Span>) {
    forall i, j | 0 <= i < j < |rs| :: Before(rs[i], rs[j])
  }

  lemma {:induction false} PlaceOrders(r: Span, sorted: seq<Span>)
    requires Ordered(sorted)
    ensures Ordered(Place(r, sorted))
  {
    if sorted != [] && !Before(r, sorted[0]) {
      PlaceOrders(r, sorted[1..]);
      forall j | 0 <= j < |Place(r, sorted[1..])| ensures Before(sorted[0], Place(r, sorted[1..])[j]) {
        PlaceMembers(r, sorted[1..], Place(r, sorted[1..])[j]);
      }
    }
  }

  lemma {:induction false} SortedOrders(rs: seq<Span>)
    ensures Ordered(Sorted(rs))
  {
    if rs != [] {
      SortedOrders(rs[1..]);
      PlaceOrders(rs[0], Sorted(rs[1..]));
    }
  }

  lemma {:induction false} SpansTile(rs: seq<Span>, cursor: nat, size: nat)
    requires cursor <= size && forall r | r in rs :: r.start <= r.end <= size
    ensures Tiles(SpansFrom(rs, cursor, size), cursor, size)
    decreases |rs|
  {
    if rs != [] {
      assert rs[0] in rs;
      SpansTile(rs[1..], if rs[0].start < cursor then cursor else rs[0].end, size);
      if rs[0].start >= cursor {
        var gap := if rs[0].start > cursor then [Span(cursor, rs[0].start, None)] else [];
        TilesAppend([rs[0]], SpansFrom(rs[1..], rs[0].end, size), rs[0].start, rs[0].end, size);
        TilesAppend(gap, [rs[0]] + SpansFrom(rs[1..], rs[0].end, size), cursor, rs[0].start, size);
        assert gap + ([rs[0]] + SpansFrom(rs[1..], rs[0].end, size)) == gap + [rs[0]] + SpansFrom(rs[1..], rs[0].end, size);
      }
    }
  }

  lemma {:induction false} SortedRegionsFit(content: string, symbols: seq<Symbol>, r: Span)
    requires SymbolsFit(symbols, |Starts(content)|)
    ensures r in Sorted(RegionsUpTo(Starts(content), |content|, symbols, |symbols|)) <==>
              r.symbol.Some? && r.symbol.value < |symbols| && Eligible(symbols, r.symbol.value)
              && r == Region(Starts(content), |content|, symbols, r.symbol.value)
    ensures r in Sorted(RegionsUpTo(Starts(content), |content|, symbols, |symbols|)) ==> r.start <= r.end <= |content|
  {
    StartsIncrease(content, |content|);
    RegionsFit(Starts(content), |content|, symbols, |symbols|, r);
    SortedMembers(RegionsUpTo(Starts(content), |content|, symbols, |symbols|), r);
    if r.symbol.Some? && r.symbol.value < |symbols| && Eligible(symbols, r.symbol.value) {
      RegionBounds(Starts(content), |content|, symbols, r.symbol.value);
    }
  }

  /** Whatever the symbols, the spans cover the source exactly once, in order. */
  lemma SpansCover(content: string, symbols: seq<Symbol>)
    requires SymbolsFit(symbols, |Starts(content)|)
    ensures Tiles(SpansOf(content, symbols), 0, |content|) && SpansFit(SpansOf(content, symbols), |content|)
  {
    var sorted := Sorted(RegionsUpTo(Starts(content), |content|, symbols, |symbols|));
    forall r | r in sorted ensures r.start <= r.end <= |content| { SortedRegionsFit(content, symbols, r); }
    SpansTile(sorted, 0, |content|);
    TilesWithin(SpansOf(content, symbols), 0, |content|);
  }

  lemma {:induction false} PiecesFit(content: string, span: Span, limit: nat)
    requires span.end <= |content| && 4 <= limit
    ensures span.start <= span.end ==> Tiles(Pieces(content, span, limit), span.start, span.end)
    ensures Solid(Pieces(content, span, limit), |content|)
    decreases span.end - span.start
  {
    if span.start < span.end {
      PiecesFit(content, Span(Cut(content, span.start, span.end, limit), span.end, span.symbol), limit);
    }
  }

  lemma {:induction false} AllPiecesFit(content: string, spans: seq<Span>, limit: nat)
    requires SpansFit(spans, |content|) && 4 <= limit
    ensures Solid(AllPieces(content, spans, limit), |content|)
  {
    if spans != [] {
      assert spans[0] in spans;
      PiecesFit(content, spans[0], limit);
      AllPiecesFit(content, spans[1..], limit);
    }
  }

  function MakeChunk(content: string, p: Span, ordinal: nat, mode: string): Chunk
    requires p.start < p.end <= |content|
  {
    Chunk(ordinal, p.start, p.end, LineOf(content, p.start), LineOf(content, p.end - 1), p.symbol,
          if p.symbol.Some? then "symbol" else mode, content[p.start..p.end])
  }

  /** The pieces of a whole file. */
  function PiecesOf(content: string, symbols: seq<Symbol>, limit: nat): (pieces: seq<Span>)
    requires SymbolsFit(symbols, |Starts(content)|) && 4 <= limit
    ensures Solid(pieces, |content|)
  {
    SpansCover(content, symbols);
    AllPiecesFit(content, SpansOf(content, symbols), limit);
    AllPieces(content, SpansOf(content, symbols), limit)
  }

  /** Pieces become chunks, numbered from `first`. */
  function Numbered(content: string, pieces: seq<Span>, first: nat, mode: string): (chunks: seq<Chunk>)
    requires Solid(pieces, |content|)
    ensures |chunks| == |pieces|
  {
    seq(|pieces|, k requires 0 <= k < |pieces| =>
      assert pieces[k] in pieces;
      MakeChunk(content, pieces[k], first + k, mode))
  }

  lemma NumberedAppend(content: string, p: seq<Span>, q: seq<Span>, first: nat, mode: string)
    requires Solid(p, |content|) && Solid(q, |content|)
    ensures Solid(p + q, |content|)
    ensures Numbered(content, p + q, first, mode) == Numbered(content, p, first, mode) + Numbered(content, q, first + |p|, mode)
  {
    hide MakeChunk;
  }

  function ChunksOf(content: string, symbols: seq<Symbol>, mode: string, limit: nat): seq<Chunk>
    requires SymbolsFit(symbols, |Starts(content)|) && 4 <= limit
  {
    Numbered(content, PiecesOf(content, symbols, limit), 0, mode)
  }

  // ---- The algorithm as written

  /** Walk up the parents, collecting them, and look for a function among them. */
  method IsInFunction(symbols: seq<Symbol>, i: nat) returns (inside: bool)
    requires i < |symbols| && forall k | 0 <= k < |symbols| :: symbols[k].parent.Some? ==> symbols[k].parent.value < k
    ensures inside <==> InFunction(symbols, i)
  {
    var ancestors: seq<nat> := [];
    var parent := symbols[i].parent;
    ghost var at: nat := i;
    while parent.Some?
      invariant at <= i && parent == symbols[at].parent
      invariant ancestors + Ancestors(symbols, at) == Ancestors(symbols, i)
      decreases at
    {
      at := parent.value;
      ancestors := ancestors + [parent.value];
      parent := symbols[parent.value].parent;
    }
    AncestorsExist(symbols, i);
    assert ancestors == Ancestors(symbols, i);
    inside := exists a | a in ancestors :: symbols[a].kind == Function || symbols[a].kind == Method;
  }

  lemma {:induction false} AncestorsExist(symbols: seq<Symbol>, i: nat)
    requires i < |symbols|
    ensures forall a | a in Ancestors(symbols, i) :: a < i
    decreases i
  {
    if symbols[i].parent.Some? && symbols[i].parent.value < i { AncestorsExist(symbols, symbols[i].parent.value); }
  }

  method FindRegions(starts: seq<nat>, size: nat, symbols: seq<Symbol>) returns (regions: seq<Span>)
    requires SymbolsFit(symbols, |starts|)
    ensures regions == RegionsUpTo(starts, size, symbols, |symbols|)
  {
    regions := [];
    var definitionParents := set s | s in symbols && (s.kind == Class || s.kind == Method) :: s.parent;
    for i := 0 to |symbols|
      invariant regions == RegionsUpTo(starts, size, symbols, i)
    {
      var s := symbols[i];
      if s.kind != Function && s.kind != Method && s.kind != Class { continue; }
      var inside := IsInFunction(symbols, i);
      if inside { continue; }
      assert Some(i) in definitionParents <==> HoldsDefinitions(symbols, i);
      if s.kind == Class && Some(i) in definitionParents { continue; }
      regions := regions + [Span(starts[s.start - 1], if s.end < |starts| then starts[s.end] else size, Some(i))];
    }
  }

  method FindSpans(regions: seq<Span>, size: nat) returns (spans: seq<Span>)
    ensures spans == SpansFrom(Sorted(regions), 0, size)
  {
    spans := [];
    var cursor: nat := 0;
    var sorted := Sorted(regions);
    for i := 0 to |sorted|
      invariant spans + SpansFrom(sorted[i..], cursor, size) == SpansFrom(sorted, 0, size)
    {
      assert sorted[i..][0] == sorted[i] && sorted[i..][1..] == sorted[i + 1..];
      if sorted[i].start < cursor { continue; }
      ghost var before := spans;
      if sorted[i].start > cursor { spans := spans + [Span(cursor, sorted[i].start, None)]; }
      spans := spans + [sorted[i]];
      assert spans == before + (if sorted[i].start > cursor then [Span(cursor, sorted[i].start, None)] else []) + [sorted[i]];
      cursor := sorted[i].end;
    }
    if cursor < size { spans := spans + [Span(cursor, size, None)]; }
  }

  /** The inner loop: extend the window character by character, remembering the last break. */
  method NextCut(content: string, begin: nat, end: nat, limit: nat) returns (stop: nat)
    requires begin < end <= |content| && 4 <= limit
    ensures stop == Cut(content, begin, end, limit)
  {
    stop := begin;
    var size: nat, lastBreak := 0, begin;
    while stop < end
      invariant begin <= stop <= end && size <= limit
      invariant Window(content, begin, end, limit) == Window(content, stop, end, limit - size)
      invariant stop < end ==> lastBreak == LastBreak(content, begin, stop)
    {
      var width := Width(content[stop]);
      if size + width > limit { break; }
      size := size + width;
      stop := stop + 1;
      if content[stop - 1] == '\n' || (content[stop - 1] == '\r' && (stop == end || content[stop] != '\n')) {
        lastBreak := stop;
      }
    }
    if stop < end && lastBreak > begin { stop := lastBreak; }
  }

  /** Cut the first piece off a span and number its lines. */
  method OneChunk(content: string, starts: seq<nat>, span: Span, mode: string, limit: nat, ordinal: nat) returns (chunk: Chunk)
    requires span.start < span.end <= |content| && 4 <= limit && starts == Starts(content)
    ensures chunk == MakeChunk(content, Span(span.start, Cut(content, span.start, span.end, limit), span.symbol), ordinal, mode)
    ensures chunk.end == Cut(content, span.start, span.end, limit)
  {
    StartsIncrease(content, |content|);
    var stop := NextCut(content, span.start, span.end, limit);
    var startLine := BisectRight(starts, span.start);
    var endLine := BisectRight(starts, stop - 1);
    BisectFindsLine(content, span.start, startLine);
    BisectFindsLine(content, stop - 1, endLine);
    chunk := Chunk(ordinal, span.start, stop, startLine, endLine, span.symbol,
                   if span.symbol.Some? then "symbol" else mode, content[span.start..stop]);
  }

  lemma NumberedOne(content: string, piece: Span, first: nat, mode: string)
    requires piece.start < piece.end <= |content|
    ensures Solid([piece], |content|) && Numbered(content, [piece], first, mode) == [MakeChunk(content, piece, first, mode)]
  {
    hide MakeChunk;
  }

  // ---- Chunks appended one by one

  /** The chunks after cutting up one span, appended to those so far. */
  function CutInto(content: string, span: Span, mode: string, limit: nat, chunks: seq<Chunk>): seq<Chunk>
    requires span.end <= |content| && 4 <= limit
    decreases span.end - span.start
  {
    if span.start >= span.end then chunks
    else
      var stop := Cut(content, span.start, span.end, limit);
      CutInto(content, Span(stop, span.end, span.symbol), mode, limit,
              chunks + [MakeChunk(content, Span(span.start, stop, span.symbol), |chunks|, mode)])
  }

  function CutAllInto(content: string, spans: seq<Span>, mode: string, limit: nat, chunks: seq<Chunk>): seq<Chunk>
    requires SpansFit(spans, |content|) && 4 <= limit
  {
    if spans == [] then chunks
    else
      assert spans[0] in spans;
      CutAllInto(content, spans[1..], mode, limit, CutInto(content, spans[0], mode, limit, chunks))
  }

  lemma {:induction false} CutIntoNumbers(content: string, span: Span, mode: string, limit: nat, chunks: seq<Chunk>)
    requires span.end <= |content| && 4 <= limit
    ensures Solid(Pieces(content, span, limit), |content|)
    ensures CutInto(content, span, mode, limit, chunks) == chunks + Numbered(content, Pieces(content, span, limit), |chunks|, mode)
    decreases span.end - span.start
  {
    hide MakeChunk, Numbered, Solid, Window, LastBreak;
    PiecesFit(content, span, limit);
    if span.start < span.end {
      var stop := Cut(content, span.start, span.end, limit);
      var piece, rest := Span(span.start, stop, span.symbol), Span(stop, span.end, span.symbol);
      var chunk := MakeChunk(content, piece, |chunks|, mode);
      CutIntoNumbers(content, rest, mode, limit, chunks + [chunk]);
      NumberedOne(content, piece, |chunks|, mode);
      NumberedAppend(content, [piece], Pieces(content, rest, limit), |chunks|, mode);
      Regroup(chunks, [chunk], Numbered(content, Pieces(content, rest, limit), |chunks| + 1, mode));
    }
  }

  lemma {:induction false} CutAllIntoNumbers(content: string, spans: seq<Span>, mode: string, limit: nat, chunks: seq<Chunk>)
    requires SpansFit(spans, |content|) && 4 <= limit
    ensures Solid(AllPieces(content, spans, limit), |content|)
    ensures CutAllInto(content, spans, mode, limit, chunks) == chunks + Numbered(content, AllPieces(content, spans, limit), |chunks|, mode)
  {
    hide Numbered, Solid, CutInto, Pieces, SpansFit;
    AllPiecesFit(content, spans, limit);
    if spans == [] {
      assert Numbered(content, AllPieces(content, spans, limit), |chunks|, mode) == [];
    } else {
      FirstFits(spans, |content|);
      var pieces, rest := Pieces(content, spans[0], limit), AllPieces(content, spans[1..], limit);
      CutIntoNumbers(content, spans[0], mode, limit, chunks);
      CutAllIntoNumbers(content, spans[1..], mode, limit, CutInto(content, spans[0], mode, limit, chunks));
      NumberedAppend(content, pieces, rest, |chunks|, mode);
      Regroup(chunks, Numbered(content, pieces, |chunks|, mode), Numbered(content, rest, |chunks| + |pieces|, mode));
    }
  }

  lemma FirstFits(spans: seq<Span>, size: nat)
    requires SpansFit(spans, size) && spans != []
    ensures spans[0].end <= size && SpansFit(spans[1..], size)
  {
    assert spans[0] in spans;
  }

  lemma ChunksAreCut(content: string, symbols: seq<Symbol>, mode: string, limit: nat)
    requires SymbolsFit(symbols, |Starts(content)|) && 4 <= limit
    ensures SpansFit(SpansOf(content, symbols), |content|)
    ensures CutAllInto(content, SpansOf(content, symbols), mode, limit, []) == ChunksOf(content, symbols, mode, limit)
  {
    SpansCover(content, symbols);
    hide SpansOf, Numbered, CutAllInto, SymbolsFit, SpansFit, Solid, Starts, AllPieces;
    CutAllIntoNumbers(content, SpansOf(content, symbols), mode, limit, []);
    assert [] + ChunksOf(content, symbols, mode, limit) == ChunksOf(content, symbols, mode, limit);
  }

  /** `chunk_source`; `None` is the ValueError for a limit that cannot hold every character. */
  method ChunkSource(content: string, symbols: seq<Symbol>, mode: string, limit: nat) returns (result: Option<seq<Chunk>>)
    requires SymbolsFit(symbols, |Starts(content)|)
    ensures result == if limit < 4 then None else Some(ChunksOf(content, symbols, mode, limit))
  {
    if limit < 4 { return None; }
    var starts := LineStarts(content);
    var regions := FindRegions(starts, |content|, symbols);
    var spans := FindSpans(regions, |content|);
    ChunksAreCut(content, symbols, mode, limit);
    hide ChunksOf, CutAllInto, SymbolsFit, SpansFit, Starts, RegionsUpTo, SpansFrom, Sorted;
    var chunks := CutSpans(content, starts, spans, mode, limit);
    result := Some(chunks);
  }

  method CutSpans(content: string, starts: seq<nat>, spans: seq<Span>, mode: string, limit: nat) returns (chunks: seq<Chunk>)
    requires SpansFit(spans, |content|) && 4 <= limit && starts == Starts(content)
    ensures chunks == CutAllInto(content, spans, mode, limit, [])
  {
    chunks := [];
    for i := 0 to |spans|
      invariant CutAllInto(content, spans[i..], mode, limit, chunks) == CutAllInto(content, spans, mode, limit, [])
    {
      assert spans[i..][0] == spans[i] && spans[i..][1..] == spans[i + 1..] && spans[i] in spans;
      ghost var before := chunks;
      var begin := spans[i].start;
      while begin < spans[i].end
        invariant CutInto(content, Span(begin, spans[i].end, spans[i].symbol), mode, limit, chunks) == CutInto(content, spans[i], mode, limit, before)
        decreases spans[i].end - begin
      {
        var chunk := OneChunk(content, starts, Span(begin, spans[i].end, spans[i].symbol), mode, limit, |chunks|);
        chunks := chunks + [chunk];
        begin := chunk.end;
      }
    }
  }
}
