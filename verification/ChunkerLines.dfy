/** Which lines the chunker tears, and where: a line is cut inside only if it does not fit the byte
    limit, and then after every stretch that fills it. */
module ChunkerLines {
  import opened Options
  import opened Symbols
  import opened SourceLines
  import opened Chunker
  import opened ChunkerResults

  /** One line of the source with its line break, if it has one. */
  ghost predicate Line(content: string, a: nat, e: nat) {
    && a < e <= |content| && (a == 0 || BreakEnd(content, a)) && (e == |content| || BreakEnd(content, e))
    && forall x | a < x < e :: !BreakEnd(content, x)
  }

  /** Starting at a, fill the limit over and over: the positions reached before e. */
  function FullStops(content: string, a: nat, e: nat, limit: nat): seq<nat>
    requires a <= e <= |content| && 4 <= limit
    decreases e - a
  {
    if a == e then []
    else
      var w := Window(content, a, e, limit);
      assert w > a by { assert Width(content[a]) <= limit; }
      if w == e then [] else [w] + FullStops(content, w, e, limit)
  }

  /** Some piece ends at x. */
  ghost predicate EndsAt(pieces: seq<Span>, x: nat) {
    exists p :: p in pieces && p.end == x
  }

  lemma {:induction false} StopsAreInside(content: string, a: nat, e: nat, limit: nat)
    requires a <= e <= |content| && 4 <= limit
    ensures forall x | x in FullStops(content, a, e, limit) :: a < x < e
    decreases e - a
  {
    if a < e {
      var w := Window(content, a, e, limit);
      assert w > a by { assert Width(content[a]) <= limit; }
      if w < e { StopsAreInside(content, w, e, limit); }
    }
  }

  /** A window that ends before e does not look beyond it. */
  lemma {:induction false} WindowIsLocal(content: string, stop: nat, e: nat, end: nat, room: nat)
    requires stop <= e <= end <= |content|
    ensures Window(content, stop, e, room) < e ==> Window(content, stop, end, room) == Window(content, stop, e, room)
    ensures Window(content, stop, e, room) == e ==> Window(content, stop, end, room) >= e
    decreases e - stop
  {
    if stop < e && Width(content[stop]) <= room { WindowIsLocal(content, stop + 1, e, end, room - Width(content[stop])); }
  }

  /** The cut that begins within a line: at the end of the window if the line does not fit, and not
      before the end of the line if it does. */
  lemma CutInLine(content: string, begin: nat, e: nat, end: nat, limit: nat)
    requires begin < e <= end <= |content| && 4 <= limit
    requires (forall x | begin < x < e :: !BreakEnd(content, x)) && (e == end || BreakEnd(content, e))
    ensures var w := Window(content, begin, e, limit);
            if w < e then Cut(content, begin, end, limit) == w else Cut(content, begin, end, limit) >= e
  {
    var w, v := Window(content, begin, e, limit), Window(content, begin, end, limit);
    WindowIsLocal(content, begin, e, end, limit);
    LastBreakIsLast(content, begin, v);
  }

  lemma EndsFirst(p: Span, later: seq<Span>, x: nat)
    ensures EndsAt([p] + later, x) <==> p.end == x || EndsAt(later, x)
  {
    if EndsAt(later, x) {
      var q :| q in later && q.end == x;
      assert q in [p] + later;
    }
    if p.end == x { assert p in [p] + later; }
  }

  lemma EndsLater(pieces: seq<Span>, a: nat, b: nat, x: nat)
    requires Tiles(pieces, a, b) && Solid(pieces, b) && (x <= a || b < x)
    ensures !EndsAt(pieces, x)
  {
    TilesWithin(pieces, a, b);
  }

  lemma PiecesTile(content: string, span: Span, limit: nat)
    requires span.start <= span.end <= |content| && 4 <= limit
    ensures Tiles(Pieces(content, span, limit), span.start, span.end) && Solid(Pieces(content, span, limit), span.end)
  {
    PiecesFit(content, span, limit);
    TilesWithin(Pieces(content, span, limit), span.start, span.end);
  }

  /** From a position within a line on, the pieces end inside the line at the full stops. */
  lemma {:induction false} PiecesInLine(content: string, span: Span, e: nat, limit: nat, x: nat)
    requires span.start < e <= span.end <= |content| && 4 <= limit && span.start < x < e
    requires (forall y | span.start < y < e :: !BreakEnd(content, y)) && (e == span.end || BreakEnd(content, e))
    ensures EndsAt(Pieces(content, span, limit), x) <==> x in FullStops(content, span.start, e, limit)
    decreases span.end - span.start
  {
    var stop := Cut(content, span.start, span.end, limit);
    var first, rest := Span(span.start, stop, span.symbol), Span(stop, span.end, span.symbol);
    var w := Window(content, span.start, e, limit);
    CutInLine(content, span.start, e, span.end, limit);
    PiecesTile(content, rest, limit);
    EndsFirst(first, Pieces(content, rest, limit), x);
    if w < e {
      StopsAreInside(content, w, e, limit);
      if x > w { PiecesInLine(content, rest, e, limit, x); } else { EndsLater(Pieces(content, rest, limit), stop, span.end, x); }
    } else {
      EndsLater(Pieces(content, rest, limit), stop, span.end, x);
    }
  }

  /** A line that fits has no full stops. */
  lemma FittingLine(content: string, a: nat, e: nat, limit: nat)
    requires a < e <= |content| && 4 <= limit && Bytes(content, a, e) <= limit
    ensures FullStops(content, a, e, limit) == []
  {
    var w := Window(content, a, e, limit);
    WindowIsGreatest(content, a, e, limit);
    if w < e { BytesGrow(content, a, w + 1, e); }
  }

  /** A cut that begins before a line does not end inside it. */
  lemma CutBeforeLine(content: string, begin: nat, a: nat, e: nat, end: nat, limit: nat)
    requires begin < a && Line(content, a, e) && e <= end <= |content| && 4 <= limit
    ensures var stop := Cut(content, begin, end, limit);
            stop <= a || (stop >= e && FullStops(content, a, e, limit) == [])
  {
    var stop := Cut(content, begin, end, limit);
    CutFollowsRule(content, begin, end, limit);
    if stop > a {
      assert stop >= e;
      BytesGrow(content, begin, e, stop);
      BytesAppend(content, begin, a, e);
      FittingLine(content, a, e, limit);
    }
  }

  lemma {:induction false} PiecesOnLine(content: string, span: Span, a: nat, e: nat, limit: nat, x: nat)
    requires span.start <= a && Line(content, a, e) && e <= span.end <= |content| && 4 <= limit && a < x < e
    ensures EndsAt(Pieces(content, span, limit), x) <==> x in FullStops(content, a, e, limit)
    decreases span.end - span.start
  {
    if span.start == a {
      PiecesInLine(content, span, e, limit, x);
    } else {
      var stop := Cut(content, span.start, span.end, limit);
      var first, rest := Span(span.start, stop, span.symbol), Span(stop, span.end, span.symbol);
      CutBeforeLine(content, span.start, a, e, span.end, limit);
      EndsFirst(first, Pieces(content, rest, limit), x);
      if stop <= a {
        PiecesOnLine(content, rest, a, e, limit, x);
      } else {
        PiecesTile(content, rest, limit);
        EndsLater(Pieces(content, rest, limit), stop, span.end, x);
      }
    }
  }

  lemma EndsAppend(p: seq<Span>, q: seq<Span>, x: nat)
    ensures EndsAt(p + q, x) <==> EndsAt(p, x) || EndsAt(q, x)
  {
    if EndsAt(p, x) {
      var s :| s in p && s.end == x;
      assert s in p + q;
    }
    if EndsAt(q, x) {
      var s :| s in q && s.end == x;
      assert s in p + q;
    }
  }

  lemma LaterSpans(content: string, spans: seq<Span>, limit: nat, a: nat, b: nat, x: nat)
    requires SpansFit(spans, |content|) && 4 <= limit && Tiles(spans, a, b) && x <= a
    ensures !EndsAt(AllPieces(content, spans, limit), x)
  {
    AllPiecesTile(content, spans, limit, a, b);
    AllPiecesFit(content, spans, limit);
    TilesWithin(AllPieces(content, spans, limit), a, b);
  }

  lemma {:induction false} SpansOnLine(content: string, spans: seq<Span>, from: nat, a: nat, e: nat, limit: nat, x: nat)
    requires SpansFit(spans, |content|) && 4 <= limit && Tiles(spans, from, |content|) && from <= a
    requires (forall s | s in spans :: OnLine(content, s.end)) && Line(content, a, e) && a < x < e
    ensures EndsAt(AllPieces(content, spans, limit), x) <==> x in FullStops(content, a, e, limit)
    decreases |spans|
  {
    var s, later := spans[0], spans[1..];
    FirstFits(spans, |content|);
    assert s in spans && forall t | t in later :: t in spans;
    EndsAppend(Pieces(content, s, limit), AllPieces(content, later, limit), x);
    if s.end <= a {
      SpansOnLine(content, later, s.end, a, e, limit, x);
      PiecesTile(content, s, limit);
      EndsLater(Pieces(content, s, limit), s.start, s.end, x);
    } else {
      assert e <= s.end by { assert OnLine(content, s.end); }
      PiecesOnLine(content, s, a, e, limit, x);
      LaterSpans(content, later, limit, s.end, |content|, x);
    }
  }

  /** A chunk ends at x. */
  ghost predicate Boundary(chunks: seq<Chunk>, x: nat) {
    exists k :: 0 <= k < |chunks| && chunks[k].end == x
  }

  lemma PieceEndsAreBoundaries(content: string, symbols: seq<Symbol>, mode: string, limit: nat, x: nat)
    requires SymbolsFit(symbols, |Starts(content)|) && 4 <= limit
    ensures Boundary(ChunksOf(content, symbols, mode, limit), x) <==> EndsAt(PiecesOf(content, symbols, limit), x)
  {
    var chunks, pieces := ChunksOf(content, symbols, mode, limit), PiecesOf(content, symbols, limit);
    forall k | 0 <= k < |chunks| ensures chunks[k].end == pieces[k].end { ChunkAt(content, symbols, mode, limit, k); }
    hide ChunksOf, PiecesOf, SymbolsFit, Starts;
    if EndsAt(pieces, x) {
      var p :| p in pieces && p.end == x;
      var k :| 0 <= k < |pieces| && pieces[k] == p;
      assert chunks[k].end == x;
    }
    if Boundary(chunks, x) {
      var k :| 0 <= k < |chunks| && chunks[k].end == x;
      assert pieces[k] in pieces;
    }
  }

  /** Where lines are cut: whatever the symbols, a chunk ends inside a line exactly where filling the
      limit from the start of the line over and over stops. */
  lemma LinesAreCutWhenFull(content: string, symbols: seq<Symbol>, mode: string, limit: nat, a: nat, e: nat, x: nat)
    requires SymbolsFit(symbols, |Starts(content)|) && 4 <= limit && Line(content, a, e) && a < x < e
    ensures Boundary(ChunksOf(content, symbols, mode, limit), x) <==> x in FullStops(content, a, e, limit)
  {
    SpansCover(content, symbols);
    forall s | s in SpansOf(content, symbols) ensures OnLine(content, s.end) { SpanEndsOnLine(content, symbols, s); }
    PieceEndsAreBoundaries(content, symbols, mode, limit, x);
    SpansOnLine(content, SpansOf(content, symbols), 0, a, e, limit, x);
  }

  /** The exact condition: the CR LF at the end of a line is torn between two chunks if and only if
      the position between the two is one of the line's full stops. */
  lemma CrLfIsTornExactly(content: string, symbols: seq<Symbol>, mode: string, limit: nat, a: nat, e: nat)
    requires SymbolsFit(symbols, |Starts(content)|) && 4 <= limit && Line(content, a, e)
    requires a + 2 <= e && content[e - 2] == '\r' && content[e - 1] == '\n'
    ensures Boundary(ChunksOf(content, symbols, mode, limit), e - 1) <==> e - 1 in FullStops(content, a, e, limit)
  {
    hide SymbolsFit, Starts, ChunksOf, Line, FullStops, Boundary;
    WithinLine(content, a, e);
    LinesAreCutWhenFull(content, symbols, mode, limit, a, e, e - 1);
  }

  lemma WithinLine(content: string, a: nat, e: nat)
    requires Line(content, a, e)
    ensures e <= |content|
  {
  }

  /** A line that fits the limit, its line break included, is never torn. */
  lemma FittingLinesAreWhole(content: string, symbols: seq<Symbol>, mode: string, limit: nat, a: nat, e: nat, x: nat)
    requires SymbolsFit(symbols, |Starts(content)|) && 4 <= limit && Line(content, a, e) && a < x < e
    requires Bytes(content, a, e) <= limit
    ensures !Boundary(ChunksOf(content, symbols, mode, limit), x)
  {
    LinesAreCutWhenFull(content, symbols, mode, limit, a, e, x);
    FittingLine(content, a, e, limit);
  }
}
