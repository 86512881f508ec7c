/** What the chunks of a source file are: an exact partition, cut by one rule, with true line
    numbers, and labelled so that no definition with a region of its own is lost. */
module ChunkerResults {
  import opened Options
  import opened Symbols
  import opened SymbolScopes
  import opened SymbolPlaces
  import opened SourceLines
  import opened Chunker

  // ---- Where a piece ends

  lemma {:induction false} BytesAppend(content: string, a: nat, b: nat, c: nat)
    requires a <= b <= c <= |content|
    ensures Bytes(content, a, c) == Bytes(content, a, b) + Bytes(content, b, c)
    decreases c
  {
    if b < c { BytesAppend(content, a, b, c - 1); }
  }

  lemma {:induction false} BytesGrow(content: string, a: nat, b: nat, c: nat)
    requires a <= b <= c <= |content|
    ensures Bytes(content, a, b) <= Bytes(content, a, c)
  {
    BytesAppend(content, a, b, c);
  }

  lemma {:induction false} WindowIsGreatest(content: string, stop: nat, end: nat, room: nat)
    requires stop <= end <= |content|
    ensures var w := Window(content, stop, end, room);
            Bytes(content, stop, w) <= room && (w < end ==> Bytes(content, stop, w + 1) > room)
    decreases end - stop
  {
    if stop < end && Width(content[stop]) <= room {
      var w := Window(content, stop, end, room);
      WindowIsGreatest(content, stop + 1, end, room - Width(content[stop]));
      BytesAppend(content, stop, stop + 1, w);
      if w < end { BytesAppend(content, stop, stop + 1, w + 1); }
    }
  }

  lemma {:induction false} LastBreakIsLast(content: string, begin: nat, stop: nat)
    requires begin <= stop <= |content|
    ensures var k := LastBreak(content, begin, stop);
            (k > begin ==> BreakEnd(content, k)) && forall x | k < x <= stop :: !BreakEnd(content, x)
    decreases stop
  {
    if stop > begin && !BreakEnd(content, stop) { LastBreakIsLast(content, begin, stop - 1); }
  }

  /** The cut rule: take everything if it fits; otherwise stop after the last line break that
      still fits, and only if there is none, before the first character that does not. */
  ghost predicate CutRule(content: string, begin: nat, end: nat, limit: nat, stop: nat)
    requires end <= |content|
  {
    && begin < stop <= end && Bytes(content, begin, stop) <= limit
    && (Bytes(content, begin, end) <= limit ==> stop == end)
    && (stop < end ==>
          && (forall k | stop < k <= end && BreakEnd(content, k) :: Bytes(content, begin, k) > limit)
          && (BreakEnd(content, stop)
              || (Bytes(content, begin, stop + 1) > limit && forall k | begin < k <= stop :: !BreakEnd(content, k))))
  }

  lemma CutFollowsRule(content: string, begin: nat, end: nat, limit: nat)
    requires begin < end <= |content| && 4 <= limit
    ensures CutRule(content, begin, end, limit, Cut(content, begin, end, limit))
  {
    var w, stop := Window(content, begin, end, limit), Cut(content, begin, end, limit);
    WindowIsGreatest(content, begin, end, limit);
    LastBreakIsLast(content, begin, w);
    BytesGrow(content, begin, stop, w);
    if w < end {
      BytesGrow(content, begin, w + 1, end);
      forall k | stop < k <= end && BreakEnd(content, k) ensures Bytes(content, begin, k) > limit {
        if k > w { BytesGrow(content, begin, w + 1, k); }
      }
    }
  }

  lemma NoLaterCut(content: string, begin: nat, end: nat, limit: nat, s: nat, t: nat)
    requires end <= |content| && CutRule(content, begin, end, limit, s)
    ensures s < t ==> !CutRule(content, begin, end, limit, t)
  {
    if s < t <= end { BytesGrow(content, begin, s + 1, t); }
  }

  /** The rule leaves no choice. */
  lemma CutRuleIsExact(content: string, begin: nat, end: nat, limit: nat, s: nat, t: nat)
    requires end <= |content| && CutRule(content, begin, end, limit, s) && CutRule(content, begin, end, limit, t)
    ensures s == t
  {
    NoLaterCut(content, begin, end, limit, s, t);
    NoLaterCut(content, begin, end, limit, t, s);
  }

  /** A piece of a span: labelled like it, inside it, and cut by the rule. */
  ghost predicate PieceOf(content: string, span: Span, limit: nat, p: Span) {
    && span.end <= |content| && p.symbol == span.symbol && span.start <= p.start < p.end <= span.end
    && CutRule(content, p.start, span.end, limit, p.end)
  }

  lemma {:induction false} PiecesFollowRule(content: string, span: Span, limit: nat, p: Span)
    requires span.end <= |content| && 4 <= limit && p in Pieces(content, span, limit)
    ensures PieceOf(content, span, limit, p)
    decreases span.end - span.start
  {
    var stop := Cut(content, span.start, span.end, limit);
    CutFollowsRule(content, span.start, span.end, limit);
    if p != Span(span.start, stop, span.symbol) {
      PiecesFollowRule(content, Span(stop, span.end, span.symbol), limit, p);
    }
  }

  lemma {:induction false} AllPiecesFollowRule(content: string, spans: seq<Span>, limit: nat, p: Span)
    requires SpansFit(spans, |content|) && 4 <= limit && p in AllPieces(content, spans, limit)
    ensures exists span :: span in spans && PieceOf(content, span, limit, p)
  {
    FirstFits(spans, |content|);
    if p in Pieces(content, spans[0], limit) {
      PiecesFollowRule(content, spans[0], limit, p);
      assert spans[0] in spans;
    } else {
      AllPiecesFollowRule(content, spans[1..], limit, p);
      var span :| span in spans[1..] && PieceOf(content, span, limit, p);
      assert span in spans;
    }
  }

  // ---- The partition

  lemma {:induction false} AllPiecesTile(content: string, spans: seq<Span>, limit: nat, a: nat, b: nat)
    requires SpansFit(spans, |content|) && 4 <= limit && Tiles(spans, a, b)
    ensures Tiles(AllPieces(content, spans, limit), a, b)
    decreases |spans|
  {
    if spans != [] {
      FirstFits(spans, |content|);
      PiecesFit(content, spans[0], limit);
      AllPiecesTile(content, spans[1..], limit, spans[0].end, b);
      TilesAppend(Pieces(content, spans[0], limit), AllPieces(content, spans[1..], limit), a, spans[0].end, b);
    }
  }

  lemma {:induction false} TilesAt(spans: seq<Span>, a: nat, b: nat, k: nat)
    requires Tiles(spans, a, b) && k < |spans|
    ensures (k == 0 ==> spans[k].start == a) && spans[k].end == (if k + 1 < |spans| then spans[k + 1].start else b)
    decreases k
  {
    if k > 0 { TilesAt(spans[1..], spans[0].end, b, k - 1); }
  }

  /** Some position of a tiling lies in one of its spans. */
  lemma {:induction false} TilesHit(spans: seq<Span>, a: nat, b: nat, pos: nat)
    requires Tiles(spans, a, b) && a <= pos < b
    ensures exists s :: s in spans && s.start <= pos < s.end
    decreases |spans|
  {
    if spans[0].end <= pos {
      TilesHit(spans[1..], spans[0].end, b, pos);
      var s :| s in spans[1..] && s.start <= pos < s.end;
      assert s in spans;
    } else {
      assert spans[0] in spans;
    }
  }

  function Joined(chunks: seq<Chunk>): string {
    if chunks == [] then "" else chunks[0].content + Joined(chunks[1..])
  }

  lemma NumberedFirst(content: string, pieces: seq<Span>, first: nat, mode: string)
    requires Solid(pieces, |content|) && pieces != []
    ensures pieces[0].start < pieces[0].end <= |content| && Solid(pieces[1..], |content|)
    ensures Numbered(content, pieces, first, mode) ==
              [MakeChunk(content, pieces[0], first, mode)] + Numbered(content, pieces[1..], first + 1, mode)
  {
    assert pieces[0] in pieces;
    NumberedOne(content, pieces[0], first, mode);
    assert pieces == [pieces[0]] + pieces[1..];
    NumberedAppend(content, [pieces[0]], pieces[1..], first, mode);
    hide Numbered, MakeChunk;
  }

  lemma SliceJoin(content: string, a: nat, b: nat, c: nat)
    requires a <= b <= c <= |content|
    ensures content[a..b] + content[b..c] == content[a..c]
  {
  }

  lemma {:induction false} NumberedJoined(content: string, pieces: seq<Span>, first: nat, mode: string, a: nat, b: nat)
    requires Solid(pieces, |content|) && Tiles(pieces, a, b) && b <= |content|
    ensures a <= b && Joined(Numbered(content, pieces, first, mode)) == content[a..b]
    decreases |pieces|
  {
    hide Numbered, Solid;
    if pieces != [] {
      NumberedFirst(content, pieces, first, mode);
      NumberedJoined(content, pieces[1..], first + 1, mode, pieces[0].end, b);
      SliceJoin(content, a, pieces[0].end, b);
    }
  }

  lemma ChunkAt(content: string, symbols: seq<Symbol>, mode: string, limit: nat, k: nat)
    requires SymbolsFit(symbols, |Starts(content)|) && 4 <= limit && k < |ChunksOf(content, symbols, mode, limit)|
    ensures var p := PiecesOf(content, symbols, limit)[k];
            p.start < p.end <= |content| && ChunksOf(content, symbols, mode, limit)[k] == MakeChunk(content, p, k, mode)
  {
    assert PiecesOf(content, symbols, limit)[k] in PiecesOf(content, symbols, limit);
  }

  lemma PiecesCover(content: string, symbols: seq<Symbol>, limit: nat)
    requires SymbolsFit(symbols, |Starts(content)|) && 4 <= limit
    ensures Tiles(PiecesOf(content, symbols, limit), 0, |content|)
  {
    SpansCover(content, symbols);
    AllPiecesTile(content, SpansOf(content, symbols), limit, 0, |content|);
  }

  /** The chunks are the source: numbered, nonempty, contiguous slices from its first character
      to its last. */
  lemma ChunksAreContiguous(content: string, symbols: seq<Symbol>, mode: string, limit: nat, k: nat)
    requires SymbolsFit(symbols, |Starts(content)|) && 4 <= limit && k < |ChunksOf(content, symbols, mode, limit)|
    ensures var chunks := ChunksOf(content, symbols, mode, limit);
            && chunks[k].ordinal == k && chunks[k].start < chunks[k].end <= |content|
            && (k == 0 ==> chunks[k].start == 0)
            && chunks[k].end == (if k + 1 < |chunks| then chunks[k + 1].start else |content|)
            && chunks[k].content == content[chunks[k].start..chunks[k].end]
  {
    PiecesCover(content, symbols, limit);
    TilesAt(PiecesOf(content, symbols, limit), 0, |content|, k);
    ChunkAt(content, symbols, mode, limit, k);
    if k + 1 < |ChunksOf(content, symbols, mode, limit)| { ChunkAt(content, symbols, mode, limit, k + 1); }
    hide SymbolsFit, PiecesOf, Numbered, Tiles, Starts;
  }

  /** Joined together, the chunks are exactly the source text. */
  lemma ChunksJoinToSource(content: string, symbols: seq<Symbol>, mode: string, limit: nat)
    requires SymbolsFit(symbols, |Starts(content)|) && 4 <= limit
    ensures Joined(ChunksOf(content, symbols, mode, limit)) == content
  {
    PiecesCover(content, symbols, limit);
    NumberedJoined(content, PiecesOf(content, symbols, limit), 0, mode, 0, |content|);
    hide SymbolsFit, PiecesOf, Numbered, Tiles, Starts, Joined;
    assert content[0..|content|] == content;
  }

  /** Every chunk stays within the limit, is cut by the rule from one span, and carries the true
      1-based lines of its first and last character. */
  lemma ChunksFollowRule(content: string, symbols: seq<Symbol>, mode: string, limit: nat, k: nat)
    requires SymbolsFit(symbols, |Starts(content)|) && 4 <= limit && k < |ChunksOf(content, symbols, mode, limit)|
    ensures var c := ChunksOf(content, symbols, mode, limit)[k];
            && c.start < c.end <= |content| && Bytes(content, c.start, c.end) <= limit
            && c.startLine == LineOf(content, c.start) && c.endLine == LineOf(content, c.end - 1)
            && c.kind == (if c.symbol.Some? then "symbol" else mode)
            && exists span :: span in SpansOf(content, symbols) && PieceOf(content, span, limit, Span(c.start, c.end, c.symbol))
  {
    var pieces := PiecesOf(content, symbols, limit);
    ChunkAt(content, symbols, mode, limit, k);
    SpansCover(content, symbols);
    AllPiecesFollowRule(content, SpansOf(content, symbols), limit, pieces[k]);
    var span :| span in SpansOf(content, symbols) && PieceOf(content, span, limit, pieces[k]);
    assert pieces[k] == Span(pieces[k].start, pieces[k].end, pieces[k].symbol);
  }

  // ---- CR LF

  lemma {:induction false} StartsAreBreaks(content: string, k: nat, i: nat)
    requires k <= |content| && i < |StartsUpTo(content, k)|
    ensures i > 0 ==> BreakEnd(content, StartsUpTo(content, k)[i])
  {
    if k > 0 && i < |StartsUpTo(content, k - 1)| { StartsAreBreaks(content, k - 1, i); }
  }

  ghost predicate OnLine(content: string, k: nat) {
    k == 0 || k >= |content| || BreakEnd(content, k)
  }

  lemma {:induction false} SpansEndOnLines(content: string, rs: seq<Span>, cursor: nat, s: Span)
    requires (forall r | r in rs :: OnLine(content, r.start) && OnLine(content, r.end)) && s in SpansFrom(rs, cursor, |content|)
    ensures OnLine(content, s.end)
    decreases |rs|
  {
    if rs != [] {
      assert rs[0] in rs;
      if s != rs[0] && s != Span(cursor, rs[0].start, None) {
        SpansEndOnLines(content, rs[1..], if rs[0].start < cursor then cursor else rs[0].end, s);
      }
    }
  }

  lemma SpanEndsOnLine(content: string, symbols: seq<Symbol>, s: Span)
    requires SymbolsFit(symbols, |Starts(content)|) && s in SpansOf(content, symbols)
    ensures OnLine(content, s.end)
  {
    var sorted := Sorted(RegionsUpTo(Starts(content), |content|, symbols, |symbols|));
    forall r | r in sorted ensures OnLine(content, r.start) && OnLine(content, r.end) {
      SortedRegionsFit(content, symbols, r);
      var i := r.symbol.value;
      StartsAreBreaks(content, |content|, symbols[i].start - 1);
      if symbols[i].end < |Starts(content)| { StartsAreBreaks(content, |content|, symbols[i].end); }
    }
    SpansEndOnLines(content, sorted, 0, s);
  }

  /** A CR LF pair is torn between two chunks only when the first is full to the byte and has
      no line break inside. */
  lemma CrLfIsTornOnlyWhenFull(content: string, symbols: seq<Symbol>, mode: string, limit: nat, k: nat)
    requires SymbolsFit(symbols, |Starts(content)|) && 4 <= limit && k < |ChunksOf(content, symbols, mode, limit)|
    requires var c := ChunksOf(content, symbols, mode, limit)[k];
             0 < c.end < |content| && content[c.end - 1] == '\r' && content[c.end] == '\n'
    ensures var c := ChunksOf(content, symbols, mode, limit)[k];
            c.start < c.end && Bytes(content, c.start, c.end) == limit && forall x | c.start < x <= c.end :: !BreakEnd(content, x)
  {
    ChunksFollowRule(content, symbols, mode, limit, k);
    var c := ChunksOf(content, symbols, mode, limit)[k];
    hide ChunksOf;
    var span :| span in SpansOf(content, symbols) && PieceOf(content, span, limit, Span(c.start, c.end, c.symbol));
    SpanEndsOnLine(content, symbols, span);
  }

  /** It does happen. */
  lemma CrLfCanBeTorn()
    ensures var content := "aaa\r\n";
            |ChunksOf(content, [], "text", 4)| == 2 && ChunksOf(content, [], "text", 4)[0].content == "aaa\r"
  {
    var content := "aaa\r\n";
    SpansCover(content, []);
    assert SpansOf(content, []) == [Span(0, 5, None)];
    assert Window(content, 4, 5, 0) == 4;
    assert Window(content, 3, 5, 1) == 4;
    assert Window(content, 2, 5, 2) == 4;
    assert Window(content, 0, 5, 4) == 4;
    assert LastBreak(content, 0, 4) == 0 by { LastBreakIsLast(content, 0, 4); }
    assert Cut(content, 0, 5, 4) == 4;
    assert Window(content, 5, 5, 3) == 5;
    assert Cut(content, 4, 5, 4) == 5;
    assert Pieces(content, Span(5, 5, None), 4) == [];
    assert Pieces(content, Span(4, 5, None), 4) == [Span(4, 5, None)];
    assert PiecesOf(content, [], 4) == [Span(0, 4, None), Span(4, 5, None)];
  }
}
