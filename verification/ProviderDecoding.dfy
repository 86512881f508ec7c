/** The provider's decoder with its budgets (`frames`): when its result depends on the text alone,
    what it then is, and how its reading of a frame differs from the browser's. */
module ProviderDecoding {
  import opened Options
  import opened EventFraming
  import opened EventWire
  import opened FrameEnds
  import opened FrameLimits
  import opened Sequences
  import opened SourceLines
  import opened TightFrames
  import opened ProviderStream

  datatype Decoder = Decoder(values: seq<Value>, stop: Option<Stop>)

  const Ready := Decoder([], None)

  function DecodeFrame(json: string -> Option<Value>, d: Decoder, frame: string): Decoder {
    var data := DataOf(frame);
    if data == "" then d
    else if json(data).None? then d.(stop := Some(NotAnObject))
    else d.(values := d.values + [json(data).value])
  }

  /** The decoder as a reader of frames: what it yields is passed on, its budget is in bytes. */
  function DecoderReader(json: string -> Option<Value>): Reader<Decoder> {
    Reader((d: Decoder) => d.stop.None?, (d: Decoder, frame: string) => DecodeFrame(json, d, frame),
           (d: Decoder) => d.(stop := Some(OverBudget)), (d: Decoder) => d.(stop := Some(EndOfStream)),
           (d: Decoder) => |d.values|, Utf8, MAX_EVENT)
  }

  lemma DecoderIsLawful(json: string -> Option<Value>)
    ensures Lawful(DecoderReader(json))
  {
    hide DataOf;
  }

  // ---- The decoder is this reader

  function TextsOf(blocks: seq<ProviderStream.Block>): seq<string> {
    if blocks == [] then [] else [blocks[0].text] + TextsOf(blocks[1..])
  }

  function TotalSize(blocks: seq<ProviderStream.Block>): nat {
    if blocks == [] then 0 else blocks[0].size + TotalSize(blocks[1..])
  }

  /** The blocks divide the text, byte for byte. */
  ghost predicate Divide(blocks: seq<ProviderStream.Block>, text: string) {
    TextOf(TextsOf(blocks)) == text && TotalSize(blocks) == Bytes(text, 0, |text|)
  }

  lemma FrameSize(buffer: string, end: nat)
    requires end <= |buffer|
    ensures Bytes(buffer[..end], 0, end) == Bytes(buffer, 0, end)
  {
    assert buffer == buffer[..end] + buffer[end..];
    BytesOfPrefix(buffer[..end], buffer[end..], end);
  }

  lemma CutStep(json: string -> Option<Value>, buffer: string)
    requires Find(buffer) >= 0 && Bytes(buffer, 0, Find(buffer)) <= MAX_EVENT
    ensures var end := Find(buffer);
            var d := DecodeFrame(json, Ready, buffer[..end]);
            var (values, rest, stop) := CutFrames(json, buffer[end + 2..]);
            if d.stop.Some? then CutFrames(json, buffer) == ([], buffer, d.stop)
            else CutFrames(json, buffer) == (d.values + values, rest, stop)
  {
    hide DataOf;
    var data, more := DataOf(buffer[..Find(buffer)]), CutFrames(json, buffer[Find(buffer) + 2..]).0;
    assert [] + more == more;
    if json(data).Some? { assert Ready.values + [json(data).value] == [json(data).value]; }
  }

  lemma DecodeAfter(json: string -> Option<Value>, before: seq<Value>, frame: string)
    ensures var d := DecodeFrame(json, Ready, frame);
            DecodeFrame(json, Decoder(before, None), frame) == Decoder(before + d.values, d.stop)
            && (d.stop.Some? ==> d.stop == Some(NotAnObject) && d.values == [])
  {
    hide DataOf;
  }

  lemma {:induction false} CutIsAbsorb(json: string -> Option<Value>, before: seq<Value>, buffer: string)
    ensures var (values, rest, stop) := CutFrames(json, buffer);
            var (d, left) := Absorb(DecoderReader(json), Decoder(before, None), buffer);
            d == Decoder(before + values, stop) && (stop.None? ==> left == rest)
    decreases |buffer|
  {
    var end, m, c := Find(buffer), DecoderReader(json), Decoder(before, None);
    AbsorbStep(m, c, buffer);
    if end >= 0 {
      FrameSize(buffer, end);
      if Bytes(buffer, 0, end) <= MAX_EVENT {
        var frame, tail := buffer[..end], buffer[end + 2..];
        CutStep(json, buffer);
        DecodeAfter(json, before, frame);
        AbsorbStep(m, DecodeFrame(json, c, frame), tail);
        hide CutFrames, Absorb, DecodeFrame, Bytes, Find;
        var first := DecodeFrame(json, Ready, frame);
        if first.stop.None? {
          CutIsAbsorb(json, before + first.values, tail);
          Regroup(before, first.values, CutFrames(json, tail).0);
        }
      }
    }
  }

  lemma FramesStep(json: string -> Option<Value>, buffer: string, total: nat, blocks: seq<ProviderStream.Block>)
    requires blocks != [] && total + blocks[0].size <= MAX_TOTAL
    ensures var (values, rest, stop) := CutFrames(json, Normalize(buffer + blocks[0].text));
            FramesFrom(json, buffer, total, blocks) ==
            if stop.Some? then (values, stop.value)
            else if Bytes(rest, 0, |rest|) > MAX_EVENT then (values, OverBudget)
            else
              var (more, end) := FramesFrom(json, rest, total + blocks[0].size, blocks[1..]);
              (values + more, end)
  {
  }

  lemma {:induction false} FramesAreDecoded(json: string -> Option<Value>, before: seq<Value>, buffer: string, total: nat,
                                            blocks: seq<ProviderStream.Block>)
    requires total + TotalSize(blocks) <= MAX_TOTAL
    ensures var (values, stop) := FramesFrom(json, buffer, total, blocks);
            Decode(DecoderReader(json), Decoder(before, None), buffer, TextsOf(blocks)) == Decoder(before + values, Some(stop))
    decreases |blocks|
  {
    var m, c := DecoderReader(json), Decoder(before, None);
    if blocks == [] {
      assert before + [] == before;
    } else {
      FramesStep(json, buffer, total, blocks);
      DecodeStep(m, c, buffer, TextsOf(blocks));
      assert TextsOf(blocks)[1..] == TextsOf(blocks[1..]);
      CutIsAbsorb(json, before, Normalize(buffer + blocks[0].text));
      var (values, rest, stop) := CutFrames(json, Normalize(buffer + blocks[0].text));
      hide CutFrames, Absorb, Normalize, FramesFrom, Decode, Bytes;
      if stop.None? {
        FramesAreDecoded(json, before + values, rest, total + blocks[0].size, blocks[1..]);
        Regroup(before, values, FramesFrom(json, rest, total + blocks[0].size, blocks[1..]).0);
      }
    }
  }

  lemma DividedDecode(json: string -> Option<Value>, blocks: seq<ProviderStream.Block>, text: string)
    requires Divide(blocks, text) && Bytes(text, 0, |text|) <= MAX_TOTAL
    ensures var (values, stop) := FramesFrom(json, "", 0, blocks);
            Decode(DecoderReader(json), Ready, "", TextsOf(blocks)) == Decoder(values, Some(stop))
  {
    FramesAreDecoded(json, [], "", 0, blocks);
    assert [] + FramesFrom(json, "", 0, blocks).0 == FramesFrom(json, "", 0, blocks).0;
  }

  // ---- When the blocks do not matter

  /** The text read at once. */
  function Decoded(json: string -> Option<Value>, text: string): (seq<Value>, Stop) {
    var d := Read(DecoderReader(json), Ready, text);
    (d.values, d.stop.GetOr(EndOfStream))
  }

  lemma {:induction false} ReadStops(json: string -> Option<Value>, d: Decoder, text: string)
    ensures Read(DecoderReader(json), d, text).stop.Some?
    decreases |text|
  {
    hide DataOf, FirstFrame, Normalize, FrameEnd;
    if d.stop.None? && FrameEnd(text) >= 0 {
      ReadStops(json, DecodeFrame(json, d, FirstFrame(text)), text[FrameEnd(text)..]);
    }
  }

  function Blocks(texts: seq<string>): seq<ProviderStream.Block> {
    if texts == [] then [] else [ProviderStream.Block(texts[0], Bytes(texts[0], 0, |texts[0]|))] + Blocks(texts[1..])
  }

  lemma {:induction false} BlocksDivide(texts: seq<string>)
    ensures Divide(Blocks(texts), TextOf(texts)) && TextsOf(Blocks(texts)) == texts
  {
    if texts != [] {
      BlocksDivide(texts[1..]);
      var b := ProviderStream.Block(texts[0], Bytes(texts[0], 0, |texts[0]|));
      FirstBlock(b, Blocks(texts[1..]));
      BytesOfSum(texts[0], TextOf(texts[1..]), |TextOf(texts[1..])|);
      hide TotalSize, TextsOf, Bytes;
    }
  }

  lemma FirstBlock(b: ProviderStream.Block, later: seq<ProviderStream.Block>)
    ensures TotalSize([b] + later) == b.size + TotalSize(later) && TextsOf([b] + later) == [b.text] + TextsOf(later)
  {
    assert ([b] + later)[1..] == later;
  }

  /** The exact condition: within the byte budget, a text without CR CR LF gives the same events and
      stops the same way under every division if and only if it is steady, that is, if the decoder
      reaches no event of exactly the permitted size, nor one of a byte less when a CR precedes the
      last LF of its blank line (or yields nothing between that event and one that is too large). */
  lemma BudgetIsExact(json: string -> Option<Value>, text: string)
    requires Plain(text) && Bytes(text, 0, |text|) <= MAX_TOTAL
    ensures (forall blocks | Divide(blocks, text) :: FramesFrom(json, "", 0, blocks) == Decoded(json, text))
            <==> Steady(DecoderReader(json), Ready, text)
  {
    var m := DecoderReader(json);
    DecoderIsLawful(json);
    LimitIsExact(m, Ready, text);
    ReadStops(json, Ready, text);
    hide DecoderReader, Decode, Steady, Read, Lawful, Plain, TextOf, FramesFrom, TotalSize, TextsOf, Bytes;
    if Steady(m, Ready, text) {
      forall blocks | Divide(blocks, text) ensures FramesFrom(json, "", 0, blocks) == Decoded(json, text) {
        DividedDecode(json, blocks, text);
      }
    } else {
      var texts :| TextOf(texts) == text && Decode(m, Ready, "", texts) != Read(m, Ready, text);
      BlocksDivide(texts);
      DividedDecode(json, Blocks(texts), text);
    }
  }

  /** Two deliveries of a steady text give the same events, and so the same deltas and the same
      result. */
  lemma DecodingIgnoresFragmentation(json: string -> Option<Value>, draft: string -> Option<Draft>, text: string,
                                     a: seq<ProviderStream.Block>, b: seq<ProviderStream.Block>, model: string, cap: nat)
    requires Plain(text) && Bytes(text, 0, |text|) <= MAX_TOTAL && Steady(DecoderReader(json), Ready, text)
    requires Divide(a, text) && Divide(b, text)
    ensures FramesFrom(json, "", 0, a) == FramesFrom(json, "", 0, b)
    ensures Consumed(draft, Fresh, FramesFrom(json, "", 0, a).0, FramesFrom(json, "", 0, a).1, model, cap)
         == Consumed(draft, Fresh, FramesFrom(json, "", 0, b).0, FramesFrom(json, "", 0, b).1, model, cap)
  {
    BudgetIsExact(json, text);
    hide FramesFrom, Consumed, Steady, Plain, Divide;
    assert FramesFrom(json, "", 0, a) == Decoded(json, text);
    assert FramesFrom(json, "", 0, b) == Decoded(json, text);
  }

  // ---- What a text within the budgets means

  /** The payloads of a list of frames, up to the first that is no JSON object. */
  function Parse(json: string -> Option<Value>, frames: seq<string>): (seq<Value>, bool)
    decreases |frames|
  {
    if frames == [] then ([], true)
    else
      var data := DataOf(frames[0]);
      if data != "" && json(data).None? then ([], false)
      else
        var (more, ok) := Parse(json, frames[1..]);
        (if data == "" then more else [json(data).value] + more, ok)
  }

  lemma ParseStep(json: string -> Option<Value>, f: string, later: seq<string>)
    ensures var d := DecodeFrame(json, Ready, f);
            var (more, ok) := Parse(json, later);
            Parse(json, [f] + later) == if d.stop.Some? then ([], false) else (d.values + more, ok)
  {
    hide DataOf;
    assert ([f] + later)[1..] == later;
    assert [] + Parse(json, later).0 == Parse(json, later).0;
    if json(DataOf(f)).Some? { assert Ready.values + [json(DataOf(f)).value] == [json(DataOf(f)).value]; }
  }

  /** No frame and no leftover of the text exceeds the budget of an event. */
  ghost predicate Affordable(text: string) {
    var (frames, rest) := Split(Normalize(text));
    Bytes(rest, 0, |rest|) <= MAX_EVENT && forall f | f in frames :: Bytes(f, 0, |f|) <= MAX_EVENT
  }

  lemma AffordableTail(text: string)
    requires Affordable(text) && FrameEnd(text) >= 0
    ensures var f, tail := FirstFrame(text), text[FrameEnd(text)..];
            && Affordable(tail) && Bytes(f, 0, |f|) <= MAX_EVENT && Split(Normalize(text)).0 == [f] + Split(Normalize(tail)).0
  {
    SplitFrames(text);
    var f, tail := FirstFrame(text), text[FrameEnd(text)..];
    var frames := Split(Normalize(text)).0;
    assert f in frames && forall g | g in Split(Normalize(tail)).0 :: g in frames;
    hide Normalize, FrameEnd, FirstFrame, Split, Bytes;
  }

  lemma {:induction false} ReadParses(json: string -> Option<Value>, before: seq<Value>, text: string)
    requires Affordable(text)
    ensures var (all, ok) := Parse(json, Split(Normalize(text)).0);
            Read(DecoderReader(json), Decoder(before, None), text) == Decoder(before + all, Some(if ok then EndOfStream else NotAnObject))
    decreases |text|
  {
    if FrameEnd(text) < 0 {
      SplitFrames(text);
      assert before + [] == before;
    } else {
      var f, tail := FirstFrame(text), text[FrameEnd(text)..];
      AffordableTail(text);
      ReadStep(DecoderReader(json), Decoder(before, None), text);
      DecodeAfter(json, before, f);
      ParseStep(json, f, Split(Normalize(tail)).0);
      var d := DecodeFrame(json, Ready, f);
      hide Normalize, FrameEnd, FirstFrame, Split, Bytes, Affordable, Parse, DecodeFrame;
      if d.stop.None? {
        ReadParses(json, before + d.values, tail);
        Regroup(before, d.values, Parse(json, Split(Normalize(tail)).0).0);
      } else {
        assert Read(DecoderReader(json), Decoder(before + d.values, d.stop), tail) == Decoder(before + d.values, d.stop);
      }
    }
  }

  /** A text whose frames leave room for their blank lines is never over budget, however it is
      delivered: the decoder yields the payloads of all its frames, up to the first that is no JSON
      object. */
  lemma RoomyTextIsParsed(json: string -> Option<Value>, text: string, blocks: seq<ProviderStream.Block>)
    requires Plain(text) && Bytes(text, 0, |text|) <= MAX_TOTAL && Divide(blocks, text)
    requires var (frames, rest) := Split(Normalize(text));
             && Bytes(rest, 0, |rest|) <= MAX_EVENT
             && forall f | f in frames :: Bytes(f, 0, |f|) + (if '\r' in text then 2 else 1) <= MAX_EVENT
    ensures var (all, ok) := Parse(json, Split(Normalize(text)).0);
            FramesFrom(json, "", 0, blocks) == (all, if ok then EndOfStream else NotAnObject)
  {
    RoomyIsSteady(DecoderReader(json), Ready, text);
    ReadParses(json, [], text);
    hide FramesFrom, Steady, Plain, Divide, Split, Normalize, Bytes, Parse, Read;
    BudgetIsExact(json, text);
    assert [] + Parse(json, Split(Normalize(text)).0).0 == Parse(json, Split(Normalize(text)).0).0;
    assert FramesFrom(json, "", 0, blocks) == Decoded(json, text);
  }

  lemma WholeEvent(json: string -> Option<Value>, f: string, text: string, size: nat)
    requires Bytes(f, 0, |f|) <= MAX_EVENT && size <= MAX_TOTAL
    requires Normalize(text) == f + "\n\n" && Find(f + "\n\n") == |f|
    ensures var d := DecodeFrame(json, Ready, f);
            FramesFrom(json, "", 0, [ProviderStream.Block(text, size)]) == (d.values, d.stop.GetOr(EndOfStream))
  {
    var n, d := f + "\n\n", DecodeFrame(json, Ready, f);
    assert n[..|f|] == f && n[|f| + 2..] == "" && "" + text == text;
    BytesOfPrefix(f, "\n\n", |f|);
    CutStep(json, n);
    assert [ProviderStream.Block(text, size)][1..] == [];
    hide DataOf, Normalize;
    assert d.values + [] == d.values;
    assert d.stop.Some? ==> d.values == [];
    assert CutFrames(json, "") == ([], "", None);
  }

  lemma CutEvent(json: string -> Option<Value>, first: string, size: nat, later: seq<ProviderStream.Block>)
    requires Find(Normalize(first)) < 0 && Bytes(Normalize(first), 0, |Normalize(first)|) > MAX_EVENT && size <= MAX_TOTAL
    ensures FramesFrom(json, "", 0, [ProviderStream.Block(first, size)] + later) == ([], OverBudget)
  {
    assert "" + first == first;
    hide Normalize, Bytes;
  }

  lemma SizeBehind(f: string, end: string)
    requires end == "\n" || end == "\n\r"
    ensures Bytes(f + end, 0, |f + end|) == Bytes(f, 0, |f|) + |end|
  {
    BytesOfSum(f, end, |end|);
    assert Bytes(end, 0, |end|) == |end| by { assert Bytes(end, 0, 1) == 1; }
  }

  lemma TwoDeliveries(a: ProviderStream.Block, b: ProviderStream.Block)
    ensures [a] + [b] == [a, b]
  {
  }

  /** An event of exactly the permitted size is accepted when it arrives whole and exceeds the budget
      when a block ends inside its blank line. */
  lemma BudgetDependsOnTheCut(json: string -> Option<Value>, f: string)
    requires Bytes(f, 0, |f|) == MAX_EVENT && Tight(f)
    ensures FramesFrom(json, "", 0, [ProviderStream.Block(f + "\n\n", MAX_EVENT + 2)]).1 != OverBudget
    ensures FramesFrom(json, "", 0, [ProviderStream.Block(f + "\n", MAX_EVENT + 1), ProviderStream.Block("\n", 1)]) == ([], OverBudget)
  {
    TightFrame(f);
    SizeBehind(f, "\n");
    hide Normalize, Find, Tight, DataOf, Bytes, FramesFrom, DecodeFrame;
    DecodeAfter(json, [], f);
    WholeEvent(json, f, f + "\n\n", MAX_EVENT + 2);
    CutEvent(json, f + "\n", MAX_EVENT + 1, [ProviderStream.Block("\n", 1)]);
    TwoDeliveries(ProviderStream.Block(f + "\n", MAX_EVENT + 1), ProviderStream.Block("\n", 1));
  }

  /** With CR LF line ends the same happens to an event that is one byte smaller. */
  lemma BudgetDependsOnTheCutAtCr(json: string -> Option<Value>, f: string)
    requires Bytes(f, 0, |f|) == MAX_EVENT - 1 && Tight(f)
    ensures FramesFrom(json, "", 0, [ProviderStream.Block(f + "\r\n\r\n", MAX_EVENT + 3)]).1 != OverBudget
    ensures FramesFrom(json, "", 0, [ProviderStream.Block(f + "\r\n\r", MAX_EVENT + 2), ProviderStream.Block("\n", 1)]) == ([], OverBudget)
  {
    TightFrameAtCr(f);
    SizeBehind(f, "\n\r");
    hide Normalize, Find, Tight, DataOf, Bytes, FramesFrom, DecodeFrame;
    DecodeAfter(json, [], f);
    WholeEvent(json, f, f + "\r\n\r\n", MAX_EVENT + 3);
    CutEvent(json, f + "\r\n\r", MAX_EVENT + 2, [ProviderStream.Block("\n", 1)]);
    TwoDeliveries(ProviderStream.Block(f + "\r\n\r", MAX_EVENT + 2), ProviderStream.Block("\n", 1));
  }
}
