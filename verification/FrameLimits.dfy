/** The size limit on frames. Both stream decoders cut frames off a growing buffer, refuse a frame
    that is too large, and refuse a leftover that is too large whenever a block has been used up.
    The leftover may hold the frame and all of its blank line but the last character, so a frame
    close to the limit can be accepted or refused depending on where the blocks end. This module
    says exactly when. */
module FrameLimits {
  import opened EventFraming
  import opened FrameEnds
  import opened SourceLines

  datatype Measure = Utf8 | Utf16

  /** What a decoder does with its frames: `handle` takes the next one while the state is open,
      `over` is the reaction to a size limit and `close` to the end of the stream. `rank` counts
      what has been passed on so far. The browser measures UTF-16 units, the provider's decoder
      UTF-8 bytes. */
  datatype Reader<!S> = Reader(
    open: S -> bool, handle: (S, string) -> S, over: S -> S, close: S -> S, rank: S -> nat,
    measure: Measure, limit: nat)
  {
    function Size(s: string): nat {
      match measure
      case Utf8 => Bytes(s, 0, |s|)
      case Utf16 => Units(s)
    }
  }

  /** Running into a limit, closing and handling a frame are told apart by their results, and
      what was passed on is never taken back. */
  ghost predicate Lawful<S(!new)>(m: Reader<S>) {
    && (forall c | m.open(c) :: !m.open(m.over(c)) && !m.open(m.close(c)) && m.over(c) != m.close(c))
    && (forall c | m.open(c) :: m.rank(m.over(c)) == m.rank(c) && m.rank(m.close(c)) == m.rank(c))
    && (forall c, f | m.open(c) ::
          || m.handle(c, f) == c
          || (m.open(m.handle(c, f)) && m.rank(m.handle(c, f)) > m.rank(c))
          || (!m.open(m.handle(c, f)) && m.rank(m.handle(c, f)) == m.rank(c) && m.handle(c, f) != m.over(c)))
  }

  // ---- The decoder, block by block

  function Absorb<S>(m: Reader<S>, c: S, buffer: string): (S, string)
    decreases |buffer|
  {
    var end := Find(buffer);
    if end < 0 || !m.open(c) then (c, buffer)
    else if m.Size(buffer[..end]) > m.limit then (m.over(c), buffer)
    else Absorb(m, m.handle(c, buffer[..end]), buffer[end + 2..])
  }

  lemma AbsorbStep<S>(m: Reader<S>, c: S, buffer: string)
    ensures var end := Find(buffer);
            Absorb(m, c, buffer) ==
            if end < 0 || !m.open(c) then (c, buffer)
            else if m.Size(buffer[..end]) > m.limit then (m.over(c), buffer)
            else Absorb(m, m.handle(c, buffer[..end]), buffer[end + 2..])
  {
  }

  function Decode<S>(m: Reader<S>, c: S, buffer: string, blocks: seq<string>): S
    decreases |blocks|
  {
    if blocks == [] then m.close(c)
    else
      var (d, rest) := Absorb(m, c, Normalize(buffer + blocks[0]));
      if !m.open(d) then d
      else if m.Size(rest) > m.limit then m.over(d)
      else Decode(m, d, rest, blocks[1..])
  }

  lemma DecodeStep<S>(m: Reader<S>, c: S, buffer: string, blocks: seq<string>)
    requires blocks != []
    ensures var (d, rest) := Absorb(m, c, Normalize(buffer + blocks[0]));
            Decode(m, c, buffer, blocks) ==
            if !m.open(d) then d else if m.Size(rest) > m.limit then m.over(d) else Decode(m, d, rest, blocks[1..])
  {
  }

  function TextOf(blocks: seq<string>): string {
    if blocks == [] then "" else blocks[0] + TextOf(blocks[1..])
  }

  // ---- The text, frame by frame

  /** The text is read at once: the limits apply to whole frames and to what remains at the end. */
  function Read<S>(m: Reader<S>, c: S, s: string): S
    decreases |s|
  {
    var e := FrameEnd(s);
    if !m.open(c) then c
    else if e < 0 then (if m.Size(Normalize(s)) > m.limit then m.over(c) else m.close(c))
    else if m.Size(FirstFrame(s)) > m.limit then m.over(c)
    else Read(m, m.handle(c, FirstFrame(s)), s[e..])
  }

  lemma ReadStep<S>(m: Reader<S>, c: S, s: string)
    requires m.open(c) && FrameEnd(s) >= 0 && m.Size(FirstFrame(s)) <= m.limit
    ensures Read(m, c, s) == Read(m, m.handle(c, FirstFrame(s)), s[FrameEnd(s)..])
  {
  }

  /** The first frame is within the limit, but not together with its blank line up to the last
      character: its size is the limit, or one less and a CR precedes the last LF. */
  predicate Critical<S>(m: Reader<S>, s: string)
    requires FrameEnd(s) >= 0
  {
    || m.Size(FirstFrame(s)) == m.limit
    || (m.Size(FirstFrame(s)) + 1 == m.limit && s[FrameEnd(s) - 2] == '\r')
  }

  /** The reader runs into the limit later on, and nothing before that concerns it. */
  ghost predicate Mute<S>(m: Reader<S>, c: S, s: string)
    decreases |s|
  {
    var e := FrameEnd(s);
    if e < 0 then m.Size(Normalize(s)) > m.limit
    else m.Size(FirstFrame(s)) > m.limit || (m.handle(c, FirstFrame(s)) == c && Mute(m, c, s[e..]))
  }

  /** No critical frame is reached while the reader is open (or it would not matter, because the
      reader passes nothing on before it runs into the limit anyway). */
  ghost predicate Steady<S>(m: Reader<S>, c: S, s: string)
    decreases |s|
  {
    var e := FrameEnd(s);
    if !m.open(c) || e < 0 || m.Size(FirstFrame(s)) > m.limit then true
    else if Critical(m, s) then Mute(m, c, s)
    else Steady(m, m.handle(c, FirstFrame(s)), s[e..])
  }

  // ---- Sizes

  lemma SizeAppend<S>(m: Reader<S>, a: string, b: string)
    ensures m.Size(a + b) == m.Size(a) + m.Size(b)
  {
    if m.measure.Utf8? { BytesOfSum(a, b, |b|); } else { UnitsOfSum(a, b); }
  }

  lemma LineEndSize<S>(m: Reader<S>)
    ensures m.Size("") == 0 && m.Size("\n") == 1 && m.Size("\r") == 1 && m.Size("\n\r") == 2
  {
    assert m.measure.Utf8? ==> Bytes("\n\r", 0, 1) == 1;
    assert Units("\n\r") == 2 by { assert "\n\r"[..1] == "\n" && Units("\n") == 1 && "\n"[..0] == ""; }
    assert Units("\r") == 1 by { assert "\r"[..0] == ""; }
  }

  lemma SizeOfMore<S>(m: Reader<S>, z: string, w: string)
    ensures m.Size(z + "\r") <= m.Size(z + ("\n" + w))
  {
    LineEndSize(m);
    SizeAppend(m, z, "\r");
    SizeAppend(m, z, "\n" + w);
    SizeAppend(m, "\n", w);
  }

  /** More text never makes the normalised text smaller. */
  lemma SizeGrows<S>(m: Reader<S>, x: string, later: string)
    ensures m.Size(Normalize(x)) <= m.Size(Normalize(x + later))
  {
    hide Normalize;
    if x != "" && later != "" && x[|x| - 1] == '\r' && later[0] == '\n' {
      var z, w := x[..|x| - 1], later[1..];
      NormalizeTorn(z, w);
      SizeOfMore(m, Normalize(z), Normalize(w));
      assert x == z + "\r";
      assert x + later == z + ("\r\n" + w);
    } else {
      NormalizeCut(x, later);
      SizeAppend(m, Normalize(x), Normalize(later));
    }
  }

  /** Before the last character of its blank line, the leftover exceeds the limit exactly when
      the frame is critical or too large. */
  lemma CriticalLeftover<S>(m: Reader<S>, s: string)
    requires FrameEnd(s) >= 0
    ensures m.Size(UpTo(s, FrameEnd(s) - 1)) > m.limit <==> m.Size(FirstFrame(s)) > m.limit || Critical(m, s)
  {
    FirstFrameEnds(s);
    LineEndSize(m);
    hide Normalize, FrameEnd, FirstFrame, Find;
    SizeAppend(m, FirstFrame(s), "\n\r");
    SizeAppend(m, FirstFrame(s), "\n");
  }

  // ---- Every division reads what the text says, if the text is steady

  lemma {:induction false} MuteReads<S(!new)>(m: Reader<S>, c: S, s: string)
    requires m.open(c) && Mute(m, c, s)
    ensures Read(m, c, s) == m.over(c) && Steady(m, c, s)
    decreases |s|
  {
    var e := FrameEnd(s);
    if e >= 0 && m.Size(FirstFrame(s)) <= m.limit { MuteReads(m, c, s[e..]); }
  }

  lemma NormalizedReads<S>(m: Reader<S>, c: S, x: string, later: string)
    requires Plain(x + later) && FrameEnd(x) < 0
    ensures Read(m, c, x + later) == Read(m, c, Normalize(x) + later)
    ensures Steady(m, c, x + later) <==> Steady(m, c, Normalize(x) + later)
  {
    NormalizedFrameEnd(x, later);
    if FrameEnd(x + later) >= 0 {
      NormalizedFrame(x, later);
    } else {
      NormalizeResumes(x, later);
    }
    hide Normalize, FrameEnd, FirstFrame, Plain;
  }

  /** The normalised beginning of a text only grows. */
  lemma BeginningGrows<S>(m: Reader<S>, s: string, j: nat, k: nat)
    requires j <= k <= |s|
    ensures m.Size(UpTo(s, j)) <= m.Size(UpTo(s, k))
  {
    assert s[..k] == s[..j] + s[j..k];
    hide Normalize;
    SizeGrows(m, s[..j], s[j..k]);
  }

  /** A leftover over the limit means that reading the whole ends at the limit too. */
  lemma LeftoverIsOver<S(!new)>(m: Reader<S>, c: S, x: string, later: string)
    requires Plain(x + later) && FrameEnd(x) < 0 && m.Size(Normalize(x)) > m.limit
    requires m.open(c) && Steady(m, c, x + later)
    ensures Read(m, c, x + later) == m.over(c)
  {
    var s := x + later;
    hide Normalize, FrameEnd, FirstFrame, Plain, Critical;
    if FrameEnd(s) < 0 {
      SizeGrows(m, x, later);
    } else {
      NormalizedFrameEnd(x, later);
      assert UpTo(s, |x|) == Normalize(x) by { assert s[..|x|] == x; }
      hide UpTo;
      BeginningGrows(m, s, |x|, FrameEnd(s) - 1);
      CriticalLeftover(m, s);
      if m.Size(FirstFrame(s)) <= m.limit { MuteReads(m, c, s); }
    }
  }

  lemma AbsorbOne<S>(m: Reader<S>, c: S, x: string)
    requires FrameEnd(x) >= 0 && m.open(c)
    ensures var f := FirstFrame(x);
            if m.Size(f) > m.limit then Absorb(m, c, Normalize(x)).0 == m.over(c)
            else Absorb(m, c, Normalize(x)) == Absorb(m, m.handle(c, f), Normalize(x[FrameEnd(x)..]))
  {
    var f, z := FirstFrame(x), Normalize(x[FrameEnd(x)..]);
    FirstFrameSplits(x);
    hide FrameEnd, FirstFrame, Normalize, Find;
    var n := f + "\n\n" + z;
    assert n[..|f|] == f && n[|f| + 2..] == z;
  }

  lemma AbsorbNone<S>(m: Reader<S>, c: S, x: string)
    requires FrameEnd(x) < 0
    ensures Absorb(m, c, Normalize(x)) == (c, Normalize(x))
  {
    NoFrameNoBlank(x);
  }

  /** Using up one block: afterwards the reader is where the whole text leads it. */
  lemma {:induction false} AbsorbReads<S(!new)>(m: Reader<S>, c: S, x: string, later: string)
    requires Lawful(m) && Plain(x + later) && m.open(c) && Steady(m, c, x + later)
    ensures var (d, rest) := Absorb(m, c, Normalize(x));
            if !m.open(d) then d == Read(m, c, x + later)
            else && Plain(rest + later) && Normalize(rest) == rest && FrameEnd(rest) < 0
                 && Steady(m, d, rest + later) && Read(m, d, rest + later) == Read(m, c, x + later)
                 && (m.Size(rest) > m.limit ==> Read(m, c, x + later) == m.over(d))
    decreases |x|
  {
    var e := FrameEnd(x);
    if e < 0 {
      AbsorbNone(m, c, x);
      NormalizedReads(m, c, x, later);
      RestStaysPlain(x, later);
      if m.Size(Normalize(x)) > m.limit { LeftoverIsOver(m, c, x, later); }
    } else {
      FrameIsLocal(x, later);
      AbsorbOne(m, c, x);
      PlainTail(x + later, e);
      var f := FirstFrame(x);
      if m.Size(f) <= m.limit {
        var d := m.handle(c, f);
        if Critical(m, x + later) && m.open(d) { MuteReads(m, d, x[e..] + later); }
        hide Normalize, FrameEnd, FirstFrame, Plain;
        if m.open(d) { AbsorbReads(m, d, x[e..], later); } else { assert Absorb(m, d, Normalize(x[e..])).0 == d; }
      }
    }
  }

  lemma {:induction false} DecodeReads<S(!new)>(m: Reader<S>, c: S, buffer: string, blocks: seq<string>)
    requires Lawful(m) && m.open(c) && Plain(buffer + TextOf(blocks)) && Steady(m, c, buffer + TextOf(blocks))
    requires Normalize(buffer) == buffer && FrameEnd(buffer) < 0 && m.Size(buffer) <= m.limit
    ensures Decode(m, c, buffer, blocks) == Read(m, c, buffer + TextOf(blocks))
    decreases |blocks|
  {
    if blocks == [] {
      assert buffer + TextOf(blocks) == buffer;
    } else {
      var x, later := buffer + blocks[0], TextOf(blocks[1..]);
      assert buffer + TextOf(blocks) == x + later;
      hide Normalize, FrameEnd, Plain, Steady, Read, Lawful;
      AbsorbReads(m, c, x, later);
      var (d, rest) := Absorb(m, c, Normalize(x));
      if m.open(d) && m.Size(rest) <= m.limit { DecodeReads(m, d, rest, blocks[1..]); }
    }
  }

  // ---- An unsteady text has a division that reads something else

  lemma {:induction false} RankGrows<S(!new)>(m: Reader<S>, c: S, s: string)
    requires Lawful(m)
    ensures m.rank(Read(m, c, s)) >= m.rank(c)
    decreases |s|
  {
    if m.open(c) && FrameEnd(s) >= 0 { RankGrows(m, m.handle(c, FirstFrame(s)), s[FrameEnd(s)..]); }
  }

  lemma {:induction false} OnlyMuteReadsOver<S(!new)>(m: Reader<S>, c: S, s: string)
    requires Lawful(m) && m.open(c) && Read(m, c, s) == m.over(c)
    ensures Mute(m, c, s)
    decreases |s|
  {
    var e := FrameEnd(s);
    if e >= 0 && m.Size(FirstFrame(s)) <= m.limit {
      var d := m.handle(c, FirstFrame(s));
      if d == c { OnlyMuteReadsOver(m, c, s[e..]); } else { RankGrows(m, d, s[e..]); }
    }
  }

  /** One block: exactly what the text says. */
  lemma {:induction false} AbsorbWhole<S(!new)>(m: Reader<S>, c: S, x: string)
    requires Lawful(m) && m.open(c)
    ensures var (d, rest) := Absorb(m, c, Normalize(x));
            Read(m, c, x) == if !m.open(d) then d else if m.Size(rest) > m.limit then m.over(d) else m.close(d)
    decreases |x|
  {
    if FrameEnd(x) < 0 {
      AbsorbNone(m, c, x);
    } else {
      AbsorbOne(m, c, x);
      var d := m.handle(c, FirstFrame(x));
      if m.open(d) { AbsorbWhole(m, d, x[FrameEnd(x)..]); }
    }
  }

  /** A critical frame is refused when the block ends right before the last character of its blank
      line. */
  lemma CriticalBreaks<S(!new)>(m: Reader<S>, c: S, s: string)
    requires Lawful(m) && m.open(c) && FrameEnd(s) >= 0 && Critical(m, s)
    ensures var k := FrameEnd(s) - 1; Decode(m, c, "", [s[..k], s[k..]]) == m.over(c)
  {
    var k := FrameEnd(s) - 1;
    CriticalLeftover(m, s);
    hide FirstFrame, Critical;
    FrameEndOfPrefix(s, k);
    AbsorbNone(m, c, s[..k]);
    hide Normalize, FrameEnd;
    DecodeTwo(m, c, s[..k], s[k..]);
  }

  lemma SliceBehind(s: string, e: nat, j: nat)
    requires e + j <= |s|
    ensures s[..e + j][e..] == s[e..][..j] && s[e + j..] == s[e..][j..]
  {
  }

  lemma {:induction false} UnsteadyBreaks<S(!new)>(m: Reader<S>, c: S, s: string) returns (k: nat)
    requires Lawful(m) && m.open(c) && !Steady(m, c, s)
    ensures k <= |s| && Decode(m, c, "", [s[..k], s[k..]]) != Read(m, c, s)
    decreases |s|
  {
    var e := FrameEnd(s);
    if Critical(m, s) {
      k := e - 1;
      CriticalBreaks(m, c, s);
      if Read(m, c, s) == m.over(c) { OnlyMuteReadsOver(m, c, s); }
    } else {
      var d := m.handle(c, FirstFrame(s));
      var j := UnsteadyBreaks(m, d, s[e..]);
      k := e + j;
      UnsteadyLater(m, c, s, j);
    }
  }

  /** A division behind the first frame divides what follows it. */
  lemma UnsteadyLater<S>(m: Reader<S>, c: S, s: string, j: nat)
    requires m.open(c) && FrameEnd(s) >= 0 && m.Size(FirstFrame(s)) <= m.limit && FrameEnd(s) + j <= |s|
    ensures var e, d := FrameEnd(s), m.handle(c, FirstFrame(s));
            Decode(m, c, "", [s[..e + j], s[e + j..]]) == Decode(m, d, "", [s[e..][..j], s[e..][j..]])
  {
    var e, d := FrameEnd(s), m.handle(c, FirstFrame(s));
    var a, b := s[..e + j], s[e + j..];
    FrameEndOfPrefix(s, e + j);
    AbsorbOne(m, c, a);
    SliceBehind(s, e, j);
    hide Normalize, FrameEnd, FirstFrame, Absorb, Decode;
    DecodeTwo(m, c, a, b);
    DecodeTwo(m, d, s[e..][..j], s[e..][j..]);
  }

  lemma DecodeTwo<S>(m: Reader<S>, c: S, a: string, b: string)
    ensures var (d, rest) := Absorb(m, c, Normalize(a));
            Decode(m, c, "", [a, b]) == if !m.open(d) then d else if m.Size(rest) > m.limit then m.over(d) else Decode(m, d, rest, [b])
  {
    assert "" + a == a && [a, b][1..] == [b];
  }

  lemma TwoBlocks(a: string, b: string)
    ensures TextOf([a, b]) == a + b && TextOf([a]) == a
  {
    assert TextOf([b]) == b + TextOf([]) by { assert [b][1..] == []; }
    assert TextOf([a]) == a + TextOf([]) by { assert [a][1..] == []; }
    assert [a, b][1..] == [b];
  }

  /** The exact condition: a text without CR CR LF is read the same way under every division into
      blocks if and only if it is steady. */
  lemma LimitIsExact<S(!new)>(m: Reader<S>, c: S, text: string)
    requires Lawful(m) && m.open(c) && Plain(text)
    ensures (forall blocks | TextOf(blocks) == text :: Decode(m, c, "", blocks) == Read(m, c, text)) <==> Steady(m, c, text)
  {
    hide Decode, Steady, Read, Lawful, Plain, TextOf;
    if Steady(m, c, text) {
      forall blocks | TextOf(blocks) == text ensures Decode(m, c, "", blocks) == Read(m, c, text) {
        assert "" + TextOf(blocks) == text;
        DecodeReads(m, c, "", blocks);
      }
    } else {
      var k := UnsteadyBreaks(m, c, text);
      TwoBlocks(text[..k], text[k..]);
      assert text[..k] + text[k..] == text;
    }
  }

  /** Frames that leave room for their blank line are never critical: two characters of room are
      enough, and one if the text has no CR. */
  lemma {:induction false} RoomyIsSteady<S>(m: Reader<S>, c: S, s: string)
    requires forall f | f in Split(Normalize(s)).0 :: m.Size(f) + (if '\r' in s then 2 else 1) <= m.limit
    ensures Steady(m, c, s)
    decreases |s|
  {
    var e := FrameEnd(s);
    SplitFrames(s);
    if m.open(c) && e >= 0 {
      var f, tail := FirstFrame(s), s[e..];
      assert f in Split(Normalize(s)).0;
      hide Normalize, FrameEnd, FirstFrame, Split;
      assert s[e - 2] in s && forall x | x in tail :: x in s;
      RoomyIsSteady(m, m.handle(c, f), tail);
    }
  }
}
