/** A session of the event stream never exceeds the limits of the client that reads it: previews
    are capped, and a session makes at most 25 polls. */
module SessionLimits {
  import AnswerRuns
  import opened EventClient
  import opened EventPayloads
  import opened EventServer
  import opened EventSessions
  import opened EventWire
  import opened Options
  import opened RunReplay
  import opened SourceLines

  function Size(s: string): nat { Bytes(s, 0, |s|) }

  lemma SizeOfSum(a: string, b: string)
    ensures Size(a + b) == Size(a) + Size(b)
  {
    BytesOfSum(a, b, |b|);
  }

  lemma {:induction false} SizeBounds(s: string)
    ensures Units(s) <= Size(s) <= 4 * |s|
  {
    if s != "" {
      var front := s[..|s| - 1];
      SizeBounds(front);
      assert s == front + [s[|s| - 1]];
      BytesOfPrefix(front, [s[|s| - 1]], |front|);
    }
  }

  lemma {:induction false} SizeOfAscii(s: string)
    requires forall i | 0 <= i < |s| :: s[i] as int < 0x80
    ensures Size(s) == |s|
  {
    if s != "" {
      var front := s[..|s| - 1];
      SizeOfAscii(front);
      assert s == front + [s[|s| - 1]];
      BytesOfPrefix(front, [s[|s| - 1]], |front|);
    }
  }

  // ---- Payloads

  lemma EscapedSize(c: char)
    ensures Size(Escaped(c)) <= 6
  {
    SizeBounds(Escaped(c));
    if |Escaped(c)| > 1 { SizeOfAscii(Escaped(c)); }
    hide Bytes;
  }

  lemma {:induction false} EscapedAllSize(s: string)
    ensures Size(EscapedAll(s)) <= 6 * |s|
  {
    if s != "" {
      EscapedSize(s[0]);
      EscapedAllSize(s[1..]);
      SizeOfSum(Escaped(s[0]), EscapedAll(s[1..]));
      hide Escaped, Size;
    }
  }

  lemma QuotedSize(s: string)
    ensures Size(Quoted(s)) <= 6 * |s| + 8
  {
    EscapedAllSize(s);
    SizeOfSum("\"", EscapedAll(s) + "\"");
    SizeOfSum(EscapedAll(s), "\"");
    SizeBounds("\"");
    hide EscapedAll, Size;
  }

  lemma DigitsSize(n: nat)
    requires n < 1000
    ensures Size(Digits(n)) <= 12
  {
    assert n >= 10 ==> |Digits(n / 10)| <= 2;
    SizeBounds(Digits(n));
    hide Digits, Size;
  }

  /** A text put before another of known size. */
  lemma Before(p: string, x: string, a: nat, b: nat)
    requires Size(p) <= a && Size(x) <= b
    ensures Size(p + x) <= a + b
  {
    SizeOfSum(p, x);
  }

  lemma Literal(p: string, x: string, b: nat)
    requires Size(x) <= b
    ensures Size(p + x) <= 4 * |p| + b
  {
    SizeBounds(p);
    SizeOfSum(p, x);
    hide Size;
  }

  /** Run ids and times are short texts. */
  ghost predicate Short(run: string, times: nat -> string) {
    |run| <= 36 && forall n :: |times(n)| <= 32
  }

  lemma EventSize(times: nat -> string, e: RunEvent)
    requires Short(e.run, times) && e.sequence < 1000
    ensures Size(EventJson(times, e)) <= 800
  {
    QuotedSize(e.run);
    DigitsSize(e.sequence);
    QuotedSize(StatusName(e.status));
    QuotedSize(times(e.sequence));
    assert |StatusName(e.status)| <= 9;
    hide Quoted, Digits, StatusName, Size;
    SizeBounds("}");
    var t4 := Quoted(times(e.sequence)) + "}";
    SizeOfSum(Quoted(times(e.sequence)), "}");
    Literal(",\"occurred_at\":", t4, 204);
    var t3 := ",\"occurred_at\":" + t4;
    Before(Quoted(StatusName(e.status)), t3, 62, 264);
    var t2 := Quoted(StatusName(e.status)) + t3;
    Literal(",\"status\":", t2, 326);
    Before(Digits(e.sequence), ",\"status\":" + t2, 12, 366);
    var t1 := Digits(e.sequence) + (",\"status\":" + t2);
    Literal(",\"sequence\":", t1, 378);
    Before(Quoted(e.run), ",\"sequence\":" + t1, 224, 426);
    Literal("{\"run_id\":", Quoted(e.run) + (",\"sequence\":" + t1), 650);
  }

  lemma PreviewSize(p: AnswerPreview)
    requires |p.run| <= 36 && p.revision < 1000
    ensures Size(PreviewJson(p)) <= 6 * |p.text| + 400
  {
    QuotedSize(p.run);
    DigitsSize(p.revision);
    QuotedSize(p.text);
    hide Quoted, Digits, Size;
    SizeBounds("}");
    SizeOfSum(Quoted(p.text), "}");
    var n := 6 * |p.text| + 12;
    Literal(",\"text\":", Quoted(p.text) + "}", n);
    var t2 := ",\"text\":" + (Quoted(p.text) + "}");
    Before(Digits(p.revision), t2, 12, n + 32);
    Literal(",\"revision\":", Digits(p.revision) + t2, n + 44);
    var t1 := ",\"revision\":" + (Digits(p.revision) + t2);
    Before(Quoted(p.run), t1, 224, n + 92);
    Literal("{\"run_id\":", Quoted(p.run) + t1, n + 316);
  }

  // ---- Frames

  /** A bound for the size of a signal's frame. */
  function Weight(x: Signal): nat {
    match x
    case Update(_, _) => 1000
    case Preview(_, _) => 48600
    case _ => 300
  }

  lemma BodySize(f: Frame)
    ensures Size(Body(f)) <= match f case Comment(text) => 8 + 4 * |text| case Event(id, name, data) => 4 * (|id| + |name| + 19) + Size(data)
  {
    match f
    case Comment(text) =>
      SizeBounds(": " + text);
      hide Size;
    case Event(id, name, data) =>
      hide Size;
      var head := (if id == "" then "" else "id: " + id + "\n") + ("event: " + name + "\n");
      assert Body(f) == head + ("data: " + data);
      Literal("data: ", data, Size(data));
      Literal(head, "data: " + data, 24 + Size(data));
  }

  lemma FrameSize(run: string, codec: Codec, times: nat -> string, x: Signal)
    requires WritesJson(codec, times) && Short(run, times) && InBounds(x)
    ensures Size(Body(Render(run, codec, x))) + 8 <= Weight(x)
  {
    BodySize(Render(run, codec, x));
    hide Size, Body, EventJson, PreviewJson;
    match x
    case Update(n, status) =>
      EventSize(times, RunEvent(run, n, status));
      assert |Digits(n)| == 1;
    case Preview(revision, text) => PreviewSize(AnswerPreview(run, revision, text));
    case StreamEnd => SizeBounds("{}");
    case Reconnect => SizeBounds("{}");
    case StreamError(code) => SizeBounds(ErrorData(code));
    case KeepAlive =>
  }

  function Total(xs: seq<Signal>): nat {
    if xs == [] then 0 else Weight(xs[0]) + Total(xs[1..])
  }

  lemma {:induction false} TotalOfSum(xs: seq<Signal>, ys: seq<Signal>)
    ensures Total(xs + ys) == Total(xs) + Total(ys)
    decreases |xs|
  {
    if xs == [] {
      assert xs + ys == ys;
    } else {
      assert (xs + ys)[1..] == xs[1..] + ys;
      TotalOfSum(xs[1..], ys);
    }
  }

  lemma {:induction false} TotalBound(xs: seq<Signal>, w: nat)
    requires forall x | x in xs :: Weight(x) <= w
    ensures Total(xs) <= |xs| * w
  {
    if xs != [] { TotalBound(xs[1..], w); }
  }

  lemma EncodeOne(run: string, codec: Codec, xs: seq<Signal>)
    requires xs != []
    ensures Encode(RenderAll(run, codec, xs)) == Body(Render(run, codec, xs[0])) + "\n\n" + Encode(RenderAll(run, codec, xs[1..]))
  {
    assert RenderAll(run, codec, xs)[1..] == RenderAll(run, codec, xs[1..]);
    hide Body, Render;
  }

  lemma {:induction false} EncodedSize(run: string, codec: Codec, times: nat -> string, xs: seq<Signal>)
    requires WritesJson(codec, times) && Short(run, times) && forall x | x in xs :: InBounds(x)
    ensures Size(Encode(RenderAll(run, codec, xs))) <= Total(xs)
  {
    if xs != [] {
      FrameSize(run, codec, times, xs[0]);
      EncodedSize(run, codec, times, xs[1..]);
      EncodeOne(run, codec, xs);
      var body, later := Body(Render(run, codec, xs[0])), Encode(RenderAll(run, codec, xs[1..]));
      hide Size, Body, Render, RenderAll, Encode, Weight, InBounds, WritesJson;
      SizeBounds("\n\n");
      SizeOfSum(body, "\n\n");
      SizeOfSum(body + "\n\n", later);
    }
  }

  // ---- Sessions

  const PER_POLL: nat := 51900

  lemma PageTotal(log: seq<AnswerRuns.Status>, s: Server, tick: nat, includePreview: bool, p: PollResult)
    requires p.Page? && Readable(|log|, p) && s.cursor <= p.maximum
    ensures Total(PageSignals(log, s, tick, includePreview, p)) <= PER_POLL
  {
    var updates := Updates(log, s.cursor, PageEnd(p.upto, s.cursor));
    var preview := PreviewSignals(s.sent, if includePreview then Some(p.preview) else None);
    var last := Last(TerminalPage(log, s.cursor, p), tick);
    TotalBound(updates, 1000);
    TotalBound(preview, 48600);
    TotalBound(last, 300);
    TotalOfSum(updates + preview, last);
    TotalOfSum(updates, preview);
    hide Total, TerminalPage;
  }

  lemma OneTotal(x: Signal)
    requires Control(x)
    ensures Total([x]) == 300
  {
    assert [x][1..] == [];
  }

  lemma {:induction false} ServedTotal(log: seq<AnswerRuns.Status>, start: nat, includePreview: bool, polls: seq<PollResult>)
    requires forall p | p in polls :: Readable(|log|, p)
    ensures Total(Served(log, start, includePreview, polls).out) <= PER_POLL * |polls|
  {
    if polls != [] {
      var front, p := polls[..|polls| - 1], polls[|polls| - 1];
      ServedTotal(log, start, includePreview, front);
      var s := Served(log, start, includePreview, front);
      hide Total, PageSignals;
      if !s.closed && p.Page? && s.cursor <= p.maximum {
        PageTotal(log, s, |front|, includePreview, p);
        ServePage(log, s, |front|, includePreview, p);
        hide Serve;
        TotalOfSum(s.out, PageSignals(log, s, |front|, includePreview, p));
      } else if !s.closed && !p.Disconnected? {
        var error := StreamError(ErrorCode(if p.Broken? then p.status else Some(409)));
        OneTotal(error);
        TotalOfSum(s.out, [error]);
      }
    }
  }

  /** The text of a session stays below the client's byte limit, and each of its frames below the
      frame limit. */
  lemma SessionStaysWithinLimits(run: string, codec: Codec, times: nat -> string, log: seq<AnswerRuns.Status>, start: nat, includePreview: bool,
                                 polls: seq<PollResult>)
    requires WritesJson(codec, times) && Short(run, times) && LogOk(log)
    requires |polls| <= STREAM_POLLS && forall p | p in polls :: Readable(|log|, p)
    ensures var xs := Session(log, start, includePreview, polls);
            && Size(Encode(RenderAll(run, codec, xs))) <= MAX_BYTES
            && forall x | x in xs :: Units(Body(Render(run, codec, x))) < MAX_FRAME
  {
    var xs, s := Session(log, start, includePreview, polls), Served(log, start, includePreview, polls);
    ServedTotal(log, start, includePreview, polls);
    SessionInBounds(log, start, includePreview, polls);
    EncodedSize(run, codec, times, xs);
    OneTotal(Signal.Reconnect);
    TotalOfSum(s.out, [Signal.Reconnect]);
    hide Served, Encode, RenderAll, Size, Total, Body, Render, Units, WritesJson, InBounds;
    forall x | x in xs ensures Units(Body(Render(run, codec, x))) < MAX_FRAME {
      FrameSize(run, codec, times, x);
      SizeBounds(Body(Render(run, codec, x)));
    }
  }

  // ---- What the client makes of a session

  /** The client has everything up to a position, and ended as the signals do. */
  ghost predicate EndsAs(c: Client, xs: seq<Signal>, end: nat) {
    && c.cursor == end
    && (c.outcome == Done <==> xs != [] && xs[|xs| - 1].StreamEnd?)
    && (c.outcome == Again <==> xs != [] && xs[|xs| - 1].Reconnect?)
    && (c.outcome == CLOSED <==> xs == [] || !Control(xs[|xs| - 1]))
  }

  /** All of a session, up to the end of the connection. */
  lemma {:induction false} ReactAllLeads(run: string, c: Client, xs: seq<Signal>, end: nat, log: seq<AnswerRuns.Status>)
    requires c.outcome.Open? && Leads(xs, c.cursor, end, log)
    ensures EndsAs(Closed(ReactAll(run, c, xs)), xs, end)
    decreases |xs|
  {
    if xs == [] {
      EmptyStays(c.cursor, end, log);
    } else {
      LeadsTail(xs, c.cursor, end, log);
      var d := React(run, c, xs[0]);
      if d.outcome.Open? {
        ReactAllLeads(run, d, xs[1..], end, log);
      } else {
        assert xs[1..] == [];
        EmptyStays(c.cursor, end, log);
      }
    }
  }

  /** The limits are never in the way: however what arrives of a session is divided, and wherever it
      breaks off, the client has handled a prefix of the signals one by one; and if all of it
      arrives, the client has every event up to the server's cursor and ends as the session does. */
  lemma SessionIsRead(run: string, codec: Codec, times: nat -> string, log: seq<AnswerRuns.Status>, cursor: nat, a: Attempt, n: nat) returns (k: nat)
    requires Faithful(run, codec) && WritesJson(codec, times) && Short(run, times) && LogOk(log)
    requires a.Streamed? && cursor <= a.from && Timely(a.from, a.polls, n) && n <= |log| && |a.polls| <= STREAM_POLLS
    requires forall p | p in a.polls :: Readable(|log|, p)
    requires var text := Encode(RenderAll(run, codec, Session(log, cursor, a.includePreview, a.polls)));
             Joined(a.blocks) <= text && Divide(a.blocks, Joined(a.blocks))
    ensures var xs, c := Session(log, cursor, a.includePreview, a.polls), Consumed(run, codec, Start(cursor), "", 0, a.blocks);
            && k <= |xs| && c == Closed(ReactAll(run, Start(cursor), xs[..k]))
            && (Joined(a.blocks) == Encode(RenderAll(run, codec, xs)) ==>
                  k == |xs| && EndsAs(c, xs, Served(log, cursor, a.includePreview, a.polls).cursor))
  {
    var xs := Session(log, cursor, a.includePreview, a.polls);
    SessionStaysWithinLimits(run, codec, times, log, cursor, a.includePreview, a.polls);
    SessionIsPresentable(log, cursor, a.includePreview, a.polls);
    SessionLeads(log, cursor, a.includePreview, a.polls, a.from, n);
    PartSize(Joined(a.blocks), Encode(RenderAll(run, codec, xs)));
    hide Session, Served, Encode, RenderAll, Body, Render, Units, Consumed, Faithful, WritesJson, Presentable, Leads, ReactAll, LogOk, EndsAs, Timely, Readable;
    k := ConnectionDeliversPrefix(run, codec, cursor, xs, a.blocks);
    ReactAllLeads(run, Start(cursor), xs, Served(log, cursor, a.includePreview, a.polls).cursor, log);
    assert xs[..|xs|] == xs;
  }

  lemma PartSize(part: string, text: string)
    requires part <= text
    ensures Size(part) <= Size(text)
  {
    SizeOfSum(part, text[|part|..]);
    assert part + text[|part|..] == text;
  }
}
