/** The whole replay, from the event log to what the user is shown: the server's sessions as text,
    cut into any blocks and broken off anywhere, the client that reads them with its limits, and
    the reconnect loop that carries the cursor from one connection to the next. */
module RunReplay {
  import opened Options
  import AnswerRuns
  import opened EventClient
  import opened EventFraming
  import opened EventServer
  import opened EventSessions
  import opened EventWire
  import opened FrameEnds
  import opened FrameLimits
  import RunTimeline
  import opened SourceLines
  import TimelineView

  // ---- Whatever the limits do, the client has handled some of the frames

  function Frames(text: string): seq<string> { Split(Normalize(text)).0 }

  predicate SizeFault(o: Outcome) {
    o == TOO_LARGE || o == CLOSED || o == Fault("Event stream exceeds limit")
  }

  /** `d` is the client after some of the frames, possibly stopped by a limit or by the end of the
      connection. */
  ghost predicate Stops(run: string, codec: Codec, c: Client, frames: seq<string>, d: Client)
    decreases |frames|
  {
    if !c.outcome.Open? then d == c
    else
      || (SizeFault(d.outcome) && d == c.(outcome := d.outcome))
      || (frames != [] && Stops(run, codec, HandleFields(run, codec, c, ReadFrame(frames[0])), frames[1..], d))
  }

  lemma {:induction false} AbsorbLeaves(run: string, codec: Codec, c: Client, x: string, later: string)
    requires Plain(x + later)
    ensures var (d, rest) := AbsorbFrames(run, codec, c, Normalize(x)); d.outcome.Open? ==> Plain(rest + later)
    decreases |x|
  {
    var m := ClientReader(run, codec);
    if c.outcome.Open? {
      if FrameEnd(x) < 0 {
        AbsorbNone(m, c, x);
        RestIsPlain(x, later);
      } else {
        AbsorbOne(m, c, x);
        PlainTail(x + later, FrameEnd(x));
        FrameIsLocal(x, later);
        var d, tail := HandleFields(run, codec, c, ReadFrame(FirstFrame(x))), x[FrameEnd(x)..];
        hide HandleFields, ReadFrame, Normalize, Plain, FrameEnd, FirstFrame;
        if Units(FirstFrame(x)) <= MAX_FRAME { AbsorbLeaves(run, codec, d, tail, later); }
      }
    }
  }

  lemma {:induction false} AbsorbStops(run: string, codec: Codec, c: Client, x: string, later: string, d: Client)
    requires Plain(x + later)
    requires var (e, rest) := AbsorbFrames(run, codec, c, Normalize(x));
             if e.outcome.Open? then Stops(run, codec, e, Frames(rest + later), d) else d == e
    ensures Stops(run, codec, c, Frames(x + later), d)
    decreases |x|
  {
    var m := ClientReader(run, codec);
    if c.outcome.Open? {
      if FrameEnd(x) < 0 {
        AbsorbNone(m, c, x);
        NormalizeResumes(x, later);
      } else {
        AbsorbOne(m, c, x);
        PlainTail(x + later, FrameEnd(x));
        FrameIsLocal(x, later);
        SplitFrames(x + later);
        var f, tail := FirstFrame(x), x[FrameEnd(x)..];
        assert Frames(x + later)[0] == f && Frames(x + later)[1..] == Frames(tail + later);
        var h := HandleFields(run, codec, c, ReadFrame(f));
        hide HandleFields, ReadFrame, Normalize, Plain, FrameEnd, FirstFrame, Frames;
        if Units(f) <= MAX_FRAME { AbsorbStops(run, codec, h, tail, later, d); }
      }
    }
  }

  /** Stopped by a limit, or by the end of the connection, without handling any further frame. */
  lemma StopsHere(run: string, codec: Codec, c: Client, frames: seq<string>, o: Outcome)
    requires c.outcome.Open? && SizeFault(o)
    ensures Stops(run, codec, c, frames, c.(outcome := o))
  {
  }

  lemma {:induction false} ConsumedStops(run: string, codec: Codec, c: Client, buffer: string, bytes: nat, blocks: seq<Block>)
    requires c.outcome.Open? && Plain(buffer + Joined(blocks))
    ensures Stops(run, codec, c, Frames(buffer + Joined(blocks)), Consumed(run, codec, c, buffer, bytes, blocks))
    decreases |blocks|
  {
    if blocks == [] {
      StopsHere(run, codec, c, Frames(buffer + Joined(blocks)), CLOSED);
    } else if bytes + blocks[0].bytes > MAX_BYTES {
      StopsHere(run, codec, c, Frames(buffer + Joined(blocks)), Fault("Event stream exceeds limit"));
    } else {
      var x, later := buffer + blocks[0].text, Joined(blocks[1..]);
      var d := Consumed(run, codec, c, buffer, bytes, blocks);
      assert buffer + Joined(blocks) == x + later;
      ConsumeStep(run, codec, c, buffer, bytes, blocks);
      AbsorbLeaves(run, codec, c, x, later);
      var (e, rest) := AbsorbFrames(run, codec, c, Normalize(x));
      hide Consumed, Normalize, Plain, Frames, Absorb, Joined, Stops;
      if e.outcome.Open? && Units(rest) > MAX_FRAME {
        StopsHere(run, codec, e, Frames(rest + later), TOO_LARGE);
      } else if e.outcome.Open? {
        ConsumedStops(run, codec, e, rest, bytes + blocks[0].bytes, blocks[1..]);
      }
      AbsorbStops(run, codec, c, x, later, d);
    }
  }

  // ---- What the client passes on from a session

  /** The callbacks, previews aside, are the log's entries between the two positions. */
  ghost predicate Tells(calls: seq<TimelineView.Callback>, cursor: nat, end: nat, log: seq<AnswerRuns.Status>)
    decreases |calls|
  {
    if calls == [] then cursor == end
    else match calls[0]
      case OnEvent(e) => cursor < |log| && e == TimelineView.Entry(cursor + 1, log[cursor]) && Tells(calls[1..], cursor + 1, end, log)
      case OnPreview(_, _) => Tells(calls[1..], cursor, end, log)
      case OnEnd(_) => false
  }

  lemma LeadsTail(xs: seq<Signal>, cursor: nat, end: nat, log: seq<AnswerRuns.Status>)
    requires Leads(xs, cursor, end, log) && xs != []
    ensures var x := xs[0];
            && (x.Update? ==> x.sequence == cursor + 1 && cursor < end && x.status == log[cursor] && Leads(xs[1..], cursor + 1, end, log))
            && (!x.Update? ==> Leads(xs[1..], cursor, end, log))
            && (x.StreamEnd? ==> Whole(log, cursor)) && (Control(x) ==> |xs| == 1)
  {
    assert Control(xs[0]) ==> |xs| == 1;
    var k := if xs[0].Update? then cursor + 1 else cursor;
    InFlightBehind(xs[1..], 0, k, end, log);
    assert xs[1..][..0] == [];
    if |xs| == 1 { assert xs[1..] == []; }
  }

  /** The same in terms of signals. */
  ghost predicate Halts(run: string, c: Client, xs: seq<Signal>, d: Client)
    decreases |xs|
  {
    if !c.outcome.Open? then d == c
    else (SizeFault(d.outcome) && d == c.(outcome := d.outcome)) || (xs != [] && Halts(run, React(run, c, xs[0]), xs[1..], d))
  }

  lemma {:induction false} StopsHalts(run: string, codec: Codec, c: Client, xs: seq<Signal>, frames: seq<string>, d: Client)
    requires Faithful(run, codec) && (forall x | x in xs :: Presentable(x))
    requires frames <= Bodies(RenderAll(run, codec, xs)) && Stops(run, codec, c, frames, d)
    ensures Halts(run, c, xs, d)
    decreases |xs|
  {
    if c.outcome.Open? && frames != [] {
      var bodies := Bodies(RenderAll(run, codec, xs));
      assert frames[0] == bodies[0] == Body(Render(run, codec, xs[0]));
      assert bodies[1..] == Bodies(RenderAll(run, codec, xs[1..]));
      ReactionIsFaithful(run, codec, c, xs[0]);
      hide HandleFields, ReadFrame, Body, Render, Faithful, React, Presentable;
      if Stops(run, codec, React(run, c, xs[0]), frames[1..], d) { StopsHalts(run, codec, React(run, c, xs[0]), xs[1..], frames[1..], d); }
    }
  }

  lemma TellsMore(first: seq<TimelineView.Callback>, more: seq<TimelineView.Callback>, cursor: nat, next: nat, end: nat, log: seq<AnswerRuns.Status>)
    requires |first| <= 1 && Tells(first, cursor, next, log) && Tells(more, next, end, log)
    ensures Tells(first + more, cursor, end, log)
  {
    if first == [] {
      assert first + more == more;
    } else {
      assert (first + more)[1..] == more && first[1..] == [];
    }
  }

  /** One signal that does not end the stream. */
  lemma ReactTells(run: string, c: Client, x: Signal, log: seq<AnswerRuns.Status>) returns (first: seq<TimelineView.Callback>)
    requires c.outcome.Open? && !Control(x)
    requires x.Update? ==> x.sequence == c.cursor + 1 && c.cursor < |log| && x.status == log[c.cursor]
    ensures var d := React(run, c, x);
            && d.outcome.Open? && d.calls == c.calls + first && |first| <= 1
            && d.cursor == (if x.Update? then c.cursor + 1 else c.cursor) && Tells(first, c.cursor, d.cursor, log)
  {
    first := React(run, c, x).calls[|c.calls|..];
    if first != [] { assert first[1..] == []; }
  }

  /** A client that has handled some signals of a session has passed on the log's entries from its
      cursor on, without gap or repetition, and believes it is done only at the log's end. */
  lemma {:induction false} HaltsTells(run: string, log: seq<AnswerRuns.Status>, c: Client, xs: seq<Signal>, end: nat, d: Client)
    returns (more: seq<TimelineView.Callback>)
    requires Leads(xs, c.cursor, end, log) && c.outcome.Open? && Halts(run, c, xs, d)
    ensures d.calls == c.calls + more && c.cursor <= d.cursor <= end && Tells(more, c.cursor, d.cursor, log)
    ensures d.outcome != Fault("Event sequence gap") && (d.outcome == Done ==> Whole(log, d.cursor))
    decreases |xs|
  {
    more := [];
    if !(SizeFault(d.outcome) && d == c.(outcome := d.outcome)) {
      var x := xs[0];
      LeadsTail(xs, c.cursor, end, log);
      hide Leads, Whole;
      if Control(x) {
        assert d == React(run, c, x);
      } else {
        var first := ReactTells(run, c, x, log);
        var next := React(run, c, x);
        hide React, Control;
        var rest := HaltsTells(run, log, next, xs[1..], end, d);
        TellsMore(first, rest, c.cursor, next.cursor, d.cursor, log);
        more := first + rest;
      }
    }
  }

  // ---- Connections, one after another

  /** An attempt to connect: refused with an HTTP error, or a stream. `from` is how long the log
      was when it began, `polls` are the server's, `blocks` what arrived of its text. */
  datatype Attempt =
    | Refused(ending: TimelineView.Ending)
    | Streamed(from: nat, includePreview: bool, polls: seq<PollResult>, blocks: seq<Block>)

  function EndingOf(o: Outcome): TimelineView.Ending {
    match o
    case Done => TimelineView.Finished
    case Again => TimelineView.Again
    case Fault("401") => TimelineView.Expired
    case _ => TimelineView.Interrupted
  }

  /** The callbacks of one attempt, begun with the cursor that the loop holds. */
  function Callbacks(run: string, codec: Codec, v: TimelineView.View, a: Attempt): seq<TimelineView.Callback> {
    if !v.open then []
    else match a
      case Refused(ending) => [TimelineView.OnEnd(ending)]
      case Streamed(_, _, _, blocks) =>
        var c := Consumed(run, codec, Start(v.cursor), "", 0, blocks);
        c.calls + [TimelineView.OnEnd(EndingOf(c.outcome))]
  }

  function Calls(run: string, codec: Codec, attempts: seq<Attempt>): seq<TimelineView.Callback> {
    if attempts == [] then []
    else
      var before := Calls(run, codec, attempts[..|attempts| - 1]);
      before + Callbacks(run, codec, TimelineView.After(before), attempts[|attempts| - 1])
  }

  /** What can happen: while the log grows, attempt follows attempt; each stream is a session of
      the server from the loop's cursor, of which a beginning arrives, in any blocks. The log has
      at most n entries by then. */
  ghost predicate Possible(run: string, codec: Codec, log: seq<AnswerRuns.Status>, attempts: seq<Attempt>, n: nat) {
    if attempts == [] then true
    else
      var front := attempts[..|attempts| - 1];
      match attempts[|attempts| - 1]
      case Refused(ending) => ending != TimelineView.Finished && ending != TimelineView.Again && Possible(run, codec, log, front, n)
      case Streamed(from, includePreview, polls, blocks) =>
        && Possible(run, codec, log, front, from) && |polls| <= STREAM_POLLS && Timely(from, polls, n)
        && (forall p | p in polls :: Readable(|log|, p))
        && var cursor := TimelineView.After(Calls(run, codec, front)).cursor;
           Joined(blocks) <= Encode(RenderAll(run, codec, Session(log, cursor, includePreview, polls)))
  }

  lemma {:induction false} ServedInBounds(log: seq<AnswerRuns.Status>, start: nat, includePreview: bool, polls: seq<PollResult>)
    requires |log| <= 3 && forall p | p in polls :: Readable(|log|, p)
    ensures forall x | x in Served(log, start, includePreview, polls).out :: InBounds(x)
  {
    if polls != [] {
      var front, p := polls[..|polls| - 1], polls[|polls| - 1];
      ServedInBounds(log, start, includePreview, front);
      var s := Served(log, start, includePreview, front);
      if !s.closed && p.Page? && s.cursor <= p.maximum {
        PageInBounds(log, s, |front|, includePreview, p);
        ServePage(log, s, |front|, includePreview, p);
        hide Serve, PageSignals, InBounds;
      }
    }
  }

  lemma PageInBounds(log: seq<AnswerRuns.Status>, s: Server, tick: nat, includePreview: bool, p: PollResult)
    requires |log| <= 3 && p.Page? && Readable(|log|, p) && s.cursor <= p.maximum
    ensures forall x | x in PageSignals(log, s, tick, includePreview, p) :: InBounds(x)
  {
    hide TerminalPage;
  }

  lemma SessionInBounds(log: seq<AnswerRuns.Status>, start: nat, includePreview: bool, polls: seq<PollResult>)
    requires LogOk(log) && forall p | p in polls :: Readable(|log|, p)
    ensures forall x | x in Session(log, start, includePreview, polls) :: InBounds(x)
  {
    ServedInBounds(log, start, includePreview, polls);
    hide Served;
  }

  /** Everything a session sends is accepted by the client's schemas: the limits of the two ends
      agree, a preview of 8000 characters having at most 16000 UTF-16 units. */
  lemma SessionIsPresentable(log: seq<AnswerRuns.Status>, start: nat, includePreview: bool, polls: seq<PollResult>)
    requires LogOk(log) && forall p | p in polls :: Readable(|log|, p)
    ensures forall x | x in Session(log, start, includePreview, polls) :: Presentable(x)
  {
    SessionInBounds(log, start, includePreview, polls);
    var xs := Session(log, start, includePreview, polls);
    hide Session, Units;
    forall x | x in xs ensures Presentable(x) {
      if x.Preview? { UnitsBounds(x.text); }
    }
  }

  /** The client has handled some of the signals of a session, possibly stopped by a limit or by the
      end of the connection. */
  lemma StreamHalts(run: string, codec: Codec, xs: seq<Signal>, cursor: nat, blocks: seq<Block>)
    requires Faithful(run, codec) && (forall x | x in xs :: Presentable(x)) && Joined(blocks) <= Encode(RenderAll(run, codec, xs))
    ensures Halts(run, Start(cursor), xs, Consumed(run, codec, Start(cursor), "", 0, blocks))
  {
    var c, text := Consumed(run, codec, Start(cursor), "", 0, blocks), Joined(blocks);
    AllSendable(run, codec, xs);
    hide Consumed, Encode, Stops, Faithful, Plain, Presentable, Joined, Halts;
    PrefixDecodes(RenderAll(run, codec, xs), text);
    assert "" + text == text;
    ConsumedStops(run, codec, Start(cursor), "", 0, blocks);
    StopsHalts(run, codec, Start(cursor), xs, Frames(text), c);
  }

  /** The client on one stream. */
  lemma StreamTells(run: string, codec: Codec, log: seq<AnswerRuns.Status>, cursor: nat, a: Attempt, n: nat)
    requires LogOk(log) && n <= |log| && Faithful(run, codec) && a.Streamed? && cursor <= a.from && Timely(a.from, a.polls, n)
    requires forall p | p in a.polls :: Readable(|log|, p)
    requires Joined(a.blocks) <= Encode(RenderAll(run, codec, Session(log, cursor, a.includePreview, a.polls)))
    ensures var c := Consumed(run, codec, Start(cursor), "", 0, a.blocks);
            && cursor <= c.cursor <= n && Tells(c.calls, cursor, c.cursor, log)
            && c.outcome != Fault("Event sequence gap") && (c.outcome == Done ==> Whole(log, c.cursor))
  {
    var xs := Session(log, cursor, a.includePreview, a.polls);
    SessionLeads(log, cursor, a.includePreview, a.polls, a.from, n);
    var end := Served(log, cursor, a.includePreview, a.polls).cursor;
    SessionIsPresentable(log, cursor, a.includePreview, a.polls);
    hide Session, Served, Leads, Timely, LogOk, Whole, Consumed, Encode, Halts, Faithful, Presentable;
    StreamHalts(run, codec, xs, cursor, a.blocks);
    var more := HaltsTells(run, log, Start(cursor), xs, end, Consumed(run, codec, Start(cursor), "", 0, a.blocks));
    assert [] + more == more;
  }

  // ---- What the user is shown

  /** The events shown are the log up to the cursor. */
  ghost predicate Shows(v: TimelineView.View, log: seq<AnswerRuns.Status>) {
    && v.cursor <= |log| && |v.events| == v.cursor
    && forall i | 0 <= i < v.cursor :: v.events[i] == TimelineView.Entry(i + 1, log[i])
  }

  lemma OneMore(calls: seq<TimelineView.Callback>, c: TimelineView.Callback)
    requires TimelineView.InSequence(calls)
    requires c.OnEvent? && TimelineView.After(calls).open ==> c.entry.sequence == TimelineView.After(calls).cursor + 1
    ensures TimelineView.InSequence(calls + [c])
    ensures TimelineView.After(calls + [c]) == TimelineView.Handle(TimelineView.After(calls), c)
  {
    var all := calls + [c];
    assert all[..|calls|] == calls;
    forall i | 0 <= i < |all| && all[i].OnEvent? && TimelineView.After(all[..i]).open
      ensures all[i].entry.sequence == TimelineView.After(all[..i]).cursor + 1 {
      if i < |calls| { assert all[..i] == calls[..i]; }
    }
  }

  lemma OneTold(before: seq<TimelineView.Callback>, c: TimelineView.Callback, log: seq<AnswerRuns.Status>)
    requires TimelineView.InSequence(before) && TimelineView.After(before).open && Shows(TimelineView.After(before), log) && !c.OnEnd?
    requires var cursor := TimelineView.After(before).cursor;
             c.OnEvent? ==> cursor < |log| && c.entry == TimelineView.Entry(cursor + 1, log[cursor])
    ensures TimelineView.InSequence(before + [c])
    ensures var v, t := TimelineView.After(before), TimelineView.After(before + [c]);
            t.open && Shows(t, log) && t.cursor == (if c.OnEvent? then v.cursor + 1 else v.cursor)
  {
    OneMore(before, c);
    hide TimelineView.InSequence, TimelineView.After;
    OneShown(TimelineView.After(before), c, log);
  }

  lemma OneShown(v: TimelineView.View, c: TimelineView.Callback, log: seq<AnswerRuns.Status>)
    requires v.open && Shows(v, log) && !c.OnEnd? && (c.OnEvent? ==> v.cursor < |log| && c.entry == TimelineView.Entry(v.cursor + 1, log[v.cursor]))
    ensures var t := TimelineView.Handle(v, c); t.open && Shows(t, log) && t.cursor == (if c.OnEvent? then v.cursor + 1 else v.cursor)
  {
    if c.OnEvent? { TimelineView.NextEntry(v, c.entry); }
    hide TimelineView.Sort, TimelineView.Without;
  }

  /** Callbacks that tell the log are shown as the log. */
  lemma {:induction false} TellingShows(before: seq<TimelineView.Callback>, calls: seq<TimelineView.Callback>, end: nat, log: seq<AnswerRuns.Status>)
    requires TimelineView.InSequence(before) && TimelineView.After(before).open && Shows(TimelineView.After(before), log)
    requires Tells(calls, TimelineView.After(before).cursor, end, log)
    ensures TimelineView.InSequence(before + calls)
    ensures var v := TimelineView.After(before + calls); v.open && v.cursor == end && Shows(v, log)
    decreases |calls|
  {
    hide TimelineView.InSequence, TimelineView.After, Shows;
    if calls == [] {
      assert before + calls == before;
    } else {
      OneTold(before, calls[0], log);
      assert before + calls == before + [calls[0]] + calls[1..];
      TellingShows(before + [calls[0]], calls[1..], end, log);
    }
  }

  lemma {:induction false} TellsNoEnd(calls: seq<TimelineView.Callback>, cursor: nat, end: nat, log: seq<AnswerRuns.Status>, c: TimelineView.Callback)
    requires Tells(calls, cursor, end, log) && c in calls
    ensures !c.OnEnd?
    decreases |calls|
  {
    if c != calls[0] { TellsNoEnd(calls[1..], if calls[0].OnEvent? then cursor + 1 else cursor, end, log, c); }
  }

  /** The state of the loop: it shows the log up to its cursor, and has finished only with the
      whole of a finished log. */
  ghost predicate Replayed(calls: seq<TimelineView.Callback>, log: seq<AnswerRuns.Status>, n: nat) {
    && TimelineView.InSequence(calls)
    && Shows(TimelineView.After(calls), log) && TimelineView.After(calls).cursor <= n
    && (TimelineView.OnEnd(TimelineView.Finished) in calls ==> !TimelineView.After(calls).open && Whole(log, TimelineView.After(calls).cursor))
  }

  lemma RefusedKeeps(calls: seq<TimelineView.Callback>, ending: TimelineView.Ending, log: seq<AnswerRuns.Status>, n: nat)
    requires Replayed(calls, log, n) && TimelineView.After(calls).open && ending != TimelineView.Finished
    ensures Replayed(calls + [TimelineView.OnEnd(ending)], log, n)
  {
    OneMore(calls, TimelineView.OnEnd(ending));
    hide TimelineView.InSequence, TimelineView.After;
  }

  lemma StreamKeeps(calls: seq<TimelineView.Callback>, more: seq<TimelineView.Callback>, ending: TimelineView.Ending, end: nat,
                    log: seq<AnswerRuns.Status>, from: nat, n: nat)
    requires Replayed(calls, log, from) && TimelineView.After(calls).open && Tells(more, TimelineView.After(calls).cursor, end, log)
    requires end <= n && (ending == TimelineView.Finished ==> Whole(log, end))
    ensures Replayed(calls + (more + [TimelineView.OnEnd(ending)]), log, n)
  {
    var told, last := calls + more, TimelineView.OnEnd(ending);
    TellingShows(calls, more, end, log);
    OneMore(told, last);
    assert calls + (more + [last]) == told + [last];
    hide TimelineView.InSequence, TimelineView.After, Whole;
    if TimelineView.OnEnd(TimelineView.Finished) in more {
      TellsNoEnd(more, TimelineView.After(calls).cursor, end, log, TimelineView.OnEnd(TimelineView.Finished));
    }
  }

  lemma StreamedKeeps(run: string, codec: Codec, log: seq<AnswerRuns.Status>, before: seq<TimelineView.Callback>, a: Attempt, n: nat)
    requires LogOk(log) && n <= |log| && Faithful(run, codec) && a.Streamed? && Replayed(before, log, a.from) && TimelineView.After(before).open
    requires Timely(a.from, a.polls, n) && forall p | p in a.polls :: Readable(|log|, p)
    requires Joined(a.blocks) <= Encode(RenderAll(run, codec, Session(log, TimelineView.After(before).cursor, a.includePreview, a.polls)))
    ensures Replayed(before + Callbacks(run, codec, TimelineView.After(before), a), log, n)
  {
    var v := TimelineView.After(before);
    CursorIsKnown(before, log, a.from);
    hide Faithful, LogOk, Consumed, Encode, Session, TimelineView.After, Replayed, Timely, Whole, RenderAll, Tells;
    StreamTells(run, codec, log, v.cursor, a, n);
    var c := Consumed(run, codec, Start(v.cursor), "", 0, a.blocks);
    StreamKeeps(before, c.calls, EndingOf(c.outcome), c.cursor, log, a.from, n);
  }

  /** One attempt. */
  lemma AttemptKeeps(run: string, codec: Codec, log: seq<AnswerRuns.Status>, before: seq<TimelineView.Callback>, a: Attempt, from: nat, n: nat)
    requires LogOk(log) && from <= n <= |log| && Faithful(run, codec) && Replayed(before, log, from)
    requires a.Refused? ==> a.ending != TimelineView.Finished
    requires a.Streamed? ==> a.from == from && Timely(from, a.polls, n) && forall p | p in a.polls :: Readable(|log|, p)
    requires a.Streamed? ==>
               Joined(a.blocks) <= Encode(RenderAll(run, codec, Session(log, TimelineView.After(before).cursor, a.includePreview, a.polls)))
    ensures Replayed(before + Callbacks(run, codec, TimelineView.After(before), a), log, n)
  {
    hide Faithful, LogOk, Consumed, Encode, Session, TimelineView.After, Replayed, Timely, RenderAll;
    NothingMore(before, log, from, n);
    if TimelineView.After(before).open {
      if a.Refused? { RefusedKeeps(before, a.ending, log, n); } else { StreamedKeeps(run, codec, log, before, a, n); }
    }
  }

  /** End to end, over any number of attempts to connect, with the log growing meanwhile: whatever
      the blocks, wherever connections break off and whichever limits are hit, every event the loop
      is handed is the next one after its cursor, what it shows is exactly the log up to that
      cursor, and it finishes only with the whole of a finished log. */
  lemma {:induction false} ReplayIsFaithful(run: string, codec: Codec, log: seq<AnswerRuns.Status>, attempts: seq<Attempt>, n: nat)
    requires LogOk(log) && n <= |log| && Faithful(run, codec) && Possible(run, codec, log, attempts, n)
    ensures Replayed(Calls(run, codec, attempts), log, n)
  {
    if attempts != [] {
      var front, a := attempts[..|attempts| - 1], attempts[|attempts| - 1];
      hide Faithful, LogOk, Encode, Session, TimelineView.After, Replayed, Timely, Callbacks, RenderAll;
      var from := if a.Streamed? then a.from else n;
      if a.Streamed? { TimelyReadable(from, a.polls, n, |log|); }
      ReplayIsFaithful(run, codec, log, front, from);
      AttemptKeeps(run, codec, log, Calls(run, codec, front), a, from, n);
    }
  }

  lemma CursorIsKnown(calls: seq<TimelineView.Callback>, log: seq<AnswerRuns.Status>, n: nat)
    requires Replayed(calls, log, n)
    ensures TimelineView.After(calls).cursor <= n
  {
  }

  lemma NothingMore(calls: seq<TimelineView.Callback>, log: seq<AnswerRuns.Status>, from: nat, n: nat)
    requires Replayed(calls, log, from) && from <= n
    ensures Replayed(calls + [], log, n) && Replayed(calls, log, n)
  {
    assert calls + [] == calls;
  }

  /** So the user sees the log's statuses in order, and no preview once a terminal one is among
      them. */
  lemma ReplayShowsTheLog(run: string, codec: Codec, log: seq<AnswerRuns.Status>, attempts: seq<Attempt>, n: nat)
    requires LogOk(log) && n <= |log| && Faithful(run, codec) && Possible(run, codec, log, attempts, n)
    ensures var v := TimelineView.After(Calls(run, codec, attempts));
            && v.cursor <= n && (v.terminalSeen <==> Whole(log, v.cursor)) && (v.terminalSeen ==> v.preview == "")
  {
    ReplayIsFaithful(run, codec, log, attempts, n);
    var calls := Calls(run, codec, attempts);
    var v := TimelineView.After(calls);
    TimelineView.ViewIsFaithful(calls);
    hide Calls, Possible, Faithful, TimelineView.After, TimelineView.InSequence;
    if v.terminalSeen {
      var e :| e in v.events && e.status.Terminal();
      var i :| 0 <= i < |v.events| && v.events[i] == e;
      assert log[i].Terminal();
    }
    if Whole(log, v.cursor) { assert v.events[v.cursor - 1] in v.events; }
  }

  // ---- The state machine of the timeline is this client

  function Statuses(calls: seq<TimelineView.Callback>): seq<AnswerRuns.Status> {
    if calls == [] then []
    else Statuses(calls[..|calls| - 1]) + (if calls[|calls| - 1].OnEvent? then [calls[|calls| - 1].entry.status] else [])
  }

  /** Client and state machine agree on cursor, statuses, completion and gaps. */
  ghost predicate Agree(s: RunTimeline.System, before: seq<AnswerRuns.Status>, c: Client) {
    && c.cursor == s.cursor && s.accepted == before + Statuses(c.calls)
    && (c.outcome == Done <==> s.verdict == RunTimeline.Complete)
    && (c.outcome == Fault("Event sequence gap") <==> s.verdict == RunTimeline.Gap)
    && (c.outcome.Open? <==> s.link.Some?)
  }

  lemma ReactionsAgree(run: string, s: RunTimeline.System, before: seq<AnswerRuns.Status>, c: Client, x: Signal)
    requires Agree(s, before, c) && c.outcome.Open?
    ensures Agree(RunTimeline.Receive(s, x), before, React(run, c, x))
  {
    match x {
      case Update(n, status) =>
        StatusesOne(c.calls, TimelineView.OnEvent(TimelineView.Entry(n, status)));
        assert before + Statuses(c.calls) + [status] == before + (Statuses(c.calls) + [status]);
      case Preview(revision, text) => StatusesOne(c.calls, TimelineView.OnPreview(revision, text));
      case _ =>
    }
    hide Statuses;
  }

  lemma StatusesOne(calls: seq<TimelineView.Callback>, c: TimelineView.Callback)
    ensures Statuses(calls + [c]) == if c.OnEvent? then Statuses(calls) + [c.entry.status] else Statuses(calls)
  {
    assert (calls + [c])[..|calls|] == calls;
  }

  /** Delivering the next signal. */
  lemma DeliverAgrees(run: string, s: RunTimeline.System, before: seq<AnswerRuns.Status>, c: Client)
    requires Agree(s, before, c) && c.outcome.Open? && RunTimeline.Waiting(s.link.value) > 0
    ensures var k := s.link.value;
            var t, d := RunTimeline.Next(s, RunTimeline.Deliver), React(run, c, k.server.out[k.delivered]);
            Agree(t, before, d) && (d.outcome.Open? ==> t.link == Some(k.(delivered := k.delivered + 1)))
  {
    var k := s.link.value;
    var x, s' := k.server.out[k.delivered], s.(link := Some(k.(delivered := k.delivered + 1)));
    assert Agree(s', before, c);
    ReactionsAgree(run, s', before, c, x);
    assert RunTimeline.Next(s, RunTimeline.Deliver) == RunTimeline.Receive(s', x);
    if React(run, c, x).outcome.Open? { StaysOpen(run, s', before, c, x); }
    hide Agree, React;
  }

  /** Over a whole connection: delivering its signals one by one takes the timeline's state machine
      where reading them takes the client. */
  lemma {:induction false} TimelineUsesTheseReactions(run: string, s: RunTimeline.System, before: seq<AnswerRuns.Status>, c: Client, n: nat)
    requires Agree(s, before, c) && c.outcome.Open? && n <= RunTimeline.Waiting(s.link.value)
    ensures var k := s.link.value;
            Agree(RunTimeline.DeliverAll(s, n), before, ReactAll(run, c, k.server.out[k.delivered..k.delivered + n]))
    decreases n
  {
    if n > 0 {
      var k := s.link.value;
      var xs, t := k.server.out[k.delivered..k.delivered + n], RunTimeline.Next(s, RunTimeline.Deliver);
      DeliverAgrees(run, s, before, c);
      assert xs[0] == k.server.out[k.delivered] && xs[1..] == k.server.out[k.delivered + 1..k.delivered + n];
      hide Agree, React, RunTimeline.Next;
      if React(run, c, xs[0]).outcome.Open? {
        TimelineUsesTheseReactions(run, t, before, React(run, c, xs[0]), n - 1);
      } else {
        ClosedAgrees(t, before, React(run, c, xs[0]), n - 1);
      }
    }
  }

  lemma StaysOpen(run: string, s: RunTimeline.System, before: seq<AnswerRuns.Status>, c: Client, x: Signal)
    requires Agree(s, before, c) && c.outcome.Open? && React(run, c, x).outcome.Open?
    ensures RunTimeline.Receive(s, x).link == s.link
  {
  }

  lemma {:induction false} ClosedAgrees(s: RunTimeline.System, before: seq<AnswerRuns.Status>, c: Client, n: nat)
    requires Agree(s, before, c) && !c.outcome.Open?
    ensures Agree(RunTimeline.DeliverAll(s, n), before, c)
    decreases n
  {
    if n > 0 {
      assert RunTimeline.Next(s, RunTimeline.Deliver) == s;
      ClosedAgrees(s, before, c, n - 1);
    }
  }
}
