/** The server's side of a connection (`RunStream.page` and `frames`): up to 25 polls of the event
    log behind a cursor that moves with the events sent, each sending the new events, a changed
    preview, and a control frame or a keep-alive. */
module EventServer {
  import opened Options
  import opened AnswerRuns

  const STREAM_POLLS := 25
  const PAGE_LIMIT := 3

  /** What travels on a connection. */
  datatype Signal =
    | Update(sequence: nat, status: Status)
    | Preview(revision: nat, text: string)
    | StreamEnd
    | Reconnect
    | StreamError(code: string)
    | KeepAlive

  predicate Control(x: Signal) { x.StreamEnd? || x.Reconnect? || x.StreamError? }

  /** What one poll meets: the client is gone, an exception (an application error with its HTTP
      status, or another one), or a page. The three reads of a page
      are separate statements, so they see the log at different lengths: `seen` when the run's
      status was read, `maximum` and `upto` when the greatest sequence and the events were. */
  datatype PollResult =
    | Disconnected
    | Broken(status: Option<nat>)
    | Page(seen: nat, maximum: nat, upto: nat, preview: (nat, string))

  /** The code of an error frame. */
  function ErrorCode(status: Option<nat>): string {
    if status == Some(401) then "unauthenticated" else "stream_unavailable"
  }

  /** A preview within the bounds of the server's own schema. */
  predicate Storable(preview: (nat, string)) {
    preview.0 <= MAX_REVISION && |preview.1| <= PREVIEW_CHARS
  }

  /** A signal within the server's own bounds. */
  predicate InBounds(x: Signal) {
    match x
    case Update(n, _) => 1 <= n <= PAGE_LIMIT
    case Preview(revision, text) => Storable((revision, text))
    case StreamError(code) => code == ErrorCode(Some(401)) || code == ErrorCode(None)
    case _ => true
  }

  /** A page reads lengths that the log has had, and a preview that a run can have. */
  predicate Readable(size: nat, p: PollResult) {
    p.Page? ==> 1 <= p.seen <= p.maximum <= p.upto <= size && Storable(p.preview)
  }

  function Updates(log: seq<Status>, from: nat, to: nat): seq<Signal>
    requires from <= to <= |log|
  {
    seq(to - from, i requires 0 <= i < to - from => Update(from + i + 1, log[from + i]))
  }

  /** `after`: the events past the cursor, at most three. */
  function PageEnd(size: nat, cursor: nat): nat {
    if cursor + PAGE_LIMIT < size then cursor + PAGE_LIMIT else size
  }

  predicate AnyTerminal(statuses: seq<Status>) {
    exists i | 0 <= i < |statuses| :: statuses[i].Terminal()
  }

  function PreviewSignals(sent: Option<(nat, string)>, current: Option<(nat, string)>): seq<Signal> {
    if current.Some? && sent != current then [Preview(current.value.0, current.value.1)] else []
  }

  /** What ends a page: the end of the stream, or every fifth time a keep-alive. */
  function Last(terminal: bool, tick: nat): seq<Signal> {
    if terminal then [StreamEnd] else if tick % 5 == 0 then [KeepAlive] else []
  }

  /** The server's side so far: its cursor, the last preview sent, everything sent. */
  datatype Server = Server(cursor: nat, sent: Option<(nat, string)>, out: seq<Signal>, closed: bool)

  /** The page is terminal if the run's status was, or one of its events is. */
  predicate TerminalPage(log: seq<Status>, cursor: nat, p: PollResult)
    requires p.Page? && Readable(|log|, p) && cursor <= p.maximum
  {
    log[p.seen - 1].Terminal() || AnyTerminal(log[cursor..PageEnd(p.upto, cursor)])
  }

  /** One poll of the log. */
  function Serve(log: seq<Status>, s: Server, tick: nat, includePreview: bool, p: PollResult): Server
    requires Readable(|log|, p)
  {
    if s.closed then s
    else match p
      case Disconnected => s.(closed := true)
      case Broken(status) => s.(out := s.out + [StreamError(ErrorCode(status))], closed := true)
      case Page(_, maximum, upto, preview) =>
        if s.cursor > maximum then s.(out := s.out + [StreamError(ErrorCode(Some(409)))], closed := true)
        else
          var end := PageEnd(upto, s.cursor);
          var terminal := TerminalPage(log, s.cursor, p);
          var current := if includePreview then Some(preview) else None;
          Server(end, if includePreview then current else s.sent,
                 s.out + (Updates(log, s.cursor, end) + PreviewSignals(s.sent, current) + Last(terminal, tick)), terminal)
  }

  /** The server after some polls of a connection that asked for the events behind `start`. */
  function Served(log: seq<Status>, start: nat, includePreview: bool, polls: seq<PollResult>): Server
    requires forall p | p in polls :: Readable(|log|, p)
  {
    if polls == [] then Server(start, None, [], false)
    else Serve(log, Served(log, start, includePreview, polls[..|polls| - 1]), |polls| - 1, includePreview, polls[|polls| - 1])
  }

  /** After the last poll the client is asked to come back. */
  function Ended(s: Server, polls: nat): Server {
    if s.closed || polls < STREAM_POLLS then s else s.(out := s.out + [Signal.Reconnect], closed := true)
  }

  /** Everything sent on a connection whose polls turn out as given. */
  function Session(log: seq<Status>, start: nat, includePreview: bool, polls: seq<PollResult>): seq<Signal>
    requires forall p | p in polls :: Readable(|log|, p)
  {
    Ended(Served(log, start, includePreview, polls), |polls|).out
  }

  // ---- The loop as written

  datatype EventPage = EventPage(events: seq<(nat, Status)>, terminal: bool, preview: (nat, string))

  function Signals(events: seq<(nat, Status)>): seq<Signal> {
    seq(|events|, i requires 0 <= i < |events| => Update(events[i].0, events[i].1))
  }

  lemma NextEvent(log: seq<Status>, cursor: nat, sequence: nat, events: seq<(nat, Status)>)
    requires cursor <= sequence < |log|
    ensures Updates(log, cursor, sequence + 1) == Updates(log, cursor, sequence) + [Update(sequence + 1, log[sequence])]
    ensures Signals(events + [(sequence + 1, log[sequence])]) == Signals(events) + [Update(sequence + 1, log[sequence])]
    ensures AnyTerminal(log[cursor..sequence + 1]) <==> AnyTerminal(log[cursor..sequence]) || log[sequence].Terminal()
  {
    var a, b := log[cursor..sequence], log[cursor..sequence + 1];
    assert b == a + [log[sequence]] && b[|a|] == log[sequence];
    if AnyTerminal(a) {
      var i :| 0 <= i < |a| && a[i].Terminal();
      assert b[i].Terminal();
    }
  }

  /** `page`: the events past the cursor, or `None` for a cursor ahead of the run. */
  method ReadPage(log: seq<Status>, cursor: nat, p: PollResult) returns (page: Option<EventPage>)
    requires p.Page? && Readable(|log|, p)
    ensures page.None? <==> cursor > p.maximum
    ensures page.Some? ==> && Signals(page.value.events) == Updates(log, cursor, PageEnd(p.upto, cursor))
                           && page.value.terminal == TerminalPage(log, cursor, p) && page.value.preview == p.preview
  {
    if cursor > p.maximum { return None; }
    var events: seq<(nat, Status)> := [];
    var terminal := log[p.seen - 1].Terminal();
    var sequence := cursor;
    while sequence < p.upto && |events| < PAGE_LIMIT
      invariant cursor <= sequence <= PageEnd(p.upto, cursor) && |events| == sequence - cursor
      invariant Signals(events) == Updates(log, cursor, sequence)
      invariant terminal <==> log[p.seen - 1].Terminal() || AnyTerminal(log[cursor..sequence])
    {
      NextEvent(log, cursor, sequence, events);
      terminal := terminal || log[sequence].Terminal();
      sequence := sequence + 1;
      events := events + [(sequence, log[sequence - 1])];
    }
    page := Some(EventPage(events, terminal, p.preview));
  }

  /** Everything one page sends, and the cursor and preview afterwards. */
  method SendPage(page: EventPage, from: nat, includePreview: bool, before: Option<(nat, string)>, tick: nat)
    returns (out: seq<Signal>, cursor: nat, previous: Option<(nat, string)>)
    ensures var current := if includePreview then Some(page.preview) else None;
            && out == Signals(page.events) + PreviewSignals(before, current) + Last(page.terminal, tick)
            && cursor == (if page.events == [] then from else page.events[|page.events| - 1].0)
            && previous == (if includePreview then current else before)
  {
    out, cursor, previous := [], from, before;
    for i := 0 to |page.events|
      invariant out == Signals(page.events[..i])
      invariant cursor == if i == 0 then from else page.events[i - 1].0
    {
      cursor := page.events[i].0;
      out := out + [Update(cursor, page.events[i].1)];
      assert page.events[..i + 1] == page.events[..i] + [page.events[i]];
    }
    assert page.events[..|page.events|] == page.events;
    if includePreview && Some(page.preview) != previous {
      out := out + [Preview(page.preview.0, page.preview.1)];
      previous := Some(page.preview);
    }
    if page.terminal {
      out := out + [StreamEnd];
    } else if tick % 5 == 0 {
      out := out + [KeepAlive];
    }
  }

  /** The body of the loop: one poll. */
  method Poll(log: seq<Status>, s: Server, includePreview: bool, tick: nat, p: PollResult) returns (next: Server)
    requires !s.closed && Readable(|log|, p)
    ensures next == Serve(log, s, tick, includePreview, p)
  {
    match p
    case Disconnected => return s.(closed := true);
    case Broken(status) => return s.(out := s.out + [StreamError(ErrorCode(status))], closed := true);
    case Page(_, _, _, _) =>
      var page := ReadPage(log, s.cursor, p);
      if page.None? { return s.(out := s.out + [StreamError(ErrorCode(Some(409)))], closed := true); }
      var sent, cursor, previous := SendPage(page.value, s.cursor, includePreview, s.sent, tick);
      var events, end := page.value.events, PageEnd(p.upto, s.cursor);
      assert |Signals(events)| == |Updates(log, s.cursor, end)|;
      if events != [] { assert Signals(events)[|events| - 1] == Updates(log, s.cursor, end)[|events| - 1]; }
      next := Server(cursor, previous, s.out + sent, page.value.terminal);
  }

  lemma ServedOne(log: seq<Status>, start: nat, includePreview: bool, polls: seq<PollResult>, tick: nat)
    requires tick < |polls| && forall p | p in polls :: Readable(|log|, p)
    ensures forall p | p in polls[..tick] || p in polls[..tick + 1] :: p in polls
    ensures Served(log, start, includePreview, polls[..tick + 1]) ==
            Serve(log, Served(log, start, includePreview, polls[..tick]), tick, includePreview, polls[tick])
  {
    assert polls[..tick + 1][..tick] == polls[..tick];
  }

  lemma {:induction false} ClosedStays(log: seq<Status>, start: nat, includePreview: bool, polls: seq<PollResult>, n: nat)
    requires n <= |polls| && forall p | p in polls :: Readable(|log|, p)
    requires forall p | p in polls[..n] :: p in polls
    requires Served(log, start, includePreview, polls[..n]).closed
    ensures Served(log, start, includePreview, polls) == Served(log, start, includePreview, polls[..n])
    decreases |polls| - n
  {
    if n < |polls| {
      ServedOne(log, start, includePreview, polls, n);
      ClosedStays(log, start, includePreview, polls, n + 1);
    } else {
      assert polls[..n] == polls;
    }
  }

  /** `frames`: the polling loop, whose cursor follows the events it sends. */
  method Frames(log: seq<Status>, start: nat, includePreview: bool, polls: seq<PollResult>) returns (out: seq<Signal>)
    requires |polls| == STREAM_POLLS && forall p | p in polls :: Readable(|log|, p)
    ensures out == Session(log, start, includePreview, polls)
  {
    var s := Server(start, None, [], false);
    for tick := 0 to STREAM_POLLS
      invariant forall p | p in polls[..tick] :: p in polls
      invariant !s.closed && Served(log, start, includePreview, polls[..tick]) == s
    {
      ServedOne(log, start, includePreview, polls, tick);
      s := Poll(log, s, includePreview, tick, polls[tick]);
      if s.closed {
        ClosedStays(log, start, includePreview, polls, tick + 1);
        return s.out;
      }
    }
    assert polls[..STREAM_POLLS] == polls;
    out := s.out + [Signal.Reconnect];
  }
}
