/** Replaying a run's event log to a browser that may lose its connection at any moment: the
    server's polling stream (`RunStream.page`, `frames`), the client (`consumeEvents`) and its
    reconnect loop, with the log growing meanwhile. The three reads of a page are separate
    steps, because other transactions commit between them. */
module RunTimeline {
  import opened Options
  import opened AnswerRuns
  import opened AnswerRunInvariant
  import opened EventServer
  import opened EventSessions

  /** How far the server is with the current page: the lengths of the log when it read the run's
      status and the greatest sequence. */
  datatype Stage = Idle | SawStatus(seen: nat) | SawMaximum(seen: nat, maximum: nat)

  /** An open connection: the cursor it was opened with, its polls so far, the server's side of
      it, and how many of the signals sent have been received. */
  datatype Connection = Connection(start: nat, includePreview: bool, polls: seq<PollResult>, stage: Stage, server: Server, delivered: nat)

  datatype Verdict = Following | Complete | Gap

  /** `cursor` is what the client sends as Last-Event-ID; `ahead` records that a server found it
      ahead of the log. */
  datatype System = System(log: seq<Status>, cursor: nat, accepted: seq<Status>, link: Option<Connection>, verdict: Verdict, ahead: bool)

  datatype Move =
    | Grow(status: Status)
    | Connect(includePreview: bool)
    | ReadStatus
    | ReadMaximum
    | ReadEvents(preview: (nat, string))
    | GiveUp
    | Fail(http: Option<nat>)
    | Leave
    | Deliver
    | Drop

  /** The server is about to make a poll. */
  predicate Polling(k: Connection) { !k.server.closed && |k.polls| < STREAM_POLLS }

  /** A finished poll. */
  function Polled(log: seq<Status>, k: Connection, p: PollResult): Connection
    requires Readable(|log|, p)
  {
    k.(polls := k.polls + [p], stage := Idle, server := Serve(log, k.server, |k.polls|, k.includePreview, p))
  }

  /** The client's reaction to one signal. */
  ghost function Receive(s: System, x: Signal): System
    requires s.link.Some?
  {
    match x
    case Update(sequence, status) =>
      if sequence <= s.cursor then s
      else if sequence != s.cursor + 1 then s.(verdict := Gap, link := None)
      else s.(cursor := sequence, accepted := s.accepted + [status])
    case StreamEnd => s.(verdict := Complete, link := None)
    case Reconnect => s.(link := None)
    case StreamError(_) => s.(link := None)
    case _ => s
  }

  ghost function Next(s: System, m: Move): System {
    match m
    case Grow(status) => if LogOk(s.log + [status]) && |s.log| > 0 then s.(log := s.log + [status]) else s
    case Connect(includePreview) =>
      if s.link.None? && s.verdict == Following then
        s.(link := Some(Connection(s.cursor, includePreview, [], Idle, Server(s.cursor, None, [], false), 0)))
      else s
    case Drop => s.(link := None)
    case _ => if s.link.Some? then OnLink(s, s.link.value, m) else s
  }

  /** The steps on an open connection. */
  ghost function OnLink(s: System, k: Connection, m: Move): System
    requires s.link == Some(k)
  {
    match m
    case ReadStatus => if Polling(k) && k.stage.Idle? then s.(link := Some(k.(stage := SawStatus(|s.log|)))) else s
    case ReadMaximum =>
      if Polling(k) && k.stage.SawStatus? then
        s.(ahead := s.ahead || k.server.cursor > |s.log|, link := Some(k.(stage := SawMaximum(k.stage.seen, |s.log|))))
      else s
    case ReadEvents(preview) =>
      if Polling(k) && k.stage.SawMaximum? && 1 <= k.stage.seen <= k.stage.maximum <= |s.log| && Storable(preview) then
        s.(link := Some(Polled(s.log, k, Page(k.stage.seen, k.stage.maximum, |s.log|, preview))))
      else s
    case Fail(http) => if Polling(k) then s.(link := Some(Polled(s.log, k, Broken(http)))) else s
    case Leave => if Polling(k) && k.stage.Idle? then s.(link := Some(Polled(s.log, k, Disconnected))) else s
    case GiveUp => s.(link := Some(k.(server := Ended(k.server, |k.polls|))))
    case Deliver =>
      if k.delivered < |k.server.out| then
        Receive(s.(link := Some(k.(delivered := k.delivered + 1))), k.server.out[k.delivered])
      else s
    case _ => s
  }

  ghost function Replay(log: seq<Status>, moves: seq<Move>): System {
    if moves == [] then System(log, 0, [], None, Following, false)
    else Next(Replay(log, moves[..|moves| - 1]), moves[|moves| - 1])
  }

  // ---- What holds throughout

  ghost predicate IsSession(log: seq<Status>, k: Connection)
    requires forall p | p in k.polls :: Readable(|log|, p)
  {
    var s := Served(log, k.start, k.includePreview, k.polls);
    k.server == s || k.server == Ended(s, |k.polls|)
  }

  /** What was sent on the connection is the server's session over the pages it read, and the
      client is where the received part of it leads. */
  ghost predicate LinkOk(log: seq<Status>, cursor: nat, k: Connection) {
    && Timely(k.start, k.polls, if k.stage.Idle? then |log| else k.stage.seen)
    && (!k.stage.Idle? ==> 1 <= k.stage.seen <= |log|)
    && (k.stage.SawMaximum? ==> k.stage.seen <= k.stage.maximum <= |log|)
    && (forall p | p in k.polls :: Readable(|log|, p))
    && IsSession(log, k)
    && k.delivered <= |k.server.out| && cursor == Advance(k.start, k.server.out[..k.delivered])
  }

  ghost predicate SystemOk(s: System) {
    && LogOk(s.log)
    && s.cursor <= |s.log| && s.accepted == s.log[..s.cursor]
    && s.verdict != Gap && !s.ahead
    && (s.verdict == Complete ==> Whole(s.log, s.cursor))
    && (s.link.Some? ==> s.verdict == Following && LinkOk(s.log, s.cursor, s.link.value))
  }

  lemma GrowKeeps(s: System, status: Status)
    requires SystemOk(s)
    ensures SystemOk(Next(s, Grow(status)))
  {
    var log := s.log + [status];
    if LogOk(log) {
      assert !log[|s.log| - 1].Terminal();
      assert log[..s.cursor] == s.log[..s.cursor];
      if s.link.Some? {
        var k := s.link.value;
        if k.stage.Idle? { TimelyLater(k.start, k.polls, |s.log|, |log|); }
        forall p | p in k.polls ensures Readable(|log|, p) { assert Readable(|s.log|, p); }
        ServedEarlier(s.log, [status], k.start, k.includePreview, k.polls);
      }
    }
  }

  lemma ConnectKeeps(s: System, includePreview: bool)
    requires SystemOk(s)
    ensures SystemOk(Next(s, Connect(includePreview)))
  {
  }

  lemma PolledKeeps(log: seq<Status>, cursor: nat, k: Connection, p: PollResult)
    requires LinkOk(log, cursor, k) && Polling(k) && Readable(|log|, p)
    requires Timely(k.start, k.polls, if p.Page? then p.seen else |log|)
    ensures LinkOk(log, cursor, Polled(log, k, p))
  {
    var t := Polled(log, k, p);
    TimelyOne(k.start, k.polls, p, |log|);
    assert t.polls[..|k.polls|] == k.polls;
    var more := ServeAppends(log, k.server, |k.polls|, k.includePreview, p);
    hide Timely, Serve;
    assert t.server.out[..k.delivered] == k.server.out[..k.delivered];
  }

  lemma ServeAppends(log: seq<Status>, s: Server, tick: nat, includePreview: bool, p: PollResult) returns (more: seq<Signal>)
    requires Readable(|log|, p)
    ensures Serve(log, s, tick, includePreview, p).out == s.out + more
  {
    var t := Serve(log, s, tick, includePreview, p).out;
    more := t[|s.out|..];
  }

  lemma ReadKeeps(s: System, m: Move)
    requires SystemOk(s) && (m.ReadStatus? || m.ReadMaximum? || m.GiveUp?)
    ensures SystemOk(Next(s, m))
  {
    if s.link.Some? {
      var k := s.link.value;
      hide Whole, Serve;
      if m.ReadMaximum? && k.stage.SawStatus? { ServedOk(s.log, k.start, k.includePreview, k.polls, k.start, k.stage.seen); }
      if m.GiveUp? { assert Ended(k.server, |k.polls|).out[..k.delivered] == k.server.out[..k.delivered]; }
    }
  }

  lemma PollKeeps(s: System, k: Connection, p: PollResult)
    requires SystemOk(s) && s.link == Some(k) && Polling(k) && Readable(|s.log|, p)
    requires Timely(k.start, k.polls, if p.Page? then p.seen else |s.log|)
    ensures SystemOk(s.(link := Some(Polled(s.log, k, p))))
  {
    PolledKeeps(s.log, s.cursor, k, p);
    hide LinkOk, LogOk, Whole, Polled;
  }

  lemma PollMoveKeeps(s: System, m: Move)
    requires SystemOk(s) && (m.ReadEvents? || m.Fail? || m.Leave?)
    ensures SystemOk(Next(s, m))
  {
    if s.link.Some? && Polling(s.link.value) {
      var k := s.link.value;
      if !k.stage.Idle? { TimelyLater(k.start, k.polls, k.stage.seen, |s.log|); }
      if m.Fail? { PollKeeps(s, k, Broken(m.http)); }
      if m.Leave? { PollKeeps(s, k, Disconnected); }
      if m.ReadEvents? && k.stage.SawMaximum? && Storable(m.preview) { PollKeeps(s, k, Page(k.stage.seen, k.stage.maximum, |s.log|, m.preview)); }
      hide Timely, Polled, LogOk, Whole, IsSession;
    }
  }

  /** The next signal on a connection, as the client meets it. */
  lemma NextSignal(log: seq<Status>, cursor: nat, k: Connection)
    requires LogOk(log) && LinkOk(log, cursor, k) && k.delivered < |k.server.out|
    ensures var x, out := k.server.out[k.delivered], k.server.out;
            && (x.Update? ==> x.sequence == cursor + 1 && cursor < |log| && x.status == log[cursor])
            && (x.StreamEnd? ==> Whole(log, cursor))
            && Advance(k.start, out[..k.delivered + 1]) == (if x.Update? then cursor + 1 else cursor)
  {
    var x, out := k.server.out[k.delivered], k.server.out;
    SentLeads(log, cursor, k);
    var end := Served(log, k.start, k.includePreview, k.polls).cursor;
    InFlightBehind(out, k.delivered, k.start, end, log);
    assert out[..k.delivered + 1] == out[..k.delivered] + [x];
    AdvanceOne(k.start, out[..k.delivered], x);
    assert out[k.delivered..][0] == x;
    if x.StreamEnd? {
      assert k.delivered == |out| - 1;
      assert out[k.delivered..][1..] == [];
    }
  }

  lemma LinkMoves(log: seq<Status>, cursor: nat, k: Connection, next: nat)
    requires LinkOk(log, cursor, k) && k.delivered < |k.server.out|
    requires next == Advance(k.start, k.server.out[..k.delivered + 1])
    ensures LinkOk(log, next, k.(delivered := k.delivered + 1))
  {
    hide Served, Timely, Advance;
  }

  /** Whatever was sent so far leads from the cursor of the connection to the server's. */
  lemma SentLeads(log: seq<Status>, cursor: nat, k: Connection)
    requires LogOk(log) && LinkOk(log, cursor, k)
    ensures Leads(k.server.out, k.start, Served(log, k.start, k.includePreview, k.polls).cursor, log)
  {
    var to := if k.stage.Idle? then |log| else k.stage.seen;
    ServedOk(log, k.start, k.includePreview, k.polls, k.start, to);
    SessionLeads(log, k.start, k.includePreview, k.polls, k.start, to);
  }

  lemma DeliverKeeps(s: System)
    requires SystemOk(s)
    ensures SystemOk(Next(s, Deliver))
  {
    if s.link.Some? && s.link.value.delivered < |s.link.value.server.out| {
      var k := s.link.value;
      NextSignal(s.log, s.cursor, k);
      LinkMoves(s.log, s.cursor, k, if k.server.out[k.delivered].Update? then s.cursor + 1 else s.cursor);
      hide LinkOk, LogOk, Whole;
      if s.cursor < |s.log| { assert s.log[..s.cursor] + [s.log[s.cursor]] == s.log[..s.cursor + 1]; }
    }
  }

  lemma MoveKeeps(s: System, m: Move)
    requires SystemOk(s)
    ensures SystemOk(Next(s, m))
  {
    match m
    case Grow(status) => GrowKeeps(s, status);
    case Connect(includePreview) => ConnectKeeps(s, includePreview);
    case Deliver => DeliverKeeps(s);
    case Drop =>
    case ReadStatus => ReadKeeps(s, m);
    case ReadMaximum => ReadKeeps(s, m);
    case GiveUp => ReadKeeps(s, m);
    case _ => PollMoveKeeps(s, m);
  }

  /** Across any number of polls, disconnects and reconnects, with the log growing in between:
      what the client has accepted is a gap-free, duplicate-free prefix of the log; it never
      meets a sequence gap; the server never finds the client's cursor ahead of the log; and
      the client considers the timeline complete only when it holds the whole log, terminal
      event included. */
  lemma {:induction false} TimelineIsFaithful(log: seq<Status>, moves: seq<Move>)
    requires LogOk(log)
    ensures SystemOk(Replay(log, moves))
  {
    if moves != [] {
      TimelineIsFaithful(log, moves[..|moves| - 1]);
      hide SystemOk, Next;
      MoveKeeps(Replay(log, moves[..|moves| - 1]), moves[|moves| - 1]);
    }
  }

  /** In every reachable state, everything sent on the open connection is a prefix of the server's
      session over the pages it read, at the cursor it carried from page to page; it is the whole
      session once the server has closed the connection. The pages were read in order, from a log
      that already held the client's cursor. */
  lemma ConnectionIsSession(log: seq<Status>, moves: seq<Move>)
    requires LogOk(log) && Replay(log, moves).link.Some?
    ensures var s := Replay(log, moves);
            var k := s.link.value;
            && |k.polls| <= STREAM_POLLS && Timely(k.start, k.polls, |s.log|) && (forall p | p in k.polls :: Readable(|s.log|, p))
            && k.server.out <= Session(s.log, k.start, k.includePreview, k.polls)
            && (k.server.closed ==> k.server.out == Session(s.log, k.start, k.includePreview, k.polls))
  {
    TimelineIsFaithful(log, moves);
    PollsAreFew(log, moves);
    var s := Replay(log, moves);
    var k := s.link.value;
    if !k.stage.Idle? { TimelyLater(k.start, k.polls, k.stage.seen, |s.log|); }
    hide Served, LogOk, Timely, Replay;
  }

  lemma {:induction false} PollsAreFew(log: seq<Status>, moves: seq<Move>)
    ensures var s := Replay(log, moves); s.link.Some? ==> |s.link.value.polls| <= STREAM_POLLS
  {
    if moves != [] {
      PollsAreFew(log, moves[..|moves| - 1]);
      hide LogOk, Serve;
    }
  }

  // ---- One undisturbed connection is enough

  ghost function DeliverAll(s: System, n: nat): System
    decreases n
  {
    if n == 0 then s else DeliverAll(Next(s, Deliver), n - 1)
  }

  /** The signals not yet received. */
  function Waiting(k: Connection): int { |k.server.out| - k.delivered }

  /** A connection whose last signal ends the stream, received one by one. */
  lemma DeliverOne(s: System)
    requires SystemOk(s) && s.link.Some? && Waiting(s.link.value) > 0
    requires s.link.value.server.out[|s.link.value.server.out| - 1].StreamEnd?
    ensures var k, t := s.link.value, Next(s, Deliver);
            && SystemOk(t)
            && if Waiting(k) == 1 then t.verdict == Complete else t.link == Some(k.(delivered := k.delivered + 1))
  {
    DeliverKeeps(s);
    var k := s.link.value;
    NextSignal(s.log, s.cursor, k);
    SentLeads(s.log, s.cursor, k);
    hide LinkOk, LogOk, Served, Whole, InFlight, SystemOk;
    if Waiting(k) > 1 { assert !Control(k.server.out[k.delivered]); }
  }

  lemma {:induction false} DeliverReachesEnd(s: System, n: nat)
    requires SystemOk(s) && s.link.Some? && Waiting(s.link.value) == n > 0
    requires s.link.value.server.out[|s.link.value.server.out| - 1].StreamEnd?
    ensures DeliverAll(s, n).verdict == Complete
    decreases n
  {
    DeliverOne(s);
    hide SystemOk, Next;
    if n > 1 { DeliverReachesEnd(Next(s, Deliver), n - 1); }
  }

  /** Once the run has finished, a client that is not complete becomes so after one poll on a
      fresh connection, wherever earlier connections broke off. */
  lemma OnePollCompletes(s: System, includePreview: bool, preview: (nat, string))
    requires SystemOk(s) && s.verdict == Following && s.log[|s.log| - 1].Terminal() && Storable(preview)
    ensures var t := Next(Next(Next(Next(Next(s, Drop), Connect(includePreview)), ReadStatus), ReadMaximum), ReadEvents(preview));
            && t.link.Some? && Waiting(t.link.value) >= 0 && DeliverAll(t, Waiting(t.link.value)).verdict == Complete
            && DeliverAll(t, Waiting(t.link.value)).accepted == s.log
  {
    var d := Next(Next(Next(Next(s, Drop), Connect(includePreview)), ReadStatus), ReadMaximum);
    FreshPoll(s, includePreview, d);
    MoveKeeps(d, ReadEvents(preview));
    var t := Next(d, ReadEvents(preview));
    FreshPage(s, d, preview);
    hide SystemOk, Next;
    DeliverReachesEnd(t, Waiting(t.link.value));
    DeliverAllKeeps(t, Waiting(t.link.value));
    DoneHoldsAll(DeliverAll(t, Waiting(t.link.value)));
  }

  lemma DoneHoldsAll(s: System)
    requires SystemOk(s) && s.verdict == Complete
    ensures s.accepted == s.log
  {
    assert s.log[..|s.log|] == s.log;
  }

  lemma FreshPoll(s: System, includePreview: bool, d: System)
    requires SystemOk(s) && s.verdict == Following && s.log[|s.log| - 1].Terminal()
    requires d == Next(Next(Next(Next(s, Drop), Connect(includePreview)), ReadStatus), ReadMaximum)
    ensures SystemOk(d) && d.log == s.log
    ensures d.link == Some(Connection(s.cursor, includePreview, [], SawMaximum(|s.log|, |s.log|), Server(s.cursor, None, [], false), 0))
  {
    MoveKeeps(s, Drop);
    MoveKeeps(Next(s, Drop), Connect(includePreview));
    MoveKeeps(Next(Next(s, Drop), Connect(includePreview)), ReadStatus);
    MoveKeeps(Next(Next(Next(s, Drop), Connect(includePreview)), ReadStatus), ReadMaximum);
    hide SystemOk;
  }

  lemma FreshPage(s: System, d: System, preview: (nat, string))
    requires Storable(preview) && LogOk(s.log) && s.log[|s.log| - 1].Terminal() && d.log == s.log && s.cursor <= |s.log| && d.link.Some?
    requires d.link.value.stage == SawMaximum(|s.log|, |s.log|) && d.link.value.polls == [] && d.link.value.delivered == 0
    requires d.link.value.server == Server(s.cursor, None, [], false)
    ensures var t := Next(d, ReadEvents(preview));
            && t.log == s.log && t.link.Some? && t.link.value.delivered == 0 && t.link.value.server.out != []
            && t.link.value.server.out[|t.link.value.server.out| - 1].StreamEnd?
  {
    var p := Page(|s.log|, |s.log|, |s.log|, preview);
    var k := d.link.value;
    ServePage(s.log, k.server, 0, k.includePreview, p);
    LastOf(k.server.out, PageSignals(s.log, k.server, 0, k.includePreview, p));
  }

  lemma {:induction false} DeliverAllKeeps(s: System, n: nat)
    requires SystemOk(s)
    ensures SystemOk(DeliverAll(s, n)) && DeliverAll(s, n).log == s.log
    decreases n
  {
    if n > 0 {
      DeliverKeeps(s);
      DeliverAllKeeps(Next(s, Deliver), n - 1);
    }
  }

  // ---- The log of a stored run

  /** The event log kept by the answer-run protocol is one of the logs replayed here, and its
      last entry is the run's status, so reading the status tells whether the log is whole; the
      run's preview, shown or not, is one that a page can carry. */
  lemma StoredLogIsReplayable(r: Run)
    requires RunOk(r)
    ensures LogOk(Path(r)) && Path(r)[|Path(r)| - 1] == r.status
    ensures Storable((r.revision, r.preview)) && Storable((r.revision, ""))
  {
  }
}
