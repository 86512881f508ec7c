/** What a connection's server sends, for every outcome of its polls: the log behind the client's
    cursor without gap or repetition, and a control frame only at the end. */
module EventSessions {
  import opened Options
  import opened AnswerRuns
  import opened EventServer

  /** A run's log: one to three entries, a terminal one only at the end. */
  ghost predicate LogOk(log: seq<Status>) {
    1 <= |log| <= 3 && forall i | 0 <= i < |log| - 1 :: !log[i].Terminal()
  }

  /** Position `n` is the end of a finished log. */
  ghost predicate Whole(log: seq<Status>, n: nat) {
    n == |log| && log != [] && log[|log| - 1].Terminal()
  }

  /** The polls read the log one after another, while it grew from at least `from` to at most
      `to` entries. */
  ghost predicate Timely(from: nat, polls: seq<PollResult>, to: nat) {
    if polls == [] then from <= to
    else
      var p := polls[|polls| - 1];
      Readable(to, p) && Timely(from, polls[..|polls| - 1], if p.Page? then p.seen else to)
  }

  lemma {:induction false} TimelyReadable(from: nat, polls: seq<PollResult>, to: nat, size: nat)
    requires Timely(from, polls, to) && to <= size
    ensures from <= to && forall p | p in polls :: Readable(size, p)
  {
    if polls != [] {
      var p := polls[|polls| - 1];
      TimelyReadable(from, polls[..|polls| - 1], if p.Page? then p.seen else to, size);
      assert polls == polls[..|polls| - 1] + [p];
    }
  }

  lemma {:induction false} TimelyLater(from: nat, polls: seq<PollResult>, to: nat, later: nat)
    requires Timely(from, polls, to) && to <= later
    ensures Timely(from, polls, later)
  {
    if polls != [] && !polls[|polls| - 1].Page? { TimelyLater(from, polls[..|polls| - 1], to, later); }
  }

  lemma TimelyOne(from: nat, polls: seq<PollResult>, p: PollResult, to: nat)
    requires Readable(to, p) && Timely(from, polls, if p.Page? then p.seen else to)
    ensures Timely(from, polls + [p], to)
  {
    assert (polls + [p])[..|polls|] == polls;
  }

  // ---- Updates without gap or repetition

  /** The updates in a list of signals, in order, are exactly the log's entries between the two
      positions. */
  ghost predicate InFlight(xs: seq<Signal>, cursor: nat, position: nat, log: seq<Status>)
    decreases xs
  {
    if xs == [] then cursor == position
    else if xs[0].Update? then
      xs[0].sequence == cursor + 1 && cursor < |log| && xs[0].status == log[cursor] && InFlight(xs[1..], cursor + 1, position, log)
    else InFlight(xs[1..], cursor, position, log)
  }

  /** Where the updates in a list of signals lead. */
  function Advance(cursor: nat, xs: seq<Signal>): nat
    decreases |xs|
  {
    if xs == [] then cursor else Advance(if xs[0].Update? then cursor + 1 else cursor, xs[1..])
  }

  lemma {:induction false} InFlightGrows(xs: seq<Signal>, cursor: nat, position: nat, log: seq<Status>, more: seq<Status>)
    requires InFlight(xs, cursor, position, log)
    ensures InFlight(xs, cursor, position, log + more)
  {
    if xs != [] {
      InFlightGrows(xs[1..], if xs[0].Update? then cursor + 1 else cursor, position, log, more);
    }
  }

  lemma {:induction false} InFlightExtends(xs: seq<Signal>, cursor: nat, position: nat, log: seq<Status>, more: seq<Signal>, end: nat)
    requires InFlight(xs, cursor, position, log) && InFlight(more, position, end, log)
    ensures InFlight(xs + more, cursor, end, log)
  {
    if xs == [] {
      assert xs + more == more;
    } else {
      assert (xs + more)[1..] == xs[1..] + more;
      InFlightExtends(xs[1..], if xs[0].Update? then cursor + 1 else cursor, position, log, more, end);
    }
  }

  /** Behind some of the signals, the rest leads on from where they led. */
  lemma {:induction false} InFlightBehind(xs: seq<Signal>, k: nat, cursor: nat, position: nat, log: seq<Status>)
    requires InFlight(xs, cursor, position, log) && k <= |xs|
    ensures InFlight(xs[k..], Advance(cursor, xs[..k]), position, log)
    ensures cursor <= Advance(cursor, xs[..k]) <= position
    decreases |xs|
  {
    if k > 0 {
      assert xs[..k][1..] == xs[1..][..k - 1] && xs[1..][k - 1..] == xs[k..];
      InFlightBehind(xs[1..], k - 1, if xs[0].Update? then cursor + 1 else cursor, position, log);
    } else {
      assert xs[0..] == xs;
      if xs != [] { InFlightBehind(xs[1..], 0, if xs[0].Update? then cursor + 1 else cursor, position, log); }
    }
  }

  lemma {:induction false} AdvanceOne(cursor: nat, xs: seq<Signal>, x: Signal)
    ensures Advance(cursor, xs + [x]) == Advance(cursor, xs) + (if x.Update? then 1 else 0)
    decreases |xs|
  {
    if xs == [] {
      assert (xs + [x])[1..] == [];
    } else {
      assert (xs + [x])[1..] == xs[1..] + [x];
      AdvanceOne(if xs[0].Update? then cursor + 1 else cursor, xs[1..], x);
    }
  }

  lemma {:induction false} UpdatesInFlight(log: seq<Status>, from: nat, n: nat)
    requires from + n <= |log|
    ensures InFlight(Updates(log, from, from + n), from, from + n, log)
    decreases n
  {
    if n > 0 {
      assert Updates(log, from, from + n)[1..] == Updates(log, from + 1, from + n);
      UpdatesInFlight(log, from + 1, n - 1);
    }
  }

  lemma QuietInFlight(x: Signal, position: nat, log: seq<Status>)
    requires !x.Update?
    ensures InFlight([x], position, position, log) && InFlight([], position, position, log)
  {
    assert [x][1..] == [];
  }

  // ---- Control signals

  /** Control signals stand only at the end. */
  ghost predicate ControlLast(xs: seq<Signal>) {
    forall i | 0 <= i < |xs| - 1 :: !Control(xs[i])
  }

  lemma ControlExtends(xs: seq<Signal>, more: seq<Signal>)
    requires ControlLast(xs) && ControlLast(more) && (xs != [] ==> !Control(xs[|xs| - 1]))
    ensures ControlLast(xs + more)
  {
    var w := xs + more;
    forall i | 0 <= i < |w| - 1 ensures !Control(w[i]) {
      if i < |xs| { assert w[i] == xs[i]; } else { assert w[i] == more[i - |xs|]; }
    }
  }

  /** A page that is marked terminal delivers everything that was missing, even when the run
      finished between the reads. */
  lemma TerminalPageIsLast(log: seq<Status>, cursor: nat, p: PollResult)
    requires LogOk(log) && p.Page? && Readable(|log|, p) && cursor <= p.maximum && TerminalPage(log, cursor, p)
    ensures PageEnd(p.upto, cursor) == |log| && Whole(log, |log|)
  {
    if !log[p.seen - 1].Terminal() {
      var end := PageEnd(p.upto, cursor);
      var i :| 0 <= i < end - cursor && log[cursor..end][i].Terminal();
      assert log[cursor + i].Terminal();
    }
  }

  // ---- A session

  /** Some signals lead from one position to another; a control signal is the last one, and the
      end of the stream is sent only behind the whole of a finished log. */
  ghost predicate Leads(xs: seq<Signal>, cursor: nat, position: nat, log: seq<Status>) {
    && cursor <= position <= |log| && InFlight(xs, cursor, position, log) && ControlLast(xs)
    && (xs != [] && xs[|xs| - 1].StreamEnd? ==> Whole(log, position))
  }

  ghost predicate ServerOk(log: seq<Status>, start: nat, s: Server) {
    && Leads(s.out, start, s.cursor, log)
    && (s.out != [] && Control(s.out[|s.out| - 1]) ==> s.closed)
  }

  lemma LeadsOn(xs: seq<Signal>, more: seq<Signal>, cursor: nat, position: nat, end: nat, log: seq<Status>)
    requires Leads(xs, cursor, position, log) && Leads(more, position, end, log) && (xs != [] ==> !Control(xs[|xs| - 1]))
    ensures Leads(xs + more, cursor, end, log)
  {
    hide InFlight, ControlLast, Whole;
    InFlightExtends(xs, cursor, position, log, more, end);
    ControlExtends(xs, more);
    LastOf(xs, more);
    if more == [] { EmptyStays(position, end, log); }
  }

  lemma EmptyStays(position: nat, end: nat, log: seq<Status>)
    requires InFlight([], position, end, log)
    ensures position == end
  {
  }

  lemma OneLeads(x: Signal, position: nat, log: seq<Status>)
    requires !x.Update? && !x.StreamEnd? && position <= |log|
    ensures Leads([x], position, position, log)
  {
    QuietInFlight(x, position, log);
  }

  /** The signals of a page lead from the old cursor to the new one. */
  lemma PageLeads(log: seq<Status>, from: nat, end: nat, preview: seq<Signal>, last: seq<Signal>)
    requires from <= end <= |log| && |preview| <= 1 && |last| <= 1
    requires (preview != [] ==> preview[0].Preview?) && (last != [] ==> !last[0].Update?)
    requires last != [] && last[0].StreamEnd? ==> Whole(log, end)
    ensures var page := Updates(log, from, end) + preview + last;
            Leads(page, from, end, log) && (page != [] && Control(page[|page| - 1]) ==> last != [] && page[|page| - 1] == last[0])
  {
    var updates := Updates(log, from, end);
    UpdatesInFlight(log, from, end - from);
    if preview != [] {
      assert preview == [preview[0]];
      QuietInFlight(preview[0], end, log);
    }
    if last != [] {
      assert last == [last[0]];
      QuietInFlight(last[0], end, log);
    }
    InFlightExtends(updates, from, end, log, preview, end);
    InFlightExtends(updates + preview, from, end, log, last, end);
    hide InFlight;
  }

  /** What one page sends. */
  function PageSignals(log: seq<Status>, s: Server, tick: nat, includePreview: bool, p: PollResult): seq<Signal>
    requires p.Page? && Readable(|log|, p) && s.cursor <= p.maximum
  {
    Updates(log, s.cursor, PageEnd(p.upto, s.cursor))
    + PreviewSignals(s.sent, if includePreview then Some(p.preview) else None)
    + Last(TerminalPage(log, s.cursor, p), tick)
  }

  lemma PageSignalsLead(log: seq<Status>, s: Server, tick: nat, includePreview: bool, p: PollResult)
    requires LogOk(log) && p.Page? && Readable(|log|, p) && s.cursor <= p.maximum
    ensures var page := PageSignals(log, s, tick, includePreview, p);
            && Leads(page, s.cursor, PageEnd(p.upto, s.cursor), log)
            && (page != [] && Control(page[|page| - 1]) ==> TerminalPage(log, s.cursor, p))
  {
    if TerminalPage(log, s.cursor, p) { TerminalPageIsLast(log, s.cursor, p); }
    hide Leads, LogOk, TerminalPage, Updates, Whole;
    PageLeads(log, s.cursor, PageEnd(p.upto, s.cursor), PreviewSignals(s.sent, if includePreview then Some(p.preview) else None),
              Last(TerminalPage(log, s.cursor, p), tick));
  }

  lemma ServePage(log: seq<Status>, s: Server, tick: nat, includePreview: bool, p: PollResult)
    requires p.Page? && Readable(|log|, p) && s.cursor <= p.maximum && !s.closed
    ensures var t := Serve(log, s, tick, includePreview, p);
            t.cursor == PageEnd(p.upto, s.cursor) && t.out == s.out + PageSignals(log, s, tick, includePreview, p)
            && t.closed == TerminalPage(log, s.cursor, p)
  {
    hide Updates, PreviewSignals, Last, TerminalPage;
  }

  /** Control frames stand only at the end, and then the connection is closed. */
  ghost predicate EndsClosed(s: Server) {
    ControlLast(s.out) && (s.out != [] && Control(s.out[|s.out| - 1]) ==> s.closed)
  }

  lemma EndsAfter(out: seq<Signal>, quiet: seq<Signal>, last: seq<Signal>)
    requires ControlLast(out) && (out != [] ==> !Control(out[|out| - 1]))
    requires (forall x | x in quiet :: !Control(x)) && |last| <= 1
    ensures var all := out + (quiet + last);
            ControlLast(all) && (all != [] && Control(all[|all| - 1]) ==> last != [] && Control(last[0]))
  {
    var more := quiet + last;
    forall i | 0 <= i < |quiet| ensures more[i] in quiet {}
    ControlExtends(out, more);
    LastOf(out, more);
  }

  lemma QuietPage(log: seq<Status>, from: nat, end: nat, sent: Option<(nat, string)>, current: Option<(nat, string)>)
    requires from <= end <= |log|
    ensures forall x | x in Updates(log, from, end) + PreviewSignals(sent, current) :: !Control(x)
  {
  }

  lemma ServeEnds(log: seq<Status>, s: Server, tick: nat, includePreview: bool, p: PollResult)
    requires Readable(|log|, p) && EndsClosed(s)
    ensures EndsClosed(Serve(log, s, tick, includePreview, p))
  {
    if s.closed {
    } else if p.Page? && s.cursor <= p.maximum {
      var current := if includePreview then Some(p.preview) else None;
      QuietPage(log, s.cursor, PageEnd(p.upto, s.cursor), s.sent, current);
      ServePage(log, s, tick, includePreview, p);
      EndsAfter(s.out, Updates(log, s.cursor, PageEnd(p.upto, s.cursor)) + PreviewSignals(s.sent, current),
                Last(TerminalPage(log, s.cursor, p), tick));
      hide Updates, PreviewSignals, TerminalPage, ControlLast, Serve;
    } else {
      var error := StreamError(ErrorCode(if p.Broken? then p.status else Some(409)));
      EndsAfter(s.out, [], [error]);
      assert [] + [error] == [error];
      hide ControlLast;
    }
  }

  lemma {:induction false} ServedEnds(log: seq<Status>, start: nat, includePreview: bool, polls: seq<PollResult>)
    requires forall p | p in polls :: Readable(|log|, p)
    ensures EndsClosed(Served(log, start, includePreview, polls))
  {
    if polls != [] {
      var front := polls[..|polls| - 1];
      ServedEnds(log, start, includePreview, front);
      ServeEnds(log, Served(log, start, includePreview, front), |front|, includePreview, polls[|front|]);
      hide Serve, EndsClosed;
    }
  }

  /** A control frame is always the last thing sent on a connection, so a session sends at most
      one, whatever its polls meet. */
  lemma ControlComesLast(log: seq<Status>, start: nat, includePreview: bool, polls: seq<PollResult>)
    requires forall p | p in polls :: Readable(|log|, p)
    ensures ControlLast(Session(log, start, includePreview, polls))
  {
    ServedEnds(log, start, includePreview, polls);
    var s := Served(log, start, includePreview, polls);
    hide Served;
    if !s.closed {
      EndsAfter(s.out, [], [Signal.Reconnect]);
      assert [] + [Signal.Reconnect] == [Signal.Reconnect];
    }
  }

  /** One poll, made when the log had at least `n` entries, keeps the server's side in order. */
  lemma ServeKeeps(log: seq<Status>, start: nat, s: Server, tick: nat, includePreview: bool, p: PollResult, n: nat)
    requires LogOk(log) && ServerOk(log, start, s) && Readable(|log|, p)
    requires s.cursor <= n && (p.Page? ==> n <= p.seen)
    ensures ServerOk(log, start, Serve(log, s, tick, includePreview, p))
    ensures Serve(log, s, tick, includePreview, p).cursor <= (if p.Page? then p.upto else n)
  {
    assert s.cursor <= |log|;
    hide Leads, LogOk, PageSignals;
    if s.closed {
    } else if p.Page? {
      PageSignalsLead(log, s, tick, includePreview, p);
      ServePage(log, s, tick, includePreview, p);
      hide Serve;
      LeadsOn(s.out, PageSignals(log, s, tick, includePreview, p), start, s.cursor, PageEnd(p.upto, s.cursor), log);
      LastOf(s.out, PageSignals(log, s, tick, includePreview, p));
    } else if p.Broken? {
      OneLeads(StreamError(ErrorCode(p.status)), s.cursor, log);
      LeadsOn(s.out, [StreamError(ErrorCode(p.status))], start, s.cursor, s.cursor, log);
    }
  }

  lemma LastOf(xs: seq<Signal>, more: seq<Signal>)
    ensures if more == [] then xs + more == xs else xs + more != [] && (xs + more)[|xs + more| - 1] == more[|more| - 1]
  {
  }

  lemma {:induction false} ServedOk(log: seq<Status>, start: nat, includePreview: bool, polls: seq<PollResult>, from: nat, to: nat)
    requires LogOk(log) && start <= from && Timely(from, polls, to) && to <= |log|
    requires forall p | p in polls :: Readable(|log|, p)
    ensures var s := Served(log, start, includePreview, polls);
            ServerOk(log, start, s) && s.cursor <= to
  {
    if polls != [] {
      var p, front := polls[|polls| - 1], polls[..|polls| - 1];
      var n := if p.Page? then p.seen else to;
      TimelyReadable(from, front, n, |log|);
      ServedOk(log, start, includePreview, front, from, n);
      ServeKeeps(log, start, Served(log, start, includePreview, front), |front|, includePreview, p, n);
      hide ServerOk, Serve, LogOk;
    } else {
      TimelyReadable(from, polls, to, |log|);
    }
  }

  /** Everything sent on a connection: the log's entries behind the cursor that the client came
      with, each once and in order, and a control frame at most at the end; the end of the stream
      only behind the whole of a finished log. */
  lemma SessionLeads(log: seq<Status>, start: nat, includePreview: bool, polls: seq<PollResult>, from: nat, to: nat)
    requires LogOk(log) && start <= from && Timely(from, polls, to) && to <= |log|
    requires forall p | p in polls :: Readable(|log|, p)
    ensures var end := Served(log, start, includePreview, polls).cursor;
            end <= to && Leads(Session(log, start, includePreview, polls), start, end, log)
  {
    ServedOk(log, start, includePreview, polls, from, to);
    var s := Served(log, start, includePreview, polls);
    OneLeads(Signal.Reconnect, s.cursor, log);
    hide Served, Leads, LogOk;
    if s != Ended(s, |polls|) { LeadsOn(s.out, [Signal.Reconnect], start, s.cursor, s.cursor, log); }
  }

  /** The server never finds the cursor of a client ahead of the log, neither on the first poll
      nor on a later one. */
  lemma CursorIsNeverAhead(log: seq<Status>, start: nat, includePreview: bool, polls: seq<PollResult>, from: nat, to: nat, k: nat)
    requires LogOk(log) && start <= from && Timely(from, polls, to) && to <= |log|
    requires k < |polls| && polls[k].Page? && forall p | p in polls :: Readable(|log|, p)
    requires forall p | p in polls[..k] :: p in polls
    ensures Served(log, start, includePreview, polls[..k]).cursor <= polls[k].maximum
    decreases |polls|
  {
    var p, front := polls[|polls| - 1], polls[..|polls| - 1];
    var n := if p.Page? then p.seen else to;
    TimelyReadable(from, polls, to, |log|);
    if k == |polls| - 1 {
      ServedOk(log, start, includePreview, front, from, n);
    } else {
      assert front[..k] == polls[..k] && front[k] == polls[k];
      CursorIsNeverAhead(log, start, includePreview, front, from, n, k);
    }
  }

  /** What was sent does not depend on entries that were logged later. */
  lemma {:induction false} ServedEarlier(log: seq<Status>, more: seq<Status>, start: nat, includePreview: bool, polls: seq<PollResult>)
    requires forall p | p in polls :: Readable(|log|, p)
    requires forall p | p in polls :: Readable(|log + more|, p)
    ensures Served(log, start, includePreview, polls) == Served(log + more, start, includePreview, polls)
  {
    if polls != [] {
      var front, p := polls[..|polls| - 1], polls[|polls| - 1];
      assert p in polls;
      ServedEarlier(log, more, start, includePreview, front);
      var s := Served(log, start, includePreview, front);
      if p.Page? && s.cursor <= p.maximum {
        var end := PageEnd(p.upto, s.cursor);
        assert log[s.cursor..end] == (log + more)[s.cursor..end];
        assert Updates(log, s.cursor, end) == Updates(log + more, s.cursor, end);
      }
    }
  }
}
