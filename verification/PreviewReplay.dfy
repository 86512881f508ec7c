/** The preview from the stored run to the user: while a run is going on, what its last page read is
    what is shown. */
module PreviewReplay {
  import opened Options
  import AnswerRuns
  import opened AnswerRunResults
  import opened EventClient
  import opened EventPayloads
  import opened EventServer
  import opened EventSessions
  import opened EventWire
  import opened PreviewSessions
  import opened RunReplay
  import opened SessionLimits
  import opened StoredReplay
  import TimelineView
  import opened Transcripts

  ghost predicate Rising(shots: seq<Shot>) {
    forall i, j | 0 <= i < j < |shots| :: shots[i].0 <= shots[j].0
  }

  // ---- The client passes every preview on

  /** The previews that the client has passed on. */
  function Passed(calls: seq<TimelineView.Callback>): seq<Shot> {
    if calls == [] then []
    else
      var c := calls[|calls| - 1];
      Passed(calls[..|calls| - 1]) + (if c.OnPreview? then [(c.revision, c.text)] else [])
  }

  lemma PassedOne(calls: seq<TimelineView.Callback>, c: TimelineView.Callback)
    ensures Passed(calls + [c]) == Passed(calls) + (if c.OnPreview? then [(c.revision, c.text)] else [])
  {
    assert (calls + [c])[..|calls|] == calls;
  }

  lemma {:induction false} ReactAllOne(run: string, c: Client, xs: seq<Signal>, x: Signal)
    ensures ReactAll(run, c, xs + [x]) == (var d := ReactAll(run, c, xs); if d.outcome.Open? then React(run, d, x) else d)
    decreases |xs|
  {
    if xs == [] {
      assert (xs + [x])[1..] == [];
    } else if c.outcome.Open? {
      assert (xs + [x])[1..] == xs[1..] + [x] && (xs + [x])[0] == xs[0];
      hide React;
      ReactAllOne(run, React(run, c, xs[0]), xs[1..], x);
    }
  }

  /** What the client holds after some signals. */
  ghost predicate HasPassed(d: Client, shots: seq<Shot>) {
    Passed(d.calls) == shots && d.revision == if shots == [] then -1 else shots[|shots| - 1].0
  }

  lemma ReactPasses(run: string, c: Client, x: Signal, shots: seq<Shot>)
    requires HasPassed(c, shots) && c.outcome.Open?
    requires x.Preview? && shots != [] ==> shots[|shots| - 1].0 <= x.revision
    ensures HasPassed(React(run, c, x), shots + (if x.Preview? then [(x.revision, x.text)] else []))
  {
    match x
    case Update(n, status) => PassedOne(c.calls, TimelineView.OnEvent(TimelineView.Entry(n, status)));
    case Preview(revision, text) => PassedOne(c.calls, TimelineView.OnPreview(revision, text));
    case _ =>
  }

  lemma RisingFront(shots: seq<Shot>, n: nat)
    requires Rising(shots) && n <= |shots|
    ensures Rising(shots[..n])
  {
  }

  /** While previews are counted up, a client that goes on passes each of them on. */
  lemma {:induction false} AllArePassed(run: string, cursor: nat, xs: seq<Signal>)
    requires ReactAll(run, Start(cursor), xs).outcome.Open? && Rising(Previews(xs))
    ensures HasPassed(ReactAll(run, Start(cursor), xs), Previews(xs))
  {
    if xs != [] {
      var n := |xs| - 1;
      ReactAllOne(run, Start(cursor), xs[..n], xs[n]);
      assert xs == xs[..n] + [xs[n]];
      RisingFront(Previews(xs), |Previews(xs[..n])|);
      assert Previews(xs)[..|Previews(xs[..n])|] == Previews(xs[..n]);
      AllArePassed(run, cursor, xs[..n]);
      if xs[n].Preview? { assert Previews(xs)[|Previews(xs[..n])|] == (xs[n].revision, xs[n].text); }
      hide React, ReactAll, HasPassed;
      ReactPasses(run, ReactAll(run, Start(cursor), xs[..n]), xs[n], Previews(xs[..n]));
    }
  }

  // ---- The view shows the last one

  ghost predicate NoEnd(calls: seq<TimelineView.Callback>) { forall c | c in calls :: !c.OnEnd? }

  /** The last of the previews passed on is shown, unless a terminal event was seen. */
  ghost predicate ShowsLast(u: TimelineView.View, v: TimelineView.View, shots: seq<Shot>) {
    v.open && (!v.terminalSeen ==>
                 !u.terminalSeen && v.revision == (if shots == [] then u.revision else shots[|shots| - 1].0)
                 && (shots != [] ==> v.preview == shots[|shots| - 1].1))
  }

  lemma HandleShows(u: TimelineView.View, v: TimelineView.View, shots: seq<Shot>, c: TimelineView.Callback)
    requires ShowsLast(u, v, shots) && !c.OnEnd?
    requires c.OnPreview? ==> u.revision <= c.revision && (shots != [] ==> shots[|shots| - 1].0 <= c.revision)
    ensures ShowsLast(u, TimelineView.Handle(v, c), shots + (if c.OnPreview? then [(c.revision, c.text)] else []))
  {
    hide TimelineView.Sort, TimelineView.Without;
  }

  lemma {:induction false} LastIsShown(before: seq<TimelineView.Callback>, calls: seq<TimelineView.Callback>)
    requires TimelineView.After(before).open && NoEnd(calls) && Rising(Passed(calls))
    requires forall x | x in Passed(calls) :: TimelineView.After(before).revision <= x.0
    ensures ShowsLast(TimelineView.After(before), TimelineView.After(before + calls), Passed(calls))
    decreases |calls|
  {
    if calls == [] {
      assert before + calls == before;
    } else {
      var n := |calls| - 1;
      var c := calls[n];
      assert (before + calls)[..|before + calls| - 1] == before + calls[..n] && (before + calls)[|before + calls| - 1] == c;
      assert TimelineView.After(before + calls) == TimelineView.Handle(TimelineView.After(before + calls[..n]), c);
      var front := Passed(calls[..n]);
      assert Passed(calls)[..|front|] == front;
      RisingFront(Passed(calls), |front|);
      hide TimelineView.After, TimelineView.Handle;
      LastIsShown(before, calls[..n]);
      if c.OnPreview? { assert Passed(calls)[|front|] == (c.revision, c.text); }
      HandleShows(TimelineView.After(before), TimelineView.After(before + calls[..n]), front, c);
    }
  }

  /** Nothing shown is newer than what was passed on. */
  lemma {:induction false} RevisionBehind(before: seq<TimelineView.Callback>, calls: seq<TimelineView.Callback>, bound: int)
    requires TimelineView.After(before).revision <= bound && forall c | c in calls && c.OnPreview? :: c.revision <= bound
    ensures TimelineView.After(before + calls).revision <= bound
    decreases |calls|
  {
    if calls == [] {
      assert before + calls == before;
    } else {
      var n := |calls| - 1;
      assert (before + calls)[..|before + calls| - 1] == before + calls[..n] && (before + calls)[|before + calls| - 1] == calls[n];
      RevisionBehind(before, calls[..n], bound);
      hide TimelineView.Sort, TimelineView.Without;
    }
  }

  // ---- A session over a run that goes on

  ghost predicate AllPages(polls: seq<PollResult>) { forall p | p in polls :: p.Page? }

  function PagesOf(polls: seq<PollResult>): seq<Shot>
    requires forall p | p in polls :: p.Page?
  {
    if polls == [] then [] else PagesOf(polls[..|polls| - 1]) + [polls[|polls| - 1].preview]
  }

  lemma PageOfRunning(log: seq<AnswerRuns.Status>, start: nat, s: Server, tick: nat, includePreview: bool, p: PollResult, n: nat)
    requires LogOk(log) && ServerOk(log, start, s) && p.Page? && Readable(|log|, p) && !s.closed && s.cursor <= n <= p.seen
    requires p.upto <= 3 && forall i | 0 <= i < p.upto :: !log[i].Terminal()
    ensures Finds(s, p) && !Serve(log, s, tick, includePreview, p).closed && Serve(log, s, tick, includePreview, p).cursor == p.upto
  {
    ServePage(log, s, tick, includePreview, p);
    hide Serve, ServerOk, LogOk;
  }

  /** Until the run has ended, the stream goes on: every page is served, and the cursor is at the end
      of the log that the last page read. */
  lemma {:induction false} RunningIsServed(log: seq<AnswerRuns.Status>, start: nat, includePreview: bool, polls: seq<PollResult>, from: nat, to: nat)
    requires LogOk(log) && start <= from && Timely(from, polls, to) && to <= |log| && AllPages(polls)
    requires (forall p | p in polls :: Readable(|log|, p)) && forall i | 0 <= i < to :: !log[i].Terminal()
    ensures var s := Served(log, start, includePreview, polls);
            && !s.closed && Shots(log, start, includePreview, polls) == PagesOf(polls)
            && s.cursor == (if polls == [] then start else polls[|polls| - 1].upto)
  {
    if polls != [] {
      var p, front := polls[|polls| - 1], polls[..|polls| - 1];
      TimelyReadable(from, front, p.seen, |log|);
      RunningIsServed(log, start, includePreview, front, from, p.seen);
      ServedOk(log, start, includePreview, front, from, p.seen);
      var s := Served(log, start, includePreview, front);
      assert |log| <= 3 && Readable(to, p);
      hide ServerOk, Serve, LogOk;
      PageOfRunning(log, start, s, |front|, includePreview, p, p.seen);
    }
  }

  lemma {:induction false} SameShots(polls: seq<PollResult>, i: nat)
    requires AllPages(polls) && i < |polls|
    ensures |PagesOf(polls)| == |polls| && PagesOf(polls)[i] == polls[i].preview
  {
    var n := |polls| - 1;
    if i < n { SameShots(polls[..n], i); } else if n > 0 { SameShots(polls[..n], 0); }
  }

  lemma {:induction false} ChangesRise(shots: seq<Shot>)
    requires Rising(shots)
    ensures Rising(Changes(shots))
  {
    if shots != [] {
      var n := |shots| - 1;
      RisingFront(shots, n);
      ChangesRise(shots[..n]);
      ChangesAreExact(shots[..n]);
      forall i | 0 <= i < |Changes(shots[..n])| ensures Changes(shots[..n])[i].0 <= shots[n].0 {
        assert Changes(shots[..n])[i] in shots[..n];
      }
    }
  }

  /** The pages of a run that goes on. */
  ghost predicate Reads(log: seq<AnswerRuns.Status>, polls: seq<PollResult>, from: nat, to: nat) {
    && LogOk(log) && Timely(from, polls, to) && to <= |log| && polls != [] && |polls| < STREAM_POLLS && AllPages(polls)
    && (forall p | p in polls :: Readable(|log|, p)) && (forall i | 0 <= i < to :: !log[i].Terminal())
  }

  /** They are read behind a client that shows the log up to its cursor. */
  ghost predicate Going(log: seq<AnswerRuns.Status>, before: seq<TimelineView.Callback>, polls: seq<PollResult>, from: nat, to: nat) {
    && Reads(log, polls, from, to) && Replayed(before, log, from) && TimelineView.After(before).open
    && Rising(PagesOf(polls)) && forall x | x in PagesOf(polls) :: TimelineView.After(before).revision <= x.0
  }

  lemma SessionOfGoing(log: seq<AnswerRuns.Status>, before: seq<TimelineView.Callback>, polls: seq<PollResult>, from: nat, to: nat)
    requires Going(log, before, polls, from, to)
    ensures var cursor := TimelineView.After(before).cursor;
            var xs, shots := Session(log, cursor, true, polls), PagesOf(polls);
            && cursor <= from && Served(log, cursor, true, polls).cursor == polls[|polls| - 1].upto
            && (xs == [] || !Control(xs[|xs| - 1])) && Previews(xs) == Changes(shots) && Rising(Previews(xs))
            && Previews(xs) != [] && Previews(xs)[|Previews(xs)| - 1] == polls[|polls| - 1].preview
            && forall x | x in Previews(xs) :: TimelineView.After(before).revision <= x.0
  {
    var cursor := TimelineView.After(before).cursor;
    CursorIsKnown(before, log, from);
    hide Replayed;
    RunningIsServed(log, cursor, true, polls, from, to);
    ServedOk(log, cursor, true, polls, from, to);
    PreviewsAreSent(log, cursor, true, polls);
    ChangesRise(PagesOf(polls));
    ChangesAreExact(PagesOf(polls));
    SameShots(polls, |polls| - 1);
    hide Served, Changes, PagesOf, Leads, LogOk, TimelineView.After;
  }

  lemma {:induction false} NeverClosed(run: string, c: Client, xs: seq<Signal>)
    requires c.outcome != CLOSED
    ensures ReactAll(run, c, xs).outcome != CLOSED
    decreases |xs|
  {
    if xs != [] && c.outcome.Open? {
      assert React(run, c, xs[0]).outcome != CLOSED;
      NeverClosed(run, React(run, c, xs[0]), xs[1..]);
    }
  }

  lemma OpenPasses(run: string, cursor: nat, xs: seq<Signal>, c: Client)
    requires c == Closed(ReactAll(run, Start(cursor), xs)) && c.outcome == CLOSED && Rising(Previews(xs))
    ensures HasPassed(c, Previews(xs))
  {
    NeverClosed(run, Start(cursor), xs);
    AllArePassed(run, cursor, xs);
    hide ReactAll, Previews, Rising;
  }

  /** All that the session sends has arrived, in any blocks. */
  ghost predicate Arrived(run: string, codec: Codec, xs: seq<Signal>, blocks: seq<Block>) {
    Joined(blocks) == Encode(RenderAll(run, codec, xs)) && Divide(blocks, Joined(blocks))
  }

  /** The server writes JSON that the client reads back. */
  ghost predicate Json(run: string, codec: Codec, times: nat -> string) {
    Faithful(run, codec) && WritesJson(codec, times) && Short(run, times)
  }

  lemma ArrivedIsRead(run: string, codec: Codec, times: nat -> string, log: seq<AnswerRuns.Status>, cursor: nat, polls: seq<PollResult>,
                      from: nat, to: nat, blocks: seq<Block>)
    requires Json(run, codec, times) && LogOk(log) && cursor <= from && Timely(from, polls, to) && to <= |log| && |polls| <= STREAM_POLLS
    requires forall p | p in polls :: Readable(|log|, p)
    requires Arrived(run, codec, Session(log, cursor, true, polls), blocks)
    ensures var xs, c := Session(log, cursor, true, polls), Consumed(run, codec, Start(cursor), "", 0, blocks);
            c == Closed(ReactAll(run, Start(cursor), xs)) && EndsAs(c, xs, Served(log, cursor, true, polls).cursor)
  {
    var k := SessionIsRead(run, codec, times, log, cursor, Streamed(from, true, polls, blocks), to);
    var xs := Session(log, cursor, true, polls);
    hide *;
    assert xs[..k] == xs;
  }

  /** What the client has passed on, when all of the text has arrived. */
  lemma GoingIsPassed(run: string, codec: Codec, times: nat -> string, log: seq<AnswerRuns.Status>, before: seq<TimelineView.Callback>,
                      polls: seq<PollResult>, from: nat, to: nat, blocks: seq<Block>)
    requires Json(run, codec, times) && Going(log, before, polls, from, to)
    requires Arrived(run, codec, Session(log, TimelineView.After(before).cursor, true, polls), blocks)
    ensures var cursor := TimelineView.After(before).cursor;
            var c := Consumed(run, codec, Start(cursor), "", 0, blocks);
            HasPassed(c, Changes(PagesOf(polls))) && c.cursor == polls[|polls| - 1].upto
  {
    var cursor := TimelineView.After(before).cursor;
    SessionOfGoing(log, before, polls, from, to);
    hide Replayed, Session, Served, TimelineView.After, Json, Arrived, Consumed, Changes, PagesOf, Previews, Rising, LogOk, HasPassed, ReactAll, Timely;
    ArrivedIsRead(run, codec, times, log, cursor, polls, from, to, blocks);
    OpenPasses(run, cursor, Session(log, cursor, true, polls), Consumed(run, codec, Start(cursor), "", 0, blocks));
  }

  lemma GoingIsTold(run: string, codec: Codec, times: nat -> string, log: seq<AnswerRuns.Status>, before: seq<TimelineView.Callback>,
                    polls: seq<PollResult>, from: nat, to: nat, blocks: seq<Block>)
    requires Json(run, codec, times) && Going(log, before, polls, from, to)
    requires Arrived(run, codec, Session(log, TimelineView.After(before).cursor, true, polls), blocks)
    ensures var c := Consumed(run, codec, Start(TimelineView.After(before).cursor), "", 0, blocks);
            && NoEnd(c.calls) && TimelineView.InSequence(before + c.calls)
            && var v := TimelineView.After(before + c.calls); v.open && v.cursor == c.cursor && Shows(v, log)
  {
    var cursor := TimelineView.After(before).cursor;
    CursorIsKnown(before, log, from);
    var a := Streamed(from, true, polls, blocks);
    hide Session, Consumed, LogOk, TimelineView.InSequence, TimelineView.After, Shows, Timely, Rising, Whole, RenderAll, Encode, Divide, Tells;
    StreamTells(run, codec, log, cursor, a, to);
    var c := Consumed(run, codec, Start(cursor), "", 0, blocks);
    TellingShows(before, c.calls, c.cursor, log);
    forall x | x in c.calls ensures !x.OnEnd? { TellsNoEnd(c.calls, cursor, c.cursor, log, x); }
  }

  lemma NothingTerminal(calls: seq<TimelineView.Callback>, log: seq<AnswerRuns.Status>, to: nat)
    requires TimelineView.InSequence(calls) && Shows(TimelineView.After(calls), log) && TimelineView.After(calls).cursor <= to <= |log|
    requires forall i | 0 <= i < to :: !log[i].Terminal()
    ensures !TimelineView.After(calls).terminalSeen
  {
    TimelineView.ViewIsFaithful(calls);
    hide TimelineView.After, TimelineView.InSequence;
  }

  /** While a run is going on, the user is shown what the last page read, as soon as its text has
      arrived: all of the log that it read, and its preview. */
  lemma GoingIsShown(run: string, codec: Codec, times: nat -> string, log: seq<AnswerRuns.Status>, before: seq<TimelineView.Callback>,
                     polls: seq<PollResult>, from: nat, to: nat, blocks: seq<Block>)
    requires Json(run, codec, times) && Going(log, before, polls, from, to)
    requires Arrived(run, codec, Session(log, TimelineView.After(before).cursor, true, polls), blocks)
    ensures var c, page := Consumed(run, codec, Start(TimelineView.After(before).cursor), "", 0, blocks), polls[|polls| - 1];
            var v := TimelineView.After(before + c.calls);
            v.open && v.cursor == page.upto && Shows(v, log) && !v.terminalSeen && v.preview == page.preview.1
  {
    var c, page := Consumed(run, codec, Start(TimelineView.After(before).cursor), "", 0, blocks), polls[|polls| - 1];
    assert Readable(to, page);
    SessionOfGoing(log, before, polls, from, to);
    GoingIsPassed(run, codec, times, log, before, polls, from, to, blocks);
    GoingIsTold(run, codec, times, log, before, polls, from, to, blocks);
    hide Json, Arrived, Session, Consumed, LogOk, TimelineView.InSequence, TimelineView.After, Shows, Timely, Replayed, Served, Previews, Changes, PagesOf, NoEnd, Rising, Passed;
    LastIsShown(before, c.calls);
    NothingTerminal(before + c.calls, log, to);
  }

  // ---- The stored run

  /** How many previews of the run had been written at a moment. */
  ghost function Written(steps: Steps, id: Id, k: nat): nat { PreviewAt(steps, id, k, false).0 }

  lemma {:induction false} WrittenGrows(steps: Steps, id: Id, from: nat, to: nat)
    requires Kept(steps, id, from, to)
    ensures Written(steps, id, from) <= Written(steps, id, to)
  {
    var more := steps[from..to];
    forall n | 0 <= n <= |more| ensures Stored(AnswerRuns.After(steps[..from] + more[..n]), id) {
      assert steps[..from] + more[..n] == steps[..from + n];
    }
    assert steps[..from] + more == steps[..to];
    LogOnlyGrows(steps[..from], more, id);
  }

  /** The previews that pages read are counted up, between what was written before and after. */
  ghost predicate Between(low: nat, shots: seq<Shot>, high: nat) {
    Rising(shots) && forall x | x in shots :: low <= x.0 <= high
  }

  lemma BetweenOne(low: nat, shots: seq<Shot>, x: Shot, high: nat)
    requires Between(low, shots, x.0) && low <= x.0 <= high
    ensures Between(low, shots + [x], high)
  {
    var all := shots + [x];
    forall i, j | 0 <= i < j < |all| ensures all[i].0 <= all[j].0 {
      if j == |shots| { assert shots[i] in shots; }
    }
  }

  lemma {:induction false} ShotsBetween(steps: Steps, id: Id, from: nat, visits: seq<Visit>, to: nat, log: seq<AnswerRuns.Status>, start: nat)
    requires Kept(steps, id, from, to) && InTurn(from, visits, to) && forall p | p in PollsOf(steps, id, visits) :: Readable(|log|, p)
    ensures Between(Written(steps, id, from), Shots(log, start, true, PollsOf(steps, id, visits)), Written(steps, id, to))
    decreases |visits|
  {
    if visits != [] {
      var v, front := visits[|visits| - 1], visits[..|visits| - 1];
      var last := if v.Read? then v.status else to;
      InTurnBounds(from, front, last);
      KeptWithin(steps, id, from, to, last);
      var polls, p := PollsOf(steps, id, front), PollOf(steps, id, v);
      assert polls + [p] == PollsOf(steps, id, visits);
      hide Between, Finds, Served, Written, PollOf, Readable, PollsOf, Kept, Shots;
      ShotsBetween(steps, id, from, front, last, log, start);
      WrittenGrows(steps, id, from, last);
      WrittenGrows(steps, id, last, to);
      if v.Read? { SameRevision(steps, id, v); }
      ShotsOne(log, start, polls, p);
      NextShot(Written(steps, id, from), Shots(log, start, true, polls), Written(steps, id, last), p, Written(steps, id, to),
               Finds(Served(log, start, true, polls), p));
    }
  }

  lemma KeptWithin(steps: Steps, id: Id, from: nat, to: nat, k: nat)
    requires Kept(steps, id, from, to) && from <= k <= to
    ensures Kept(steps, id, from, k) && Kept(steps, id, k, to)
  {
  }

  lemma ShotsOne(log: seq<AnswerRuns.Status>, start: nat, polls: seq<PollResult>, p: PollResult)
    requires forall q | q in polls + [p] :: Readable(|log|, q)
    ensures forall q | q in polls :: Readable(|log|, q)
    ensures Shots(log, start, true, polls + [p])
            == Shots(log, start, true, polls) + (if Finds(Served(log, start, true, polls), p) then [p.preview] else [])
  {
    forall q | q in polls ensures Readable(|log|, q) { assert q in polls + [p]; }
    assert (polls + [p])[..|polls|] == polls;
    hide Served, Finds, Readable;
  }

  lemma NextShot(low: nat, shots: seq<Shot>, mid: nat, p: PollResult, high: nat, found: bool)
    requires Between(low, shots, mid) && low <= mid <= high && (found ==> p.Page? && p.preview.0 == mid)
    ensures Between(low, shots + (if found then [p.preview] else []), high)
  {
    if found { BetweenOne(low, shots, p.preview, high); } else { assert shots + [] == shots; }
  }

  lemma SameRevision(steps: Steps, id: Id, v: Visit)
    requires v.Read?
    ensures PollOf(steps, id, v).Page? && PollOf(steps, id, v).preview.0 == Written(steps, id, v.status)
  {
  }

  // ---- What was shown before

  lemma {:induction false} HaltsPasses(run: string, c: Client, xs: seq<Signal>, d: Client, x: TimelineView.Callback)
    requires Halts(run, c, xs, d) && x in d.calls && x.OnPreview?
    ensures x in c.calls || (x.revision, x.text) in Previews(xs)
    decreases |xs|
  {
    if c.outcome.Open? && !(SizeFault(d.outcome) && d == c.(outcome := d.outcome)) {
      HaltsPasses(run, React(run, c, xs[0]), xs[1..], d, x);
      assert xs == [xs[0]] + xs[1..];
      PreviewsOfSum([xs[0]], xs[1..]);
      assert [xs[0]][..0] == [];
    }
  }

  lemma SessionPreviews(log: seq<AnswerRuns.Status>, start: nat, includePreview: bool, polls: seq<PollResult>, x: Shot)
    requires (forall p | p in polls :: Readable(|log|, p)) && x in Previews(Session(log, start, includePreview, polls))
    ensures includePreview && x in Shots(log, start, true, polls)
  {
    var s := Served(log, start, includePreview, polls);
    PreviewsAreSent(log, start, includePreview, polls);
    PreviewsOfSum(s.out, [Signal.Reconnect]);
    PreviewsOfQuiet([Signal.Reconnect]);
    ChangesAreExact(Shots(log, start, includePreview, polls));
    hide Shots, Changes, Served, Previews;
  }

  lemma {:induction false} ConnectionIsBehind(run: string, codec: Codec, steps: Steps, id: Id, from: nat, visits: seq<Visit>, to: nat, now: nat,
                                              cursor: nat, includePreview: bool, blocks: seq<Block>, x: TimelineView.Callback)
    requires Faithful(run, codec) && Kept(steps, id, from, now) && to <= now && InTurn(from, visits, to)
    requires forall p | p in PollsOf(steps, id, visits) :: Readable(|LogAt(steps, id, now)|, p)
    requires Joined(blocks) <= Encode(RenderAll(run, codec, Session(LogAt(steps, id, now), cursor, includePreview, PollsOf(steps, id, visits))))
    requires x in Consumed(run, codec, Start(cursor), "", 0, blocks).calls && x.OnPreview?
    ensures x.revision <= Written(steps, id, to)
  {
    var log, polls := LogAt(steps, id, now), PollsOf(steps, id, visits);
    InTurnBounds(from, visits, to);
    PollsAreReadable(steps, id, now, [], now);
    ShotsBetween(steps, id, from, visits, to, log, cursor);
    hide LogAt, PollsOf, InTurn, LogOk, Readable, Faithful, Encode, RenderAll, Joined, Consumed, Session, Halts, Shots, Presentable, Written, Previews, Rising;
    SessionIsPresentable(log, cursor, includePreview, polls);
    var xs := Session(log, cursor, includePreview, polls);
    StreamHalts(run, codec, xs, cursor, blocks);
    HaltsPasses(run, Start(cursor), xs, Consumed(run, codec, Start(cursor), "", 0, blocks), x);
    SessionPreviews(log, cursor, includePreview, polls, (x.revision, x.text));
  }

  lemma AttemptIsBehind(run: string, codec: Codec, v: TimelineView.View, a: Attempt, x: TimelineView.Callback, bound: nat)
    requires x in Callbacks(run, codec, v, a) && x.OnPreview?
    requires v.open && a.Streamed? ==>
               forall y | y in Consumed(run, codec, Start(v.cursor), "", 0, a.blocks).calls && y.OnPreview? :: y.revision <= bound
    ensures x.revision <= bound
  {
    hide Consumed;
  }

  /** What is shown is never newer than what was written when the last connection ended. */
  lemma {:induction false} ShownIsBehind(run: string, codec: Codec, steps: Steps, id: Id, begin: nat, xs: seq<Connection>, end: nat, now: nat)
    requires Faithful(run, codec) && Kept(steps, id, begin, now) && begin <= end <= now && Happens(run, codec, steps, id, begin, xs, end, now)
    ensures TimelineView.After(Calls(run, codec, AttemptsOf(steps, id, xs))).revision <= Written(steps, id, end)
    decreases |xs|
  {
    if xs != [] {
      var front, x := xs[..|xs| - 1], xs[|xs| - 1];
      var attempts, a := AttemptsOf(steps, id, front), AttemptOf(steps, id, x);
      assert AttemptsOf(steps, id, xs) == attempts + [a];
      assert (attempts + [a])[..|attempts|] == attempts;
      var before := Calls(run, codec, attempts);
      var v, from := TimelineView.After(before), if x.Connected? then x.from else end;
      if x.Connected? { PollsStayReadable(steps, id, x.from, x.visits, end, now); }
      hide Calls, TimelineView.After, Written, LogAt, PollsOf, Readable, Session, Encode, RenderAll, Joined, Consumed, Callbacks;
      ShownIsBehind(run, codec, steps, id, begin, front, from, now);
      WrittenGrows(steps, id, from, end);
      forall c | c in Callbacks(run, codec, v, a) && c.OnPreview? ensures c.revision <= Written(steps, id, end) {
        if x.Connected? {
          forall y | y in Consumed(run, codec, Start(v.cursor), "", 0, x.blocks).calls && y.OnPreview? ensures y.revision <= Written(steps, id, end) {
            ConnectionIsBehind(run, codec, steps, id, x.from, x.visits, end, now, v.cursor, x.includePreview, x.blocks, y);
          }
        }
        AttemptIsBehind(run, codec, v, a, c, Written(steps, id, end));
      }
      RevisionBehind(before, Callbacks(run, codec, v, a), Written(steps, id, end));
      CallsOne(run, codec, attempts, a);
    }
  }

  lemma CallsOne(run: string, codec: Codec, attempts: seq<Attempt>, a: Attempt)
    ensures var before := Calls(run, codec, attempts);
            Calls(run, codec, attempts + [a]) == before + Callbacks(run, codec, TimelineView.After(before), a)
  {
    assert (attempts + [a])[..|attempts|] == attempts;
    hide Callbacks, TimelineView.After;
  }

  // ---- A running run is shown

  ghost predicate AllReads(visits: seq<Visit>) { forall v | v in visits :: v.Read? }

  lemma {:induction false} PollsArePages(steps: Steps, id: Id, visits: seq<Visit>)
    requires AllReads(visits)
    ensures |PollsOf(steps, id, visits)| == |visits| && AllPages(PollsOf(steps, id, visits))
    ensures visits != [] ==> PollsOf(steps, id, visits)[|visits| - 1] == PollOf(steps, id, visits[|visits| - 1])
  {
    if visits != [] {
      PollsArePages(steps, id, visits[..|visits| - 1]);
      assert visits[|visits| - 1] in visits;
      hide LogAt, PreviewAt;
    }
  }

  /** The run is stored and has not ended. */
  ghost predicate Active(steps: Steps, id: Id, k: nat) { RowAt(steps, id, k).Some? && RowAt(steps, id, k).value.status.Active() }

  lemma ActiveLog(steps: Steps, id: Id, k: nat, now: nat)
    requires Kept(steps, id, k, now) && Active(steps, id, k)
    ensures |LogAt(steps, id, k)| <= |LogAt(steps, id, now)|
    ensures forall i | 0 <= i < |LogAt(steps, id, k)| :: !LogAt(steps, id, now)[i].Terminal()
  {
    LogsGrow(steps, id, k, now);
    var log := LogAt(steps, id, k);
    forall i | 0 <= i < |log| ensures LogAt(steps, id, now)[i] == log[i] && !log[i].Terminal() {}
  }

  lemma {:induction false} StoredPages(steps: Steps, id: Id, from: nat, visits: seq<Visit>, to: nat, now: nat)
    requires Kept(steps, id, from, now) && from <= to <= now
    requires InTurn(from, visits, to) && AllReads(visits) && 0 < |visits| < STREAM_POLLS && Active(steps, id, to)
    ensures Reads(LogAt(steps, id, now), PollsOf(steps, id, visits), |LogAt(steps, id, from)|, |LogAt(steps, id, to)|)
  {
    KeptWithin(steps, id, from, now, to);
    KeptWithin(steps, id, to, now, now);
    assert InTurn(now, [], now);
    hide LogAt, PollsOf, LogOk, Readable, Timely, Kept, InTurn, Active, AllReads;
    PollsStayReadable(steps, id, from, visits, to, now);
    PollsAreReadable(steps, id, now, [], now);
    PollsAreTimely(steps, id, from, visits, to);
    PollsArePages(steps, id, visits);
    ActiveLog(steps, id, to, now);
    hide AllPages;
  }

  lemma {:induction false} StoredShots(steps: Steps, id: Id, from: nat, visits: seq<Visit>, to: nat, now: nat, cursor: nat)
    requires Kept(steps, id, from, now) && from <= to <= now && InTurn(from, visits, to) && cursor <= |LogAt(steps, id, from)|
    requires Reads(LogAt(steps, id, now), PollsOf(steps, id, visits), |LogAt(steps, id, from)|, |LogAt(steps, id, to)|)
    ensures Between(Written(steps, id, from), PagesOf(PollsOf(steps, id, visits)), Written(steps, id, to))
  {
    KeptWithin(steps, id, from, now, to);
    var log, polls := LogAt(steps, id, now), PollsOf(steps, id, visits);
    hide LogAt, PollsOf, LogOk, Readable, Timely, Kept, InTurn, Between, Written, Shots, PagesOf, AllPages, Served;
    ShotsBetween(steps, id, from, visits, to, log, cursor);
    RunningIsServed(log, cursor, true, polls, |LogAt(steps, id, from)|, |LogAt(steps, id, to)|);
  }

  lemma {:induction false} StoredBefore(run: string, codec: Codec, steps: Steps, id: Id, begin: nat, xs: seq<Connection>, from: nat, now: nat)
    requires Faithful(run, codec) && Kept(steps, id, begin, now) && begin <= from <= now && Happens(run, codec, steps, id, begin, xs, from, now)
    ensures var log, before := LogAt(steps, id, now), Calls(run, codec, AttemptsOf(steps, id, xs));
            && Replayed(before, log, |LogAt(steps, id, from)|) && TimelineView.After(before).cursor <= |LogAt(steps, id, from)|
            && TimelineView.After(before).revision <= Written(steps, id, from)
  {
    KeptWithin(steps, id, begin, now, from);
    assert InTurn(now, [], now);
    KeptWithin(steps, id, from, now, now);
    hide LogAt, Calls, AttemptsOf, TimelineView.After, Happens, Possible, Faithful, LogOk, Written, Kept, PollsOf;
    PollsAreReadable(steps, id, now, [], now);
    ShownIsBehind(run, codec, steps, id, begin, xs, from, now);
    ConnectionsArePossible(run, codec, steps, id, begin, xs, from, now);
    LogsGrow(steps, id, from, now);
    ReplayIsFaithful(run, codec, LogAt(steps, id, now), AttemptsOf(steps, id, xs), |LogAt(steps, id, from)|);
    hide Replayed;
    CursorIsKnown(Calls(run, codec, AttemptsOf(steps, id, xs)), LogAt(steps, id, now), |LogAt(steps, id, from)|);
  }

  lemma GoesOn(log: seq<AnswerRuns.Status>, before: seq<TimelineView.Callback>, polls: seq<PollResult>, from: nat, to: nat, low: nat, high: nat)
    requires Reads(log, polls, from, to) && Replayed(before, log, from) && TimelineView.After(before).open
    requires Between(low, PagesOf(polls), high) && TimelineView.After(before).revision <= low
    ensures Going(log, before, polls, from, to)
  {
    hide Reads, Replayed, Rising, TimelineView.After, PagesOf;
  }

  lemma {:induction false} RunningRunGoes(run: string, codec: Codec, steps: Steps, id: Id, begin: nat, xs: seq<Connection>, from: nat,
                                          visits: seq<Visit>, to: nat, now: nat)
    requires Faithful(run, codec) && Kept(steps, id, begin, now) && begin <= from <= to <= now
    requires Happens(run, codec, steps, id, begin, xs, from, now) && TimelineView.After(Calls(run, codec, AttemptsOf(steps, id, xs))).open
    requires InTurn(from, visits, to) && AllReads(visits) && 0 < |visits| < STREAM_POLLS && Active(steps, id, to)
    ensures Going(LogAt(steps, id, now), Calls(run, codec, AttemptsOf(steps, id, xs)), PollsOf(steps, id, visits), |LogAt(steps, id, from)|,
                  |LogAt(steps, id, to)|)
  {
    KeptWithin(steps, id, begin, now, from);
    hide *;
    StoredPages(steps, id, from, visits, to, now);
    StoredBefore(run, codec, steps, id, begin, xs, from, now);
    var before := Calls(run, codec, AttemptsOf(steps, id, xs));
    StoredShots(steps, id, from, visits, to, now, TimelineView.After(before).cursor);
    GoesOn(LogAt(steps, id, now), before, PollsOf(steps, id, visits), |LogAt(steps, id, from)|, |LogAt(steps, id, to)|, Written(steps, id, from),
           Written(steps, id, to));
  }

  lemma LastPage(steps: Steps, id: Id, visits: seq<Visit>)
    requires AllReads(visits) && visits != []
    ensures var polls, v := PollsOf(steps, id, visits), visits[|visits| - 1];
            && polls != [] && v.Read? && polls[|polls| - 1].Page? && polls[|polls| - 1].upto == |LogAt(steps, id, v.events)|
            && polls[|polls| - 1].preview == PreviewAt(steps, id, v.status, v.live)
  {
    PollsArePages(steps, id, visits);
    hide LogAt, PreviewAt, PollsOf;
  }

  /** From the stored run to the user: whatever connections there were before, and whatever the actors
      of the protocol do in between, as soon as the text of a running run's pages has arrived, in any
      blocks, the user is shown the whole log that the last page read, and the preview as it was stored
      at that moment, or none if the lease had run out. */
  lemma {:induction false} RunningRunIsShown(run: string, codec: Codec, times: nat -> string, steps: Steps, id: Id, begin: nat, xs: seq<Connection>,
                                             from: nat, visits: seq<Visit>, to: nat, now: nat, blocks: seq<Block>)
    requires Json(run, codec, times) && Kept(steps, id, begin, now) && begin <= from <= to <= now
    requires Happens(run, codec, steps, id, begin, xs, from, now) && TimelineView.After(Calls(run, codec, AttemptsOf(steps, id, xs))).open
    requires InTurn(from, visits, to) && AllReads(visits) && 0 < |visits| < STREAM_POLLS && Active(steps, id, to)
    ensures forall p | p in PollsOf(steps, id, visits) :: Readable(|LogAt(steps, id, now)|, p)
    ensures var before, log := Calls(run, codec, AttemptsOf(steps, id, xs)), LogAt(steps, id, now);
            var cursor := TimelineView.After(before).cursor;
            Arrived(run, codec, Session(log, cursor, true, PollsOf(steps, id, visits)), blocks) ==>
              var v, last := TimelineView.After(before + Consumed(run, codec, Start(cursor), "", 0, blocks).calls), visits[|visits| - 1];
              && v.open && v.cursor == |LogAt(steps, id, last.events)| && Shows(v, log) && !v.terminalSeen
              && v.preview == PreviewAt(steps, id, last.status, last.live).1
  {
    KeptWithin(steps, id, begin, now, from);
    assert Faithful(run, codec);
    hide *;
    PollsStayReadable(steps, id, from, visits, to, now);
    LastPage(steps, id, visits);
    RunningRunGoes(run, codec, steps, id, begin, xs, from, visits, to, now);
    var before, log, polls := Calls(run, codec, AttemptsOf(steps, id, xs)), LogAt(steps, id, now), PollsOf(steps, id, visits);
    if Arrived(run, codec, Session(log, TimelineView.After(before).cursor, true, polls), blocks) {
      GoingIsShown(run, codec, times, log, before, polls, |LogAt(steps, id, from)|, |LogAt(steps, id, to)|, blocks);
    }
  }
}
