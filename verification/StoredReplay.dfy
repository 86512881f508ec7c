/** From the answer-run protocol to the browser: the pages of the event stream read the rows that
    the protocol keeps, each statement at its own moment, and the user is shown the stored log. */
module StoredReplay {
  import opened AnswerRunInvariant
  import AnswerRuns
  import opened AnswerRunResults
  import opened EventClient
  import opened EventServer
  import opened EventSessions
  import opened EventWire
  import opened RunReplay
  import RunTimeline
  import TimelineView
  import opened Options
  import opened Transcripts

  type Steps = seq<AnswerRuns.Step>

  /** The run is stored at every moment from one to another. Moments are counted in steps of the
      protocol. */
  ghost predicate Kept(steps: Steps, id: Id, from: nat, to: nat) {
    from <= to <= |steps| && forall k | from <= k <= to :: Stored(AnswerRuns.After(steps[..k]), id)
  }

  /** The row of the run, its event log and its preview at a moment. */
  ghost function RowAt(steps: Steps, id: Id, k: nat): Option<AnswerRuns.Run> {
    if k <= |steps| && Stored(AnswerRuns.After(steps[..k]), id) then Some(AnswerRuns.After(steps[..k]).runs[id]) else None
  }

  ghost function LogAt(steps: Steps, id: Id, k: nat): seq<AnswerRuns.Status> {
    match RowAt(steps, id, k)
    case Some(r) => Path(r)
    case None => []
  }

  /** The preview is left empty unless the lease is live. */
  ghost function PreviewAt(steps: Steps, id: Id, k: nat, live: bool): (nat, string) {
    match RowAt(steps, id, k)
    case Some(r) => (r.revision, if live then r.preview else "")
    case None => (0, "")
  }

  lemma {:induction false} RowIsOk(steps: Steps, id: Id, k: nat, live: bool)
    requires Kept(steps, id, k, k)
    ensures LogOk(LogAt(steps, id, k)) && Storable(PreviewAt(steps, id, k, live))
  {
    StoredRunOk(steps[..k], id);
    RunTimeline.StoredLogIsReplayable(AnswerRuns.After(steps[..k]).runs[id]);
  }

  lemma {:induction false} LogsGrow(steps: Steps, id: Id, from: nat, to: nat)
    requires Kept(steps, id, from, to)
    ensures LogAt(steps, id, from) <= LogAt(steps, id, to)
  {
    var more := steps[from..to];
    forall n | 0 <= n <= |more| ensures Stored(AnswerRuns.After(steps[..from] + more[..n]), id) {
      assert steps[..from] + more[..n] == steps[..from + n];
    }
    assert steps[..from] + more == steps[..to];
    LogOnlyGrows(steps[..from], more, id);
  }

  // ---- Polls of a stored run

  /** A poll, with the moments of a page's three reads. `live` tells whether the lease held. */
  datatype Visit =
    | Left
    | Failed(http: Option<nat>)
    | Read(status: nat, maximum: nat, events: nat, live: bool)

  /** Visits take place one after another between two moments. */
  ghost predicate InTurn(from: nat, visits: seq<Visit>, to: nat) {
    if visits == [] then from <= to
    else
      var v := visits[|visits| - 1];
      && (v.Read? ==> v.status <= v.maximum <= v.events <= to)
      && InTurn(from, visits[..|visits| - 1], if v.Read? then v.status else to)
  }

  lemma {:induction false} InTurnBounds(from: nat, visits: seq<Visit>, to: nat)
    requires InTurn(from, visits, to)
    ensures from <= to
  {
    if visits != [] {
      var v := visits[|visits| - 1];
      InTurnBounds(from, visits[..|visits| - 1], if v.Read? then v.status else to);
    }
  }

  /** What a visit meets. */
  ghost function PollOf(steps: Steps, id: Id, v: Visit): PollResult {
    match v
    case Left => Disconnected
    case Failed(http) => Broken(http)
    case Read(status, maximum, events, live) =>
      Page(|LogAt(steps, id, status)|, |LogAt(steps, id, maximum)|, |LogAt(steps, id, events)|, PreviewAt(steps, id, status, live))
  }

  ghost function PollsOf(steps: Steps, id: Id, visits: seq<Visit>): seq<PollResult> {
    if visits == [] then [] else PollsOf(steps, id, visits[..|visits| - 1]) + [PollOf(steps, id, visits[|visits| - 1])]
  }

  lemma {:induction false} PollIsReadable(steps: Steps, id: Id, from: nat, v: Visit, to: nat)
    requires Kept(steps, id, from, to) && (v.Read? ==> from <= v.status <= v.maximum <= v.events <= to)
    ensures Readable(|LogAt(steps, id, to)|, PollOf(steps, id, v))
  {
    if v.Read? {
      RowIsOk(steps, id, v.status, v.live);
      LogsGrow(steps, id, v.status, v.maximum);
      LogsGrow(steps, id, v.maximum, v.events);
      LogsGrow(steps, id, v.events, to);
      hide LogAt, PreviewAt, Kept;
    }
  }

  /** The visits of a stored run read a growing log, and previews within the server's bounds. */
  lemma {:induction false} PollsAreTimely(steps: Steps, id: Id, from: nat, visits: seq<Visit>, to: nat)
    requires Kept(steps, id, from, to) && InTurn(from, visits, to)
    ensures Timely(|LogAt(steps, id, from)|, PollsOf(steps, id, visits), |LogAt(steps, id, to)|)
    ensures |PollsOf(steps, id, visits)| == |visits|
    decreases |visits|
  {
    if visits == [] {
      LogsGrow(steps, id, from, to);
    } else {
      var v, front := visits[|visits| - 1], visits[..|visits| - 1];
      var last := if v.Read? then v.status else to;
      InTurnBounds(from, front, last);
      PollsAreTimely(steps, id, from, front, last);
      PollIsReadable(steps, id, from, v, to);
      hide Kept, LogAt, PreviewAt, Readable;
      TimelyOne(|LogAt(steps, id, from)|, PollsOf(steps, id, front), PollOf(steps, id, v), |LogAt(steps, id, to)|);
    }
  }

  lemma {:induction false} PollsAreReadable(steps: Steps, id: Id, from: nat, visits: seq<Visit>, to: nat)
    requires Kept(steps, id, from, to) && InTurn(from, visits, to)
    ensures LogOk(LogAt(steps, id, to))
    ensures forall p | p in PollsOf(steps, id, visits) :: Readable(|LogAt(steps, id, to)|, p)
  {
    InTurnBounds(from, visits, to);
    PollsAreTimely(steps, id, from, visits, to);
    RowIsOk(steps, id, to, false);
    hide LogAt, PollsOf, LogOk;
    TimelyReadable(|LogAt(steps, id, from)|, PollsOf(steps, id, visits), |LogAt(steps, id, to)|, |LogAt(steps, id, to)|);
  }

  lemma PollsStayReadable(steps: Steps, id: Id, from: nat, visits: seq<Visit>, to: nat, now: nat)
    requires Kept(steps, id, from, now) && InTurn(from, visits, to) && to <= now
    ensures forall p | p in PollsOf(steps, id, visits) :: Readable(|LogAt(steps, id, now)|, p)
  {
    InTurnBounds(from, visits, to);
    PollsAreReadable(steps, id, from, visits, to);
    LogsGrow(steps, id, to, now);
    hide LogAt, PollsOf, LogOk, InTurn;
  }

  /** Whatever the steps of the protocol between them, every frame that a session sends over the
      stored run is accepted by the client's schemas and handled as the signal it stands for. */
  lemma {:induction false} StoredSessionIsAccepted(run: string, codec: Codec, steps: Steps, id: Id, from: nat, visits: seq<Visit>,
                                                   to: nat, start: nat, includePreview: bool, c: Client, x: Signal)
    requires Kept(steps, id, from, to) && InTurn(from, visits, to) && Faithful(run, codec)
    ensures forall p | p in PollsOf(steps, id, visits) :: Readable(|LogAt(steps, id, to)|, p)
    ensures x in Session(LogAt(steps, id, to), start, includePreview, PollsOf(steps, id, visits)) ==>
              Presentable(x) && HandleFields(run, codec, c, ReadFrame(Body(Render(run, codec, x)))) == React(run, c, x)
  {
    PollsAreReadable(steps, id, from, visits, to);
    hide Kept, InTurn, LogAt, PollsOf, LogOk, Readable, Faithful, HandleFields, ReadFrame, Body, Render, React, Presentable;
    SessionIsPresentable(LogAt(steps, id, to), start, includePreview, PollsOf(steps, id, visits));
    if Presentable(x) { ReactionIsFaithful(run, codec, c, x); }
  }

  // ---- The replay of a stored run

  /** An attempt to connect to a stored run, begun at a moment. */
  datatype Connection =
    | Declined(ending: TimelineView.Ending)
    | Connected(from: nat, includePreview: bool, visits: seq<Visit>, blocks: seq<Block>)

  ghost function AttemptOf(steps: Steps, id: Id, x: Connection): Attempt {
    match x
    case Declined(ending) => Refused(ending)
    case Connected(from, includePreview, visits, blocks) =>
      Streamed(|LogAt(steps, id, from)|, includePreview, PollsOf(steps, id, visits), blocks)
  }

  ghost function AttemptsOf(steps: Steps, id: Id, xs: seq<Connection>): seq<Attempt> {
    if xs == [] then [] else AttemptsOf(steps, id, xs[..|xs| - 1]) + [AttemptOf(steps, id, xs[|xs| - 1])]
  }

  /** Connections follow one another between two moments, each visiting the run in turn; of what
      the server sends from the loop's cursor a beginning arrives. The sessions are those over the
      log at the moment `now`, of which each visit sees what was there. */
  ghost predicate Happens(run: string, codec: Codec, steps: Steps, id: Id, begin: nat, xs: seq<Connection>, end: nat, now: nat)
    requires Kept(steps, id, begin, now) && end <= now
  {
    if xs == [] then begin <= end
    else
      var front, x := xs[..|xs| - 1], xs[|xs| - 1];
      match x
      case Declined(ending) =>
        ending != TimelineView.Finished && ending != TimelineView.Again && Happens(run, codec, steps, id, begin, front, end, now)
      case Connected(from, includePreview, visits, blocks) =>
        && |visits| <= STREAM_POLLS && begin <= from <= end && InTurn(from, visits, end)
        && Happens(run, codec, steps, id, begin, front, from, now)
        && var cursor := TimelineView.After(Calls(run, codec, AttemptsOf(steps, id, front))).cursor;
           PollsStayReadable(steps, id, from, visits, end, now);
           Joined(blocks) <= Encode(RenderAll(run, codec, Session(LogAt(steps, id, now), cursor, includePreview, PollsOf(steps, id, visits))))
  }

  lemma {:induction false} ConnectionsArePossible(run: string, codec: Codec, steps: Steps, id: Id, begin: nat, xs: seq<Connection>, end: nat, now: nat)
    requires Kept(steps, id, begin, now) && begin <= end <= now && Happens(run, codec, steps, id, begin, xs, end, now)
    ensures Possible(run, codec, LogAt(steps, id, now), AttemptsOf(steps, id, xs), |LogAt(steps, id, end)|)
    decreases |xs|
  {
    if xs != [] {
      var front, x := xs[..|xs| - 1], xs[|xs| - 1];
      var before := AttemptsOf(steps, id, front);
      assert AttemptsOf(steps, id, xs) == before + [AttemptOf(steps, id, x)];
      assert (before + [AttemptOf(steps, id, x)])[..|before|] == before;
      if x.Connected? {
        PollsAreTimely(steps, id, x.from, x.visits, end);
        PollsStayReadable(steps, id, x.from, x.visits, end, now);
      }
      hide LogAt, PollsOf, Readable, Timely, Calls, Session, RenderAll, Encode, TimelineView.After;
      ConnectionsArePossible(run, codec, steps, id, begin, front, if x.Connected? then x.from else end, now);
    }
  }

  /** End to end, from the protocol's transactions to the user: while workers, the dispatcher and
      the API go on with a stored run in any way, and connections to its event stream are opened,
      cut and resumed in any way, every event that the loop is handed is the next one after its
      cursor, what it shows is the stored log up to that cursor, and it finishes only with the
      whole of a finished log, whose last entry is the run's status. */
  lemma {:induction false} StoredRunIsReplayed(run: string, codec: Codec, steps: Steps, id: Id, begin: nat, xs: seq<Connection>, now: nat)
    requires Faithful(run, codec) && Kept(steps, id, begin, now) && Happens(run, codec, steps, id, begin, xs, now, now)
    ensures var calls, log := Calls(run, codec, AttemptsOf(steps, id, xs)), LogAt(steps, id, now);
            && Replayed(calls, log, |log|) && RowAt(steps, id, now).Some?
            && (TimelineView.OnEnd(TimelineView.Finished) in calls ==>
                  RowAt(steps, id, now).value.status.Terminal() && TimelineView.After(calls).cursor == |log|)
  {
    ConnectionsArePossible(run, codec, steps, id, begin, xs, now, now);
    RowIsOk(steps, id, now, false);
    assert Stored(AnswerRuns.After(steps[..now]), id);
    hide Happens, Possible, Faithful, Calls, AttemptsOf, TimelineView.After, TimelineView.InSequence, Shows;
    ReplayIsFaithful(run, codec, LogAt(steps, id, now), AttemptsOf(steps, id, xs), |LogAt(steps, id, now)|);
  }
}
