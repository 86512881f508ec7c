/** The guarantees of the answer-run protocol, for every run of the system: any number of users,
    workers, duplicate deliveries, crashes, dispatcher passes and deletions, interleaved in any
    order and with any clock readings. */
module AnswerRunResults {
  import opened Options
  import opened Transcripts
  import opened AnswerRuns
  import opened AnswerRunInvariant
  import opened AnswerRunRowSteps
  import opened AnswerRunSteps

  // ---- Transcript and usage

  /** A completed run's question and answer are in its own conversation exactly once, adjacent,
      from the source pinned at submission and with the usage the run reports; a run that is not
      completed appears in no transcript. */
  lemma {:induction false} PublishedExactlyOnce(steps: seq<Step>, id: Id)
    requires id in After(steps).runs
    ensures var w := After(steps);
            var r := w.runs[id];
            && (r.status == Completed ==>
                  exists p: nat, a :: PairSaved(w.conversations, r.conversation, p, id, r, a)
                    && Positions(w.conversations[r.conversation], id) == {p, p + 1})
            && (forall c | c in w.conversations && (c != r.conversation || r.status != Completed) ::
                  Positions(w.conversations[c], id) == {})
  {
    Always(steps);
    var w := After(steps);
    var r := w.runs[id];
    hide Numbered, Rows, Billed, AllAccounted, CallsOk, WorkersOk, Leased, Submissions, After;
    if r.status == Completed {
      assert Published(w.conversations, id, r);
      var p, a :| PairSaved(w.conversations, r.conversation, p, id, r, a);
      OnlyPair(w.conversations, r.conversation, p, id, w.runs);
    }
    forall c | c in w.conversations && (c != r.conversation || r.status != Completed)
      ensures Positions(w.conversations[c], id) == {}
    {
      assert TurnsOk(w.runs, c, w.conversations[c]);
      forall p | p in w.conversations[c].messages ensures w.conversations[c].messages[p].turn != id {
        assert TurnOk(w.runs, c, w.conversations[c].messages[p].turn);
      }
    }
  }

  lemma OnlyPair(cs: Conversations, c: Id, p: nat, id: Id, runs: Runs)
    requires Saved(cs, runs) && c in cs && p % 2 == 1 && Question(cs[c], p) && cs[c].messages[p].turn == id
    ensures Positions(cs[c], id) == {p, p + 1}
  {
    assert Apart(c, cs[c], c, cs[c]) && Shape(cs[c]);
    forall q | q in Positions(cs[c], id) ensures q == p || q == p + 1 {
      assert (q + 1) / 2 == (p + 1) / 2;
    }
  }

  /** Transcripts keep their shape, and no two pairs share a turn, across all conversations. */
  lemma {:induction false} TranscriptsKeepShape(steps: seq<Step>)
    ensures Saved(After(steps).conversations, After(steps).runs)
  {
    Always(steps);
  }

  lemma {:induction false} StoredRunOk(steps: seq<Step>, id: Id)
    requires id in After(steps).runs
    ensures RunOk(After(steps).runs[id]) && id < After(steps).next
  {
    hide RunOk, Saved, AllPublished, Billed, AllAccounted, CallsOk, WorkersOk, Leased, Submissions;
    Always(steps);
    hide After;
  }

  lemma {:induction false} WorkerStarted(steps: seq<Step>, k: Id)
    requires k in After(steps).workers && After(steps).workers[k].run in After(steps).runs
    ensures After(steps).runs[After(steps).workers[k].run].started.Some?
  {
    hide RunOk, Numbered, Rows, Saved, AllPublished, Billed, AllAccounted, CallsOk, Leased, Submissions;
    Always(steps);
    hide After;
    var w := After(steps);
    assert WorkerOk(w.workers[k], w.runs, w.receipts, w.conversations, w.calls);
  }

  lemma RunningIsLogged(r: Run)
    requires RunOk(r)
    ensures r.started.Some? <==> exists k :: k in r.events && r.events[k] == Running
  {
    if r.started.Some? { assert 2 in r.events && r.events[2] == Running; }
  }

  /** Usage is `recorded` exactly for completed runs and `not_started` exactly for runs whose
      log has no running entry; any worker's run has been started. */
  lemma {:induction false} UsageTellsTheTruth(steps: seq<Step>, id: Id)
    requires id in After(steps).runs
    ensures var r := After(steps).runs[id];
            && (r.usage == Recorded <==> r.status == Completed)
            && (r.usage == NotStarted <==> forall k | k in r.events :: r.events[k] != Running)
            && (forall k | k in After(steps).workers && After(steps).workers[k].run == id :: r.usage != NotStarted)
  {
    StoredRunOk(steps, id);
    hide After;
    RunningIsLogged(After(steps).runs[id]);
    forall k | k in After(steps).workers && After(steps).workers[k].run == id ensures After(steps).runs[id].usage != NotStarted {
      WorkerStarted(steps, k);
    }
  }

  // ---- The event log

  lemma LogShape(r: Run)
    requires RunOk(r)
    ensures 1 <= |Path(r)| <= 3 && 1 in r.events && |Path(r)| in r.events
    ensures r.events[1] == Queued && r.events[|Path(r)|] == r.status
    ensures forall k | k in r.events && r.events[k].Terminal() :: k == |Path(r)|
  {
  }

  /** The log is a path of the state machine: at most three entries with sequences 1, 2, 3,
      the first `queued`, the last the stored status, a terminal entry only at the end. */
  lemma {:induction false} EventLogIsPath(steps: seq<Step>, id: Id)
    requires id in After(steps).runs
    ensures var r := After(steps).runs[id];
            && Logs(r.events, Path(r)) && 1 <= |Path(r)| <= 3
            && r.events[1] == Queued && r.events[|Path(r)|] == r.status
            && (forall k | k in r.events && r.events[k].Terminal() :: k == |Path(r)|)
  {
    StoredRunOk(steps, id);
    hide After;
    LogShape(After(steps).runs[id]);
  }

  /** How one stored row moves in one step: identity fields never change, a finished run never
      changes at all, and the log is extended by exactly the new status when the status
      changes and left alone otherwise. */
  ghost predicate StepOfRow(r: Run, s: Run) {
    && Follows(r, s)
    && Path(s) == if s.status == r.status then Path(r) else Path(r) + [s.status]
  }

  lemma RowStays(r: Run)
    ensures StepOfRow(r, r)
  {
  }

  lemma RowStarts(r: Run, token: Id, t: Time)
    requires RunOk(r) && r.status == Queued
    ensures StepOfRow(r, StartRun(r, token, t))
  {
  }

  lemma RowEnds(r: Run, status: Status, error: Option<string>, t: Time, a: Answer)
    requires RunOk(r) && r.status.Active()
    ensures status == Failed || status == Cancelled ==> StepOfRow(r, EndRun(r, status, error, t))
    ensures r.status == Running ==> StepOfRow(r, CompleteRun(r, a, t))
  {
  }

  lemma RowPreviews(r: Run, text: string, revision: nat)
    requires r.status == Running && revision >= r.revision
    ensures StepOfRow(r, r.(preview := text, revision := revision))
  {
  }

  ghost predicate TouchesRows(s: Step) {
    s.DoClaim? || s.DoDelta? || s.DoPublish? || s.DoFailRun? || s.DoCancel? || s.DoDispatch?
  }

  lemma OtherStepsKeepRows(w: World, s: Step, id: Id)
    requires !TouchesRows(s) && id in w.runs && id < w.next && id in Apply(w, s).runs
    ensures Apply(w, s).runs[id] == w.runs[id]
  {
    hide CheckSubmission, AppendState, AppendPair, Insertable, Account, Holds;
  }

  lemma PublishMoves(w: World, token: Id, t: Time, id: Id)
    requires id in w.runs && RunOk(w.runs[id])
    ensures StepOfRow(w.runs[id], Publish(w, token, t).runs[id])
  {
    hide RunOk, StepOfRow, CompleteRun, AppendPair;
    RowStays(w.runs[id]);
    if token in w.workers && w.workers[token].phase.Answered? && w.runs[id].status == Running {
      RowEnds(w.runs[id], Failed, None, t, w.workers[token].phase.answer);
    }
  }

  lemma FailRunMoves(w: World, token: Id, t: Time, id: Id)
    requires id in w.runs && RunOk(w.runs[id])
    ensures StepOfRow(w.runs[id], FailRun(w, token, t).runs[id])
  {
    hide RunOk, StepOfRow, EndRun;
    RowStays(w.runs[id]);
    if token in w.workers && w.workers[token].phase.Failing? && w.runs[id].status == Running {
      RowEnds(w.runs[id], Failed, Some(w.workers[token].phase.code), t, Answer(0, false, [], "", 0, 0));
    }
  }

  lemma DispatchMoves(w: World, t: Time, id: Id)
    requires id in w.runs && RunOk(w.runs[id])
    ensures StepOfRow(w.runs[id], Dispatch(w, t).runs[id])
  {
    hide RunOk, StepOfRow, EndRun;
    RowStays(w.runs[id]);
    if w.runs[id].status.Active() {
      RowEnds(w.runs[id], Failed, Some("answer_worker_lost"), t, Answer(0, false, [], "", 0, 0));
      RowEnds(w.runs[id], Failed, Some("answer_queue_expired"), t, Answer(0, false, [], "", 0, 0));
    }
  }

  lemma ClaimMoves(w: World, x: Id, t: Time, id: Id)
    requires id in w.runs && RunOk(w.runs[id])
    ensures StepOfRow(w.runs[id], Claim(w, x, t).runs[id])
  {
    hide RunOk, StepOfRow, StartRun;
    RowStays(w.runs[id]);
    if w.runs[id].status == Queued { RowStarts(w.runs[id], w.next, t); }
  }

  lemma DeltaMoves(w: World, token: Id, text: string, tick: Time, t: Time, id: Id)
    requires id in w.runs
    ensures StepOfRow(w.runs[id], Delta(w, token, text, tick, t).runs[id])
  {
    hide StepOfRow, Shown;
    RowStays(w.runs[id]);
    if w.runs[id].status == Running { RowPreviews(w.runs[id], Shown(text), w.runs[id].revision + 1); }
  }

  lemma RowMoves(w: World, s: Step, id: Id)
    requires id in w.runs && RunOk(w.runs[id]) && id < w.next && id in Apply(w, s).runs
    ensures StepOfRow(w.runs[id], Apply(w, s).runs[id])
  {
    hide RunOk, StepOfRow, Claim, Delta, Publish, FailRun, Dispatch;
    RowStays(w.runs[id]);
    match s
    case DoClaim(x, t) => ClaimMoves(w, x, t, id);
    case DoDelta(token, text, tick, t) => DeltaMoves(w, token, text, tick, t, id);
    case DoPublish(token, t) => PublishMoves(w, token, t, id);
    case DoFailRun(token, t) => FailRunMoves(w, token, t, id);
    case DoCancel(x, t) =>
      hide EndRun;
      if w.runs[id].status.Active() { RowEnds(w.runs[id], Cancelled, None, t, Answer(0, false, [], "", 0, 0)); }
    case DoDispatch(t) => DispatchMoves(w, t, id);
    case _ =>
      hide Apply;
      OtherStepsKeepRows(w, s, id);
  }

  ghost predicate Stored(w: World, id: Id) { id in w.runs }

  /** However the system goes on while a run is stored, its log is only ever added to at the
      end, its previews are counted up, and once finished the run stays exactly as it is. */
  lemma {:induction false} LogOnlyGrows(steps: seq<Step>, more: seq<Step>, id: Id)
    requires forall n | 0 <= n <= |more| :: Stored(After(steps + more[..n]), id)
    ensures Stored(After(steps), id) && Stored(After(steps + more), id)
    ensures Path(After(steps).runs[id]) <= Path(After(steps + more).runs[id])
    ensures After(steps).runs[id].revision <= After(steps + more).runs[id].revision
    ensures After(steps).runs[id].status.Terminal() ==> After(steps + more).runs[id] == After(steps).runs[id]
    decreases |more|
  {
    assert steps + more[..0] == steps && Stored(After(steps + more[..0]), id);
    assert more[..|more|] == more && Stored(After(steps + more[..|more|]), id);
    if more == [] {
      assert steps + more == steps;
    } else {
      var k := |more| - 1;
      forall n | 0 <= n <= k ensures Stored(After(steps + more[..k][..n]), id) {
        assert more[..k][..n] == more[..n];
      }
      LogOnlyGrows(steps, more[..k], id);
      var all := steps + more;
      assert all[..|all| - 1] == steps + more[..k] && all[|all| - 1] == more[k];
      assert After(all) == Apply(After(steps + more[..k]), more[k]);
      StoredRunOk(steps + more[..k], id);
      hide After, Apply, RunOk;
      RowMoves(After(steps + more[..k]), more[k], id);
    }
  }

  // ---- Paid work

  /** A run is never sent twice to the same kind of provider, whatever is redelivered or
      crashes, and while the run is stored each call is covered by its own receipt. */
  lemma {:induction false} PaidAtMostOnce(steps: seq<Step>)
    ensures var w := After(steps);
            && (forall i, j | 0 <= i < j < |w.calls| :: w.calls[i].run != w.calls[j].run || w.calls[i].kind != w.calls[j].kind)
            && (forall i | 0 <= i < |w.calls| && w.calls[i].run in w.runs ::
                  Covers(w.receipts, w.calls[i].receipt, w.calls[i].run, w.calls[i].kind))
            && (forall a, b | a in w.receipts && b in w.receipts && a != b ::
                  w.receipts[a].run != w.receipts[b].run || w.receipts[a].kind != w.receipts[b].kind)
  {
    Always(steps);
  }

  /** A call is only ever sent under a receipt that was committed before it and is still open. */
  lemma {:induction false} ReceiptPrecedesCall(steps: seq<Step>, token: Id)
    requires var w := After(steps);
             token in w.workers && w.workers[token].phase.Calling? && w.workers[token].run in w.runs
    ensures var w := After(steps);
            var p := w.workers[token].phase;
            && Covers(w.receipts, p.receipt, w.workers[token].run, p.kind) && w.receipts[p.receipt].usage.None?
            && Send(w, token).calls == w.calls + [Call(w.workers[token].run, p.kind, p.receipt)]
  {
    Always(steps);
    var w := After(steps);
    assert WorkerOk(w.workers[token], w.runs, w.receipts, w.conversations, w.calls);
  }

  lemma ApiKeepsReceipts(w: World, s: Step)
    requires s.DoCreate? || s.DoBeginSubmit? || s.DoFinishSubmit? || s.DoAbandonSubmit? || s.DoCancel? || s.DoDispatch? || s.DoAsk?
    ensures Apply(w, s).receipts == w.receipts
  {
    hide EndRun, Expire, CheckSubmission, AppendPair, AppendState, Insertable;
  }

  lemma WorkersKeepReceipts(w: World, s: Step)
    requires s.DoClaim? || s.DoDelta? || s.DoPublish? || s.DoFailRun?
    ensures Apply(w, s).receipts == w.receipts
  {
    hide StartRun, EndRun, CompleteRun, AppendPair, AppendState, HoldsUntil, Holds, Claimable, Writes;
    match s
    case DoClaim(id, t) => hide AnswerRuns.Delta, AnswerRuns.Publish, AnswerRuns.FailRun;
    case DoDelta(_, _, _, _) => hide AnswerRuns.Claim, AnswerRuns.Publish, AnswerRuns.FailRun;
    case DoPublish(_, _) => hide AnswerRuns.Claim, AnswerRuns.Delta, AnswerRuns.FailRun;
    case DoFailRun(_, _) => hide AnswerRuns.Claim, AnswerRuns.Delta, AnswerRuns.Publish;
  }

  lemma PhasesKeepReceipts(w: World, s: Step)
    requires s.DoLoad? || s.DoSend? || s.DoNoEvidence? || s.DoAbort?
    ensures Apply(w, s).receipts == w.receipts
  {
    hide Holds;
  }

  lemma OtherStepsKeepReceipts(w: World, s: Step)
    requires !s.DoBegin? && !s.DoFinish? && !s.DoDelete?
    ensures Apply(w, s).receipts == w.receipts
  {
    hide Apply;
    if s.DoClaim? || s.DoDelta? || s.DoPublish? || s.DoFailRun? {
      WorkersKeepReceipts(w, s);
    } else if s.DoLoad? || s.DoSend? || s.DoNoEvidence? || s.DoAbort? {
      PhasesKeepReceipts(w, s);
    } else {
      ApiKeepsReceipts(w, s);
    }
  }

  lemma ReceiptMoves(w: World, s: Step, id: Id)
    requires id in w.receipts && id < w.next && id in Apply(w, s).receipts
    ensures var a, b := w.receipts[id], Apply(w, s).receipts[id];
            b.run == a.run && b.kind == a.kind && (a.usage.Some? ==> b.usage == a.usage)
  {
    hide Holds;
    match s
    case DoBegin(token, kind, t) =>
    case DoFinish(token, o) =>
    case DoDelete(cs) =>
    case _ =>
      hide Apply;
      OtherStepsKeepReceipts(w, s);
  }

  lemma {:induction false} ReceiptStays(steps: seq<Step>, s: Step, id: Id)
    requires id in After(steps).receipts && id in Apply(After(steps), s).receipts
    ensures SameReceipt(After(steps).receipts[id], Apply(After(steps), s).receipts[id])
  {
    hide Rows, Saved, AllPublished, Billed, AllAccounted, CallsOk, WorkersOk, Leased, Submissions;
    Always(steps);
    hide After, Apply;
    ReceiptMoves(After(steps), s, id);
  }

  /** Belongs to the same run and kind, with the same usage once that is known. */
  ghost predicate SameReceipt(a: Receipt, b: Receipt) {
    b.run == a.run && b.kind == a.kind && (a.usage.Some? ==> b.usage == a.usage)
  }

  ghost predicate HasReceipt(w: World, id: Id) { id in w.receipts }

  /** However the system goes on while a receipt is stored, it is never overwritten once it is
      known, not even by a late worker after cancellation, and it never moves to another run or
      kind. */
  lemma {:induction false} KnownReceiptsStay(steps: seq<Step>, more: seq<Step>, id: Id)
    requires forall n | 0 <= n <= |more| :: HasReceipt(After(steps + more[..n]), id)
    ensures HasReceipt(After(steps), id) && HasReceipt(After(steps + more), id)
    ensures SameReceipt(After(steps).receipts[id], After(steps + more).receipts[id])
    decreases |more|
  {
    assert steps + more[..0] == steps && HasReceipt(After(steps + more[..0]), id);
    assert more[..|more|] == more && HasReceipt(After(steps + more[..|more|]), id);
    if more == [] {
      assert steps + more == steps;
    } else {
      var k := |more| - 1;
      forall n | 0 <= n <= k ensures HasReceipt(After(steps + more[..k][..n]), id) {
        assert more[..k][..n] == more[..n];
      }
      KnownReceiptsStay(steps, more[..k], id);
      var all := steps + more;
      assert all[..|all| - 1] == steps + more[..k] && all[|all| - 1] == more[k];
      assert After(all) == Apply(After(steps + more[..k]), more[k]);
      hide After, Apply;
      ReceiptStays(steps + more[..k], more[k], id);
    }
  }

  /** A worker about to call a provider has no receipt of that kind yet: the unique (run, kind)
      index never rejects one. */
  lemma {:induction false} ReceiptsNeverCollide(steps: seq<Step>, token: Id, kind: Kind)
    requires Asks(After(steps), token, kind)
    ensures forall x :: !Covers(After(steps).receipts, x, After(steps).workers[token].run, kind)
  {
    hide Numbered, Rows, Saved, AllPublished, AllAccounted, CallsOk, Leased, Submissions;
    Always(steps);
    hide After;
    var w := After(steps);
    var k := w.workers[token];
    assert WorkerOk(k, w.runs, w.receipts, w.conversations, w.calls);
    forall x ensures !Covers(w.receipts, x, k.run, kind) {
      assert x in w.receipts && w.receipts[x].run == k.run ==> Allowed(k.phase, x, w.receipts[x].kind);
    }
  }

  /** A completed run reports exactly the usage of its generation receipt, or zero tokens when
      no generation call was made for it. */
  lemma {:induction false} CompletedUsageIsAccounted(steps: seq<Step>, id: Id)
    requires id in After(steps).runs && After(steps).runs[id].status == Completed
    ensures var w := After(steps);
            var r := w.runs[id];
            && r.inputTokens.Some? && r.outputTokens.Some?
            && (forall x | Covers(w.receipts, x, id, Generation) :: w.receipts[x].usage == Some((r.inputTokens.value, r.outputTokens.value)))
            && ((forall x :: !Covers(w.receipts, x, id, Generation)) ==> r.inputTokens.value == 0 && r.outputTokens.value == 0)
  {
    StoredRunOk(steps, id);
    hide RunOk;
    Always(steps);
    var w := After(steps);
    hide Numbered, Rows, Saved, AllPublished, Billed, CallsOk, WorkersOk, Leased, Submissions, After;
    assert Accounted(w.receipts, id, w.runs[id]);
  }

  /** A completed run has no call of unknown cost. While a run's worker is on its way, the only
      such call is the one it is waiting for. */
  lemma {:induction false} UnknownCallsAreInFlight(steps: seq<Step>, id: Id, token: Id)
    requires id in After(steps).runs
    ensures var w := After(steps);
            && (w.runs[id].status == Completed ==> UnknownCalls(w, id) == {})
            && (token in w.workers && w.workers[token].run == id && !w.workers[token].phase.Failing? && !w.workers[token].phase.Stopped? ==>
                  var p := w.workers[token].phase;
                  UnknownCalls(w, id) == if p.Calling? || p.Awaiting? then {p.receipt} else {})
  {
    Always(steps);
    var w := After(steps);
    hide Numbered, Rows, Saved, AllPublished, Billed, CallsOk, Leased, Submissions, After;
    if w.runs[id].status == Completed { assert Accounted(w.receipts, id, w.runs[id]); }
    if token in w.workers { assert WorkerOk(w.workers[token], w.runs, w.receipts, w.conversations, w.calls); }
  }

  // ---- Submission

  /** A repeated request is answered from the run it created, or refused as a conflict when the
      payload differs, whatever has happened to that run since. */
  lemma {:induction false} SubmissionIsIdempotent(steps: seq<Step>, c: Id, user: Id, d: Draft, climate: Climate, id: Id)
    requires var w := After(steps);
             c in w.conversations && w.conversations[c].user == user && HasKey(w, id, c, d.key)
    ensures var w := After(steps);
            && CheckSubmission(w, c, user, d, climate) == (if w.runs[id].hash == d.hash then Replayed(id) else Conflict)
            && BeginSubmit(w, c, user, d, climate) == w
  {
    Always(steps);
    var w := After(steps);
    hide Numbered, Rows, Saved, AllPublished, Billed, AllAccounted, CallsOk, WorkersOk, Leased, After;
    forall x | x in w.runs && x != id && w.runs[x].conversation == c ensures w.runs[x].key != d.key {
      assert !Rival(w.runs[x], w.runs[id]);
    }
  }

  /** One request key never yields two runs, at most one run of a conversation is active, at
      most 1000 exist, and the checks made under the conversation lock already guarantee the
      table's unique constraints: the rollback branch of an insertion is never taken. */
  lemma {:induction false} SubmissionsRespectConstraints(steps: seq<Step>)
    ensures var w := After(steps);
            && (forall a, b | a in w.runs && b in w.runs && a != b && w.runs[a].conversation == w.runs[b].conversation ::
                  w.runs[a].key != w.runs[b].key && !(w.runs[a].status.Active() && w.runs[b].status.Active()))
            && (forall c | c in w.conversations :: |RunsOf(w, c)| <= MAX_RUNS)
            && (forall c, t | c in w.drafts :: FinishSubmit(w, c, t) == Insert(w, c, t))
  {
    Always(steps);
    var w := After(steps);
    hide Numbered, Rows, Saved, AllPublished, Billed, AllAccounted, CallsOk, WorkersOk, Leased, After;
    forall a, b | a in w.runs && b in w.runs && a != b && w.runs[a].conversation == w.runs[b].conversation
      ensures w.runs[a].key != w.runs[b].key && !(w.runs[a].status.Active() && w.runs[b].status.Active())
    {
      assert !Rival(w.runs[a], w.runs[b]);
    }
    forall c | c in w.conversations ensures |RunsOf(w, c)| <= MAX_RUNS { assert RunsOf(w, c) == Within(w.runs, c); }
    forall c, t | c in w.drafts ensures FinishSubmit(w, c, t) == Insert(w, c, t) { InsertAllowed(w, c); }
  }

  // ---- Previews and expiry

  /** Preview text is only ever visible on a running run, within 8000 characters, and the throttle
      keeps a run under 241 revisions, so the limit of 256 never stops a live worker. */
  lemma {:induction false} PreviewLimitNeverHit(steps: seq<Step>, id: Id)
    requires id in After(steps).runs
    ensures var r := After(steps).runs[id];
            r.revision <= 241 < MAX_REVISION && (r.preview != "" ==> r.status == Running) && |r.preview| <= PREVIEW_CHARS
  {
    StoredRunOk(steps, id);
    hide After;
  }

  /** With one clock reading, a queued run is either claimable or about to be expired, never
      both and never neither. */
  lemma ClaimableOrExpired(w: World, id: Id, t: Time)
    requires id in w.runs && w.runs[id].status == Queued
    ensures Claimable(w, id, t) <==> Expire(w.runs[id], t) == w.runs[id]
  {
  }

  /** No run stays unfinished: a dispatcher pass one hour and three minutes after submission
      leaves it terminal, whether it was never delivered, crashed, or is still working. */
  lemma {:induction false} EveryRunSettles(steps: seq<Step>, id: Id, t: Time)
    requires id in After(steps).runs && t >= After(steps).runs[id].created + HOUR + LEASE
    ensures Dispatch(After(steps), t).runs[id].status.Terminal()
  {
    StoredRunOk(steps, id);
    hide After;
  }

  /** A run has one worker for ever, so a worker whose run is running is the one it is leased
      to; expired work is failed but never handed to anyone else. */
  lemma {:induction false} OneWorkerPerRun(steps: seq<Step>, a: Id, b: Id)
    requires a in After(steps).workers && b in After(steps).workers && After(steps).workers[a].run == After(steps).workers[b].run
    ensures a == b
    ensures var w := After(steps);
            w.workers[a].run in w.runs && w.runs[w.workers[a].run].status == Running ==> Holds(w, a)
  {
    Always(steps);
    var w := After(steps);
    hide Numbered, Saved, AllPublished, Billed, AllAccounted, CallsOk, WorkersOk, Submissions, After;
    if w.workers[a].run in w.runs { assert RunOk(w.runs[w.workers[a].run]); }
  }

  // ---- Fencing and publication

  /** A worker whose lease is gone or has run out publishes nothing, shows no preview, opens no
      receipt, and fails no run that is not leased to it. */
  lemma LateWritesAreRefused(w: World, token: Id, kind: Kind, text: string, tick: Time, t: Time)
    requires !HoldsUntil(w, token, t)
    ensures Publish(w, token, t).conversations == w.conversations && Publish(w, token, t).runs == w.runs
    ensures Delta(w, token, text, tick, t).runs == w.runs
    ensures Begin(w, token, kind, t).receipts == w.receipts
    ensures !Holds(w, token) ==> FailRun(w, token, t).runs == w.runs
  {
  }

  ghost predicate SameWork(w: World, v: World, token: Id) {
    token in v.workers && token in w.workers && v.workers[token].run == w.workers[token].run
  }

  /** A worker stays with its run, and a run that was not stored before has a fresh identifier. */
  ghost predicate Onward(w: World, v: World, token: Id, id: Id) {
    && (token in w.workers && token < w.next ==> SameWork(w, v, token))
    && (id in v.runs && id !in w.runs ==> id >= w.next)
  }

  lemma ApiGoesOn(w: World, s: Step, token: Id, id: Id)
    requires s.DoCreate? || s.DoBeginSubmit? || s.DoFinishSubmit? || s.DoAbandonSubmit? || s.DoCancel? || s.DoDispatch? || s.DoAsk? || s.DoDelete?
    ensures Onward(w, Apply(w, s), token, id)
  {
    hide EndRun, Expire, CheckSubmission, AppendPair, AppendState, Insertable;
  }

  lemma PreviewsGoOn(w: World, k: Id, text: string, tick: Time, t: Time, token: Id, id: Id)
    ensures Onward(w, Delta(w, k, text, tick, t), token, id)
  {
  }

  lemma RowsGoOn(w: World, s: Step, token: Id, id: Id)
    requires s.DoClaim? || s.DoPublish? || s.DoFailRun?
    ensures Onward(w, Apply(w, s), token, id)
  {
    hide StartRun, EndRun, CompleteRun, AppendPair, AppendState, AnswerRuns.Delta;
    match s
    case DoClaim(_, _) => hide AnswerRuns.Publish, AnswerRuns.FailRun;
    case DoPublish(_, _) => hide AnswerRuns.Claim, AnswerRuns.FailRun;
    case DoFailRun(_, _) => hide AnswerRuns.Claim, AnswerRuns.Publish;
  }

  lemma PhasesGoOn(w: World, s: Step, token: Id, id: Id)
    requires s.DoLoad? || s.DoSend? || s.DoNoEvidence? || s.DoAbort?
    ensures Onward(w, Apply(w, s), token, id)
  {
    hide Holds;
  }

  lemma ReceiptsGoOn(w: World, s: Step, token: Id, id: Id)
    requires s.DoBegin? || s.DoFinish?
    ensures Onward(w, Apply(w, s), token, id)
  {
    hide HoldsUntil, Account, Returned, Asks;
  }

  lemma StepGoesOn(w: World, s: Step, token: Id, id: Id)
    ensures Onward(w, Apply(w, s), token, id)
  {
    hide Onward, Claim, Load, Begin, Send, Finish, NoEvidence, Delta, Abort, Publish, FailRun;
    match s
    case DoClaim(_, _) => RowsGoOn(w, s, token, id);
    case DoDelta(k, text, tick, t) => PreviewsGoOn(w, k, text, tick, t, token, id);
    case DoPublish(_, _) => RowsGoOn(w, s, token, id);
    case DoFailRun(_, _) => RowsGoOn(w, s, token, id);
    case DoLoad(_, _, _) => PhasesGoOn(w, s, token, id);
    case DoSend(_) => PhasesGoOn(w, s, token, id);
    case DoNoEvidence(_, _) => PhasesGoOn(w, s, token, id);
    case DoAbort(_, _) => PhasesGoOn(w, s, token, id);
    case DoBegin(_, _, _) => ReceiptsGoOn(w, s, token, id);
    case DoFinish(_, _) => ReceiptsGoOn(w, s, token, id);
    case _ => ApiGoesOn(w, s, token, id);
  }

  lemma RunningIsLeased(w: World, token: Id)
    requires Valid(w) && token in w.workers && w.workers[token].run in w.runs && w.runs[w.workers[token].run].status.Active()
    ensures Holds(w, token)
  {
    var id := w.workers[token].run;
    hide Numbered, Saved, AllPublished, Billed, AllAccounted, CallsOk, Submissions;
    assert WorkerOk(w.workers[token], w.runs, w.receipts, w.conversations, w.calls);
    assert RunOk(w.runs[id]);
    hide WorkersOk, Logs;
  }

  lemma IdsAreOld(w: World, token: Id)
    requires Valid(w) && token in w.workers
    ensures token < w.next && w.workers[token].run < w.next
    ensures w.workers[token].run in w.runs ==> RunOk(w.runs[w.workers[token].run])
  {
    hide RunOk, Saved, AllPublished, Billed, AllAccounted, CallsOk, WorkersOk, Leased, Submissions;
  }

  /** Without its lease, a worker does not get it back in one step. */
  lemma LostStays(w: World, s: Step, token: Id)
    requires Valid(w) && token in w.workers && !Holds(w, token)
    ensures SameWork(w, Apply(w, s), token) && !Holds(Apply(w, s), token)
  {
    var v, id := Apply(w, s), w.workers[token].run;
    IdsAreOld(w, token);
    StepGoesOn(w, s, token, id);
    if Holds(v, token) {
      hide Apply, Valid;
      RowMoves(w, s, id);
      RunningIsLeased(w, token);
    }
  }

  lemma {:induction false} LostForEver(steps: seq<Step>, more: seq<Step>, token: Id)
    requires token in After(steps).workers && !Holds(After(steps), token)
    ensures token in After(steps + more).workers && !Holds(After(steps + more), token)
    decreases |more|
  {
    if more == [] {
      assert steps + more == steps;
    } else {
      var k := |more| - 1;
      var all := steps + more;
      assert all[..|all| - 1] == steps + more[..k] && all[|all| - 1] == more[k];
      assert After(all) == Apply(After(steps + more[..k]), more[k]);
      LostForEver(steps, more[..k], token);
      Always(steps + more[..k]);
      hide After, Apply, Valid, Holds;
      LostStays(After(steps + more[..k]), more[k], token);
    }
  }

  /** Once a worker has lost its lease, because its run was finished, cancelled, failed or deleted,
      it never writes again: however the system goes on and whatever clocks it reads, it publishes
      nothing, shows no preview, opens no receipt and fails no run. */
  lemma {:induction false} LateResultsAreFenced(steps: seq<Step>, more: seq<Step>, token: Id, kind: Kind, text: string, tick: Time, t: Time)
    requires token in After(steps).workers && !Holds(After(steps), token)
    ensures var w := After(steps + more);
            && Publish(w, token, t).conversations == w.conversations && Publish(w, token, t).runs == w.runs
            && Delta(w, token, text, tick, t).runs == w.runs
            && Begin(w, token, kind, t).receipts == w.receipts
            && FailRun(w, token, t).runs == w.runs
  {
    LostForEver(steps, more, token);
    hide After, Publish, Delta, Begin, FailRun;
    LateWritesAreRefused(After(steps + more), token, kind, text, tick, t);
  }

  /** What the holder of a lease relies on when it publishes. */
  lemma HolderFacts(w: World, token: Id)
    requires Valid(w) && Holds(w, token) && w.workers[token].phase.Answered?
    ensures var p, r := w.workers[token].phase, w.runs[w.workers[token].run];
            && PinOk(p, r, w.conversations) && p.answer.source == p.pin.source && r.started.Some?
            && r.conversation in w.conversations && Shape(w.conversations[r.conversation])
  {
    hide Numbered, AllPublished, Billed, AllAccounted, CallsOk, Leased, Submissions;
    var k := w.workers[token];
    assert RunOk(w.runs[k.run]) && w.runs[k.run].conversation in w.conversations;
    assert WorkerOk(k, w.runs, w.receipts, w.conversations, w.calls);
    hide RunOk, WorkersOk, TurnsOk, Apart;
  }

  lemma CompletedPath(r: Run, a: Answer, t: Time)
    requires r.started.Some?
    ensures Path(CompleteRun(r, a, t)) == [Queued, Running, Completed]
    ensures CompleteRun(r, a, t).status == Completed && CompleteRun(r, a, t).usage == Recorded && CompleteRun(r, a, t).finished == Some(t)
    ensures CompleteRun(r, a, t).conversation == r.conversation
  {
  }

  /** The holder of the lease does publish: status, event, usage and both messages, all in one
      step, unless the conversation is full or locked. */
  lemma {:induction false} HolderPublishes(steps: seq<Step>, token: Id, t: Time)
    requires HoldsUntil(After(steps), token, t) && After(steps).workers[token].phase.Answered?
    requires var w := After(steps);
             var r := w.runs[w.workers[token].run];
             r.conversation !in w.drafts && (r.conversation in w.conversations ==> w.conversations[r.conversation].messageCount < MAX_MESSAGES)
    ensures var w := After(steps);
            var id, a := w.workers[token].run, w.workers[token].phase.answer;
            var c, v := w.runs[id].conversation, Publish(w, token, t);
            && v.runs[id].status == Completed && v.runs[id].usage == Recorded && v.runs[id].finished == Some(t)
            && Path(v.runs[id]) == [Queued, Running, Completed]
            && c in w.conversations && PairSaved(v.conversations, c, w.conversations[c].messageCount + 1, id, v.runs[id], a)
  {
    Always(steps);
    var w := After(steps);
    hide After, Valid;
    HolderFacts(w, token);
    var k := w.workers[token];
    var c := w.runs[k.run].conversation;
    assert Committing(w, token);
    CommitPublished(w, token, t);
    hide Shape, PairSaved, Path, CompleteRun, AppendPair;
    CompletedPath(w.runs[k.run], k.phase.answer, t);
  }
}
