/** Steps that change a run's row (claim, preview, cancellation, failure, expiry) and publication
    keep the invariant. */
module AnswerRunRowSteps {
  import opened Options
  import opened Transcripts
  import opened AnswerRuns
  import opened AnswerRunInvariant
  import opened AnswerRunWorkerSteps

  // ---- Steps that change run rows

  /** Rows only move along the state machine and none becomes completed. */
  ghost predicate Moves(runs: Runs, next: Runs) {
    && RunsFollow(runs, next)
    && forall id | id in next && next[id].status == Completed :: next[id] == runs[id]
  }

  lemma MovesSaved(cs: Conversations, runs: Runs, next: Runs)
    requires Saved(cs, runs) && AllPublished(cs, runs) && Moves(runs, next)
    ensures Saved(cs, next) && AllPublished(cs, next)
  {
    forall c | c in cs ensures TurnsOk(next, c, cs[c]) {
      forall p | p in cs[c].messages ensures TurnOk(next, c, cs[c].messages[p].turn) {
        assert TurnOk(runs, c, cs[c].messages[p].turn);
      }
    }
  }

  lemma MovesBilled(receipts: Receipts, calls: seq<Call>, runs: Runs, next: Runs)
    requires Billed(receipts, runs) && AllAccounted(receipts, runs) && CallsOk(calls, receipts, runs) && Moves(runs, next)
    ensures Billed(receipts, next) && AllAccounted(receipts, next) && CallsOk(calls, receipts, next)
  {
  }

  lemma MovesSubmissions(runs: Runs, drafts: map<Id, Draft>, cs: Conversations, next: Runs)
    requires Submissions(runs, drafts, cs) && RunsFollow(runs, next)
    ensures Submissions(next, drafts, cs)
  {
    forall c ensures Within(next, c) == Within(runs, c) {}
    forall a, b | a in next && b in next && a != b ensures !Rival(next[a], next[b]) {
      assert !Rival(runs[a], runs[b]);
    }
    forall c | c in drafts ensures DraftOk(next, c, drafts[c]) { assert DraftOk(runs, c, drafts[c]); }
  }

  /** A row that ends, or stays as it is, without disturbing any worker. */
  ghost predicate Quiet(r: Run, s: Run) {
    && Follows(r, s) && s.revision == r.revision && RunOk(s)
    && (s.status == Completed ==> s == r)
    && (s.status == Running ==> r.status == Running && s.token == r.token)
  }

  lemma QuietWorkers(w: World, next: Runs)
    requires WorkersOk(w) && Leased(w.workers, w.runs) && Rows(w.runs, w.conversations)
    requires next.Keys == w.runs.Keys && forall id | id in next :: Quiet(w.runs[id], next[id])
    ensures WorkersOk(w.(runs := next)) && Leased(w.workers, next) && Rows(next, w.conversations)
  {
    forall k | k in w.workers ensures WorkerOk(w.workers[k], next, w.receipts, w.conversations, w.calls) {
      WorkerUndisturbed(w.workers[k], w.runs, w.receipts, w.conversations, w.calls, next, w.receipts, w.conversations, w.calls);
    }
  }

  lemma MovesKeep(w: World, v: World)
    requires Valid(w) && Moves(w.runs, v.runs)
    requires v == w.(next := v.next, runs := v.runs, workers := v.workers)
    requires Numbered(v) && Rows(v.runs, v.conversations) && WorkersOk(v) && Leased(v.workers, v.runs)
    ensures Valid(v)
  {
    hide Numbered, Rows, Saved, AllPublished, Billed, AllAccounted, CallsOk, WorkersOk, Leased, Submissions;
    MovesSaved(w.conversations, w.runs, v.runs);
    MovesBilled(w.receipts, w.calls, w.runs, v.runs);
    MovesSubmissions(w.runs, w.drafts, w.conversations, v.runs);
  }

  lemma QuietKeeps(w: World, next: Runs)
    requires Valid(w)
    requires next.Keys == w.runs.Keys && forall id | id in next :: Quiet(w.runs[id], next[id])
    ensures Valid(w.(runs := next))
  {
    hide Rows, Saved, AllPublished, Billed, AllAccounted, CallsOk, WorkersOk, Leased, Submissions;
    QuietWorkers(w, next);
    MovesKeep(w, w.(runs := next));
  }

  lemma EndQuiet(r: Run, status: Status, error: Option<string>, t: Time)
    requires RunOk(r) && r.status.Active() && (status == Failed || status == Cancelled)
    ensures Quiet(r, EndRun(r, status, error, t))
  {
    EndOk(r, status, error, t);
  }

  lemma CancelKeeps(w: World, id: Id, t: Time)
    requires Valid(w)
    ensures Valid(Cancel(w, id, t))
  {
    hide Numbered, Saved, AllPublished, Billed, AllAccounted, CallsOk, WorkersOk, Leased, Submissions;
    if id in w.runs && w.runs[id].status.Active() {
      EndQuiet(w.runs[id], Cancelled, None, t);
      QuietKeeps(w, w.runs[id := EndRun(w.runs[id], Cancelled, None, t)]);
    }
  }

  lemma FailRunKeeps(w: World, token: Id, t: Time)
    requires Valid(w)
    ensures Valid(FailRun(w, token, t))
  {
    hide Numbered, Saved, AllPublished, Billed, AllAccounted, CallsOk, WorkersOk, Leased, Submissions;
    if token in w.workers && w.workers[token].phase.Failing? {
      var id, code := w.workers[token].run, w.workers[token].phase.code;
      var v := w;
      if Holds(w, token) {
        EndQuiet(w.runs[id], Failed, Some(code), t);
        v := w.(runs := w.runs[id := EndRun(w.runs[id], Failed, Some(code), t)]);
        QuietKeeps(w, v.runs);
      }
      StopKeeps(v, token, Stopped);
    }
  }

  lemma DispatchKeeps(w: World, t: Time)
    requires Valid(w)
    ensures Valid(Dispatch(w, t))
  {
    hide Numbered, Saved, AllPublished, Billed, AllAccounted, CallsOk, WorkersOk, Leased, Submissions;
    var next := Dispatch(w, t).runs;
    forall id | id in next ensures Quiet(w.runs[id], next[id]) {
      var r := w.runs[id];
      if r.status == Running && r.expires.Some? && r.expires.value < t {
        EndQuiet(r, Failed, Some("answer_worker_lost"), t);
      } else if r.status == Queued && r.created <= t - HOUR {
        EndQuiet(r, Failed, Some("answer_queue_expired"), t);
      }
    }
    QuietKeeps(w, next);
  }

  lemma StartedWorkerOk(k: Worker, runs: Runs, receipts: Receipts, cs: Conversations, calls: seq<Call>, r: Run)
    requires Billed(receipts, runs) && CallsOk(calls, receipts, runs)
    requires k.phase.Claimed? && k.written.None? && k.run in runs && runs[k.run].started.None?
    requires r.started.Some? && r.revision == 0
    ensures WorkerOk(k, runs[k.run := r], receipts, cs, calls)
  {
  }

  /** A queued run has no worker yet. */
  lemma QueuedUnowned(w: World, id: Id)
    requires WorkersOk(w) && id in w.runs && w.runs[id].started.None?
    ensures forall k | k in w.workers :: w.workers[k].run != id
  {
    forall k | k in w.workers ensures w.workers[k].run != id {
      assert WorkerOk(w.workers[k], w.runs, w.receipts, w.conversations, w.calls);
    }
  }

  lemma OwnStart(w: World, id: Id, t: Time)
    requires WorkersOk(w) && Leased(w.workers, w.runs) && id in w.runs && RunOk(w.runs[id])
    requires w.runs[id].status == Queued && w.runs[id].created > t - HOUR
    requires Billed(w.receipts, w.runs) && CallsOk(w.calls, w.receipts, w.runs) && w.next !in w.workers
    ensures WorkersOk(Start(w, id, t)) && Leased(Start(w, id, t).workers, Start(w, id, t).runs)
  {
    var v := Start(w, id, t);
    QueuedUnowned(w, id);
    StartedWorkerOk(v.workers[w.next], w.runs, w.receipts, w.conversations, w.calls, v.runs[id]);
    hide Billed, CallsOk, RunOk;
    OthersUndisturbed(w, v, w.next);
  }

  lemma OneRowMoves(runs: Runs, cs: Conversations, id: Id, s: Run)
    requires Rows(runs, cs) && id in runs && Follows(runs[id], s) && RunOk(s) && (s.status == Completed ==> s == runs[id])
    ensures Rows(runs[id := s], cs) && Moves(runs, runs[id := s])
  {
    hide RunOk;
  }

  lemma StartNumbered(w: World, id: Id, t: Time)
    requires Numbered(w) && id in w.runs
    ensures Numbered(Start(w, id, t)) && w.next !in w.workers
  {
    hide StartRun;
  }

  lemma StartRow(w: World, id: Id, t: Time)
    requires Rows(w.runs, w.conversations) && Claimable(w, id, t)
    ensures Rows(Start(w, id, t).runs, w.conversations) && Moves(w.runs, Start(w, id, t).runs)
    ensures RunOk(w.runs[id])
  {
    assert RunOk(w.runs[id]);
    StartOk(w.runs[id], w.next, t);
    hide RunOk;
    OneRowMoves(w.runs, w.conversations, id, StartRun(w.runs[id], w.next, t));
  }

  lemma ClaimKeeps(w: World, id: Id, t: Time)
    requires Valid(w)
    ensures Valid(Claim(w, id, t))
  {
    hide Numbered, Rows, Saved, AllPublished, Billed, AllAccounted, CallsOk, WorkersOk, Leased, Submissions, Moves, RunOk;
    if Claimable(w, id, t) {
      StartNumbered(w, id, t);
      StartRow(w, id, t);
      OwnStart(w, id, t);
      MovesKeep(w, Start(w, id, t));
    }
  }

  /** A preview write respects the throttle, so it is at most the 241st of its run. */
  lemma WrittenOk(k: Worker, text: string, tick: Time, runs: Runs, receipts: Receipts, cs: Conversations, calls: seq<Call>)
    requires WorkerOk(k, runs, receipts, cs, calls) && k.phase.Awaiting? && k.run in runs
    requires k.begun <= tick <= k.begun + DEADLINE
    requires k.written.Some? ==> tick - k.written.value >= PREVIEW_INTERVAL
    ensures runs[k.run].revision + 1 <= 241
    ensures WorkerOk(k.(previous := text, written := Some(tick)),
                     runs[k.run := runs[k.run].(preview := text, revision := runs[k.run].revision + 1)], receipts, cs, calls)
  {
  }

  lemma PreviewRow(r: Run, text: string)
    requires RunOk(r) && r.status == Running && r.revision + 1 <= 241 && |text| <= PREVIEW_CHARS
    ensures var s := r.(preview := text, revision := r.revision + 1);
            RunOk(s) && Follows(r, s)
  {
  }

  lemma OwnDelta(w: World, token: Id, text: string, tick: Time)
    requires WorkersOk(w) && Leased(w.workers, w.runs) && Writes(w, token, text, tick) && Holds(w, token)
    ensures WorkersOk(WritePreview(w, token, text, tick)) && w.runs[w.workers[token].run].revision + 1 <= 241
    ensures Leased(WritePreview(w, token, text, tick).workers, WritePreview(w, token, text, tick).runs)
  {
    var k := w.workers[token];
    WrittenOk(k, text, tick, w.runs, w.receipts, w.conversations, w.calls);
    OthersUndisturbed(w, WritePreview(w, token, text, tick), token);
  }

  lemma DeltaRow(runs: Runs, cs: Conversations, id: Id, text: string)
    requires Rows(runs, cs) && id in runs && runs[id].status == Running && runs[id].revision + 1 <= 241 && |text| <= PREVIEW_CHARS
    ensures var next := runs[id := runs[id].(preview := text, revision := runs[id].revision + 1)];
            Rows(next, cs) && Moves(runs, next)
  {
    PreviewRow(runs[id], text);
    hide RunOk, Follows, Moves;
    OneRowMoves(runs, cs, id, runs[id].(preview := text, revision := runs[id].revision + 1));
  }

  lemma DeltaNumbered(w: World, token: Id, text: string, tick: Time)
    requires Numbered(w) && Holds(w, token)
    ensures Numbered(WritePreview(w, token, text, tick))
  {
  }

  lemma DeltaKeeps(w: World, token: Id, text: string, tick: Time, t: Time)
    requires Valid(w)
    ensures Valid(Delta(w, token, text, tick, t))
  {
    hide Numbered, Rows, Saved, AllPublished, Billed, AllAccounted, CallsOk, WorkersOk, Leased, Submissions, Moves;
    var shown := Shown(text);
    hide Shown;
    if Writes(w, token, shown, tick) {
      if HoldsUntil(w, token, t) && w.runs[w.workers[token].run].revision < MAX_REVISION {
        OwnDelta(w, token, shown, tick);
        DeltaRow(w.runs, w.conversations, w.workers[token].run, shown);
        DeltaNumbered(w, token, shown, tick);
        MovesKeep(w, WritePreview(w, token, shown, tick));
      } else {
        StopKeeps(w, token, Failing("answer_stopped"));
      }
    }
  }

  // ---- Steps that change a transcript

  ghost predicate Unsaved(cs: Conversations, turn: Id) {
    forall c | c in cs :: forall p | p in cs[c].messages :: cs[c].messages[p].turn != turn
  }

  lemma AppendApart(cs: Conversations, c: Id, turn: Id, q: string, a: Answer, x: Id, y: Id)
    requires c in cs && x in cs && y in cs && Shape(cs[c]) && Unsaved(cs, turn) && Apart(x, cs[x], y, cs[y])
    requires AppendPair(cs[c], turn, q, a).Some?
    ensures var next := cs[c := AppendPair(cs[c], turn, q, a).value]; Apart(x, next[x], y, next[y])
  {
  }

  /** Appending a pair under an unused turn keeps every saved turn where it was. */
  lemma AppendSaved(cs: Conversations, runs: Runs, c: Id, turn: Id, q: string, a: Answer, next: Runs)
    requires Saved(cs, runs) && c in cs && Unsaved(cs, turn) && AppendPair(cs[c], turn, q, a).Some?
    requires TurnOk(next, c, turn)
    requires forall t | t in next && t != turn :: t in runs && next[t] == runs[t]
    ensures Saved(cs[c := AppendPair(cs[c], turn, q, a).value], next)
  {
    var d := AppendPair(cs[c], turn, q, a).value;
    var after := cs[c := d];
    AppendKeepsShape(cs[c], turn, q, a);
    forall x | x in after ensures Shape(after[x]) && TurnsOk(next, x, after[x]) {
      assert TurnsOk(runs, x, cs[x]);
    }
    forall x, y | x in after && y in after ensures Apart(x, after[x], y, after[y]) {
      assert Apart(x, cs[x], y, cs[y]);
      AppendApart(cs, c, turn, q, a, x, y);
    }
  }

  lemma AppendPublished(cs: Conversations, runs: Runs, c: Id, turn: Id, q: string, a: Answer)
    requires AllPublished(cs, runs) && c in cs && Shape(cs[c]) && AppendPair(cs[c], turn, q, a).Some?
    ensures AllPublished(cs[c := AppendPair(cs[c], turn, q, a).value], runs)
  {
    var next := cs[c := AppendPair(cs[c], turn, q, a).value];
    AppendKeepsShape(cs[c], turn, q, a);
    forall id | id in runs && runs[id].status == Completed ensures Published(next, id, runs[id]) {
      var r := runs[id];
      assert Published(cs, id, r);
      var p, b :| PairSaved(cs, r.conversation, p, id, r, b);
      assert PairSaved(next, r.conversation, p, id, r, b);
    }
  }

  ghost predicate Committing(w: World, token: Id) {
    && token in w.workers && w.workers[token].phase.Answered? && Holds(w, token)
    && w.workers[token].phase.pin.conversation in w.conversations
    && AppendPair(w.conversations[w.workers[token].phase.pin.conversation], w.workers[token].run,
                  w.workers[token].phase.pin.question, w.workers[token].phase.answer).Some?
  }

  ghost function Grown(w: World, token: Id): Conversation
    requires Committing(w, token)
  {
    AppendPair(w.conversations[w.workers[token].phase.pin.conversation], w.workers[token].run,
               w.workers[token].phase.pin.question, w.workers[token].phase.answer).value
  }

  lemma RunningUnsaved(cs: Conversations, runs: Runs, id: Id)
    requires Saved(cs, runs) && id in runs && runs[id].status != Completed
    ensures Unsaved(cs, id)
  {
    forall c | c in cs ensures forall p | p in cs[c].messages :: cs[c].messages[p].turn != id {
      assert TurnsOk(runs, c, cs[c]);
      forall p | p in cs[c].messages ensures cs[c].messages[p].turn != id { assert TurnOk(runs, c, cs[c].messages[p].turn); }
    }
  }

  lemma CommitSaved(w: World, token: Id, t: Time)
    requires Committing(w, token) && Saved(w.conversations, w.runs) && AllPublished(w.conversations, w.runs)
    requires PinOk(w.workers[token].phase, w.runs[w.workers[token].run], w.conversations)
    requires w.workers[token].phase.answer.source == w.workers[token].phase.pin.source
    ensures var v := Commit(w, token, t, Grown(w, token));
            Saved(v.conversations, v.runs) && AllPublished(v.conversations, v.runs)
  {
    var k, v := w.workers[token], Commit(w, token, t, Grown(w, token));
    var c, q, a := k.phase.pin.conversation, k.phase.pin.question, k.phase.answer;
    assert Shape(w.conversations[c]);
    RunningUnsaved(w.conversations, w.runs, k.run);
    AppendPublished(w.conversations, w.runs, c, k.run, q, a);
    CommitPublished(w, token, t);
    assert Published(v.conversations, k.run, v.runs[k.run]);
    hide Shape, TurnsOk, Apart, Unsaved, Published;
    AppendSaved(w.conversations, w.runs, c, k.run, q, a, v.runs);
  }

  /** The run's own pair is there after publication. */
  lemma CommitPublished(w: World, token: Id, t: Time)
    requires Committing(w, token) && Shape(w.conversations[w.workers[token].phase.pin.conversation])
    requires PinOk(w.workers[token].phase, w.runs[w.workers[token].run], w.conversations)
    requires w.workers[token].phase.answer.source == w.workers[token].phase.pin.source
    ensures var v := Commit(w, token, t, Grown(w, token));
            var id, c, a := w.workers[token].run, w.workers[token].phase.pin.conversation, w.workers[token].phase.answer;
            PairSaved(v.conversations, c, w.conversations[c].messageCount + 1, id, v.runs[id], a)
  {
    var k, v := w.workers[token], Commit(w, token, t, Grown(w, token));
    var c, q, a := k.phase.pin.conversation, k.phase.pin.question, k.phase.answer;
    AppendKeepsShape(w.conversations[c], k.run, q, a);
  }

  lemma CommitAccounted(receipts: Receipts, runs: Runs, k: Worker, cs: Conversations, calls: seq<Call>, t: Time)
    requires WorkerOk(k, runs, receipts, cs, calls) && k.phase.Answered? && k.run in runs && runs[k.run].status == Running
    requires Billed(receipts, runs) && AllAccounted(receipts, runs) && CallsOk(calls, receipts, runs)
    ensures var next := runs[k.run := CompleteRun(runs[k.run], k.phase.answer, t)];
            Billed(receipts, next) && AllAccounted(receipts, next) && CallsOk(calls, receipts, next)
  {
    var s := CompleteRun(runs[k.run], k.phase.answer, t);
    forall x | Covers(receipts, x, k.run, Generation)
      ensures receipts[x].usage == Some((k.phase.answer.inputTokens, k.phase.answer.outputTokens))
    {
      assert Allowed(k.phase, x, receipts[x].kind);
    }
    assert Accounted(receipts, k.run, s);
  }

  lemma CommitWorkers(w: World, token: Id, t: Time)
    requires Committing(w, token) && WorkersOk(w) && Leased(w.workers, w.runs)
    ensures var v := Commit(w, token, t, Grown(w, token));
            WorkersOk(v) && Leased(v.workers, v.runs)
  {
    var k, v := w.workers[token], Commit(w, token, t, Grown(w, token));
    assert WorkerOk(k, w.runs, w.receipts, w.conversations, w.calls);
    assert WorkerOk(v.workers[token], v.runs, v.receipts, v.conversations, v.calls);
    OthersUndisturbed(w, v, token);
  }

  lemma CommitRows(w: World, token: Id, t: Time)
    requires Committing(w, token) && Rows(w.runs, w.conversations)
    ensures var v := Commit(w, token, t, Grown(w, token));
            Rows(v.runs, v.conversations) && RunsFollow(w.runs, v.runs)
  {
    var id := w.workers[token].run;
    assert RunOk(w.runs[id]);
    CompleteOk(w.runs[id], w.workers[token].phase.answer, t);
    hide RunOk;
  }

  lemma SameKeys(runs: Runs, drafts: map<Id, Draft>, cs: Conversations, next: Conversations)
    requires Submissions(runs, drafts, cs) && next.Keys == cs.Keys
    ensures Submissions(runs, drafts, next)
  {
  }

  lemma CommitNumbered(w: World, token: Id, t: Time)
    requires Committing(w, token) && Numbered(w)
    ensures Numbered(Commit(w, token, t, Grown(w, token)))
  {
    hide CompleteRun;
    assert TurnsBelow(w.conversations[w.workers[token].phase.pin.conversation], w.next);
  }

  lemma CommitKeeps(w: World, token: Id, t: Time)
    requires Valid(w) && Committing(w, token)
    ensures Valid(Commit(w, token, t, Grown(w, token)))
  {
    hide Numbered, Rows, Saved, AllPublished, Billed, AllAccounted, CallsOk, Leased, Submissions, RunsFollow;
    var k := w.workers[token];
    assert WorkerOk(k, w.runs, w.receipts, w.conversations, w.calls);
    hide WorkersOk;
    CommitNumbered(w, token, t);
    CommitSaved(w, token, t);
    CommitAccounted(w.receipts, w.runs, k, w.conversations, w.calls, t);
    CommitWorkers(w, token, t);
    CommitRows(w, token, t);
    var v := Commit(w, token, t, Grown(w, token));
    MovesSubmissions(w.runs, w.drafts, w.conversations, v.runs);
    SameKeys(v.runs, w.drafts, w.conversations, v.conversations);
  }

  lemma PublishKeeps(w: World, token: Id, t: Time)
    requires Valid(w)
    ensures Valid(Publish(w, token, t))
  {
    hide Numbered, Rows, Saved, AllPublished, Billed, AllAccounted, CallsOk, WorkersOk, Leased, Submissions;
    if token in w.workers && w.workers[token].phase.Answered? && w.workers[token].phase.pin.conversation !in w.drafts {
      var p := w.workers[token].phase;
      if !HoldsUntil(w, token, t) {
        StopKeeps(w, token, Stopped);
      } else if p.pin.conversation !in w.conversations || w.conversations[p.pin.conversation].user != p.pin.user {
        StopKeeps(w, token, Failing("not_found"));
      } else if Committing(w, token) {
        CommitKeeps(w, token, t);
      } else {
        StopKeeps(w, token, Failing("conversation_full"));
      }
    }
  }
}
