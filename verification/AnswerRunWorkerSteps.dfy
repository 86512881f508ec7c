/** Steps that move one worker, fill in a receipt or send a call keep the invariant. */
module AnswerRunWorkerSteps {
  import opened Options
  import opened Transcripts
  import opened AnswerRuns
  import opened AnswerRunInvariant

  lemma OnlyWorker(w: World, token: Id, k: Worker)
    requires WorkersOk(w) && Leased(w.workers, w.runs) && token in w.workers && k.run == w.workers[token].run
    requires WorkerOk(k, w.runs, w.receipts, w.conversations, w.calls)
    ensures var v := w.(workers := w.workers[token := k]);
            WorkersOk(v) && Leased(v.workers, v.runs)
  {
  }

  lemma PhaseKeeps(w: World, token: Id, k: Worker)
    requires Valid(w) && token in w.workers && k.run == w.workers[token].run
    requires WorkerOk(k, w.runs, w.receipts, w.conversations, w.calls) && SlotOk(k, w.receipts, w.next)
    ensures Valid(w.(workers := w.workers[token := k]))
  {
    hide Rows, Saved, AllPublished, Billed, AllAccounted, CallsOk, WorkersOk, Leased, Submissions;
    OnlyWorker(w, token, k);
  }

  /** A worker that has left no call in flight may fail or stop. */
  lemma StopOk(k: Worker, phase: Phase, runs: Runs, receipts: Receipts, cs: Conversations, calls: seq<Call>)
    requires WorkerOk(k, runs, receipts, cs, calls) && (phase.Failing? || phase.Stopped?)
    ensures WorkerOk(k.(phase := phase), runs, receipts, cs, calls)
  {
  }

  lemma StopKeeps(w: World, token: Id, phase: Phase)
    requires Valid(w) && token in w.workers && (phase.Failing? || phase.Stopped?)
    ensures Valid(SetPhase(w, token, phase))
  {
    StopOk(w.workers[token], phase, w.runs, w.receipts, w.conversations, w.calls);
    PhaseKeeps(w, token, w.workers[token].(phase := phase));
  }

  lemma LoadOk(k: Worker, begun: Time, runs: Runs, receipts: Receipts, cs: Conversations, calls: seq<Call>)
    requires WorkerOk(k, runs, receipts, cs, calls) && k.phase.Claimed?
    requires k.run in runs && runs[k.run].conversation in cs
    ensures var r := runs[k.run];
            WorkerOk(k.(phase := Ready(Pin(r.conversation, cs[r.conversation].user, r.question, r.source, r.hybrid), false), begun := begun),
                     runs, receipts, cs, calls)
  {
  }

  lemma LoadKeeps(w: World, token: Id, same: bool, t: Time)
    requires Valid(w)
    ensures Valid(Load(w, token, same, t))
  {
    hide Numbered, Rows, Saved, AllPublished, Billed, AllAccounted, CallsOk, Leased, Submissions;
    if token in w.workers && w.workers[token].phase.Claimed? {
      var v := Load(w, token, same, t);
      if v.workers[token].phase.Ready? {
        LoadOk(w.workers[token], t, w.runs, w.receipts, w.conversations, w.calls);
        PhaseKeeps(w, token, v.workers[token]);
      } else {
        StopKeeps(w, token, v.workers[token].phase);
      }
    }
  }

  lemma AbortKeeps(w: World, token: Id, code: string)
    requires Valid(w)
    ensures Valid(Abort(w, token, code))
  {
    if token in w.workers && w.workers[token].phase != Stopped { StopKeeps(w, token, Failing(code)); }
  }

  lemma NoEvidenceOk(k: Worker, a: Answer, runs: Runs, receipts: Receipts, cs: Conversations, calls: seq<Call>)
    requires WorkerOk(k, runs, receipts, cs, calls) && k.phase.Ready?
    ensures WorkerOk(k.(phase := Answered(k.phase.pin, None, a.(source := k.phase.pin.source, inputTokens := 0, outputTokens := 0))), runs, receipts, cs, calls)
  {
  }

  lemma NoEvidenceKeeps(w: World, token: Id, a: Answer)
    requires Valid(w)
    ensures Valid(NoEvidence(w, token, a))
  {
    var v := NoEvidence(w, token, a);
    if v != w {
      NoEvidenceOk(w.workers[token], a, w.runs, w.receipts, w.conversations, w.calls);
      PhaseKeeps(w, token, v.workers[token]);
    }
  }

  // ---- Frames

  /** What a worker relies on outside itself. */
  ghost predicate Undisturbed(k: Worker, runs: Runs, receipts: Receipts, cs: Conversations, calls: seq<Call>,
                              runs': Runs, receipts': Receipts, cs': Conversations, calls': seq<Call>) {
    && (k.run in runs' ==>
          && k.run in runs && Follows(runs[k.run], runs'[k.run]) && runs'[k.run].revision == runs[k.run].revision
          && (runs[k.run].conversation in cs ==>
                runs[k.run].conversation in cs' && cs'[runs[k.run].conversation].user == cs[runs[k.run].conversation].user)
          && (forall x | x in receipts && receipts[x].run == k.run :: x in receipts' && receipts'[x] == receipts[x]))
    && (forall x | x in receipts' && receipts'[x].run == k.run :: x in receipts && receipts'[x] == receipts[x])
    && calls <= calls'
    && (forall i | |calls| <= i < |calls'| :: calls'[i].run != k.run)
  }

  lemma WorkerUndisturbed(k: Worker, runs: Runs, receipts: Receipts, cs: Conversations, calls: seq<Call>,
                          runs': Runs, receipts': Receipts, cs': Conversations, calls': seq<Call>)
    requires WorkerOk(k, runs, receipts, cs, calls)
    requires Undisturbed(k, runs, receipts, cs, calls, runs', receipts', cs', calls')
    ensures WorkerOk(k, runs', receipts', cs', calls')
  {
    forall i | 0 <= i < |calls'| && calls'[i].run == k.run ensures Sent(k.phase, calls'[i].kind) {
      assert calls'[i] == calls[i];
    }
  }

  /** All workers but `token` are undisturbed, and `token` itself is fine. */
  lemma OthersUndisturbed(w: World, v: World, token: Id)
    requires WorkersOk(w)
    requires forall k | k in v.workers && k != token :: k in w.workers && v.workers[k] == w.workers[k] &&
               Undisturbed(w.workers[k], w.runs, w.receipts, w.conversations, w.calls, v.runs, v.receipts, v.conversations, v.calls)
    requires token in v.workers ==> WorkerOk(v.workers[token], v.runs, v.receipts, v.conversations, v.calls)
    ensures WorkersOk(v)
  {
    forall k | k in v.workers ensures WorkerOk(v.workers[k], v.runs, v.receipts, v.conversations, v.calls) {
      if k != token {
        WorkerUndisturbed(w.workers[k], w.runs, w.receipts, w.conversations, w.calls, v.runs, v.receipts, v.conversations, v.calls);
      }
    }
  }

  // ---- Receipts and calls

  lemma NewReceiptOk(receipts: Receipts, runs: Runs, calls: seq<Call>, id: Id, run: Id, kind: Kind)
    requires Billed(receipts, runs) && AllAccounted(receipts, runs) && CallsOk(calls, receipts, runs)
    requires id !in receipts && run in runs && runs[run].started.Some? && runs[run].status != Completed
    requires forall x :: !Covers(receipts, x, run, kind)
    ensures var next := receipts[id := Receipt(run, kind, None)];
            Billed(next, runs) && AllAccounted(next, runs) && CallsOk(calls, next, runs)
  {
    var next := receipts[id := Receipt(run, kind, None)];
    forall a, b | a in next && b in next && a != b ensures next[a].run != next[b].run || next[a].kind != next[b].kind {
      if a == id { assert !Covers(receipts, b, run, kind); }
      if b == id { assert !Covers(receipts, a, run, kind); }
    }
    forall c | c in runs && runs[c].status == Completed ensures Accounted(next, c, runs[c]) {
      assert Accounted(receipts, c, runs[c]);
      forall x ensures Covers(next, x, c, Generation) == Covers(receipts, x, c, Generation) {}
    }
    forall i | 0 <= i < |calls| && calls[i].run in runs ensures Covers(next, calls[i].receipt, calls[i].run, calls[i].kind) {
      assert Covers(receipts, calls[i].receipt, calls[i].run, calls[i].kind);
    }
  }

  lemma CallingOk(k: Worker, kind: Kind, id: Id, runs: Runs, receipts: Receipts, cs: Conversations, calls: seq<Call>)
    requires WorkerOk(k, runs, receipts, cs, calls) && k.phase.Ready? && k.run in runs && id !in receipts
    requires k.phase.embedded == (k.phase.pin.hybrid && kind == Generation)
    requires forall x :: !Covers(receipts, x, k.run, kind)
    ensures WorkerOk(k.(phase := Calling(k.phase.pin, kind, id)), runs, receipts[id := Receipt(k.run, kind, None)], cs, calls)
  {
    var next := receipts[id := Receipt(k.run, kind, None)];
    forall x | x in next && next[x].run == k.run ensures Allowed(Calling(k.phase.pin, kind, id), x, next[x].kind) {
      if x != id { assert Allowed(k.phase, x, receipts[x].kind) && !Covers(receipts, x, k.run, kind); }
    }
  }

  /** A step of one worker that writes one receipt of its own run. */
  lemma OwnReceipt(w: World, v: World, token: Id, id: Id)
    requires WorkersOk(w) && Leased(w.workers, w.runs) && token in w.workers && token in v.workers
    requires v.workers == w.workers[token := v.workers[token]] && v.workers[token].run == w.workers[token].run
    requires v.runs == w.runs && v.conversations == w.conversations && v.calls == w.calls
    requires id in v.receipts && v.receipts == w.receipts[id := v.receipts[id]] && v.receipts[id].run == w.workers[token].run
    requires id in w.receipts ==> w.receipts[id].run == w.workers[token].run
    requires WorkerOk(v.workers[token], v.runs, v.receipts, v.conversations, v.calls)
    ensures WorkersOk(v) && Leased(v.workers, v.runs)
  {
    OthersUndisturbed(w, v, token);
  }

  lemma OwnBegin(w: World, token: Id, kind: Kind)
    requires WorkersOk(w) && Leased(w.workers, w.runs) && w.next !in w.receipts && Asks(w, token, kind)
    requires w.workers[token].run in w.runs
    requires forall x :: !Covers(w.receipts, x, w.workers[token].run, kind)
    ensures WorkersOk(OpenReceipt(w, token, kind)) && Leased(OpenReceipt(w, token, kind).workers, w.runs)
  {
    CallingOk(w.workers[token], kind, w.next, w.runs, w.receipts, w.conversations, w.calls);
    OwnReceipt(w, OpenReceipt(w, token, kind), token, w.next);
  }

  lemma OpenKeeps(w: World, token: Id, kind: Kind)
    requires Valid(w) && Asks(w, token, kind) && Holds(w, token)
    requires forall x :: !Covers(w.receipts, x, w.workers[token].run, kind)
    ensures Valid(OpenReceipt(w, token, kind))
  {
    hide Rows, Saved, AllPublished, Billed, AllAccounted, CallsOk, WorkersOk, Leased, Submissions;
    HolderIsStarted(w, token);
    OwnBegin(w, token, kind);
    NewReceiptOk(w.receipts, w.runs, w.calls, w.next, w.workers[token].run, kind);
  }

  lemma BeginKeeps(w: World, token: Id, kind: Kind, t: Time)
    requires Valid(w)
    ensures Valid(Begin(w, token, kind, t))
  {
    hide Numbered, Rows, Saved, AllPublished, Billed, AllAccounted, CallsOk, WorkersOk, Leased, Submissions;
    if Asks(w, token, kind) {
      if !HoldsUntil(w, token, t) {
        StopKeeps(w, token, Failing("answer_inactive"));
      } else if exists id :: Covers(w.receipts, id, w.workers[token].run, kind) {
        StopKeeps(w, token, Failing("answer_worker_error"));
      } else {
        forall x ensures !Covers(w.receipts, x, w.workers[token].run, kind) { assert !Covers(w.receipts, x, w.workers[token].run, kind); }
        OpenKeeps(w, token, kind);
      }
    }
  }

  lemma HolderIsStarted(w: World, token: Id)
    requires Valid(w) && Holds(w, token)
    ensures w.runs[w.workers[token].run].started.Some?
  {
    assert RunOk(w.runs[w.workers[token].run]);
  }

  lemma SentOk(k: Worker, runs: Runs, receipts: Receipts, cs: Conversations, calls: seq<Call>)
    requires WorkerOk(k, runs, receipts, cs, calls) && k.phase.Calling?
    ensures var p := k.phase;
            WorkerOk(k.(phase := Awaiting(p.pin, p.kind, p.receipt)), runs, receipts, cs, calls + [Call(k.run, p.kind, p.receipt)])
  {
  }

  lemma NewCallOk(k: Worker, runs: Runs, receipts: Receipts, cs: Conversations, calls: seq<Call>)
    requires WorkerOk(k, runs, receipts, cs, calls) && k.phase.Calling? && CallsOk(calls, receipts, runs)
    ensures CallsOk(calls + [Call(k.run, k.phase.kind, k.phase.receipt)], receipts, runs)
  {
  }

  lemma OwnCall(w: World, token: Id)
    requires WorkersOk(w) && Leased(w.workers, w.runs) && token in w.workers && w.workers[token].phase.Calling?
    ensures WorkersOk(Send(w, token)) && Leased(Send(w, token).workers, w.runs)
  {
    SentOk(w.workers[token], w.runs, w.receipts, w.conversations, w.calls);
    OthersUndisturbed(w, Send(w, token), token);
  }

  lemma SendKeeps(w: World, token: Id)
    requires Valid(w)
    ensures Valid(Send(w, token))
  {
    if token in w.workers && w.workers[token].phase.Calling? {
      OwnCall(w, token);
      NewCallOk(w.workers[token], w.runs, w.receipts, w.conversations, w.calls);
    }
  }

  lemma FilledOk(receipts: Receipts, runs: Runs, calls: seq<Call>, id: Id, input: nat, output: nat)
    requires Billed(receipts, runs) && AllAccounted(receipts, runs) && CallsOk(calls, receipts, runs)
    ensures var next := Account(receipts, id, input, output);
            Billed(next, runs) && AllAccounted(next, runs) && CallsOk(calls, next, runs)
  {
    var next := Account(receipts, id, input, output);
    forall x, run, kind ensures Covers(next, x, run, kind) == Covers(receipts, x, run, kind) {}
    forall c | c in runs && runs[c].status == Completed ensures Accounted(next, c, runs[c]) {
      assert Accounted(receipts, c, runs[c]);
      forall x | Covers(next, x, c, Generation) ensures next[x] == receipts[x] { assert Covers(receipts, x, c, Generation); }
      if forall x :: !Covers(next, x, c, Generation) {
        forall x ensures !Covers(receipts, x, c, Generation) { assert !Covers(next, x, c, Generation); }
      }
    }
  }

  lemma ReturnedOk(k: Worker, o: Outcome, runs: Runs, receipts: Receipts, cs: Conversations, calls: seq<Call>)
    requires WorkerOk(k, runs, receipts, cs, calls) && k.phase.Awaiting?
    ensures WorkerOk(k.(phase := Returned(k.phase, o)), runs, Account(receipts, k.phase.receipt, o.input, o.output), cs, calls)
  {
    var next := Account(receipts, k.phase.receipt, o.input, o.output);
    if k.run in runs {
      assert Covers(next, k.phase.receipt, k.run, k.phase.kind);
      forall id | id in next && next[id].run == k.run ensures Allowed(Returned(k.phase, o), id, next[id].kind) {
        assert Allowed(k.phase, id, receipts[id].kind);
      }
    }
  }

  lemma OwnFinish(w: World, token: Id, o: Outcome)
    requires WorkersOk(w) && Leased(w.workers, w.runs) && token in w.workers && w.workers[token].phase.Awaiting?
    requires SlotOk(w.workers[token], w.receipts, w.next)
    ensures WorkersOk(Finish(w, token, o)) && Leased(Finish(w, token, o).workers, w.runs)
  {
    var k, v := w.workers[token], Finish(w, token, o);
    ReturnedOk(k, o, w.runs, w.receipts, w.conversations, w.calls);
    if k.phase.receipt in w.receipts {
      OwnReceipt(w, v, token, k.phase.receipt);
    } else {
      OnlyWorker(w, token, v.workers[token]);
    }
  }

  lemma FinishNumbered(w: World, token: Id, o: Outcome)
    requires Numbered(w)
    ensures Numbered(Finish(w, token, o))
  {
  }

  lemma FinishKeeps(w: World, token: Id, o: Outcome)
    requires Valid(w)
    ensures Valid(Finish(w, token, o))
  {
    FinishNumbered(w, token, o);
    if token in w.workers && w.workers[token].phase.Awaiting? {
      assert SlotOk(w.workers[token], w.receipts, w.next);
      hide Numbered, Rows, Saved, AllPublished, Billed, AllAccounted, CallsOk, WorkersOk, Leased, Submissions;
      OwnFinish(w, token, o);
      FilledOk(w.receipts, w.runs, w.calls, w.workers[token].phase.receipt, o.input, o.output);
    }
  }
}
