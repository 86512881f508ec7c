/** Submissions, new conversations, direct questions and deletions keep the invariant, and so
    does every step: it holds in every reachable state. */
module AnswerRunSteps {
  import opened Options
  import opened Transcripts
  import opened AnswerRuns
  import opened AnswerRunInvariant
  import opened AnswerRunWorkerSteps
  import opened AnswerRunRowSteps

  lemma BeginSubmitKeeps(w: World, c: Id, user: Id, d: Draft, climate: Climate)
    requires Valid(w)
    ensures Valid(BeginSubmit(w, c, user, d, climate))
  {
    hide Rows, Saved, AllPublished, Billed, AllAccounted, CallsOk, WorkerOk, Leased;
    if c !in w.drafts && CheckSubmission(w, c, user, d, climate).Accepted? {
      forall id | id in w.runs && w.runs[id].conversation == c ensures w.runs[id].key != d.key && !w.runs[id].status.Active() {
        assert !HasKey(w, id, c, d.key) && !ActiveIn(w, id, c);
      }
      assert Within(w.runs, c) == RunsOf(w, c);
    }
  }

  lemma AbandonKeeps(w: World, c: Id)
    requires Valid(w)
    ensures Valid(w.(drafts := w.drafts - {c}))
  {
    hide Rows, Saved, AllPublished, Billed, AllAccounted, CallsOk, WorkerOk, Leased;
  }

  lemma InsertWithin(runs: Runs, id: Id, r: Run, x: Id)
    requires id !in runs
    ensures |Within(runs[id := r], x)| == |Within(runs, x)| + if x == r.conversation then 1 else 0
  {
    assert Within(runs[id := r], x) == Within(runs, x) + (if x == r.conversation then {id} else {});
  }

  /** Under the lock nothing can have invalidated the checks: the row meets both unique
      constraints. */
  lemma InsertAllowed(w: World, c: Id)
    requires Submissions(w.runs, w.drafts, w.conversations) && c in w.drafts
    ensures Insertable(w, c, w.drafts[c])
  {
    assert DraftOk(w.runs, c, w.drafts[c]);
  }

  lemma InsertSubmissions(runs: Runs, drafts: map<Id, Draft>, cs: Conversations, c: Id, id: Id, r: Run)
    requires Submissions(runs, drafts, cs) && c in drafts && id !in runs
    requires r.conversation == c && r.key == drafts[c].key
    ensures Submissions(runs[id := r], drafts - {c}, cs)
  {
    assert DraftOk(runs, c, drafts[c]);
    forall x ensures |Within(runs[id := r], x)| == |Within(runs, x)| + if x == c then 1 else 0 {
      InsertWithin(runs, id, r, x);
    }
    hide Within;
    forall x | x in drafts && x != c ensures DraftOk(runs[id := r], x, drafts[x]) { assert DraftOk(runs, x, drafts[x]); }
  }

  lemma InsertWorkers(w: World, c: Id, t: Time)
    requires Numbered(w) && WorkersOk(w) && Leased(w.workers, w.runs) && c in w.drafts
    ensures WorkersOk(Insert(w, c, t)) && Leased(w.workers, Insert(w, c, t).runs)
  {
    var v := Insert(w, c, t);
    forall k | k in w.workers ensures WorkerOk(w.workers[k], v.runs, w.receipts, w.conversations, w.calls) {
      WorkerUndisturbed(w.workers[k], w.runs, w.receipts, w.conversations, w.calls, v.runs, w.receipts, w.conversations, w.calls);
    }
  }

  lemma InsertRest(w: World, c: Id, t: Time)
    requires Numbered(w) && Rows(w.runs, w.conversations) && Saved(w.conversations, w.runs) && AllPublished(w.conversations, w.runs)
    requires c in w.drafts && c in w.conversations
    ensures var v := Insert(w, c, t);
            Rows(v.runs, v.conversations) && Saved(v.conversations, v.runs) && AllPublished(v.conversations, v.runs)
  {
    NewRunOk(c, w.drafts[c], t);
    hide RunOk;
    var v := Insert(w, c, t);
    forall x | x in w.conversations ensures TurnsOk(v.runs, x, w.conversations[x]) {
      assert TurnsOk(w.runs, x, w.conversations[x]) && TurnsBelow(w.conversations[x], w.next);
      forall p | p in w.conversations[x].messages ensures TurnOk(v.runs, x, w.conversations[x].messages[p].turn) {
        assert TurnOk(w.runs, x, w.conversations[x].messages[p].turn);
      }
    }
  }

  lemma InsertPaid(w: World, c: Id, t: Time)
    requires Numbered(w) && c in w.drafts
    requires Billed(w.receipts, w.runs) && AllAccounted(w.receipts, w.runs) && CallsOk(w.calls, w.receipts, w.runs)
    ensures var next := Insert(w, c, t).runs;
            Billed(w.receipts, next) && AllAccounted(w.receipts, next) && CallsOk(w.calls, w.receipts, next)
  {
  }

  lemma InsertNumbered(w: World, c: Id, t: Time)
    requires Numbered(w) && c in w.drafts
    ensures Numbered(Insert(w, c, t)) && w.next !in w.runs
  {
    hide AppendState;
  }

  lemma FinishSubmitKeeps(w: World, c: Id, t: Time)
    requires Valid(w)
    ensures Valid(FinishSubmit(w, c, t))
  {
    hide Numbered, Rows, Saved, AllPublished, Billed, AllAccounted, CallsOk, WorkersOk, Leased;
    if c in w.drafts {
      InsertNumbered(w, c, t);
      InsertAllowed(w, c);
      InsertSubmissions(w.runs, w.drafts, w.conversations, c, w.next, Insert(w, c, t).runs[w.next]);
      assert c in w.conversations;
      hide Submissions;
      InsertWorkers(w, c, t);
      InsertRest(w, c, t);
      InsertPaid(w, c, t);
    }
  }

  lemma NewConversationWorkers(w: World, cs: Conversations)
    requires WorkersOk(w)
    requires forall c | c in w.conversations :: c in cs && cs[c].user == w.conversations[c].user
    ensures WorkersOk(w.(conversations := cs))
  {
    forall k | k in w.workers ensures WorkerOk(w.workers[k], w.runs, w.receipts, cs, w.calls) {
      WorkerUndisturbed(w.workers[k], w.runs, w.receipts, w.conversations, w.calls, w.runs, w.receipts, cs, w.calls);
    }
  }

  lemma CreateSubmissions(w: World, user: Id)
    requires Submissions(w.runs, w.drafts, w.conversations) && Rows(w.runs, w.conversations) && Numbered(w)
    ensures Submissions(w.runs, w.drafts, CreateConversation(w, user).conversations)
  {
    hide RunOk;
    assert Within(w.runs, w.next) == {};
  }

  lemma CreateSaved(cs: Conversations, runs: Runs, c: Id, user: Id)
    requires Saved(cs, runs) && c !in cs
    ensures Saved(cs[c := Conversation(user, 0, map[])], runs)
  {
    var next := cs[c := Conversation(user, 0, map[])];
    forall x, y | x in next && y in next ensures Apart(x, next[x], y, next[y]) {
      if x != c && y != c { assert Apart(x, cs[x], y, cs[y]); }
    }
    hide Apart;
    forall x | x in next ensures Shape(next[x]) && TurnsOk(runs, x, next[x]) {
      if x != c { assert TurnsOk(runs, x, cs[x]); }
    }
  }

  lemma CreatePublished(cs: Conversations, runs: Runs, c: Id, user: Id)
    requires AllPublished(cs, runs) && c !in cs
    ensures AllPublished(cs[c := Conversation(user, 0, map[])], runs)
  {
    var next := cs[c := Conversation(user, 0, map[])];
    forall id | id in runs && runs[id].status == Completed ensures Published(next, id, runs[id]) {
      assert Published(cs, id, runs[id]);
      var p, a :| PairSaved(cs, runs[id].conversation, p, id, runs[id], a);
      assert PairSaved(next, runs[id].conversation, p, id, runs[id], a);
    }
  }

  lemma CreateNumbered(w: World, user: Id)
    requires Numbered(w) && Rows(w.runs, w.conversations)
    ensures Numbered(CreateConversation(w, user)) && Rows(w.runs, CreateConversation(w, user).conversations)
    ensures w.next !in w.conversations
  {
    hide RunOk;
  }

  lemma CreateKeeps(w: World, user: Id)
    requires Valid(w)
    ensures Valid(CreateConversation(w, user))
  {
    hide Numbered, Rows, Saved, AllPublished, Billed, AllAccounted, CallsOk, Leased, Submissions, WorkerOk;
    CreateSubmissions(w, user);
    CreateNumbered(w, user);
    CreateSaved(w.conversations, w.runs, w.next, user);
    CreatePublished(w.conversations, w.runs, w.next, user);
    NewConversationWorkers(w, CreateConversation(w, user).conversations);
  }

  lemma AskNumbered(w: World, c: Id, q: string, a: Answer)
    requires Numbered(w) && Rows(w.runs, w.conversations)
    ensures Numbered(Ask(w, c, q, a)) && Rows(w.runs, Ask(w, c, q, a).conversations)
    ensures Unsaved(w.conversations, w.next) && w.next !in w.runs
  {
    hide RunOk, Rendered;
    forall x | x in w.conversations ensures TurnsBelow(w.conversations[x], w.next) {}
  }

  lemma AskSaved(w: World, c: Id, q: string, a: Answer)
    requires Saved(w.conversations, w.runs) && AllPublished(w.conversations, w.runs)
    requires Unsaved(w.conversations, w.next) && w.next !in w.runs
    ensures Saved(Ask(w, c, q, a).conversations, w.runs) && AllPublished(Ask(w, c, q, a).conversations, w.runs)
  {
    if c in w.conversations && c !in w.drafts && AppendPair(w.conversations[c], w.next, q, a).Some? {
      assert Shape(w.conversations[c]);
      hide TurnsOk, Apart, Shape, Unsaved;
      AppendSaved(w.conversations, w.runs, c, w.next, q, a, w.runs);
      AppendPublished(w.conversations, w.runs, c, w.next, q, a);
    }
  }

  lemma AskRest(w: World, c: Id, q: string, a: Answer)
    requires WorkersOk(w) && Submissions(w.runs, w.drafts, w.conversations)
    ensures var v := Ask(w, c, q, a);
            && WorkersOk(v) && Submissions(v.runs, v.drafts, v.conversations)
            && v.runs == w.runs && v.drafts == w.drafts && v.receipts == w.receipts && v.calls == w.calls && v.workers == w.workers
  {
    hide Submissions, WorkerOk;
    var next := Ask(w, c, q, a).conversations;
    SameKeys(w.runs, w.drafts, w.conversations, next);
    NewConversationWorkers(w, next);
  }

  lemma AskKeeps(w: World, c: Id, q: string, a: Answer)
    requires Valid(w)
    ensures Valid(Ask(w, c, q, a))
  {
    hide Numbered, Rows, Saved, AllPublished, Billed, AllAccounted, CallsOk, WorkersOk, Leased, Submissions, Unsaved, Ask;
    AskNumbered(w, c, q, a);
    AskSaved(w, c, q, a);
    AskRest(w, c, q, a);
  }

  lemma DeleteWorkers(w: World, cs: set<Id>)
    requires WorkersOk(w) && Leased(w.workers, w.runs)
    ensures WorkersOk(Delete(w, cs)) && Leased(w.workers, Delete(w, cs).runs)
  {
    var v := Delete(w, cs);
    forall k | k in w.workers ensures WorkerOk(w.workers[k], v.runs, v.receipts, v.conversations, v.calls) {
      assert WorkerOk(w.workers[k], w.runs, w.receipts, w.conversations, w.calls);
      if v != w { DeletedWorker(w.workers[k], w, cs); }
    }
  }

  lemma DeletedWorker(k: Worker, w: World, cs: set<Id>)
    requires WorkerOk(k, w.runs, w.receipts, w.conversations, w.calls)
    ensures WorkerOk(k, Delete(w, cs).runs, Delete(w, cs).receipts, Delete(w, cs).conversations, w.calls)
  {
    var v := Delete(w, cs);
    if k.run in v.runs {
      assert w.runs[k.run].conversation !in cs || v == w;
    }
  }

  lemma DeleteSaved(w: World, cs: set<Id>)
    requires Saved(w.conversations, w.runs) && Rows(w.runs, w.conversations)
    ensures Saved(Delete(w, cs).conversations, Delete(w, cs).runs) && Rows(Delete(w, cs).runs, Delete(w, cs).conversations)
  {
    hide RunOk, Apart, Shape;
    var v := Delete(w, cs);
    forall x | x in v.conversations ensures TurnsOk(v.runs, x, v.conversations[x]) { assert TurnsOk(w.runs, x, w.conversations[x]); }
  }

  lemma DeletePublished(w: World, cs: set<Id>)
    requires AllPublished(w.conversations, w.runs) && Rows(w.runs, w.conversations)
    ensures AllPublished(Delete(w, cs).conversations, Delete(w, cs).runs)
  {
    hide RunOk;
    var v := Delete(w, cs);
    forall id | id in v.runs && v.runs[id].status == Completed ensures Published(v.conversations, id, v.runs[id]) {
      assert Published(w.conversations, id, w.runs[id]);
      var p, a :| PairSaved(w.conversations, w.runs[id].conversation, p, id, w.runs[id], a);
      assert PairSaved(v.conversations, w.runs[id].conversation, p, id, w.runs[id], a);
    }
  }

  lemma DeleteAccounted(w: World, cs: set<Id>)
    requires AllAccounted(w.receipts, w.runs)
    ensures AllAccounted(Delete(w, cs).receipts, Delete(w, cs).runs)
  {
    var v := Delete(w, cs);
    forall id | id in v.runs && v.runs[id].status == Completed ensures Accounted(v.receipts, id, v.runs[id]) {
      assert Accounted(w.receipts, id, w.runs[id]);
      forall x ensures Covers(v.receipts, x, id, Generation) == Covers(w.receipts, x, id, Generation) {}
    }
  }

  lemma DeletePaid(w: World, cs: set<Id>)
    requires Billed(w.receipts, w.runs) && CallsOk(w.calls, w.receipts, w.runs)
    ensures var v := Delete(w, cs);
            Billed(v.receipts, v.runs) && CallsOk(v.calls, v.receipts, v.runs)
  {
  }

  lemma DeleteSubmissions(w: World, cs: set<Id>)
    requires Submissions(w.runs, w.drafts, w.conversations)
    ensures Submissions(Delete(w, cs).runs, w.drafts, Delete(w, cs).conversations)
  {
    var v := Delete(w, cs);
    forall c | c in v.conversations ensures |Within(v.runs, c)| <= |Within(w.runs, c)| {
      SubsetSize(Within(v.runs, c), Within(w.runs, c));
    }
    forall c | c in w.drafts ensures DraftOk(v.runs, c, w.drafts[c]) { assert DraftOk(w.runs, c, w.drafts[c]); }
  }

  lemma SubsetSize(a: set<Id>, b: set<Id>)
    requires a <= b
    ensures |a| <= |b|
  {
    assert b == a + (b - a);
  }

  lemma DeleteNumbered(w: World, cs: set<Id>)
    requires Numbered(w)
    ensures Numbered(Delete(w, cs))
  {
  }

  lemma DeleteKeeps(w: World, cs: set<Id>)
    requires Valid(w)
    ensures Valid(Delete(w, cs))
  {
    hide Numbered, Rows, Saved, AllPublished, Billed, AllAccounted, CallsOk, WorkersOk, Leased, Submissions;
    DeleteNumbered(w, cs);
    DeleteSaved(w, cs);
    DeletePublished(w, cs);
    DeletePaid(w, cs);
    DeleteAccounted(w, cs);
    DeleteSubmissions(w, cs);
    DeleteWorkers(w, cs);
  }

  // ---- Every run of the system

  lemma StepKeeps(w: World, s: Step)
    requires Valid(w)
    ensures Valid(Apply(w, s))
  {
    hide Valid;
    match s
    case DoCreate(user) => CreateKeeps(w, user);
    case DoBeginSubmit(c, user, d, climate) => BeginSubmitKeeps(w, c, user, d, climate);
    case DoFinishSubmit(c, t) => FinishSubmitKeeps(w, c, t);
    case DoAbandonSubmit(c) => AbandonKeeps(w, c);
    case DoClaim(run, t) => ClaimKeeps(w, run, t);
    case DoLoad(token, same, t) => LoadKeeps(w, token, same, t);
    case DoBegin(token, kind, t) => BeginKeeps(w, token, kind, t);
    case DoSend(token) => SendKeeps(w, token);
    case DoFinish(token, o) => FinishKeeps(w, token, o);
    case DoNoEvidence(token, a) => NoEvidenceKeeps(w, token, a);
    case DoDelta(token, text, tick, t) => DeltaKeeps(w, token, text, tick, t);
    case DoAbort(token, code) => AbortKeeps(w, token, code);
    case DoPublish(token, t) => PublishKeeps(w, token, t);
    case DoFailRun(token, t) => FailRunKeeps(w, token, t);
    case DoCancel(run, t) => CancelKeeps(w, run, t);
    case DoDispatch(t) => DispatchKeeps(w, t);
    case DoAsk(c, q, a) => AskKeeps(w, c, q, a);
    case DoDelete(cs) => DeleteKeeps(w, cs);
  }

  lemma {:induction false} Always(steps: seq<Step>)
    ensures Valid(After(steps))
  {
    if steps != [] {
      Always(steps[..|steps| - 1]);
      hide Valid;
      StepKeeps(After(steps[..|steps| - 1]), steps[|steps| - 1]);
    }
  }
}
