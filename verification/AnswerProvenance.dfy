/** Where a published answer comes from: it is exactly what the provider call, or the search that
    found no evidence, handed to the run's worker. */
module AnswerProvenance {
  import opened Options
  import opened Transcripts
  import opened AnswerRuns
  import opened AnswerRunInvariant
  import opened AnswerRunRowSteps
  import opened AnswerRunSteps
  import opened AnswerRunResults

  /** The answer that is saved has the claims, the limitation and the status of the one given. */
  ghost predicate Carries(saved: Answer, given: Answer, source: Id, input: nat, output: nat) {
    saved == Answer(source, given.grounded, given.claims, given.limitation, input, output)
  }

  /** The step hands the worker its answer: an accepted generation call returns, or the search found
      no evidence. */
  ghost predicate Gives(w: World, s: Step, token: Id, a: Answer) {
    && token in w.workers
    && var p := w.workers[token].phase;
       match s
       case DoFinish(k, Accept(input, output, given)) =>
         k == token && p.Awaiting? && p.kind == Generation && Carries(a, given, p.pin.source, input, output)
       case DoNoEvidence(k, given) => k == token && p.Ready? && p.embedded == p.pin.hybrid && Carries(a, given, p.pin.source, 0, 0)
       case _ => false
  }

  ghost predicate GivenAt(steps: seq<Step>, i: nat, token: Id, a: Answer) {
    i < |steps| && Gives(After(steps[..i]), steps[i], token, a)
  }

  /** The worker is past its last call. */
  ghost predicate Late(phase: Phase) { phase.Answered? || phase.Failing? || phase.Stopped? }

  /** The worker itself goes on with what it has. */
  ghost predicate Acts(s: Step, token: Id) {
    (s.DoFailRun? && s.token == token) || (s.DoAbort? && s.token == token) || (s.DoPublish? && s.token == token)
  }

  /** How one step moves a worker: it has an answer only if it had it before or is given it now, and
      past its last call it never takes another, nor does anybody else take its answer away. */
  ghost predicate Moved(w: World, s: Step, v: World, token: Id) {
    && (token in v.workers && v.workers[token].phase.Answered? ==>
          token in w.workers && (v.workers[token].phase == w.workers[token].phase || Gives(w, s, token, v.workers[token].phase.answer)))
    && (token in w.workers && token < w.next && Late(w.workers[token].phase) ==>
          && token in v.workers && Late(v.workers[token].phase)
          && (v.workers[token].phase.Answered? || !Acts(s, token) ==> v.workers[token].phase == w.workers[token].phase))
  }

  lemma ApiMoves(w: World, s: Step, token: Id)
    requires s.DoCreate? || s.DoBeginSubmit? || s.DoFinishSubmit? || s.DoAbandonSubmit? || s.DoCancel? || s.DoDispatch? || s.DoAsk? || s.DoDelete?
    ensures Moved(w, s, Apply(w, s), token)
  {
    hide EndRun, Expire, CheckSubmission, AppendPair, AppendState, Insertable;
  }

  lemma PreviewsMove(w: World, k: Id, text: string, tick: Time, t: Time, token: Id)
    ensures Moved(w, DoDelta(k, text, tick, t), Delta(w, k, text, tick, t), token)
  {
    hide Shown, Holds;
  }

  lemma PublicationsMove(w: World, k: Id, t: Time, token: Id)
    ensures Moved(w, DoPublish(k, t), Publish(w, k, t), token)
  {
    hide HoldsUntil, CompleteRun, AppendPair;
  }

  lemma RowsMove(w: World, s: Step, token: Id)
    requires s.DoClaim? || s.DoFailRun?
    ensures Moved(w, s, Apply(w, s), token)
  {
    hide StartRun, EndRun, Holds;
    match s
    case DoClaim(_, _) => hide AnswerRuns.FailRun;
    case DoFailRun(_, _) => hide AnswerRuns.Claim;
  }

  lemma LoadsMove(w: World, k: Id, same: bool, t: Time, token: Id)
    ensures Moved(w, DoLoad(k, same, t), Load(w, k, same, t), token)
  {
    hide Holds;
  }

  lemma PhasesMove(w: World, s: Step, token: Id)
    requires s.DoSend? || s.DoNoEvidence? || s.DoAbort?
    ensures Moved(w, s, Apply(w, s), token)
  {
  }

  lemma ReceiptsMove(w: World, s: Step, token: Id)
    requires s.DoBegin? || s.DoFinish?
    ensures Moved(w, s, Apply(w, s), token)
  {
    hide HoldsUntil, Account;
  }

  lemma StepMoves(w: World, s: Step, token: Id)
    ensures Moved(w, s, Apply(w, s), token)
  {
    hide Moved, Claim, Load, Begin, Send, Finish, NoEvidence, Delta, Abort, Publish, FailRun;
    match s
    case DoClaim(_, _) => RowsMove(w, s, token);
    case DoDelta(k, text, tick, t) => PreviewsMove(w, k, text, tick, t, token);
    case DoPublish(k, t) => PublicationsMove(w, k, t, token);
    case DoFailRun(_, _) => RowsMove(w, s, token);
    case DoLoad(k, same, t) => LoadsMove(w, k, same, t, token);
    case DoSend(_) => PhasesMove(w, s, token);
    case DoNoEvidence(_, _) => PhasesMove(w, s, token);
    case DoAbort(_, _) => PhasesMove(w, s, token);
    case DoBegin(_, _, _) => ReceiptsMove(w, s, token);
    case DoFinish(_, _) => ReceiptsMove(w, s, token);
    case _ => ApiMoves(w, s, token);
  }

  // ---- A worker's answer was given to it

  lemma GivenBefore(steps: seq<Step>, n: nat, i: nat, token: Id, a: Answer)
    requires n <= |steps| && GivenAt(steps[..n], i, token, a)
    ensures GivenAt(steps, i, token, a)
  {
    assert steps[..n][..i] == steps[..i];
  }

  lemma {:induction false} AnswerWasGiven(steps: seq<Step>, token: Id) returns (i: nat)
    requires token in After(steps).workers && After(steps).workers[token].phase.Answered?
    ensures GivenAt(steps, i, token, After(steps).workers[token].phase.answer)
  {
    var n := |steps| - 1;
    var front, a := steps[..n], After(steps).workers[token].phase.answer;
    StepMoves(After(front), steps[n], token);
    if Gives(After(front), steps[n], token, a) {
      i := n;
    } else {
      i := AnswerWasGiven(front, token);
      GivenBefore(steps, n, i, token, a);
    }
  }

  /** Past its last call, a worker stays so. */
  lemma {:induction false} StaysLate(steps: seq<Step>, more: seq<Step>, token: Id)
    requires token in After(steps).workers && Late(After(steps).workers[token].phase)
    ensures var w, v := After(steps), After(steps + more);
            && token in v.workers && Late(v.workers[token].phase)
            && (v.workers[token].phase.Answered? || (forall s | s in more :: !Acts(s, token)) ==> v.workers[token].phase == w.workers[token].phase)
    decreases |more|
  {
    if more == [] {
      assert steps + more == steps;
    } else {
      var k := |more| - 1;
      var all := steps + more;
      assert all[..|all| - 1] == steps + more[..k] && all[|all| - 1] == more[k];
      assert After(all) == Apply(After(steps + more[..k]), more[k]);
      StaysLate(steps, more[..k], token);
      Always(steps + more[..k]);
      hide After, Apply, Valid, Late, Acts;
      IdsAreOld(After(steps + more[..k]), token);
      StepMoves(After(steps + more[..k]), more[k], token);
    }
  }

  lemma GivingEndsCalls(w: World, s: Step, token: Id, a: Answer)
    requires Gives(w, s, token, a)
    ensures var v := Apply(w, s);
            token in v.workers && v.workers[token].phase.Answered? && v.workers[token].phase.answer == a
            && v.workers[token].phase.pin == w.workers[token].phase.pin && v.workers[token].run == w.workers[token].run
            && v.runs == w.runs && v.conversations == w.conversations && v.drafts == w.drafts
  {
  }

  // ---- The published answer was given to the run's worker

  ghost predicate IsCompleted(w: World, id: Id) { id in w.runs && w.runs[id].status == Status.Completed }

  lemma FinishSubmitCompletesNone(w: World, c: Id, t: Time, id: Id)
    requires IsCompleted(FinishSubmit(w, c, t), id)
    ensures IsCompleted(w, id)
  {
    hide Insertable, LastSequence;
  }

  lemma ClaimCompletesNone(w: World, x: Id, t: Time, id: Id)
    requires IsCompleted(Claim(w, x, t), id)
    ensures IsCompleted(w, id)
  {
    hide LastSequence;
  }

  lemma FailureCompletesNone(w: World, s: Step, id: Id)
    requires (s.DoFailRun? || s.DoCancel? || s.DoDispatch?) && IsCompleted(Apply(w, s), id)
    ensures IsCompleted(w, id)
  {
    hide LastSequence, Holds;
  }

  lemma OthersCompleteNone(w: World, s: Step, id: Id)
    requires s.DoCreate? || s.DoBeginSubmit? || s.DoAbandonSubmit? || s.DoLoad? || s.DoBegin? || s.DoSend? || s.DoFinish? || s.DoNoEvidence?
             || s.DoAbort? || s.DoAsk? || s.DoDelete?
    requires IsCompleted(Apply(w, s), id)
    ensures IsCompleted(w, id)
  {
    hide Holds, CheckSubmission, AppendPair, Account;
  }

  lemma DeltaCompletesNone(w: World, token: Id, text: string, tick: Time, t: Time, id: Id)
    requires IsCompleted(Delta(w, token, text, tick, t), id)
    ensures IsCompleted(w, id)
  {
    hide Shown;
  }

  lemma PublishCompletes(w: World, token: Id, t: Time, id: Id)
    requires IsCompleted(Publish(w, token, t), id) && !IsCompleted(w, id)
    ensures Committing(w, token) && w.workers[token].run == id && Publish(w, token, t) == Commit(w, token, t, Grown(w, token))
  {
    hide CompleteRun, AppendPair;
  }

  /** Only publication completes a run. */
  lemma OnlyPublishCompletes(w: World, s: Step, id: Id)
    requires IsCompleted(Apply(w, s), id) && !IsCompleted(w, id)
    ensures s.DoPublish? && Committing(w, s.token) && w.workers[s.token].run == id
    ensures Apply(w, s) == Commit(w, s.token, s.t, Grown(w, s.token))
  {
    hide IsCompleted, Committing, Commit, Grown, Claim, Delta, Publish, FailRun, Cancel, Dispatch, FinishSubmit;
    match s
    case DoFinishSubmit(c, t) => FinishSubmitCompletesNone(w, c, t, id);
    case DoClaim(x, t) => ClaimCompletesNone(w, x, t, id);
    case DoFailRun(_, _) => FailureCompletesNone(w, s, id);
    case DoCancel(_, _) => FailureCompletesNone(w, s, id);
    case DoDispatch(_) => FailureCompletesNone(w, s, id);
    case DoDelta(token, text, tick, t) => DeltaCompletesNone(w, token, text, tick, t, id);
    case DoPublish(token, t) => PublishCompletes(w, token, t, id);
    case _ =>
      hide Apply;
      OthersCompleteNone(w, s, id);
  }

  /** Messages are never changed while their conversation is kept. */
  ghost predicate KeepsMessages(w: World, v: World, c: Id) {
    c in w.conversations && c in v.conversations ==>
      forall p | p in w.conversations[c].messages :: p in v.conversations[c].messages && v.conversations[c].messages[p] == w.conversations[c].messages[p]
  }

  lemma AppendKeepsMessages(c: Conversation, turn: Id, question: string, a: Answer)
    requires Shape(c) && AppendPair(c, turn, question, a).Some?
    ensures forall p | p in c.messages :: var d := AppendPair(c, turn, question, a).value; p in d.messages && d.messages[p] == c.messages[p]
  {
    AppendKeepsShape(c, turn, question, a);
  }

  lemma MessagesStay(w: World, s: Step, c: Id)
    requires c in w.conversations ==> c < w.next && Shape(w.conversations[c])
    ensures KeepsMessages(w, Apply(w, s), c)
  {
    hide Shape, AppendPair, Rendered, Publish;
    if c in w.conversations {
      match s
      case DoPublish(token, t) => PublishKeepsMessages(w, token, t, c);
      case DoAsk(x, question, a) =>
        if x == c && AppendPair(w.conversations[c], w.next, question, a).Some? { AppendKeepsMessages(w.conversations[c], w.next, question, a); }
      case _ => OthersKeepMessages(w, s, c);
    }
  }

  lemma PublishKeepsMessages(w: World, token: Id, t: Time, c: Id)
    requires c in w.conversations && Shape(w.conversations[c])
    ensures KeepsMessages(w, Publish(w, token, t), c)
  {
    hide Shape, AppendPair, CompleteRun, HoldsUntil;
    if token in w.workers && w.workers[token].phase.Answered? && w.workers[token].phase.pin.conversation == c {
      var p := w.workers[token].phase;
      if AppendPair(w.conversations[c], w.workers[token].run, p.pin.question, p.answer).Some? {
        AppendKeepsMessages(w.conversations[c], w.workers[token].run, p.pin.question, p.answer);
      }
    }
  }

  lemma OthersKeepMessages(w: World, s: Step, c: Id)
    requires !s.DoPublish? && !s.DoAsk? && c in w.conversations && c < w.next
    ensures KeepsMessages(w, Apply(w, s), c)
  {
    hide CheckSubmission, AppendState, Insertable, Account, Holds, Expire, EndRun, Shown;
  }

  /** The run's pair is saved at p with answer a, and the worker is the run's. */
  ghost predicate SavedBy(w: World, id: Id, p: nat, a: Answer, token: Id) {
    && IsCompleted(w, id) && PairSaved(w.conversations, w.runs[id].conversation, p, id, w.runs[id], a)
    && token in w.workers && w.workers[token].run == id
  }

  lemma PairStays(w: World, s: Step, id: Id, p: nat, a: Answer)
    requires Valid(w) && Valid(Apply(w, s)) && IsCompleted(w, id) && IsCompleted(Apply(w, s), id)
    requires PairSaved(w.conversations, w.runs[id].conversation, p, id, w.runs[id], a)
    ensures var v := Apply(w, s); v.runs[id] == w.runs[id] && PairSaved(v.conversations, v.runs[id].conversation, p, id, v.runs[id], a)
  {
    var v, c := Apply(w, s), w.runs[id].conversation;
    StoredHere(w, id);
    StoredHere(v, id);
    hide Apply, Valid, Shape, RunOk;
    RowMoves(w, s, id);
    MessagesStay(w, s, c);
  }

  lemma StoredHere(w: World, id: Id)
    requires Valid(w) && id in w.runs
    ensures RunOk(w.runs[id]) && id < w.next
    ensures var c := w.runs[id].conversation; c in w.conversations && c < w.next && Shape(w.conversations[c])
  {
    hide RunOk, Shape, AllPublished, Billed, AllAccounted, CallsOk, WorkersOk, Leased, Submissions, TurnsOk, Apart;
  }

  lemma CommitSaves(w: World, token: Id, t: Time) returns (p: nat, a: Answer)
    requires Valid(w) && Committing(w, token)
    ensures SavedBy(Commit(w, token, t, Grown(w, token)), w.workers[token].run, p, a, token)
    ensures token in w.workers && w.workers[token].phase.Answered? && w.workers[token].phase.answer == a
    ensures var c := w.runs[w.workers[token].run].conversation;
            Commit(w, token, t, Grown(w, token)).runs[w.workers[token].run].conversation == c && c in w.conversations
            && p == w.conversations[c].messageCount + 1
  {
    hide Valid, Shape, RunOk;
    HolderFacts(w, token);
    CommitPublished(w, token, t);
    hide PairSaved, Grown, Path;
    var c := w.workers[token].phase.pin.conversation;
    CompletedPath(w.runs[w.workers[token].run], w.workers[token].phase.answer, t);
    p, a := w.conversations[c].messageCount + 1, w.workers[token].phase.answer;
  }

  lemma WorkerStays(w: World, s: Step, token: Id)
    requires Valid(w) && token in w.workers
    ensures SameWork(w, Apply(w, s), token)
  {
    IdsAreOld(w, token);
    StepGoesOn(w, s, token, w.workers[token].run);
  }

  lemma SavedStays(w: World, s: Step, id: Id, p: nat, a: Answer, token: Id)
    requires Valid(w) && Valid(Apply(w, s)) && SavedBy(w, id, p, a, token) && IsCompleted(Apply(w, s), id)
    ensures SavedBy(Apply(w, s), id, p, a, token)
  {
    hide Apply, Valid, PairSaved, IsCompleted;
    PairStays(w, s, id, p, a);
    WorkerStays(w, s, token);
  }

  lemma SavedNow(w: World, s: Step, id: Id) returns (p: nat, a: Answer, token: Id)
    requires Valid(w) && !IsCompleted(w, id) && IsCompleted(Apply(w, s), id)
    ensures SavedBy(Apply(w, s), id, p, a, token)
    ensures token in w.workers && w.workers[token].phase.Answered? && w.workers[token].phase.answer == a
  {
    hide Apply, Valid, SavedBy, Commit, IsCompleted, Committing, Grown;
    OnlyPublishCompletes(w, s, id);
    token := s.token;
    p, a := CommitSaves(w, token, s.t);
  }

  /** The pair of a completed run is saved with an answer that one step gave to its worker. */
  lemma {:induction false} PublishedWasGiven(steps: seq<Step>, id: Id) returns (p: nat, a: Answer, token: Id, i: nat)
    requires IsCompleted(After(steps), id)
    ensures SavedBy(After(steps), id, p, a, token) && GivenAt(steps, i, token, a)
  {
    var n := |steps| - 1;
    var front, s := steps[..n], steps[n];
    assert After(steps) == Apply(After(front), s);
    Always(front);
    Always(steps);
    hide After, Apply, Valid, SavedBy, GivenAt, IsCompleted;
    if IsCompleted(After(front), id) {
      p, a, token, i := PublishedWasGiven(front, id);
      SavedStays(After(front), s, id, p, a, token);
    } else {
      p, a, token := SavedNow(After(front), s, id);
      i := AnswerWasGiven(front, token);
    }
    GivenBefore(steps, n, i, token, a);
  }

  // ---- Both directions

  lemma {:induction false} GivenOnce(steps: seq<Step>, i: nat, j: nat, token: Id, a: Answer, b: Answer)
    requires GivenAt(steps, i, token, a) && GivenAt(steps, j, token, b) && i <= j
    ensures i == j && a == b
  {
    if i < j {
      var first, more := steps[..i + 1], steps[i + 1..j];
      assert first[..|first| - 1] == steps[..i] && first + more == steps[..j];
      assert After(first) == Apply(After(steps[..i]), steps[i]);
      hide After;
      GivingEndsCalls(After(steps[..i]), steps[i], token, a);
      StaysLate(first, more, token);
    }
  }

  /** The answer saved with a completed run is the one that a provider call, or the search that found
      no evidence, handed to the run's worker, claim by claim, with the usage of that call; and it is
      the only one that the worker was ever handed. */
  lemma {:induction false} PublishedAnswerIsTheGivenOne(steps: seq<Step>, id: Id) returns (p: nat, a: Answer, token: Id, i: nat)
    requires IsCompleted(After(steps), id)
    ensures SavedBy(After(steps), id, p, a, token) && GivenAt(steps, i, token, a)
    ensures forall j: nat, b :: GivenAt(steps, j, token, b) ==> j == i && b == a
    ensures After(steps).conversations[After(steps).runs[id].conversation].messages[p + 1].content == Rendered(a)
  {
    p, a, token, i := PublishedWasGiven(steps, id);
    hide After, GivenAt;
    forall j: nat, b | GivenAt(steps, j, token, b) ensures j == i && b == a {
      if j <= i { GivenOnce(steps, j, i, token, b, a); } else { GivenOnce(steps, i, j, token, a, b); }
    }
  }

  /** The worker holds the lease and its conversation is unlocked and has room. */
  ghost predicate MayPublish(w: World, token: Id, t: Time) {
    && HoldsUntil(w, token, t)
    && var c := w.runs[w.workers[token].run].conversation;
       c !in w.drafts && (c in w.conversations ==> w.conversations[c].messageCount < MAX_MESSAGES)
  }

  lemma HolderCommits(w: World, token: Id, t: Time)
    requires Valid(w) && HoldsUntil(w, token, t) && w.workers[token].phase.Answered?
    requires var c := w.runs[w.workers[token].run].conversation;
             c !in w.drafts && (c in w.conversations ==> w.conversations[c].messageCount < MAX_MESSAGES)
    ensures Committing(w, token) && Publish(w, token, t) == Commit(w, token, t, Grown(w, token))
  {
    hide Valid, RunOk, Commit;
    HolderFacts(w, token);
  }

  /** Publishing now saves the answer with the run, behind all earlier messages of its conversation. */
  ghost predicate PublishesAs(w: World, token: Id, t: Time, a: Answer) {
    && token in w.workers && w.workers[token].run in w.runs
    && var id, c := w.workers[token].run, w.runs[w.workers[token].run].conversation;
       c in w.conversations && SavedBy(Publish(w, token, t), id, w.conversations[c].messageCount + 1, a, token)
  }

  lemma HolderSaves(w: World, token: Id, t: Time)
    requires Valid(w) && MayPublish(w, token, t) && w.workers[token].phase.Answered?
    ensures PublishesAs(w, token, t, w.workers[token].phase.answer)
  {
    hide Publish, Commit, Grown, Valid, SavedBy, Committing;
    HolderCommits(w, token, t);
    var p, a := CommitSaves(w, token, t);
  }

  lemma {:induction false} GivenIsKept(steps: seq<Step>, s: Step, more: seq<Step>, token: Id, a: Answer)
    requires Gives(After(steps), s, token, a) && forall x | x in more :: !Acts(x, token)
    ensures var w := After(steps + [s] + more);
            token in w.workers && w.workers[token].phase.Answered? && w.workers[token].phase.answer == a
  {
    var first := steps + [s];
    assert first[..|first| - 1] == steps;
    assert After(first) == Apply(After(steps), s);
    hide After, Acts;
    GivingEndsCalls(After(steps), s, token, a);
    StaysLate(first, more, token);
  }

  /** And the other way round: an answer handed to a worker is published as it is. Whatever the others
      do in between, if the worker then publishes under its lease, in an unlocked conversation with
      room, the run's pair is saved behind all earlier messages with exactly that answer. */
  lemma {:induction false} GivenAnswerIsPublished(steps: seq<Step>, s: Step, more: seq<Step>, token: Id, a: Answer, t: Time)
    requires Gives(After(steps), s, token, a) && forall x | x in more :: !Acts(x, token)
    requires MayPublish(After(steps + [s] + more), token, t)
    ensures PublishesAs(After(steps + [s] + more), token, t, a)
  {
    GivenIsKept(steps, s, more, token, a);
    Always(steps + [s] + more);
    hide After, Gives, Valid, SavedBy, Acts, PublishesAs, MayPublish;
    HolderSaves(After(steps + [s] + more), token, t);
  }
}
