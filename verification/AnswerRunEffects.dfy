/** What each transaction of the answer-run protocol leaves behind in every reachable state, column
    by column, and what it leaves alone. */
module AnswerRunEffects {
  import opened Options
  import opened Sequences
  import opened Transcripts
  import opened AnswerRuns
  import opened AnswerRunInvariant
  import opened AnswerRunSteps
  import opened AnswerRunResults

  // ---- Submission

  ghost predicate Idle(w: World, c: Id) {
    forall id | id in w.runs && w.runs[id].conversation == c :: w.runs[id].status.Terminal()
  }

  ghost function Own(w: World, c: Id): set<Id> {
    set id | id in w.runs && w.runs[id].conversation == c
  }

  /** The checks under the lock, in order, with the code of each. */
  ghost function Checks(w: World, c: Id, climate: Climate): seq<(bool, string)>
    requires c in w.conversations
  {
    [(climate.enabled, "answers_disabled"), (w.conversations[c].messageCount < 200, "conversation_full"),
     (Idle(w, c), "answer_active"), (|Own(w, c)| < 1000, "run_limit"),
     (climate.source.Some?, "index_required"), (climate.prepared, "search_required"), (climate.admitted, "rate_limited")]
  }

  ghost predicate FirstFailure(checks: seq<(bool, string)>, i: nat) {
    i < |checks| && !checks[i].0 && forall j | 0 <= j < i :: checks[j].0
  }

  ghost predicate Fresh(w: World, c: Id, key: Id) {
    forall id | id in w.runs && w.runs[id].conversation == c :: w.runs[id].key != key
  }

  /** A submission of the conversation's owner under a new request key is accepted exactly when every
      check passes, and otherwise refused with the code of the first that fails. */
  lemma SubmissionIsDecided(w: World, c: Id, user: Id, d: Draft, climate: Climate)
    ensures c !in w.conversations || w.conversations[c].user != user ==> CheckSubmission(w, c, user, d, climate) == Refused("not_found")
    ensures c in w.conversations && w.conversations[c].user == user && Fresh(w, c, d.key) ==>
              var checks, reply := Checks(w, c, climate), CheckSubmission(w, c, user, d, climate);
              && (reply == Accepted <==> forall i | 0 <= i < |checks| :: checks[i].0)
              && (forall i: nat | FirstFailure(checks, i) :: reply == Refused(checks[i].1))
  {
    if c in w.conversations && w.conversations[c].user == user && Fresh(w, c, d.key) {
      var checks := Checks(w, c, climate);
      assert |checks| == 7;
      assert forall id :: !HasKey(w, id, c, d.key);
      assert RunsOf(w, c) == Own(w, c);
      NoneActive(w, c);
      hide ActiveIn, HasKey, RunsOf, Idle, Own;
      assert (forall i | 0 <= i < 7 :: checks[i].0) <==>
             checks[0].0 && checks[1].0 && checks[2].0 && checks[3].0 && checks[4].0 && checks[5].0 && checks[6].0;
      forall i: nat | FirstFailure(checks, i) ensures CheckSubmission(w, c, user, d, climate) == Refused(checks[i].1) {
        assert i in {0, 1, 2, 3, 4, 5, 6};
      }
    }
  }

  lemma NoneActive(w: World, c: Id)
    ensures (exists id :: ActiveIn(w, id, c)) <==> !Idle(w, c)
  {
    if !Idle(w, c) {
      var id :| id in w.runs && w.runs[id].conversation == c && !w.runs[id].status.Terminal();
      assert ActiveIn(w, id, c);
    }
  }

  /** The submission that holds the lock of a conversation is over. */
  ghost predicate Unlocks(s: Step, c: Id) {
    (s.DoFinishSubmit? && s.c == c) || (s.DoAbandonSubmit? && s.c == c)
  }

  lemma LockIsKept(w: World, s: Step, c: Id)
    requires c in w.drafts && !Unlocks(s, c)
    ensures c in Apply(w, s).drafts && Apply(w, s).drafts[c] == w.drafts[c]
  {
    hide Publish, Delta, Begin;
    match s
    case DoPublish(token, t) => PublishKeepsLocks(w, token, t);
    case DoDelta(token, text, tick, t) => DeltaKeepsLocks(w, token, text, tick, t);
    case DoBegin(token, kind, t) => BeginKeepsLocks(w, token, kind, t);
    case DoBeginSubmit(_, _, _, _) => hide CheckSubmission;
    case DoFinishSubmit(_, _) => hide AppendState, Insertable;
    case DoAbandonSubmit(_) =>
    case _ => OthersKeepLocks(w, s);
  }

  lemma OthersKeepLocks(w: World, s: Step)
    requires !s.DoPublish? && !s.DoDelta? && !s.DoBegin? && !s.DoBeginSubmit? && !s.DoFinishSubmit? && !s.DoAbandonSubmit?
    ensures Apply(w, s).drafts == w.drafts
  {
    hide AppendPair, AppendState, Account, Holds, Expire, EndRun, Publish, Delta, Begin, BeginSubmit, FinishSubmit;
  }

  lemma PublishKeepsLocks(w: World, token: Id, t: Time)
    ensures Publish(w, token, t).drafts == w.drafts
  {
    hide AppendPair, HoldsUntil, CompleteRun;
  }

  lemma DeltaKeepsLocks(w: World, token: Id, text: string, tick: Time, t: Time)
    ensures Delta(w, token, text, tick, t).drafts == w.drafts
  {
    hide HoldsUntil, Shown;
  }

  lemma BeginKeepsLocks(w: World, token: Id, kind: Kind, t: Time)
    ensures Begin(w, token, kind, t).drafts == w.drafts
  {
    hide HoldsUntil;
  }

  lemma {:induction false} LockIsKeptOver(steps: seq<Step>, more: seq<Step>, c: Id)
    requires c in After(steps).drafts && forall s | s in more :: !Unlocks(s, c)
    ensures c in After(steps + more).drafts && After(steps + more).drafts[c] == After(steps).drafts[c]
    decreases |more|
  {
    if more == [] {
      assert steps + more == steps;
    } else {
      var k := |more| - 1;
      var all := steps + more;
      assert all[..|all| - 1] == steps + more[..k] && all[|all| - 1] == more[k];
      assert After(all) == Apply(After(steps + more[..k]), more[k]);
      LockIsKeptOver(steps, more[..k], c);
      hide After, Apply, Unlocks;
      LockIsKept(After(steps + more[..k]), more[k], c);
    }
  }

  /** What inserting a draft leaves: one new queued run with the draft's columns, and the lock free. */
  ghost predicate Inserts(w: World, v: World, c: Id, d: Draft, source: Id, t: Time) {
    && w.next !in w.runs
    && v == w.(next := w.next + 1, drafts := w.drafts - {c},
               runs := w.runs[w.next := Run(c, d.key, d.hash, d.question, d.hybrid, source, t, Queued, NotStarted, None, None, None, None, None,
                                            None, None, "", 0, map[1 := Queued])])
  }

  lemma FirstEvent(r: Run)
    requires r.events == map[] && r.status == Queued
    ensures AppendState(r) == r.(events := map[1 := Queued])
  {
  }

  lemma InsertsRow(w: World, c: Id, t: Time)
    requires Valid(w) && c in w.drafts
    ensures Inserts(w, FinishSubmit(w, c, t), c, w.drafts[c], w.drafts[c].source, t)
  {
    hide Rows, Saved, AllPublished, Billed, AllAccounted, CallsOk, WorkersOk, Leased;
    InsertAllowed(w, c);
    FirstEvent(NewRun(c, w.drafts[c], t));
    hide Submissions, Insertable, AppendState;
  }

  /** An accepted submission is stored: it takes the conversation's lock, nothing that happens
      meanwhile can spoil it, and committing it adds exactly one run, queued, with the request's columns
      and the source that was active at the check. */
  lemma {:induction false} AcceptedSubmissionIsStored(steps: seq<Step>, c: Id, user: Id, d: Draft, climate: Climate, more: seq<Step>, t: Time)
    requires c !in After(steps).drafts && CheckSubmission(After(steps), c, user, d, climate) == Accepted
    requires forall s | s in more :: !Unlocks(s, c)
    ensures climate.source.Some?
    ensures var w := After(steps + [DoBeginSubmit(c, user, d, climate)] + more);
            Inserts(w, FinishSubmit(w, c, t), c, d, climate.source.value, t)
  {
    var begun := steps + [DoBeginSubmit(c, user, d, climate)];
    assert begun[..|begun| - 1] == steps;
    assert After(begun).drafts[c] == d.(source := climate.source.value);
    LockIsKeptOver(begun, more, c);
    Always(begun + more);
    hide After, Valid, Inserts, FinishSubmit, CheckSubmission, Unlocks;
    InsertsRow(After(begun + more), c, t);
  }

  // ---- Claims

  /** Delivering a queued run younger than an hour starts it: leased to a new worker for three minutes,
      its usage unknown, its log at `running`. Any other delivery changes nothing. */
  lemma {:induction false} ClaimStartsRun(steps: seq<Step>, id: Id, t: Time)
    ensures var w := After(steps);
            Claim(w, id, t) ==
            if id in w.runs && w.runs[id].status == Queued && w.runs[id].created > t - 3600000 then
              w.(next := w.next + 1,
                 runs := w.runs[id := w.runs[id].(status := Running, usage := Unknown, started := Some(t), token := Some(w.next),
                                                  expires := Some(t + 180000), events := map[1 := Queued, 2 := Running])],
                 workers := w.workers[w.next := Worker(id, Phase.Claimed, t, "", None)])
            else w
  {
    if id in After(steps).runs && After(steps).runs[id].status == Queued {
      StoredRunOk(steps, id);
      hide After;
      SecondEvent(After(steps).runs[id], After(steps).next, t);
    }
    hide After, StartRun;
  }

  /** The lease lasts for those three minutes, and is nobody else's. */
  lemma {:induction false} LeaseIsExact(steps: seq<Step>, id: Id, t: Time, token: Id, u: Time)
    requires var w := After(steps); id in w.runs && w.runs[id].status == Queued && w.runs[id].created > t - 3600000
    ensures var w := After(steps);
            var v := Claim(w, id, t);
            (HoldsUntil(v, token, u) && v.workers[token].run == id) <==> token == w.next && u < t + 180000
  {
    ClaimStartsRun(steps, id, t);
    hide After, Claim;
  }

  lemma SecondEvent(r: Run, token: Id, t: Time)
    requires RunOk(r) && r.status == Queued
    ensures StartRun(r, token, t) == r.(status := Running, usage := Unknown, started := Some(t), token := Some(token), expires := Some(t + 180000),
                                        events := map[1 := Queued, 2 := Running])
  {
    LastSequenceIsLength(r.events, [Queued]);
    assert r.events == map[1 := Queued];
    assert r.events[2 := Running] == map[1 := Queued, 2 := Running];
  }

  // ---- Endings

  /** The run has ended: its lease and its preview are gone, its log is one entry longer, and nothing
      else about it has changed. */
  ghost predicate Ended(r: Run, s: Run, status: Status, error: Option<string>, t: Time) {
    && s == r.(status := status, finished := Some(t), token := None, expires := None, error := error, preview := "", events := s.events)
    && Logs(s.events, Path(r) + [status])
  }

  lemma EndIsExact(r: Run, status: Status, error: Option<string>, t: Time)
    requires RunOk(r) && r.status.Active() && (status == Failed || status == Cancelled)
    ensures Ended(r, EndRun(r, status, error, t), status, error, t)
  {
    EndOk(r, status, error, t);
  }

  /** Cancelling ends a queued or running run as cancelled, and is the only thing it changes; a
      finished run is left alone. */
  lemma {:induction false} CancelEndsRun(steps: seq<Step>, id: Id, t: Time)
    requires id in After(steps).runs
    ensures var w, v := After(steps), Cancel(After(steps), id, t);
            if w.runs[id].status == Queued || w.runs[id].status == Running then
              id in v.runs && Ended(w.runs[id], v.runs[id], Cancelled, None, t) && v == w.(runs := w.runs[id := v.runs[id]])
            else v == w
  {
    StoredRunOk(steps, id);
    hide After, RunOk, EndRun, Ended;
    if After(steps).runs[id].status.Active() { EndIsExact(After(steps).runs[id], Cancelled, None, t); }
  }

  /** A worker that has run into an error ends its run as failed, with the code of the error, while it
      holds the lease; otherwise it ends without a trace. */
  lemma {:induction false} FailureIsRecorded(steps: seq<Step>, token: Id, t: Time)
    requires token in After(steps).workers && After(steps).workers[token].phase.Failing?
    ensures var w, v := After(steps), FailRun(After(steps), token, t);
            var id, code := w.workers[token].run, w.workers[token].phase.code;
            && token in v.workers && v.workers[token] == w.workers[token].(phase := Stopped)
            && if id in w.runs && w.runs[id].status == Running && w.runs[id].token == Some(token) then
                 id in v.runs && Ended(w.runs[id], v.runs[id], Failed, Some(code), t) && v == w.(runs := w.runs[id := v.runs[id]], workers := v.workers)
               else v == w.(workers := v.workers)
  {
    var w := After(steps);
    var id := w.workers[token].run;
    if id in w.runs { StoredRunOk(steps, id); }
    hide After, RunOk, EndRun, Ended;
    if Holds(w, token) { EndIsExact(w.runs[id], Failed, Some(w.workers[token].phase.code), t); }
  }

  /** Whatever goes wrong while a worker answers becomes the error of its run. */
  lemma {:induction false} ErrorsFailTheRun(steps: seq<Step>, token: Id, code: string, t: Time)
    requires Holds(After(steps), token) && After(steps).workers[token].phase != Stopped
    ensures var w, v := After(steps), FailRun(Abort(After(steps), token, code), token, t);
            var id := w.workers[token].run;
            id in v.runs && Ended(w.runs[id], v.runs[id], Failed, Some(code), t)
  {
    StoredRunOk(steps, After(steps).workers[token].run);
    hide After, RunOk, EndRun, Ended;
    EndIsExact(After(steps).runs[After(steps).workers[token].run], Failed, Some(code), t);
  }

  /** One pass of the dispatcher fails exactly the running runs whose lease has run out and the queued
      runs of an hour or more, each with its own code, and leaves everything else alone. */
  lemma {:induction false} DispatchEndsRuns(steps: seq<Step>, t: Time)
    ensures var w, v := After(steps), Dispatch(After(steps), t);
            && v == w.(runs := v.runs) && v.runs.Keys == w.runs.Keys
            && forall id | id in w.runs :: Swept(w.runs[id], v.runs[id], t)
  {
    forall id | id in After(steps).runs ensures Swept(After(steps).runs[id], Dispatch(After(steps), t).runs[id], t) {
      StoredRunOk(steps, id);
      hide After;
      ExpiryIsExact(After(steps).runs[id], t);
    }
  }

  ghost predicate Swept(r: Run, s: Run, t: Time) {
    if r.status == Running && r.expires.Some? && r.expires.value < t then Ended(r, s, Failed, Some("answer_worker_lost"), t)
    else if r.status == Queued && r.created + 3600000 <= t then Ended(r, s, Failed, Some("answer_queue_expired"), t)
    else s == r
  }

  lemma ExpiryIsExact(r: Run, t: Time)
    requires RunOk(r)
    ensures Swept(r, Expire(r, t), t)
  {
    hide RunOk, EndRun, Ended;
    if r.status.Active() {
      EndIsExact(r, Failed, Some("answer_worker_lost"), t);
      EndIsExact(r, Failed, Some("answer_queue_expired"), t);
    }
  }

  // ---- Worker

  /** A worker that still holds its run pins the run's own columns; if the configuration has changed
      since, it will fail the run instead. */
  lemma LoadPins(w: World, token: Id, same: bool, t: Time)
    requires Holds(w, token) && w.workers[token].phase.Claimed? && w.runs[w.workers[token].run].conversation in w.conversations
    ensures var r := w.runs[w.workers[token].run];
            var user := w.conversations[r.conversation].user;
            Load(w, token, same, t) == w.(workers := w.workers[token :=
              if same then w.workers[token].(phase := Ready(Pin(r.conversation, user, r.question, r.source, r.hybrid), false), begun := t)
              else w.workers[token].(phase := Failing("answer_config_changed"))])
  {
  }

  /** A receipt is committed before the call, for the run and the kind of the call, under the lease. */
  lemma {:induction false} ReceiptIsOpened(steps: seq<Step>, token: Id, kind: Kind, t: Time)
    requires Asks(After(steps), token, kind) && HoldsUntil(After(steps), token, t)
    ensures var w := After(steps);
            Begin(w, token, kind, t) ==
            w.(next := w.next + 1, receipts := w.receipts[w.next := Receipt(w.workers[token].run, kind, None)],
               workers := w.workers[token := w.workers[token].(phase := Calling(w.workers[token].phase.pin, kind, w.next))])
  {
    ReceiptsNeverCollide(steps, token, kind);
    hide After;
  }

  /** Whatever a call returns is accounted for: while the run is stored, cancelled or not, the receipt
      of the call is filled in with the usage reported, accepted or rejected, and nothing else
      changes but the worker. A rejected result makes the worker fail its run. */
  lemma {:induction false} ReturnIsAccounted(steps: seq<Step>, token: Id, o: Outcome)
    requires token in After(steps).workers && After(steps).workers[token].phase.Awaiting?
    ensures var w, v := After(steps), Finish(After(steps), token, o);
            var p := w.workers[token].phase;
            && v == w.(receipts := v.receipts, workers := v.workers)
            && v.receipts == (if w.workers[token].run in w.runs
                              then w.receipts[p.receipt := Receipt(w.workers[token].run, p.kind, Some((o.input, o.output)))] else w.receipts)
            && token in v.workers && v.workers == w.workers[token := v.workers[token]]
            && (o.Reject? ==> v.workers[token] == w.workers[token].(phase := Failing("model_invalid")))
            && (o.Accept? && p.kind == QueryEmbedding ==> v.workers[token] == w.workers[token].(phase := Ready(p.pin, true)))
  {
    Always(steps);
    var w := After(steps);
    hide After, Numbered, Saved, AllPublished, AllAccounted, CallsOk, Leased, Submissions, RunOk;
    assert WorkerOk(w.workers[token], w.runs, w.receipts, w.conversations, w.calls);
    if w.workers[token].run !in w.runs { StrayReceipt(w, token); }
    hide Valid, Billed, Rows, WorkersOk;
  }

  /** The receipt of a deleted run is deleted too. */
  lemma StrayReceipt(w: World, token: Id)
    requires Valid(w) && token in w.workers && w.workers[token].phase.Awaiting? && w.workers[token].run !in w.runs
    ensures w.workers[token].phase.receipt !in w.receipts
  {
    hide RunOk, Rows, Saved, AllPublished, AllAccounted, CallsOk, Leased, Submissions, WorkersOk;
    assert SlotOk(w.workers[token], w.receipts, w.next);
  }

  // ---- Previews

  /** What is shown of the excerpts: they are taken in order, 8000 characters of them, without NUL. */
  lemma {:induction false} ShownIsExact(a: string, b: string)
    ensures '\0' !in Shown(a)
    ensures |a| <= 8000 && '\0' !in a ==> Shown(a) == a
    ensures |a| + |b| <= 8000 ==> Shown(a + b) == Shown(a) + Shown(b)
    ensures Shown("\0") == ""
    ensures |a| >= 8000 ==> Shown(a + b) == Shown(a[..8000])
  {
    WithoutNulIsExact(a, b);
    WithoutNulIsExact(a[..if |a| <= 8000 then |a| else 8000], "");
    if |a| >= 8000 { assert (a + b)[..8000] == a[..8000] == a[..8000][..8000]; }
    assert "\0"[1..] == "";
    hide WithoutNul;
    assert WithoutNul("\0") == "" by { assert "\0"[1..] == ""; }
  }

  lemma {:induction false} WithoutNulIsExact(a: string, b: string)
    ensures '\0' !in WithoutNul(a) && ('\0' !in a ==> WithoutNul(a) == a)
    ensures WithoutNul(a + b) == WithoutNul(a) + WithoutNul(b)
    decreases |a|
  {
    if a == "" {
      assert a + b == b;
    } else {
      WithoutNulIsExact(a[1..], b);
      FirstOf(a);
      FirstOf(a + b);
      assert (a + b)[1..] == a[1..] + b;
      hide WithoutNul;
      Regroup(if a[0] == '\0' then "" else [a[0]], WithoutNul(a[1..]), WithoutNul(b));
      assert a == [a[0]] + a[1..];
    }
  }

  lemma FirstOf(a: string)
    requires a != ""
    ensures WithoutNul(a) == (if a[0] == '\0' then "" else [a[0]]) + WithoutNul(a[1..])
  {
  }

  /** While the worker waits for its generation and holds the lease, what has changed since its last
      preview is shown, one revision up, at most four times a second; the limit on revisions is not in
      the way. */
  lemma {:induction false} PreviewIsShown(steps: seq<Step>, token: Id, text: string, tick: Time, t: Time)
    requires HoldsUntil(After(steps), token, t) && After(steps).workers[token].phase.Awaiting?
    requires After(steps).workers[token].phase.kind == Generation
    requires var k := After(steps).workers[token]; k.begun <= tick <= k.begun + 60000
    ensures var w := After(steps);
            var k, r := w.workers[token], w.runs[w.workers[token].run];
            Delta(w, token, text, tick, t) ==
            if (k.written.Some? && tick < k.written.value + 250) || Shown(text) == k.previous then w
            else w.(runs := w.runs[k.run := r.(preview := Shown(text), revision := r.revision + 1)],
                    workers := w.workers[token := k.(previous := Shown(text), written := Some(tick))])
  {
    PreviewLimitNeverHit(steps, After(steps).workers[token].run);
    hide After, Shown;
  }

  /** What becomes of a worker whose lease is gone or has run out: a preview makes it fail, and so does
      a receipt; at publication it ends silently. Nothing is stored. */
  lemma LateWorkersStop(w: World, token: Id, text: string, tick: Time, kind: Kind, t: Time)
    requires token in w.workers && !HoldsUntil(w, token, t)
    ensures Writes(w, token, Shown(text), tick) ==>
              Delta(w, token, text, tick, t) == w.(workers := w.workers[token := w.workers[token].(phase := Failing("answer_stopped"))])
    ensures Asks(w, token, kind) ==>
              Begin(w, token, kind, t) == w.(workers := w.workers[token := w.workers[token].(phase := Failing("answer_inactive"))])
    ensures w.workers[token].phase.Answered? && w.workers[token].phase.pin.conversation !in w.drafts ==>
              Publish(w, token, t) == w.(workers := w.workers[token := w.workers[token].(phase := Stopped)])
  {
    hide Shown, HoldsUntil;
  }

  // ---- Conversations

  /** A full conversation takes no answer: publication leaves every transcript and every run as they
      were, and the run then fails for that reason. */
  lemma {:induction false} FullConversationFailsRun(steps: seq<Step>, token: Id, t: Time)
    requires HoldsUntil(After(steps), token, t) && After(steps).workers[token].phase.Answered?
    requires var w := After(steps);
             var c := w.runs[w.workers[token].run].conversation;
             c !in w.drafts && c in w.conversations && w.conversations[c].messageCount == 200
    ensures var w, v := After(steps), Publish(After(steps), token, t);
            && v == w.(workers := w.workers[token := w.workers[token].(phase := Failing("conversation_full"))])
            && var id := w.workers[token].run;
               id in FailRun(v, token, t).runs && Ended(w.runs[id], FailRun(v, token, t).runs[id], Failed, Some("conversation_full"), t)
  {
    Always(steps);
    StoredRunOk(steps, After(steps).workers[token].run);
    hide After, Valid, RunOk, EndRun, Ended, Publish;
    FullConversationRefuses(After(steps), token, t);
    EndIsExact(After(steps).runs[After(steps).workers[token].run], Failed, Some("conversation_full"), t);
  }

  lemma FullConversationRefuses(w: World, token: Id, t: Time)
    requires Valid(w) && HoldsUntil(w, token, t) && w.workers[token].phase.Answered?
    requires var c := w.runs[w.workers[token].run].conversation; c !in w.drafts && c in w.conversations && w.conversations[c].messageCount == 200
    ensures Publish(w, token, t) == w.(workers := w.workers[token := w.workers[token].(phase := Failing("conversation_full"))])
  {
    hide Valid, Shape, RunOk;
    HolderFacts(w, token);
  }

  /** A new conversation is empty and belongs to its creator. */
  lemma {:induction false} NewConversationIsEmpty(steps: seq<Step>, user: Id)
    ensures var w := After(steps);
            && w.next !in w.conversations
            && CreateConversation(w, user) == w.(next := w.next + 1, conversations := w.conversations[w.next := Conversation(user, 0, map[])])
  {
    Always(steps);
    hide After, Rows, Saved, AllPublished, Billed, AllAccounted, CallsOk, WorkersOk, Leased, Submissions;
  }

  /** A question asked directly, without a run, saves its pair under a turn of its own behind all
      earlier messages, unless the conversation is full, locked or gone. */
  lemma {:induction false} DirectAnswerIsSaved(steps: seq<Step>, c: Id, question: string, a: Answer)
    ensures var w, v := After(steps), Ask(After(steps), c, question, a);
            if c in w.conversations && c !in w.drafts && w.conversations[c].messageCount < 200 then
              && c in v.conversations && v == w.(next := w.next + 1, conversations := w.conversations[c := v.conversations[c]])
              && v.conversations[c].messageCount == w.conversations[c].messageCount + 2
              && PairAt(v.conversations[c], w.conversations[c].messageCount + 1, w.next, question, a)
              && (forall p | p in w.conversations[c].messages :: p in v.conversations[c].messages && v.conversations[c].messages[p] == w.conversations[c].messages[p])
            else v == w
  {
    TranscriptsKeepShape(steps);
    hide After;
    AskIsExact(After(steps), c, question, a);
  }

  lemma AskIsExact(w: World, c: Id, question: string, a: Answer)
    requires Saved(w.conversations, w.runs)
    ensures var v := Ask(w, c, question, a);
            if c in w.conversations && c !in w.drafts && w.conversations[c].messageCount < 200 then
              && c in v.conversations && v == w.(next := w.next + 1, conversations := w.conversations[c := v.conversations[c]])
              && v.conversations[c].messageCount == w.conversations[c].messageCount + 2
              && PairAt(v.conversations[c], w.conversations[c].messageCount + 1, w.next, question, a)
              && (forall p | p in w.conversations[c].messages :: p in v.conversations[c].messages && v.conversations[c].messages[p] == w.conversations[c].messages[p])
            else v == w
  {
    if c in w.conversations {
      assert Shape(w.conversations[c]);
      AppendKeepsShape(w.conversations[c], w.next, question, a);
    }
    hide Saved, PairAt, Rendered;
  }

  /** Deleting unlocked conversations removes them with all their runs and those runs' receipts, and
      nothing else. */
  lemma {:induction false} DeletionIsComplete(steps: seq<Step>, cs: set<Id>)
    requires cs !! After(steps).drafts.Keys
    ensures var w, v := After(steps), Delete(After(steps), cs);
            && v == w.(conversations := v.conversations, runs := v.runs, receipts := v.receipts)
            && (forall c :: c in v.conversations <==> c in w.conversations && c !in cs)
            && (forall c | c in v.conversations :: v.conversations[c] == w.conversations[c])
            && (forall id :: id in v.runs <==> id in w.runs && w.runs[id].conversation !in cs)
            && (forall id | id in v.runs :: v.runs[id] == w.runs[id])
            && (forall x :: x in v.receipts <==> x in w.receipts && w.receipts[x].run in v.runs)
            && (forall x | x in v.receipts :: v.receipts[x] == w.receipts[x])
  {
    hide After;
  }
}
