/** Progress of the answer-run protocol: a queued run that is delivered in time can be answered
    and published, whatever happened in the system before. */
module AnswerRunProgress {
  import opened Options
  import opened Transcripts
  import opened AnswerRuns
  import opened AnswerRunInvariant
  import opened AnswerRunSteps
  import opened AnswerRunResults
  import opened AnswerProvenance

  /** The worker holds its run's lease at t, the conversation c is unlocked and has room, and
      the worker is in the given phase. */
  ghost predicate At(w: World, token: Id, t: Time, id: Id, c: Id, phase: Phase) {
    && HoldsUntil(w, token, t) && w.workers[token].run == id && w.workers[token].phase == phase
    && w.runs[id].conversation == c && c !in w.drafts && c in w.conversations && w.conversations[c].messageCount < MAX_MESSAGES
  }

  lemma {:induction false} AfterOne(steps: seq<Step>, s: Step)
    ensures After(steps + [s]) == Apply(After(steps), s)
  {
    assert (steps + [s])[..|steps + [s]| - 1] == steps;
  }

  lemma {:induction false} Starts(steps: seq<Step>, id: Id, t: Time) returns (token: Id)
    requires Claimable(After(steps), id, t)
    requires var w := After(steps); var c := w.runs[id].conversation;
             c !in w.drafts && c in w.conversations && w.conversations[c].messageCount < MAX_MESSAGES
    ensures At(After(steps + [DoClaim(id, t)]), token, t, id, After(steps).runs[id].conversation, Phase.Claimed)
  {
    AfterOne(steps, DoClaim(id, t));
    token := After(steps).next;
    hide After, LastSequence;
  }

  lemma {:induction false} Loads(steps: seq<Step>, token: Id, t: Time, id: Id, c: Id) returns (pin: Pin)
    requires At(After(steps), token, t, id, c, Phase.Claimed)
    ensures At(After(steps + [DoLoad(token, true, t)]), token, t, id, c, Ready(pin, false))
  {
    AfterOne(steps, DoLoad(token, true, t));
    var w := After(steps);
    pin := Pin(c, w.conversations[c].user, w.runs[id].question, w.runs[id].source, w.runs[id].hybrid);
    hide After;
  }

  /** The next call of a worker that is ready. */
  ghost predicate Due(pin: Pin, embedded: bool, kind: Kind) {
    (kind == QueryEmbedding ==> pin.hybrid) && embedded == (pin.hybrid && kind == Generation)
  }

  /** Where an accepted call leads. */
  ghost predicate Led(kind: Kind, pin: Pin, phase: Phase, o: Outcome)
    requires o.Accept?
  {
    if kind == QueryEmbedding then phase == Ready(pin, true)
    else phase.Answered? && phase.pin == pin && Carries(phase.answer, o.answer, pin.source, o.input, o.output)
  }

  lemma {:induction false} Begins(steps: seq<Step>, token: Id, t: Time, id: Id, c: Id, pin: Pin, embedded: bool, kind: Kind) returns (receipt: Id)
    requires At(After(steps), token, t, id, c, Ready(pin, embedded)) && Due(pin, embedded, kind)
    ensures At(After(steps + [DoBegin(token, kind, t)]), token, t, id, c, Calling(pin, kind, receipt))
  {
    AfterOne(steps, DoBegin(token, kind, t));
    assert Asks(After(steps), token, kind);
    ReceiptsNeverCollide(steps, token, kind);
    receipt := After(steps).next;
    hide After;
  }

  lemma {:induction false} Sends(steps: seq<Step>, token: Id, t: Time, id: Id, c: Id, pin: Pin, kind: Kind, receipt: Id)
    requires At(After(steps), token, t, id, c, Calling(pin, kind, receipt))
    ensures At(After(steps + [DoSend(token)]), token, t, id, c, Awaiting(pin, kind, receipt))
  {
    AfterOne(steps, DoSend(token));
    hide After;
  }

  lemma {:induction false} Finishes(steps: seq<Step>, token: Id, t: Time, id: Id, c: Id, pin: Pin, kind: Kind, receipt: Id, o: Outcome) returns (phase: Phase)
    requires At(After(steps), token, t, id, c, Awaiting(pin, kind, receipt)) && o.Accept?
    ensures At(After(steps + [DoFinish(token, o)]), token, t, id, c, phase) && Led(kind, pin, phase, o)
  {
    AfterOne(steps, DoFinish(token, o));
    phase := Returned(Awaiting(pin, kind, receipt), o);
    hide After;
  }

  /** One paid call: receipt, request, accounted response. */
  lemma {:induction false} Calls(steps: seq<Step>, token: Id, t: Time, id: Id, c: Id, pin: Pin, embedded: bool, kind: Kind, o: Outcome)
    returns (more: seq<Step>, phase: Phase)
    requires At(After(steps), token, t, id, c, Ready(pin, embedded)) && Due(pin, embedded, kind) && o.Accept?
    ensures At(After(steps + more), token, t, id, c, phase) && Led(kind, pin, phase, o)
  {
    hide At, After, Due, Led;
    var x, y, z := DoBegin(token, kind, t), DoSend(token), DoFinish(token, o);
    var receipt := Begins(steps, token, t, id, c, pin, embedded, kind);
    Sends(steps + [x], token, t, id, c, pin, kind, receipt);
    phase := Finishes(steps + [x] + [y], token, t, id, c, pin, kind, receipt, o);
    more := [x] + [y] + [z];
    assert steps + [x] + [y] + [z] == steps + more;
  }

  lemma {:induction false} Publishes(steps: seq<Step>, token: Id, t: Time, id: Id, c: Id, phase: Phase) returns (p: nat)
    requires At(After(steps), token, t, id, c, phase) && phase.Answered?
    ensures SavedBy(After(steps + [DoPublish(token, t)]), id, p, phase.answer, token)
  {
    AfterOne(steps, DoPublish(token, t));
    Always(steps);
    hide After, Valid, Publish, SavedBy;
    HolderSaves(After(steps), token, t);
    p := After(steps).conversations[c].messageCount + 1;
  }

  lemma {:induction false} SecondCall(kind: Kind, pin: Pin, phase: Phase, o: Outcome)
    requires o.Accept? && kind == QueryEmbedding && Led(kind, pin, phase, o)
    ensures phase == Ready(pin, true)
  {
  }

  /** From a loaded run to an answer: the query embedding of a hybrid search, then generation. */
  lemma {:induction false} Answers(steps: seq<Step>, token: Id, t: Time, id: Id, c: Id, pin: Pin, o: Outcome) returns (more: seq<Step>, phase: Phase)
    requires At(After(steps), token, t, id, c, Ready(pin, false)) && o.Accept?
    ensures At(After(steps + more), token, t, id, c, phase) && phase.Answered? && Carries(phase.answer, o.answer, pin.source, o.input, o.output)
  {
    hide At, After, Carries;
    if pin.hybrid {
      var embed, ready := Calls(steps, token, t, id, c, pin, false, QueryEmbedding, o);
      SecondCall(QueryEmbedding, pin, ready, o);
      var generate, answered := Calls(steps + embed, token, t, id, c, pin, true, Generation, o);
      more, phase := embed + generate, answered;
      assert steps + embed + generate == steps + more;
    } else {
      more, phase := Calls(steps, token, t, id, c, pin, false, Generation, o);
    }
  }

  /** From any reachable state, a queued run younger than an hour whose conversation is unlocked
      and has room can be claimed, answered and published by steps of its own worker alone, with any
      answer and any usage: the answer is saved as it was given. */
  lemma {:induction false} QueuedRunCanComplete(steps: seq<Step>, id: Id, t: Time, answer: Answer, input: nat, output: nat)
    returns (more: seq<Step>, p: nat, saved: Answer, token: Id)
    requires Claimable(After(steps), id, t)
    requires var w := After(steps); var c := w.runs[id].conversation;
             c !in w.drafts && c in w.conversations && w.conversations[c].messageCount < MAX_MESSAGES
    ensures SavedBy(After(steps + more), id, p, saved, token) && Carries(saved, answer, saved.source, input, output)
  {
    var c := After(steps).runs[id].conversation;
    token := Starts(steps, id, t);
    hide *;
    var a, b, z := DoClaim(id, t), DoLoad(token, true, t), DoPublish(token, t);
    var pin := Loads(steps + [a], token, t, id, c);
    var calls, phase := Answers(steps + [a] + [b], token, t, id, c, pin, Accept(input, output, answer));
    p := Publishes(steps + [a] + [b] + calls, token, t, id, c, phase);
    saved := phase.answer;
    more := [a] + [b] + calls + [z];
    Chain(steps, [a], [b], calls, [z]);
    SameSource(saved, answer, pin.source, input, output);
  }

  lemma Chain(a: seq<Step>, b: seq<Step>, c: seq<Step>, d: seq<Step>, e: seq<Step>)
    ensures a + b + c + d + e == a + (b + c + d + e)
  {
  }

  lemma SameSource(saved: Answer, answer: Answer, source: Id, input: nat, output: nat)
    requires Carries(saved, answer, source, input, output)
    ensures Carries(saved, answer, saved.source, input, output)
  {
  }
}
