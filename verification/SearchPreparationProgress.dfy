/** Progress of search preparation: a worker that keeps its lease and gets answers from its
    provider brings the job to completion, from wherever earlier workers left it. */
module SearchPreparationProgress {
  import opened Options
  import opened Leases
  import opened Embedding
  import opened SearchPreparation
  import opened SearchPreparationProofs
  import opened SearchPreparationResults

  /** The worker holds the lease of the job and is in the given phase. */
  ghost predicate At(w: World, token: Id, t: Time, id: Id, phase: Phase) {
    HeldBy(w, token, t) && w.workers[token] == Preparer(id, phase)
  }

  /** The job is still there, for the same repository, source and mode. */
  ghost predicate Same(w: World, v: World, id: Id) {
    && id in w.jobs && id in v.jobs && v.jobs[id].row.repository == w.jobs[id].row.repository
    && v.jobs[id].source == w.jobs[id].source && v.jobs[id].hybrid == w.jobs[id].hybrid
  }

  lemma {:induction false} AfterOne(sources: Sources, steps: seq<Step>, x: Step)
    ensures After(sources, steps + [x]) == Apply(After(sources, steps), sources, x)
  {
    assert (steps + [x])[..|steps + [x]| - 1] == steps;
  }

  lemma {:induction false} Reserves(sources: Sources, steps: seq<Step>, token: Id, t: Time, id: Id, rest: seq<Chunk>) returns (grant: nat)
    requires SourcesOk(sources) && rest != [] && At(After(sources, steps), token, t, id, Working(true, rest))
    ensures At(After(sources, steps + [DoReserve(token, t)]), token, t, id, Reserved(rest, grant))
    ensures Same(After(sources, steps), After(sources, steps + [DoReserve(token, t)]), id)
  {
    ReservationsNeverRunOut(sources, steps, token, t);
    AfterOne(sources, steps, DoReserve(token, t));
    grant := |After(sources, steps).jobs[id].grants|;
    hide After, SourcesOk, Batch, BatchTokens;
  }

  lemma {:induction false} Sends(sources: Sources, steps: seq<Step>, token: Id, t: Time, id: Id, rest: seq<Chunk>, grant: nat)
    requires At(After(sources, steps), token, t, id, Reserved(rest, grant))
    ensures At(After(sources, steps + [DoSend(token)]), token, t, id, Awaiting(rest))
    ensures Same(After(sources, steps), After(sources, steps + [DoSend(token)]), id)
  {
    AfterOne(sources, steps, DoSend(token));
    hide After, Batch, BatchTokens;
  }

  /** A provider that answers with one vector per input and an honest token count. */
  function Answered(rest: seq<Chunk>): seq<nat> {
    seq(|Flatten(Batch(rest))|, i => 0)
  }

  lemma {:induction false} Receives(sources: Sources, steps: seq<Step>, token: Id, t: Time, id: Id, rest: seq<Chunk>) returns (docs: seq<Document>, usage: nat)
    requires At(After(sources, steps), token, t, id, Awaiting(rest))
    ensures At(After(sources, steps + [DoReceive(token, Answered(rest), Tokens(Flatten(Batch(rest))))]), token, t, id, Built(true, rest, docs, usage))
    ensures Same(After(sources, steps), After(sources, steps + [DoReceive(token, Answered(rest), Tokens(Flatten(Batch(rest))))]), id)
  {
    var inputs := Flatten(Batch(rest));
    usage := Tokens(inputs);
    docs := Documents(Batch(rest), Some(Label(inputs, Answered(rest))));
    AfterOne(sources, steps, DoReceive(token, Answered(rest), usage));
    hide After, Batch, Flatten, Tokens, Documents, Label;
  }

  lemma {:induction false} Builds(sources: Sources, steps: seq<Step>, token: Id, t: Time, id: Id, rest: seq<Chunk>) returns (docs: seq<Document>)
    requires rest != [] && At(After(sources, steps), token, t, id, Working(false, rest))
    ensures At(After(sources, steps + [DoBuild(token)]), token, t, id, Built(false, rest, docs, 0))
    ensures Same(After(sources, steps), After(sources, steps + [DoBuild(token)]), id)
  {
    docs := Documents(Batch(rest), None);
    AfterOne(sources, steps, DoBuild(token));
    hide After, Batch, Documents;
  }

  lemma {:induction false} Stores(sources: Sources, steps: seq<Step>, token: Id, t: Time, id: Id, hybrid: bool, rest: seq<Chunk>, docs: seq<Document>, usage: nat)
    requires SourcesOk(sources) && At(After(sources, steps), token, t, id, Built(hybrid, rest, docs, usage))
    ensures |Batch(rest)| <= |rest|
    ensures At(After(sources, steps + [DoCheckpoint(token, t)]), token, t, id, Working(hybrid, rest[|Batch(rest)|..]))
    ensures Same(After(sources, steps), After(sources, steps + [DoCheckpoint(token, t)]), id)
  {
    ConstraintsNeverFire(sources, steps, token, t);
    AfterOne(sources, steps, DoCheckpoint(token, t));
    BatchIsPrefix(rest);
    hide After, SourcesOk, Batch, Insertable;
  }

  /** One batch: reserve, call, receive and checkpoint, or build and checkpoint. */
  lemma {:induction false} BatchAdvances(sources: Sources, steps: seq<Step>, token: Id, t: Time, id: Id, hybrid: bool, rest: seq<Chunk>) returns (more: seq<Step>)
    requires SourcesOk(sources) && rest != [] && At(After(sources, steps), token, t, id, Working(hybrid, rest))
    ensures |Batch(rest)| <= |rest|
    ensures At(After(sources, steps + more), token, t, id, Working(hybrid, rest[|Batch(rest)|..]))
    ensures Same(After(sources, steps), After(sources, steps + more), id)
  {
    hide At, After, SourcesOk, Batch;
    if hybrid {
      var a, b, c, d := DoReserve(token, t), DoSend(token), DoReceive(token, Answered(rest), Tokens(Flatten(Batch(rest)))), DoCheckpoint(token, t);
      var grant := Reserves(sources, steps, token, t, id, rest);
      Sends(sources, steps + [a], token, t, id, rest, grant);
      var docs, usage := Receives(sources, steps + [a] + [b], token, t, id, rest);
      Stores(sources, steps + [a] + [b] + [c], token, t, id, true, rest, docs, usage);
      more := [a] + [b] + [c] + [d];
      assert steps + [a] + [b] + [c] + [d] == steps + more;
    } else {
      var a, b := DoBuild(token), DoCheckpoint(token, t);
      var docs := Builds(sources, steps, token, t, id, rest);
      Stores(sources, steps + [a], token, t, id, false, rest, docs, 0);
      more := [a] + [b];
      assert steps + [a] + [b] == steps + more;
    }
  }

  lemma {:induction false} Completes(sources: Sources, steps: seq<Step>, token: Id, t: Time, id: Id, hybrid: bool)
    requires At(After(sources, steps), token, t, id, Working(hybrid, []))
    ensures Same(After(sources, steps), After(sources, steps + [DoComplete(token, t)]), id)
    ensures After(sources, steps + [DoComplete(token, t)]).jobs[id].row.status == Completed
  {
    AfterOne(sources, steps, DoComplete(token, t));
    hide After;
  }

  /** From any reachable state in which a worker holds the lease with a plan, there is a way on,
      by steps of that worker alone, to the completed job. */
  lemma {:induction false} HolderCanComplete(sources: Sources, steps: seq<Step>, token: Id, t: Time, id: Id, hybrid: bool, rest: seq<Chunk>) returns (more: seq<Step>)
    requires SourcesOk(sources) && At(After(sources, steps), token, t, id, Working(hybrid, rest))
    ensures Same(After(sources, steps), After(sources, steps + more), id) && After(sources, steps + more).jobs[id].row.status == Completed
    decreases |rest|
  {
    hide At, After, SourcesOk;
    if rest == [] {
      Completes(sources, steps, token, t, id, hybrid);
      more := [DoComplete(token, t)];
    } else {
      BatchIsPrefix(rest);
      var first := BatchAdvances(sources, steps, token, t, id, hybrid, rest);
      var later := HolderCanComplete(sources, steps + first, token, t, id, hybrid, rest[|Batch(rest)|..]);
      more := first + later;
      assert steps + first + later == steps + more;
    }
  }

  /** Resumption: whenever a job is claimable, a new worker can load its plan and bring it to
      completion, provided the remaining source still fits the budget. */
  lemma {:induction false} ClaimableJobCanComplete(sources: Sources, steps: seq<Step>, id: Id, t: Time) returns (more: seq<Step>)
    requires SourcesOk(sources) && id in After(sources, steps).jobs && Claimable(After(sources, steps).jobs[id].row, t)
    requires var j := After(sources, steps).jobs[id];
             j.source in sources && (j.hybrid ==> j.reserved + BatchTokens(Pending(sources[j.source], DoneIds(j.documents))) <= j.budget)
    ensures Same(After(sources, steps), After(sources, steps + more), id) && After(sources, steps + more).jobs[id].row.status == Completed
  {
    var w := After(sources, steps);
    var j, token := w.jobs[id], w.next;
    var rest := Pending(sources[j.source], DoneIds(j.documents));
    var a, b, c, d := DoClaim(id, t), DoLoadJob(token, true), DoLoadDone(token), DoReport(token, t);
    AfterOne(sources, steps, a);
    AfterOne(sources, steps + [a], b);
    AfterOne(sources, steps + [a] + [b], c);
    AfterOne(sources, steps + [a] + [b] + [c], d);
    hide After, SourcesOk, Pending, DoneIds, BatchTokens;
    var w1 := After(sources, steps + [a]);
    assert At(w1, token, t, id, Started) && w1.jobs[id] == j.(row := w1.jobs[id].row);
    var w2 := After(sources, steps + [a] + [b]);
    assert At(w2, token, t, id, Loaded(j.source, j.hybrid, j.budget - j.reserved)) && w2.jobs == w1.jobs;
    var w3 := After(sources, steps + [a] + [b] + [c]);
    assert At(w3, token, t, id, Planned(j.hybrid, rest)) && w3.jobs == w1.jobs;
    assert At(After(sources, steps + [a] + [b] + [c] + [d]), token, t, id, Working(j.hybrid, rest));
    hide At, Apply;
    var later := HolderCanComplete(sources, steps + [a] + [b] + [c] + [d], token, t, id, j.hybrid, rest);
    more := [a] + [b] + [c] + [d] + later;
    assert steps + [a] + [b] + [c] + [d] + later == steps + more;
  }
}
