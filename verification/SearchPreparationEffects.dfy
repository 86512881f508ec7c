/** What each transaction of search preparation leaves behind in every reachable state, column by
    column; and that every source that fits its budget can be prepared. */
module SearchPreparationEffects {
  import opened Options
  import opened Leases
  import opened Embedding
  import opened SearchPreparation
  import opened SearchPreparationProofs
  import opened SearchPreparationResults
  import opened SearchPreparationProgress

  // ---- Starting

  ghost predicate Active(w: World, repository: Id) {
    exists id :: id in w.jobs && w.jobs[id].row.repository == repository && (w.jobs[id].row.status == Queued || w.jobs[id].row.status == Running)
  }

  /** The source is prepared in this mode. */
  ghost predicate Ready(w: World, repository: Id, source: Id, hybrid: bool) {
    exists id :: id in w.jobs && w.jobs[id].row.repository == repository && w.jobs[id].row.status == Completed && w.jobs[id].source == source
                 && w.jobs[id].hybrid == hybrid
  }

  /** A job as it waits for its first claim. */
  ghost predicate Waits(j: Job, repository: Id, source: Id, hybrid: bool, budget: nat, t: Time) {
    && j.row == Row(repository, true, Queued, 0, None, None, t, []) && j.source == source && j.hybrid == hybrid && j.budget >= budget
  }

  /** The finished current job of the repository is resumed: it waits again, keeps its documents, its
      reservations and its usage, and has the greater of the two budgets. */
  ghost predicate Resumes(w: World, v: World, id: Id, repository: Id, source: Id, hybrid: bool, budget: nat, t: Time) {
    && Current(w.jobs, id, repository) && w.jobs[id].source == source && w.jobs[id].hybrid == hybrid
    && id in v.jobs && Waits(v.jobs[id], repository, source, hybrid, budget, t)
    && v.jobs[id] == w.jobs[id].(row := v.jobs[id].row, budget := v.jobs[id].budget) && w.jobs[id].budget <= v.jobs[id].budget && v.jobs[id].budget in {w.jobs[id].budget, budget}
    && v == w.(jobs := w.jobs[id := v.jobs[id]])
  }

  /** A new, empty job takes the place of the current one, if there is one. */
  ghost predicate Begins(w: World, v: World, id: Id, repository: Id, source: Id, hybrid: bool, budget: nat, t: Time) {
    && id == w.next && id !in w.jobs && v.next == w.next + 1 && v.workers == w.workers
    && v.jobs.Keys == w.jobs.Keys + {id}
    && Waits(v.jobs[id], repository, source, hybrid, budget, t) && v.jobs[id].budget == budget
    && v.jobs[id].documents == [] && v.jobs[id].stored == 0 && v.jobs[id].input == 0 && v.jobs[id].reserved == 0
    && v.jobs[id].grants == [] && v.jobs[id].sent == 0
    && forall x | x in w.jobs ::
         v.jobs[x] == if Current(w.jobs, x, repository) then w.jobs[x].(row := w.jobs[x].row.(current := false)) else w.jobs[x]
  }

  lemma LatestIsCurrent(w: World, repository: Id)
    requires OneCurrent(w.jobs)
    ensures var latest := Latest(w, repository);
            && (latest.Some? <==> exists id :: Current(w.jobs, id, repository))
            && forall id: Id :: Current(w.jobs, id, repository) <==> latest == Some(id)
  {
  }

  /** Only current jobs are active. */
  lemma ActiveIsCurrent(w: World, sources: Sources, repository: Id)
    requires Valid(w, sources)
    ensures var latest := Latest(w, repository);
            Active(w, repository) <==> latest.Some? && !w.jobs[latest.value].row.status.Terminal()
  {
    hide JobOk;
    LatestIsCurrent(w, repository);
    var latest := Latest(w, repository);
    hide Latest;
    if Active(w, repository) {
      var id :| id in w.jobs && w.jobs[id].row.repository == repository && (w.jobs[id].row.status == Queued || w.jobs[id].row.status == Running);
      RowOfJob(w.jobs[id], sources, w.next);
      assert Current(w.jobs, id, repository);
    }
    if latest.Some? { assert Current(w.jobs, latest.value, repository); }
  }

  lemma RowOfJob(j: Job, sources: Sources, next: Id)
    requires JobOk(j, sources, next)
    ensures RowOk(j.row) && (!j.row.current ==> j.row.status.Terminal())
  {
  }

  lemma Starts(w: World, sources: Sources, repository: Id, source: Id, hybrid: bool, budget: nat, t: Time) returns (id: Id)
    requires Valid(w, sources) && source in sources && !Active(w, repository) && !Ready(w, repository, source, hybrid)
    ensures var v := Start(w, sources, repository, source, hybrid, budget, true, t);
            && Current(v.jobs, id, repository)
            && (if exists x :: Current(w.jobs, x, repository) && w.jobs[x].source == source && w.jobs[x].hybrid == hybrid
                then Resumes(w, v, id, repository, source, hybrid, budget, t) else Begins(w, v, id, repository, source, hybrid, budget, t))
  {
    ActiveIsCurrent(w, sources, repository);
    LatestIsCurrent(w, repository);
    assert forall x :: !Prepared(w, x, repository, source, hybrid);
    hide JobOk;
    var latest := Latest(w, repository);
    if latest.Some? && w.jobs[latest.value].source == source && w.jobs[latest.value].hybrid == hybrid {
      id := latest.value;
      assert Start(w, sources, repository, source, hybrid, budget, true, t) == Change(w, id, Resume(w.jobs[id], budget, t));
      hide Valid, Latest, Prepared, Start, Begins;
    } else {
      id := w.next;
      StartsAnew(w, sources, repository, source, hybrid, budget, t);
      hide Valid, Prepared, Start, Resumes;
    }
  }

  lemma StartsAnew(w: World, sources: Sources, repository: Id, source: Id, hybrid: bool, budget: nat, t: Time)
    requires Valid(w, sources) && source in sources && forall x :: !Prepared(w, x, repository, source, hybrid)
    requires var latest := Latest(w, repository);
             latest.Some? ==> w.jobs[latest.value].row.status.Terminal() && (w.jobs[latest.value].source != source || w.jobs[latest.value].hybrid != hybrid)
    ensures Begins(w, Start(w, sources, repository, source, hybrid, budget, true, t), w.next, repository, source, hybrid, budget, t)
    ensures Current(Start(w, sources, repository, source, hybrid, budget, true, t).jobs, w.next, repository)
  {
    LatestIsCurrent(w, repository);
    hide JobOk, Prepared;
    var latest := Latest(w, repository);
    hide Latest;
  }

  /** Starting a preparation. It is refused, without a trace, exactly for an unknown source, an active
      job, an existing preparation, or if settings or limits do not admit it. Otherwise it leaves one
      current job of the repository, waiting to be claimed for this source and mode with at least the
      budget asked for: the finished job of the same source and mode with all it has, or a new one. */
  lemma {:induction false} StartPrepares(sources: Sources, steps: seq<Step>, repository: Id, source: Id, hybrid: bool, budget: nat, admitted: bool, t: Time)
    returns (id: Id)
    requires SourcesOk(sources)
    ensures var w := After(sources, steps);
            var v := Start(w, sources, repository, source, hybrid, budget, admitted, t);
            if source !in sources || Active(w, repository) || Ready(w, repository, source, hybrid) || !admitted then v == w
            else
              && (forall x :: Current(v.jobs, x, repository) <==> x == id)
              && (if exists x :: Current(w.jobs, x, repository) && w.jobs[x].source == source && w.jobs[x].hybrid == hybrid
                  then Resumes(w, v, id, repository, source, hybrid, budget, t) else Begins(w, v, id, repository, source, hybrid, budget, t))
  {
    Always(sources, steps);
    var w := After(sources, steps);
    hide After, SourcesOk;
    var v := Start(w, sources, repository, source, hybrid, budget, admitted, t);
    if source in sources && !Active(w, repository) && !Ready(w, repository, source, hybrid) && admitted {
      id := Starts(w, sources, repository, source, hybrid, budget, t);
      StartKeeps(w, sources, repository, source, hybrid, budget, admitted, t);
      hide Start, Resumes, Begins, JobOk, WorkerOk;
    } else {
      StartRefuses(w, sources, repository, source, hybrid, budget, admitted, t);
      id := 0;
    }
  }

  lemma StartRefuses(w: World, sources: Sources, repository: Id, source: Id, hybrid: bool, budget: nat, admitted: bool, t: Time)
    requires Valid(w, sources)
    requires source !in sources || Active(w, repository) || Ready(w, repository, source, hybrid) || !admitted
    ensures Start(w, sources, repository, source, hybrid, budget, admitted, t) == w
  {
    ActiveIsCurrent(w, sources, repository);
    if Ready(w, repository, source, hybrid) {
      var id :| id in w.jobs && w.jobs[id].row.repository == repository && w.jobs[id].row.status == Completed && w.jobs[id].source == source
                && w.jobs[id].hybrid == hybrid;
      assert Prepared(w, id, repository, source, hybrid);
    }
  }

  /** What is still to be embedded fits the budget that the job will have. */
  ghost predicate Affordable(w: World, sources: Sources, repository: Id, source: Id, hybrid: bool, budget: nat)
    requires source in sources
  {
    hybrid ==>
      if exists x :: Current(w.jobs, x, repository) && w.jobs[x].source == source && w.jobs[x].hybrid == hybrid then
        forall x | Current(w.jobs, x, repository) ::
          w.jobs[x].reserved + BatchTokens(Pending(sources[source], DoneIds(w.jobs[x].documents)))
          <= if budget > w.jobs[x].budget then budget else w.jobs[x].budget
      else BatchTokens(sources[source]) <= budget
  }

  lemma {:induction false} NothingDone(chunks: seq<Chunk>)
    ensures Pending(chunks, {}) == chunks
  {
    if chunks != [] { NothingDone(chunks[1..]); }
  }

  lemma StartIsAffordable(w: World, v: World, id: Id, sources: Sources, repository: Id, source: Id, hybrid: bool, budget: nat, t: Time)
    requires source in sources && Affordable(w, sources, repository, source, hybrid, budget)
    requires if exists x :: Current(w.jobs, x, repository) && w.jobs[x].source == source && w.jobs[x].hybrid == hybrid
             then Resumes(w, v, id, repository, source, hybrid, budget, t) else Begins(w, v, id, repository, source, hybrid, budget, t)
    ensures id in v.jobs
    ensures var j := v.jobs[id];
            && j.row.repository == repository && j.source == source && j.hybrid == hybrid && Leases.Claimable(j.row, t)
            && (hybrid ==> j.reserved + BatchTokens(Pending(sources[source], DoneIds(j.documents))) <= j.budget)
  {
    NothingDone(sources[source]);
    assert DoneIds([]) == {};
    hide BatchTokens, Pending;
  }

  lemma {:induction false} StartedJobIsClaimable(sources: Sources, steps: seq<Step>, repository: Id, source: Id, hybrid: bool, budget: nat, t: Time)
    returns (id: Id)
    requires SourcesOk(sources) && source in sources
    requires var w := After(sources, steps);
             !Active(w, repository) && !Ready(w, repository, source, hybrid) && Affordable(w, sources, repository, source, hybrid, budget)
    ensures var v := After(sources, steps + [DoStart(repository, source, hybrid, budget, true, t)]);
            id in v.jobs
            && var j := v.jobs[id];
               && j.row.repository == repository && j.source == source && j.hybrid == hybrid && Leases.Claimable(j.row, t)
               && (hybrid ==> j.reserved + BatchTokens(Pending(sources[source], DoneIds(j.documents))) <= j.budget)
  {
    id := StartPrepares(sources, steps, repository, source, hybrid, budget, true, t);
    AfterOne(sources, steps, DoStart(repository, source, hybrid, budget, true, t));
    hide After, SourcesOk, Start, Resumes, Begins, Affordable, Active, Ready;
    var w := After(sources, steps);
    StartIsAffordable(w, Start(w, sources, repository, source, hybrid, budget, true, t), id, sources, repository, source, hybrid, budget, t);
  }

  /** From any reachable state in which a start is not refused, it leads on to the completed
      preparation with a document for every chunk, whenever the source, or what a finished job has
      left of it, fits the budget. */
  lemma {:induction false} StartedJobCanComplete(sources: Sources, steps: seq<Step>, repository: Id, source: Id, hybrid: bool, budget: nat, t: Time)
    returns (more: seq<Step>, id: Id)
    requires SourcesOk(sources) && source in sources
    requires var w := After(sources, steps);
             !Active(w, repository) && !Ready(w, repository, source, hybrid) && Affordable(w, sources, repository, source, hybrid, budget)
    ensures var v := After(sources, steps + [DoStart(repository, source, hybrid, budget, true, t)] + more);
            Prepared(v, id, repository, source, hybrid)
            && forall c | c in sources[source] :: exists d :: d in v.jobs[id].documents && FromOwnParts(c, hybrid, d)
  {
    var first := steps + [DoStart(repository, source, hybrid, budget, true, t)];
    id := StartedJobIsClaimable(sources, steps, repository, source, hybrid, budget, t);
    hide After, SourcesOk, Active, Ready, Affordable, FromOwnParts, BatchTokens, Pending, DoneIds;
    more := ClaimableJobCanComplete(sources, first, id, t);
    PreparationIsSound(sources, first + more, id);
  }

  /** In particular, from nothing. */
  lemma {:induction false} AnySourceCanBePrepared(sources: Sources, repository: Id, source: Id, hybrid: bool, budget: nat, t: Time)
    returns (steps: seq<Step>, id: Id)
    requires SourcesOk(sources) && source in sources && (hybrid ==> BatchTokens(sources[source]) <= budget)
    ensures Prepared(After(sources, steps), id, repository, source, hybrid)
  {
    assert After(sources, []) == Empty;
    var more: seq<Step>;
    more, id := StartedJobCanComplete(sources, [], repository, source, hybrid, budget, t);
    steps := [] + [DoStart(repository, source, hybrid, budget, true, t)] + more;
  }

  // ---- A job's row

  /** The job has ended or gone back: without a lease, everything else as it was. */
  ghost predicate Freed(j: Job, k: Job, status: JobStatus) {
    k == j.(row := Row(j.row.repository, j.row.current, status, j.row.attempts, None, None, j.row.available, j.row.claims))
  }

  /** Only the job may have changed. */
  ghost predicate OnlyJob(w: World, v: World, id: Id) {
    id in w.jobs && id in v.jobs && v == w.(jobs := w.jobs[id := v.jobs[id]])
  }

  /** A delivery takes a current job that waits, or whose worker has lost its lease, at most three
      times: the worker gets a lease of three minutes. Any other delivery changes nothing. */
  lemma ClaimTakesLease(w: World, id: Id, t: Time)
    ensures ClaimJob(w, id, t) ==
            if && id in w.jobs && var r := w.jobs[id].row;
                  r.current && r.attempts < 3 && r.available <= t
                  && (r.status == Queued || (r.status == Running && r.expires.Some? && r.expires.value < t)) then
              var r := w.jobs[id].row;
              var s := Row(r.repository, true, Running, r.attempts + 1, Some(w.next), Some(t + 180000), r.available, r.claims + [w.next]);
              World(w.next + 1, w.jobs[id := w.jobs[id].(row := s)], w.workers[w.next := Preparer(id, Started)])
            else w
  {
  }

  /** Cancelling frees a waiting or running job as cancelled and leaves any other alone. */
  lemma CancelFreesJob(w: World, id: Id)
    requires id in w.jobs
    ensures var v := Cancel(w, id);
            OnlyJob(w, v, id)
            && if w.jobs[id].row.status == Queued || w.jobs[id].row.status == Running then Freed(w.jobs[id], v.jobs[id], Cancelled) else v == w
  {
  }

  /** The dispatcher fails exactly the running jobs that have lost their third lease. */
  lemma DispatchFreesJobs(w: World, t: Time)
    ensures var v := Dispatch(w, t);
            && v == w.(jobs := v.jobs) && v.jobs.Keys == w.jobs.Keys
            && forall id | id in w.jobs ::
                 var r := w.jobs[id].row;
                 if r.status == Running && r.expires.Some? && r.expires.value < t && r.attempts >= 3 then Freed(w.jobs[id], v.jobs[id], Failed)
                 else v.jobs[id] == w.jobs[id]
  {
  }

  /** Removing a repository removes exactly its jobs. */
  lemma RemovalIsComplete(w: World, repository: Id)
    ensures var v := Remove(w, repository);
            && v == w.(jobs := v.jobs)
            && (forall id :: id in v.jobs <==> id in w.jobs && w.jobs[id].row.repository != repository)
            && (forall id | id in v.jobs :: v.jobs[id] == w.jobs[id])
  {
  }

  // ---- A worker's writes

  /** A worker that has run into an error fails its job while it holds the lease; one that has nothing
      left to do completes it; without the lease neither leaves a trace. */
  lemma EndingFreesJob(w: World, token: Id, t: Time, complete: bool)
    requires token in w.workers
    requires if complete then w.workers[token].phase.Working? && w.workers[token].phase.rest == [] else w.workers[token].phase.Failing?
    ensures var v, id := if complete then Complete(w, token, t) else Fail(w, token, t), w.workers[token].job;
            && v.workers == w.workers[token := Preparer(id, Stopped)] && v.next == w.next
            && if id in w.jobs && Held(w.jobs[id].row, token, t)
               then OnlyJob(w, v.(workers := w.workers), id) && Freed(w.jobs[id], v.jobs[id], if complete then Completed else Failed)
               else v.jobs == w.jobs
  {
  }

  /** The tokens of the next batch, chunk by chunk and part by part. */
  function BatchSize(batch: seq<Chunk>): nat { Tokens(Flatten(batch)) }

  /** Before a request, the holder reserves exactly the tokens that the request sends; if they do not
      fit or the lease is gone, nothing is reserved and the worker fails. */
  lemma ReservationIsExact(w: World, token: Id, t: Time)
    requires token in w.workers && w.workers[token].phase.Working? && w.workers[token].phase.hybrid && w.workers[token].phase.rest != []
    ensures var k, v := w.workers[token], Reserve(w, token, t);
            var n := BatchSize(if |k.phase.rest| <= 8 then k.phase.rest else k.phase.rest[..8]);
            if k.job in w.jobs && Held(w.jobs[k.job].row, token, t) && w.jobs[k.job].reserved + n <= w.jobs[k.job].budget then
              var j := w.jobs[k.job];
              v == w.(jobs := w.jobs[k.job := j.(reserved := j.reserved + n, grants := j.grants + [Grant(n, false)])],
                      workers := w.workers[token := Preparer(k.job, Reserved(k.phase.rest, |j.grants|))])
            else v == w.(workers := w.workers[token := Preparer(k.job, Failing)])
  {
    FlattenKeepsTokens(Batch(w.workers[token].phase.rest));
  }

  /** The request sends those tokens, and its reservation is used up. */
  lemma {:induction false} RequestIsCounted(sources: Sources, steps: seq<Step>, token: Id)
    requires SourcesOk(sources)
    requires var w := After(sources, steps); token in w.workers && w.workers[token].phase.Reserved? && w.workers[token].job in w.jobs
    ensures var w := After(sources, steps);
            var k := w.workers[token];
            var j, n := w.jobs[k.job], BatchSize(if |k.phase.rest| <= 8 then k.phase.rest else k.phase.rest[..8]);
            && k.phase.grant < |j.grants| && j.grants[k.phase.grant] == Grant(n, false)
            && Send(w, token) == w.(jobs := w.jobs[k.job := j.(grants := j.grants[k.phase.grant := Grant(n, true)], sent := j.sent + n)],
                                    workers := w.workers[token := Preparer(k.job, Awaiting(k.phase.rest))])
  {
    RequestsAreReserved(sources, steps, token);
    hide After, SourcesOk;
    SendIsExact(After(sources, steps), token);
  }

  lemma SendIsExact(w: World, token: Id)
    requires token in w.workers && w.workers[token].phase.Reserved? && w.workers[token].job in w.jobs
    requires var p, j := w.workers[token].phase, w.jobs[w.workers[token].job];
             p.grant < |j.grants| && j.grants[p.grant] == Grant(Tokens(Flatten(Batch(p.rest))), false)
    ensures var k := w.workers[token];
            var j, n := w.jobs[k.job], BatchSize(if |k.phase.rest| <= 8 then k.phase.rest else k.phase.rest[..8]);
            && j.grants[k.phase.grant] == Grant(n, false)
            && Send(w, token) == w.(jobs := w.jobs[k.job := j.(grants := j.grants[k.phase.grant := Grant(n, true)], sent := j.sent + n)],
                                    workers := w.workers[token := Preparer(k.job, Awaiting(k.phase.rest))])
  {
    FlattenKeepsTokens(Batch(w.workers[token].phase.rest));
    hide Flatten, Tokens, BatchTokens;
  }

  /** The holder's checkpoint stores its documents behind those stored before, counts them and the
      tokens they took, and goes on behind the batch. */
  lemma {:induction false} CheckpointIsStored(sources: Sources, steps: seq<Step>, token: Id, t: Time)
    requires SourcesOk(sources) && HeldBy(After(sources, steps), token, t) && After(sources, steps).workers[token].phase.Built?
    ensures var w := After(sources, steps);
            var k := w.workers[token];
            var j, p := w.jobs[k.job], k.phase;
            Checkpoint(w, token, t) ==
            w.(jobs := w.jobs[k.job := j.(documents := j.documents + p.documents, stored := j.stored + |p.documents|, input := j.input + p.usage)],
               workers := w.workers[token := Preparer(k.job, Working(p.hybrid, if |p.rest| <= 8 then [] else p.rest[8..]))])
  {
    ConstraintsNeverFire(sources, steps, token, t);
    hide After, SourcesOk, Insertable;
    var rest := After(sources, steps).workers[token].phase.rest;
    assert rest[|rest|..] == [];
  }

  /** The documents of a batch with all their vectors, in the order of the response. */
  function Dealt(docs: seq<Document>): seq<Vector> {
    if docs == [] then [] else docs[0].embedding.GetOr([]) + Dealt(docs[1..])
  }

  lemma {:induction false} DealtInOrder(batch: seq<Chunk>, vectors: seq<Vector>)
    requires |vectors| == |Flatten(batch)|
    ensures Dealt(Documents(batch, Some(vectors))) == vectors
    decreases |batch|
  {
    if batch != [] {
      var n := |batch[0].parts|;
      DealtInOrder(batch[1..], vectors[n..]);
      assert Documents(batch, Some(vectors))[1..] == Documents(batch[1..], Some(vectors[n..]));
      assert vectors == vectors[..n] + vectors[n..];
    }
  }

  /** A response with one value per part and the expected count of tokens becomes one document per
      chunk, of that chunk's own parts, with all values in the order received; any other response is
      refused. */
  lemma ResponseIsDealt(w: World, token: Id, values: seq<nat>, tokens: nat)
    requires token in w.workers && w.workers[token].phase.Awaiting?
    ensures var k, v := w.workers[token], Receive(w, token, values, tokens);
            var batch := if |k.phase.rest| <= 8 then k.phase.rest else k.phase.rest[..8];
            && token in v.workers && v == w.(workers := w.workers[token := v.workers[token]]) && v.workers[token].job == k.job
            && var p := v.workers[token].phase;
               if |values| == |Flatten(batch)| && tokens == BatchSize(batch) then
                 && p.Built? && p.hybrid && p.rest == k.phase.rest && p.usage == tokens && |p.documents| == |batch|
                 && (forall i | 0 <= i < |batch| :: FromOwnParts(batch[i], true, p.documents[i]))
                 && |Dealt(p.documents)| == |values| && forall i | 0 <= i < |values| :: Dealt(p.documents)[i] == Vector(Flatten(batch)[i], values[i])
               else p == Failing
  {
    var rest := w.workers[token].phase.rest;
    var batch, inputs := Batch(rest), Flatten(Batch(rest));
    if |values| == |inputs| && tokens == Tokens(inputs) {
      var vectors := Label(inputs, values);
      DealtInOrder(batch, vectors);
      forall i | 0 <= i < |batch| ensures FromOwnParts(batch[i], true, Documents(batch, Some(vectors))[i]) {
        DocumentsAreOwn(batch, Some(vectors), i);
      }
    }
    hide Documents, Flatten, Tokens, Dealt, FromOwnParts;
  }

  /** Keyword documents are made from the chunk alone. */
  lemma KeywordsAreBuilt(w: World, token: Id)
    requires token in w.workers && w.workers[token].phase.Working? && !w.workers[token].phase.hybrid && w.workers[token].phase.rest != []
    ensures var k, v := w.workers[token], Build(w, token);
            var batch := if |k.phase.rest| <= 8 then k.phase.rest else k.phase.rest[..8];
            && token in v.workers && v == w.(workers := w.workers[token := v.workers[token]]) && v.workers[token].job == k.job
            && var p := v.workers[token].phase;
               && p.Built? && !p.hybrid && p.rest == k.phase.rest && p.usage == 0 && |p.documents| == |batch|
               && forall i | 0 <= i < |batch| :: FromOwnParts(batch[i], false, p.documents[i])
  {
    var batch := Batch(w.workers[token].phase.rest);
    forall i | 0 <= i < |batch| ensures FromOwnParts(batch[i], false, Documents(batch, None)[i]) { DocumentsAreOwn(batch, None, i); }
    hide Documents, FromOwnParts;
  }

  /** A new worker reads its job as it is, lease or no lease; if the pipeline or the provider profile has
      changed since, it will fail the job, and without a job it ends. */
  lemma JobIsRead(w: World, token: Id, same: bool)
    requires token in w.workers && w.workers[token].phase.Started?
    ensures var k := w.workers[token];
            LoadJob(w, token, same) == w.(workers := w.workers[token := Preparer(k.job,
              if k.job !in w.jobs then Stopped else if !same then Failing
              else Loaded(w.jobs[k.job].source, w.jobs[k.job].hybrid, w.jobs[k.job].budget - w.jobs[k.job].reserved))])
  {
  }

  /** A worker goes to work on its plan only under the lease. */
  lemma PlanIsTakenUp(w: World, token: Id, t: Time)
    requires token in w.workers && w.workers[token].phase.Planned?
    ensures var k := w.workers[token];
            Report(w, token, t) == w.(workers := w.workers[token := Preparer(k.job,
              if k.job in w.jobs && Held(w.jobs[k.job].row, token, t) then Working(k.phase.hybrid, k.phase.rest) else Stopped)])
  {
  }

  /** The plan of a worker that has read its job: the chunks without a document, in order; a hybrid
      plan that does not fit what the budget had left is refused. */
  lemma PlanIsDrawnUp(w: World, sources: Sources, token: Id)
    requires token in w.workers && w.workers[token].phase.Loaded? && w.workers[token].phase.source in sources
    ensures var k, v := w.workers[token], LoadDone(w, sources, token);
            var rest := Pending(sources[k.phase.source], if k.job in w.jobs then DoneIds(w.jobs[k.job].documents) else {});
            v == w.(workers := w.workers[token :=
              Preparer(k.job, if k.phase.hybrid && BatchSize(rest) > k.phase.left then Failing else Planned(k.phase.hybrid, rest))])
  {
    var k := w.workers[token];
    FlattenKeepsTokens(Pending(sources[k.phase.source], if k.job in w.jobs then DoneIds(w.jobs[k.job].documents) else {}));
    hide Pending, DoneIds, Flatten, Tokens, BatchTokens;
  }

  /** The plan leaves the order of the source: it is what remains of the chunks when those with a
      document are dropped. */
  lemma {:induction false} PendingIsExact(a: seq<Chunk>, c: Chunk, b: seq<Chunk>, done: set<Id>)
    ensures Pending(a + b, done) == Pending(a, done) + Pending(b, done)
    ensures Pending([c], done) == (if c.id in done then [] else [c]) && Pending([], done) == []
    decreases |a|
  {
    assert [c][1..] == [];
    if a == [] {
      assert a + b == b;
    } else {
      assert (a + b)[1..] == a[1..] + b;
      PendingIsExact(a[1..], c, b, done);
    }
  }
}
