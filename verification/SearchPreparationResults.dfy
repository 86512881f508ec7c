/** Management of preparation jobs, and what holds over all runs: crashes, takeovers, failures,
    cancellations, restarts and deletions in any order. */
module SearchPreparationResults {
  import opened Options
  import opened Leases
  import opened Embedding
  import opened SearchPreparation
  import opened SearchPreparationProofs

  // ---- Management keeps the invariant

  /** A change of a job's lease columns that no worker can mistake for its own claim. */
  lemma RowKeeps(w: World, sources: Sources, id: Id, j: Job)
    requires Valid(w, sources) && id in w.jobs && JobOk(j, sources, w.next)
    requires j.row.repository == w.jobs[id].row.repository && (j.row.current ==> w.jobs[id].row.current)
    requires j.row.token.None? || (j.row.token == w.jobs[id].row.token && j.reserved == w.jobs[id].reserved && j.budget == w.jobs[id].budget)
    requires j.source == w.jobs[id].source && j.hybrid == w.jobs[id].hybrid && j.documents == w.jobs[id].documents
    requires j.input == w.jobs[id].input && j.grants == w.jobs[id].grants && j.sent == w.jobs[id].sent
    ensures Valid(Change(w, id, j), sources)
  {
    var v := Change(w, id, j);
    forall k | k in v.workers ensures WorkerOk(v.workers[k], k, v.jobs, sources) {
      assert WorkerOk(w.workers[k], k, w.jobs, sources);
      RowSpares(w.workers[k], k, w.jobs, sources, id, j);
    }
    hide WorkerOk, JobOk;
  }

  lemma RowSpares(k: Preparer, token: Id, jobs: Jobs, sources: Sources, id: Id, j: Job)
    requires WorkerOk(k, token, jobs, sources) && id in jobs
    requires j.row.token.None? || (j.row.token == jobs[id].row.token && j.reserved == jobs[id].reserved && j.budget == jobs[id].budget)
    requires j.source == jobs[id].source && j.hybrid == jobs[id].hybrid && j.documents == jobs[id].documents
    requires j.input == jobs[id].input && j.grants == jobs[id].grants && j.sent == jobs[id].sent
    ensures WorkerOk(k, token, jobs[id := j], sources)
  {
    hide Remaining, Batched;
  }

  lemma InsertKeeps(w: World, sources: Sources, repository: Id, source: Id, hybrid: bool, budget: nat, t: Time)
    requires Valid(w, sources) && source in sources && forall id :: !Current(w.jobs, id, repository)
    ensures Valid(Insert(w, NewJob(repository, source, hybrid, budget, t)), sources)
  {
    var v := Insert(w, NewJob(repository, source, hybrid, budget, t));
    forall a, b | a in v.jobs && b in v.jobs && a != b && v.jobs[a].row.repository == v.jobs[b].row.repository
      ensures !v.jobs[a].row.current || !v.jobs[b].row.current
    {
      assert !Current(w.jobs, a, repository) && !Current(w.jobs, b, repository);
    }
    forall k | k in v.workers ensures WorkerOk(v.workers[k], k, v.jobs, sources) {
      assert WorkerOk(w.workers[k], k, w.jobs, sources);
    }
    forall id | id in v.jobs ensures JobOk(v.jobs[id], sources, v.next) {
      if id != w.next { JobStaysOk(w.jobs[id], sources, w.next); } else { NewJobOk(sources, repository, source, hybrid, budget, t, v.next); }
    }
    hide WorkerOk, JobOk, NewJob;
  }

  lemma JobStaysOk(j: Job, sources: Sources, next: Id)
    requires JobOk(j, sources, next)
    ensures JobOk(j, sources, next + 1)
  {
    hide Stocked, RowOk, Budgeted;
  }

  lemma NewJobOk(sources: Sources, repository: Id, source: Id, hybrid: bool, budget: nat, t: Time, next: Id)
    requires source in sources
    ensures JobOk(NewJob(repository, source, hybrid, budget, t), sources, next)
  {
  }

  lemma ResumeOk(j: Job, sources: Sources, next: Id, budget: nat, t: Time)
    requires JobOk(j, sources, next) && j.row.status.Terminal() && j.row.current
    ensures JobOk(Resume(j, budget, t), sources, next)
  {
    ManagementKeeps(j.row, t);
    hide DistinctDocs, Made, Total, Used, CountAll;
  }

  lemma SupersedeOk(j: Job, sources: Sources, next: Id)
    requires JobOk(j, sources, next) && j.row.status.Terminal()
    ensures JobOk(j.(row := Supersede(j.row)), sources, next)
  {
    ManagementKeeps(j.row, 0);
    hide DistinctDocs, Made, Total, Used, CountAll;
  }

  lemma StartKeeps(w: World, sources: Sources, repository: Id, source: Id, hybrid: bool, budget: nat, admitted: bool, t: Time)
    requires Valid(w, sources)
    ensures Valid(Start(w, sources, repository, source, hybrid, budget, admitted, t), sources)
  {
    if Start(w, sources, repository, source, hybrid, budget, admitted, t) != w {
      var latest := Latest(w, repository);
      if latest.None? {
        InsertKeeps(w, sources, repository, source, hybrid, budget, t);
      } else {
        var id := latest.value;
        assert JobOk(w.jobs[id], sources, w.next);
        if w.jobs[id].source == source && w.jobs[id].hybrid == hybrid {
          ResumeOk(w.jobs[id], sources, w.next, budget, t);
          hide Valid, JobOk;
          RowKeeps(w, sources, id, Resume(w.jobs[id], budget, t));
        } else {
          ReplaceKeeps(w, sources, id, source, hybrid, budget, t);
        }
      }
    }
  }

  lemma ReplaceKeeps(w: World, sources: Sources, id: Id, source: Id, hybrid: bool, budget: nat, t: Time)
    requires Valid(w, sources) && source in sources && id in w.jobs && w.jobs[id].row.current && w.jobs[id].row.status.Terminal()
    ensures var j := w.jobs[id];
            Valid(Insert(Change(w, id, j.(row := Supersede(j.row))), NewJob(j.row.repository, source, hybrid, budget, t)), sources)
  {
    var j := w.jobs[id];
    var v := Change(w, id, j.(row := Supersede(j.row)));
    SupersedeOk(j, sources, w.next);
    forall x ensures !Current(v.jobs, x, j.row.repository) {}
    hide Valid, JobOk;
    RowKeeps(w, sources, id, j.(row := Supersede(j.row)));
    InsertKeeps(v, sources, j.row.repository, source, hybrid, budget, t);
  }

  lemma ClaimedOk(j: Job, sources: Sources, next: Id, t: Time)
    requires JobOk(j, sources, next) && Claimable(j.row, t)
    ensures JobOk(j.(row := Claim(j.row, next, t)), sources, next + 1)
  {
    ClaimKeeps(j.row, next, t);
    hide DistinctDocs, Made, Total, Used, CountAll, RowOk;
  }

  /** A takeover leaves the previous claimant without a token to match. */
  lemma ClaimSpares(w: World, sources: Sources, id: Id, t: Time, k: Id)
    requires WorkersOk(w.workers, w.jobs, sources, w.next) && k in w.workers && id in w.jobs
    ensures WorkerOk(w.workers[k], k, w.jobs[id := w.jobs[id].(row := Claim(w.jobs[id].row, w.next, t))], sources)
  {
    assert WorkerOk(w.workers[k], k, w.jobs, sources);
    hide PlanOk, GrantOk;
  }

  lemma ClaimedJobs(w: World, sources: Sources, id: Id, t: Time)
    requires JobsOk(w.jobs, sources, w.next) && OneCurrent(w.jobs) && id in w.jobs && Claimable(w.jobs[id].row, t)
    ensures var jobs := w.jobs[id := w.jobs[id].(row := Claim(w.jobs[id].row, w.next, t))];
            JobsOk(jobs, sources, w.next + 1) && OneCurrent(jobs)
  {
    ClaimedOk(w.jobs[id], sources, w.next, t);
    forall x | x in w.jobs && x != id ensures JobOk(w.jobs[x], sources, w.next + 1) { JobStaysOk(w.jobs[x], sources, w.next); }
    hide JobOk, Claimable;
  }

  lemma ClaimedWorkers(w: World, sources: Sources, id: Id, t: Time)
    requires WorkersOk(w.workers, w.jobs, sources, w.next) && Apart(w.workers) && id in w.jobs && id < w.next
    ensures var jobs, workers := w.jobs[id := w.jobs[id].(row := Claim(w.jobs[id].row, w.next, t))], w.workers[w.next := Preparer(id, Started)];
            WorkersOk(workers, jobs, sources, w.next + 1) && Apart(workers)
  {
    var jobs, workers := w.jobs[id := w.jobs[id].(row := Claim(w.jobs[id].row, w.next, t))], w.workers[w.next := Preparer(id, Started)];
    forall k | k in workers ensures WorkerOk(workers[k], k, jobs, sources) {
      if k != w.next { ClaimSpares(w, sources, id, t, k); }
    }
    hide WorkerOk;
  }

  lemma ClaimJobKeeps(w: World, sources: Sources, id: Id, t: Time)
    requires Valid(w, sources)
    ensures Valid(ClaimJob(w, id, t), sources)
  {
    if id in w.jobs && Claimable(w.jobs[id].row, t) {
      ClaimedJobs(w, sources, id, t);
      assert id < w.next by { hide JobOk; }
      ClaimedWorkers(w, sources, id, t);
      hide JobsOk, WorkersOk, Apart, OneCurrent, Claim, Claimable;
    }
  }

  lemma RowStays(j: Job, r: Row, sources: Sources, next: Id)
    requires JobOk(j, sources, next) && RowOk(r) && r.claims == j.row.claims && (r.status == Completed ==> j.row.status == Completed)
    ensures JobOk(j.(row := r), sources, next)
  {
    hide DistinctDocs, Made, Total, Used, CountAll, RowOk;
  }

  lemma CancelKeeps(w: World, sources: Sources, id: Id)
    requires Valid(w, sources)
    ensures Valid(Cancel(w, id), sources)
  {
    if id in w.jobs {
      var j := w.jobs[id];
      assert JobOk(j, sources, w.next);
      ManagementKeeps(j.row, 0);
      RowStays(j, CancelRow(j.row), sources, w.next);
      hide Valid, JobOk;
      RowKeeps(w, sources, id, j.(row := CancelRow(j.row)));
    }
  }

  lemma DispatchKeeps(w: World, sources: Sources, t: Time)
    requires Valid(w, sources)
    ensures Valid(Dispatch(w, t), sources)
  {
    var v := Dispatch(w, t);
    forall id | id in v.jobs ensures JobOk(v.jobs[id], sources, v.next) {
      assert JobOk(w.jobs[id], sources, w.next);
      ManagementKeeps(w.jobs[id].row, t);
      RowStays(w.jobs[id], Recover(w.jobs[id].row, t), sources, w.next);
    }
    forall k | k in v.workers ensures WorkerOk(v.workers[k], k, v.jobs, sources) {
      DispatchSpares(w, sources, t, k);
    }
    hide WorkerOk, JobOk;
  }

  lemma DispatchSpares(w: World, sources: Sources, t: Time, k: Id)
    requires WorkersOk(w.workers, w.jobs, sources, w.next) && k in w.workers
    ensures WorkerOk(w.workers[k], k, Dispatch(w, t).jobs, sources)
  {
    assert WorkerOk(w.workers[k], k, w.jobs, sources);
    hide Remaining, Batched, GrantOk;
  }

  lemma RemoveKeeps(w: World, sources: Sources, repository: Id)
    requires Valid(w, sources)
    ensures Valid(Remove(w, repository), sources)
  {
    var v := Remove(w, repository);
    forall k | k in v.workers ensures WorkerOk(v.workers[k], k, v.jobs, sources) {
      assert WorkerOk(w.workers[k], k, w.jobs, sources);
    }
    hide WorkerOk, JobOk;
  }

  // ---- Every reachable world

  lemma StepKeeps(w: World, sources: Sources, x: Step)
    requires Valid(w, sources) && SourcesOk(sources)
    ensures Valid(Apply(w, sources, x), sources)
  {
    hide Valid, SourcesOk;
    match x
    case DoStart(repository, source, hybrid, budget, admitted, t) => StartKeeps(w, sources, repository, source, hybrid, budget, admitted, t);
    case DoClaim(id, t) => ClaimJobKeeps(w, sources, id, t);
    case DoLoadJob(token, same) => LoadJobKeeps(w, sources, token, same);
    case DoLoadDone(token) => LoadDoneKeeps(w, sources, token);
    case DoReport(token, t) => ReportKeeps(w, sources, token, t);
    case DoReserve(token, t) => ReserveKeeps(w, sources, token, t);
    case DoSend(token) => SendKeeps(w, sources, token);
    case DoReceive(token, values, tokens) => ReceiveKeeps(w, sources, token, values, tokens);
    case DoBuild(token) => BuildKeeps(w, sources, token);
    case DoCheckpoint(token, t) => CheckpointKeeps(w, sources, token, t);
    case DoComplete(token, t) => CompleteKeeps(w, sources, token, t);
    case DoAbort(token) => AbortKeeps(w, sources, token);
    case DoFail(token, t) => FailKeeps(w, sources, token, t);
    case DoCancel(id) => CancelKeeps(w, sources, id);
    case DoDispatch(t) => DispatchKeeps(w, sources, t);
    case DoRemove(repository) => RemoveKeeps(w, sources, repository);
  }

  lemma {:induction false} Always(sources: Sources, steps: seq<Step>)
    requires SourcesOk(sources)
    ensures Valid(After(sources, steps), sources)
  {
    if steps == [] {
      assert After(sources, steps) == Empty;
    } else {
      Always(sources, steps[..|steps| - 1]);
      hide Valid, Apply, SourcesOk;
      StepKeeps(After(sources, steps[..|steps| - 1]), sources, steps[|steps| - 1]);
    }
  }

  // ---- Results

  /** A chunk is never stored twice, the counters are true, and a completed preparation has,
      for every chunk of its source, a document made from that chunk's own token parts. */
  lemma {:induction false} PreparationIsSound(sources: Sources, steps: seq<Step>, id: Id)
    requires SourcesOk(sources) && id in After(sources, steps).jobs
    ensures var j := After(sources, steps).jobs[id];
            && (forall a, b | 0 <= a < b < |j.documents| :: j.documents[a].chunk != j.documents[b].chunk)
            && j.stored == |j.documents|
            && j.input == (if j.hybrid then CountAll(j.documents) else 0)
            && j.source in sources
            && (j.row.status == Completed ==>
                  forall c | c in sources[j.source] :: exists d :: d in j.documents && FromOwnParts(c, j.hybrid, d))
  {
    Always(sources, steps);
    var j := After(sources, steps).jobs[id];
    hide After;
    assert JobOk(j, sources, After(sources, steps).next);
    if j.row.status == Completed {
      forall c | c in sources[j.source] ensures exists d :: d in j.documents && FromOwnParts(c, j.hybrid, d) {
        OwnDocument(sources[j.source], j, c);
      }
    }
  }

  lemma OwnDocument(chunks: seq<Chunk>, j: Job, c: Chunk)
    requires ChunksOk(chunks) && Stocked(j, chunks) && c in chunks && c.id in DoneIds(j.documents)
    ensures exists d :: d in j.documents && FromOwnParts(c, j.hybrid, d)
  {
    var d :| d in j.documents && d.chunk == c.id;
    assert Made(chunks, j.hybrid, d);
    var b :| b in chunks && FromOwnParts(b, j.hybrid, d);
    assert b == c;
  }

  function ChunkIds(chunks: seq<Chunk>): seq<Id> {
    seq(|chunks|, i requires 0 <= i < |chunks| => chunks[i].id)
  }

  function DocumentIds(docs: seq<Document>): seq<Id> {
    seq(|docs|, i requires 0 <= i < |docs| => docs[i].chunk)
  }

  /** Documents of all chunks, and of nothing else, carry the chunks' ids. */
  lemma SameIds(chunks: seq<Chunk>, j: Job, x: Id)
    requires Stocked(j, chunks) && forall c | c in chunks :: c.id in DoneIds(j.documents)
    ensures x in ChunkIds(chunks) <==> x in DocumentIds(j.documents)
  {
    if x in ChunkIds(chunks) {
      var i :| 0 <= i < |chunks| && ChunkIds(chunks)[i] == x;
      assert chunks[i] in chunks;
      var d :| d in j.documents && d.chunk == x;
      var k :| 0 <= k < |j.documents| && j.documents[k] == d;
      assert DocumentIds(j.documents)[k] == x;
    }
    if x in DocumentIds(j.documents) {
      var k :| 0 <= k < |j.documents| && DocumentIds(j.documents)[k] == x;
      assert j.documents[k] in j.documents && Made(chunks, j.hybrid, j.documents[k]);
      var c :| c in chunks && FromOwnParts(c, j.hybrid, j.documents[k]);
      var i :| 0 <= i < |chunks| && chunks[i] == c;
      assert ChunkIds(chunks)[i] == x;
    }
  }

  /** A completed preparation stored as many documents as its source has chunks. */
  lemma {:induction false} CompletedCountsChunks(sources: Sources, steps: seq<Step>, id: Id)
    requires SourcesOk(sources) && id in After(sources, steps).jobs && After(sources, steps).jobs[id].row.status == Completed
    ensures var j := After(sources, steps).jobs[id];
            j.source in sources && j.stored == |sources[j.source]|
  {
    Always(sources, steps);
    var j := After(sources, steps).jobs[id];
    hide After;
    assert JobOk(j, sources, After(sources, steps).next);
    var chunks := sources[j.source];
    DistinctSize(ChunkIds(chunks));
    DistinctSize(DocumentIds(j.documents));
    forall x ensures x in ChunkIds(chunks) <==> x in DocumentIds(j.documents) { SameIds(chunks, j, x); }
    hide Valid, ChunkIds, DocumentIds;
    assert Members(ChunkIds(chunks)) == Members(DocumentIds(j.documents));
  }

  function Members(s: seq<Id>): set<Id> {
    set x | x in s
  }

  lemma {:induction false} DistinctSize(s: seq<Id>)
    requires forall i, j | 0 <= i < j < |s| :: s[i] != s[j]
    ensures |Members(s)| == |s|
  {
    if s != [] {
      DistinctSize(s[1..]);
      assert s[0] !in Members(s[1..]);
      assert Members(s) == Members(s[1..]) + {s[0]};
    }
  }

  /** Spending: what was recorded, what was sent to the provider and what was reserved stay
      within the budget, whatever crashed and however often the job was restarted. */
  lemma {:induction false} SpendingStaysInBudget(sources: Sources, steps: seq<Step>, id: Id)
    requires SourcesOk(sources) && id in After(sources, steps).jobs
    ensures var j := After(sources, steps).jobs[id];
            j.input <= j.sent <= j.reserved <= j.budget
  {
    Always(sources, steps);
    hide After;
    assert JobOk(After(sources, steps).jobs[id], sources, After(sources, steps).next);
  }

  /** Every request is covered by its own unused reservation of exactly its size. */
  lemma {:induction false} RequestsAreReserved(sources: Sources, steps: seq<Step>, token: Id)
    requires SourcesOk(sources)
    requires var w := After(sources, steps);
             token in w.workers && w.workers[token].phase.Reserved? && w.workers[token].job in w.jobs
    ensures var w := After(sources, steps);
            var p, j := w.workers[token].phase, w.jobs[w.workers[token].job];
            && p.grant < |j.grants| && j.grants[p.grant] == Grant(Tokens(Flatten(Batch(p.rest))), false)
            && forall k | k in w.workers && k != token && w.workers[k].phase.Reserved? && w.workers[k].job == w.workers[token].job ::
                 w.workers[k].phase.grant != p.grant
  {
    Always(sources, steps);
    var w := After(sources, steps);
    hide After;
    assert WorkerOk(w.workers[token], token, w.jobs, sources);
    FlattenKeepsTokens(Batch(w.workers[token].phase.rest));
  }

  /** The check made when the plan is drawn up is enough: while the lease is held, no
      reservation is ever refused for want of budget, so a refusal means that the lease is gone. */
  lemma {:induction false} ReservationsNeverRunOut(sources: Sources, steps: seq<Step>, token: Id, t: Time)
    requires SourcesOk(sources) && HeldBy(After(sources, steps), token, t)
    requires var p := After(sources, steps).workers[token].phase; p.Working? && p.hybrid && p.rest != []
    ensures Reserve(After(sources, steps), token, t).workers[token].phase.Reserved?
  {
    Always(sources, steps);
    var w := After(sources, steps);
    hide After;
    HolderPlan(w, sources, token, t);
    BatchAndLater(w.workers[token].phase.rest);
  }

  /** The table's document constraints never reject the holder's checkpoint. */
  lemma {:induction false} ConstraintsNeverFire(sources: Sources, steps: seq<Step>, token: Id, t: Time)
    requires SourcesOk(sources) && HeldBy(After(sources, steps), token, t) && After(sources, steps).workers[token].phase.Built?
    ensures var w := After(sources, steps);
            Insertable(w.jobs[w.workers[token].job].documents, w.workers[token].phase.documents)
  {
    Always(sources, steps);
    var w := After(sources, steps);
    hide After;
    HolderPlan(w, sources, token, t);
    var j, p := w.jobs[w.workers[token].job], w.workers[token].phase;
    BatchIsInsertable(sources[j.source], j.documents, p.rest, p.hybrid, p.documents, p.usage);
  }

  /** What is on record about a job only grows. */
  ghost predicate Kept(j: Job, k: Job) {
    && j.documents <= k.documents && j.reserved <= k.reserved && j.input <= k.input && j.budget <= k.budget
    && j.source == k.source && j.hybrid == k.hybrid
  }

  lemma StartKept(w: World, sources: Sources, x: Step, id: Id)
    requires x.DoStart? && id in w.jobs && id < w.next && id in Apply(w, sources, x).jobs
    ensures Kept(w.jobs[id], Apply(w, sources, x).jobs[id])
  {
    hide Prepared, Current, Leases.Restart, Leases.Supersede, NewJob;
  }

  lemma WriteKept(w: World, sources: Sources, x: Step, id: Id)
    requires x.DoReserve? || x.DoSend? || x.DoCheckpoint?
    requires id in w.jobs && id < w.next && id in Apply(w, sources, x).jobs
    ensures Kept(w.jobs[id], Apply(w, sources, x).jobs[id])
  {
    hide Insertable, Batch, BatchTokens, Held;
    match x
    case DoReserve(_, _) => hide SearchPreparation.Send, SearchPreparation.Checkpoint;
    case DoSend(_) => hide SearchPreparation.Reserve, SearchPreparation.Checkpoint;
    case DoCheckpoint(_, _) => hide SearchPreparation.Reserve, SearchPreparation.Send;
  }

  lemma StepKept(w: World, sources: Sources, x: Step, id: Id)
    requires id in w.jobs && id < w.next && id in Apply(w, sources, x).jobs
    ensures Kept(w.jobs[id], Apply(w, sources, x).jobs[id])
  {
    hide Kept, Insertable, Batch, BatchTokens, Pending, Documents, Flatten, Tokens, Held, Claimable, Prepared;
    if x.DoStart? {
      hide Apply;
      StartKept(w, sources, x, id);
    } else if x.DoReserve? || x.DoSend? || x.DoCheckpoint? {
      hide Apply;
      WriteKept(w, sources, x, id);
    } else {
      assert Apply(w, sources, x).jobs[id] == w.jobs[id].(row := Apply(w, sources, x).jobs[id].row);
      hide Apply;
      RowOnly(w.jobs[id], Apply(w, sources, x).jobs[id].row);
    }
  }

  lemma RowOnly(j: Job, r: Row)
    ensures Kept(j, j.(row := r))
  {
  }

  lemma {:induction false} StepSurvives(sources: Sources, steps: seq<Step>, x: Step, id: Id)
    requires SourcesOk(sources) && id in After(sources, steps).jobs && id in Apply(After(sources, steps), sources, x).jobs
    ensures Kept(After(sources, steps).jobs[id], Apply(After(sources, steps), sources, x).jobs[id])
  {
    Always(sources, steps);
    hide After, JobOk, Apply, Kept;
    StepKept(After(sources, steps), sources, x, id);
  }

  lemma KeptOn(i: Job, j: Job, k: Job)
    requires Kept(i, j) && Kept(j, k)
    ensures Kept(i, k)
  {
  }

  ghost predicate Stored(w: World, id: Id) { id in w.jobs }

  /** Checkpointed work and reservations survive however the system goes on while the job is
      stored, restarts included. */
  lemma {:induction false} CheckpointsSurvive(sources: Sources, steps: seq<Step>, more: seq<Step>, id: Id)
    requires SourcesOk(sources) && forall n | 0 <= n <= |more| :: Stored(After(sources, steps + more[..n]), id)
    ensures Stored(After(sources, steps), id) && Stored(After(sources, steps + more), id)
    ensures Kept(After(sources, steps).jobs[id], After(sources, steps + more).jobs[id])
    decreases |more|
  {
    assert steps + more[..0] == steps && Stored(After(sources, steps + more[..0]), id);
    assert more[..|more|] == more && Stored(After(sources, steps + more[..|more|]), id);
    if more == [] {
      assert steps + more == steps;
    } else {
      var k := |more| - 1;
      forall n | 0 <= n <= k ensures Stored(After(sources, steps + more[..k][..n]), id) {
        assert more[..k][..n] == more[..n];
      }
      CheckpointsSurvive(sources, steps, more[..k], id);
      var all := steps + more;
      assert all[..|all| - 1] == steps + more[..k] && all[|all| - 1] == more[k];
      assert After(sources, all) == Apply(After(sources, steps + more[..k]), sources, more[k]);
      hide After, Apply, Kept, SourcesOk;
      StepSurvives(sources, steps + more[..k], more[k], id);
      KeptOn(After(sources, steps).jobs[id], After(sources, steps + more[..k]).jobs[id], After(sources, all).jobs[id]);
    }
  }

  /** The writes of a worker that are conditional on its lease. */
  ghost predicate FencedWrite(x: Step, token: Id, t: Time) {
    x in {DoReport(token, t), DoReserve(token, t), DoCheckpoint(token, t), DoComplete(token, t), DoFail(token, t)}
  }

  /** A worker whose lease is gone changes nothing that is stored. */
  lemma StaleWritesAreRefused(w: World, sources: Sources, x: Step, token: Id, t: Time)
    requires FencedWrite(x, token, t) && !HeldBy(w, token, t)
    ensures Apply(w, sources, x).jobs == w.jobs
  {
  }

  /** The worker's job is gone or leased to another worker, or to none. */
  ghost predicate Lost(w: World, token: Id) {
    token in w.workers && (w.workers[token].job in w.jobs ==> w.jobs[w.workers[token].job].row.token != Some(token))
  }

  lemma ManagementLost(w: World, sources: Sources, x: Step, token: Id)
    requires Lost(w, token) && token < w.next
    requires x.DoStart? || x.DoClaim? || x.DoCancel? || x.DoDispatch? || x.DoRemove?
    ensures Lost(Apply(w, sources, x), token)
  {
    hide Claimable, Prepared, Exhausted;
    if x.DoStart? && Latest(w, x.repository).Some? { assert Current(w.jobs, Latest(w, x.repository).value, x.repository); }
  }

  lemma WritesLost(w: World, sources: Sources, x: Step, token: Id)
    requires Lost(w, token) && (x.DoReserve? || x.DoSend? || x.DoCheckpoint?)
    ensures Lost(Apply(w, sources, x), token)
  {
    hide Insertable, Batch, BatchTokens, Held;
    match x
    case DoReserve(_, _) => hide SearchPreparation.Send, SearchPreparation.Checkpoint;
    case DoSend(_) => hide SearchPreparation.Reserve, SearchPreparation.Checkpoint;
    case DoCheckpoint(_, _) => hide SearchPreparation.Reserve, SearchPreparation.Send;
  }

  lemma MovesLost(w: World, sources: Sources, x: Step, token: Id)
    requires Lost(w, token) && (x.DoLoadJob? || x.DoLoadDone? || x.DoReport? || x.DoReceive? || x.DoBuild? || x.DoAbort?)
    ensures Lost(Apply(w, sources, x), token)
  {
    hide Batch, BatchTokens, Pending, Documents, Flatten, Tokens, Held, Label;
  }

  lemma EndsLost(w: World, sources: Sources, x: Step, token: Id)
    requires Lost(w, token) && (x.DoComplete? || x.DoFail?)
    ensures Lost(Apply(w, sources, x), token)
  {
    hide Held;
  }

  lemma {:induction false} LostForEver(sources: Sources, steps: seq<Step>, more: seq<Step>, token: Id)
    requires SourcesOk(sources) && Lost(After(sources, steps), token)
    ensures Lost(After(sources, steps + more), token)
    decreases |more|
  {
    if more == [] {
      assert steps + more == steps;
    } else {
      var k := |more| - 1;
      var all, x := steps + more, more[k];
      assert all[..|all| - 1] == steps + more[..k] && all[|all| - 1] == x;
      var w := After(sources, steps + more[..k]);
      assert After(sources, all) == Apply(w, sources, x);
      LostForEver(sources, steps, more[..k], token);
      Always(sources, steps + more[..k]);
      WorkersAreOld(w, sources, token);
      hide After, Apply, Lost, Valid;
      if x.DoStart? || x.DoClaim? || x.DoCancel? || x.DoDispatch? || x.DoRemove? { ManagementLost(w, sources, x, token); }
      else if x.DoReserve? || x.DoSend? || x.DoCheckpoint? { WritesLost(w, sources, x, token); }
      else if x.DoComplete? || x.DoFail? { EndsLost(w, sources, x, token); }
      else { MovesLost(w, sources, x, token); }
    }
  }

  lemma WorkersAreOld(w: World, sources: Sources, token: Id)
    requires Valid(w, sources) && Lost(w, token)
    ensures token < w.next
  {
  }

  /** Once its job is leased to another worker, or finished, cancelled, restarted or removed, a
      worker never writes again: however the system goes on and whatever clock it reads, none of its
      conditional writes changes anything that is stored. */
  lemma {:induction false} StaleWorkersAreFenced(sources: Sources, steps: seq<Step>, more: seq<Step>, x: Step, token: Id, t: Time)
    requires SourcesOk(sources) && Lost(After(sources, steps), token) && FencedWrite(x, token, t)
    ensures var w := After(sources, steps + more); Apply(w, sources, x).jobs == w.jobs
  {
    LostForEver(sources, steps, more, token);
    hide After, Apply, FencedWrite;
    StaleWritesAreRefused(After(sources, steps + more), sources, x, token, t);
  }

  /** Once every chunk has a document, the holder that works off its plan has nothing left: the
      next thing it can do is complete the job. */
  lemma {:induction false} NothingRemainsWhenDone(sources: Sources, steps: seq<Step>, token: Id, t: Time)
    requires SourcesOk(sources) && HeldBy(After(sources, steps), token, t) && After(sources, steps).workers[token].phase.Working?
    ensures var w := After(sources, steps);
            var j := w.jobs[w.workers[token].job];
            && j.source in sources
            && (w.workers[token].phase.rest == [] <==> forall c | c in sources[j.source] :: c.id in DoneIds(j.documents))
  {
    Always(sources, steps);
    var w := After(sources, steps);
    hide After;
    HolderPlan(w, sources, token, t);
    var rest := w.workers[token].phase.rest;
    if rest != [] { assert rest[0] in rest; }
  }
}
