/** Import and index jobs as a state machine over one table: claims with takeover, fenced
    publication of results, retries, supersession by a newer job, cancellation, recovery by the
    dispatcher and deletion, in any order and with any clock readings. */
module JobTable {
  import opened Options
  import opened Leases

  /** A job row; `product` stands for the result rows published with it (files, or symbols and
      chunks), which are deleted with the row. */
  datatype Job = Job(row: Row, product: Option<Id>)

  /** A worker, identified by its lease token, remembers which attempt it is. */
  datatype Claimed = Claimed(job: Id, attempt: nat)

  datatype Table = Table(next: Id, jobs: map<Id, Job>, claims: map<Id, Claimed>)

  const Empty := Table(0, map[], map[])

  function SetRow(s: Table, id: Id, row: Row): Table
    requires id in s.jobs
  {
    s.(jobs := s.jobs[id := s.jobs[id].(row := row)])
  }

  function Insert(s: Table, repository: Id, t: Time): Table {
    s.(next := s.next + 1, jobs := s.jobs[s.next := Job(NewRow(repository, t), None)])
  }

  ghost predicate CurrentFor(s: Table, id: Id, repository: Id) {
    id in s.jobs && s.jobs[id].row.repository == repository && s.jobs[id].row.current
  }

  /** A repository's first job. */
  ghost function Create(s: Table, repository: Id, t: Time): Table {
    if exists id :: CurrentFor(s, id, repository) then s else Insert(s, repository, t)
  }

  /** A new job takes a finished one's place: an import retry only after failure or
      cancellation, a rebuild of an index (`rebuild`) also after completion by an older
      pipeline version. */
  function Replace(s: Table, id: Id, rebuild: bool, t: Time): Table {
    if id in s.jobs && s.jobs[id].row.current
       && (s.jobs[id].row.status == Failed || s.jobs[id].row.status == Cancelled || (rebuild && s.jobs[id].row.status == Completed)) then
      Insert(SetRow(s, id, Supersede(s.jobs[id].row)), s.jobs[id].row.repository, t)
    else s
  }

  function ClaimJob(s: Table, id: Id, t: Time): Table {
    if id in s.jobs && Claimable(s.jobs[id].row, t) then
      var row := Claim(s.jobs[id].row, s.next, t);
      SetRow(s, id, row).(next := s.next + 1, claims := s.claims[s.next := Claimed(id, row.attempts)])
    else s
  }

  predicate Writes(s: Table, token: Id, t: Time) {
    token in s.claims && s.claims[token].job in s.jobs && Held(s.jobs[s.claims[token].job].row, token, t)
  }

  /** `publish_result` and `publish_index`: status and results in one fenced transaction. */
  function Publish(s: Table, token: Id, product: Id, t: Time): Table {
    if Writes(s, token, t) then
      var id := s.claims[token].job;
      s.(jobs := s.jobs[id := Job(End(s.jobs[id].row, Completed), Some(product))])
    else s
  }

  /** `record_failure`: a retryable failure before the third attempt queues the job again. */
  function RecordFailure(s: Table, token: Id, retryable: bool, t: Time): Table {
    if Writes(s, token, t) then
      var id, attempt := s.claims[token].job, s.claims[token].attempt;
      SetRow(s, id, if retryable && attempt < MAX_ATTEMPTS then Retry(s.jobs[id].row, attempt, t) else GiveUp(s.jobs[id].row, attempt, t))
    else s
  }

  function Cancel(s: Table, id: Id): Table {
    if id in s.jobs then SetRow(s, id, CancelRow(s.jobs[id].row)) else s
  }

  function Dispatch(s: Table, t: Time): Table {
    s.(jobs := map id | id in s.jobs :: s.jobs[id].(row := Recover(s.jobs[id].row, t)))
  }

  function Remove(s: Table, repository: Id): Table {
    s.(jobs := map id | id in s.jobs && s.jobs[id].row.repository != repository :: s.jobs[id])
  }

  datatype Step =
    | DoCreate(repository: Id, t: Time)
    | DoReplace(id: Id, rebuild: bool, t: Time)
    | DoClaim(id: Id, t: Time)
    | DoPublish(token: Id, product: Id, t: Time)
    | DoFail(token: Id, retryable: bool, t: Time)
    | DoCancel(id: Id)
    | DoDispatch(t: Time)
    | DoRemove(repository: Id)

  ghost function Apply(s: Table, x: Step): Table {
    match x
    case DoCreate(repository, t) => Create(s, repository, t)
    case DoReplace(id, rebuild, t) => Replace(s, id, rebuild, t)
    case DoClaim(id, t) => ClaimJob(s, id, t)
    case DoPublish(token, product, t) => Publish(s, token, product, t)
    case DoFail(token, retryable, t) => RecordFailure(s, token, retryable, t)
    case DoCancel(id) => Cancel(s, id)
    case DoDispatch(t) => Dispatch(s, t)
    case DoRemove(repository) => Remove(s, repository)
  }

  ghost function After(steps: seq<Step>): Table {
    if steps == [] then Empty else Apply(After(steps[..|steps| - 1]), steps[|steps| - 1])
  }

  // ---- What holds in every reachable table

  ghost predicate JobOk(j: Job, next: Id) {
    && RowOk(j.row)
    && (j.product.Some? <==> j.row.status == Completed)
    && (forall x | x in j.row.claims :: x < next)
  }

  /** A worker's token is the claim its attempt number says. */
  ghost predicate Recorded(jobs: map<Id, Job>, token: Id, c: Claimed) {
    c.job in jobs ==>
      1 <= c.attempt <= |jobs[c.job].row.claims| && jobs[c.job].row.claims[c.attempt - 1] == token
  }

  ghost predicate TableOk(s: Table) {
    && (forall id | id in s.jobs :: id < s.next && JobOk(s.jobs[id], s.next))
    && (forall token | token in s.claims :: token < s.next && s.claims[token].job < s.next && Recorded(s.jobs, token, s.claims[token]))
    && (forall a, b | a in s.jobs && b in s.jobs && a != b && s.jobs[a].row.repository == s.jobs[b].row.repository ::
          !s.jobs[a].row.current || !s.jobs[b].row.current)
  }

  lemma InsertKeeps(s: Table, repository: Id, t: Time)
    requires TableOk(s) && forall id :: !CurrentFor(s, id, repository)
    ensures TableOk(Insert(s, repository, t))
  {
    var v := Insert(s, repository, t);
    forall a, b | a in v.jobs && b in v.jobs && a != b && v.jobs[a].row.repository == v.jobs[b].row.repository
      ensures !v.jobs[a].row.current || !v.jobs[b].row.current
    {
      assert !CurrentFor(s, a, repository) && !CurrentFor(s, b, repository);
    }
  }

  /** Changing one row without touching its history. */
  lemma RowKeeps(s: Table, id: Id, j: Job)
    requires TableOk(s) && id in s.jobs && JobOk(j, s.next)
    requires j.row.claims == s.jobs[id].row.claims && j.row.repository == s.jobs[id].row.repository
    requires j.row.current ==> s.jobs[id].row.current
    ensures TableOk(s.(jobs := s.jobs[id := j]))
  {
    forall token | token in s.claims ensures Recorded(s.jobs[id := j], token, s.claims[token]) {
      assert Recorded(s.jobs, token, s.claims[token]);
    }
  }

  lemma ReplaceKeeps(s: Table, id: Id, rebuild: bool, t: Time)
    requires TableOk(s)
    ensures TableOk(Replace(s, id, rebuild, t))
  {
    if Replace(s, id, rebuild, t) != s {
      var row := s.jobs[id].row;
      assert JobOk(s.jobs[id], s.next);
      ManagementKeeps(row, t);
      var v := SetRow(s, id, Supersede(row));
      RowKeeps(s, id, v.jobs[id]);
      InsertKeeps(v, row.repository, t);
    }
  }

  lemma ClaimJobKeeps(s: Table, id: Id, t: Time)
    requires TableOk(s)
    ensures TableOk(ClaimJob(s, id, t))
  {
    if id in s.jobs && Claimable(s.jobs[id].row, t) {
      var v := ClaimJob(s, id, t);
      assert JobOk(s.jobs[id], s.next);
      Leases.ClaimKeeps(s.jobs[id].row, s.next, t);
      forall token | token in v.claims ensures Recorded(v.jobs, token, v.claims[token]) {
        if token != s.next { assert Recorded(s.jobs, token, s.claims[token]); }
      }
      forall x | x in s.jobs ensures JobOk(v.jobs[x], v.next) { assert JobOk(s.jobs[x], s.next); }
    }
  }

  lemma WriteKeeps(s: Table, token: Id, product: Id, retryable: bool, t: Time)
    requires TableOk(s)
    ensures TableOk(Publish(s, token, product, t)) && TableOk(RecordFailure(s, token, retryable, t))
  {
    if Writes(s, token, t) {
      var id, attempt := s.claims[token].job, s.claims[token].attempt;
      assert JobOk(s.jobs[id], s.next) && Recorded(s.jobs, token, s.claims[token]);
      Leases.WritesKeep(s.jobs[id].row, token, t, Completed, attempt);
      Leases.WritesKeep(s.jobs[id].row, token, t, Failed, attempt);
      RowKeeps(s, id, Publish(s, token, product, t).jobs[id]);
      RowKeeps(s, id, RecordFailure(s, token, retryable, t).jobs[id]);
    }
  }

  lemma RecoverKeeps(j: Job, next: Id, t: Time)
    requires JobOk(j, next)
    ensures JobOk(j.(row := Recover(j.row, t)), next)
  {
    ManagementKeeps(j.row, t);
    hide RowOk;
  }

  lemma DispatchKeeps(s: Table, t: Time)
    requires TableOk(s)
    ensures TableOk(Dispatch(s, t))
  {
    var v := Dispatch(s, t);
    hide RowOk;
    forall id | id in v.jobs ensures JobOk(v.jobs[id], v.next) { RecoverKeeps(s.jobs[id], s.next, t); }
    forall token | token in v.claims ensures Recorded(v.jobs, token, v.claims[token]) { RecoverRecorded(s, t, token); }
    hide JobOk, Recorded, Recover;
  }

  lemma RecoverRecorded(s: Table, t: Time, token: Id)
    requires token in s.claims && Recorded(s.jobs, token, s.claims[token])
    ensures Recorded(Dispatch(s, t).jobs, token, s.claims[token])
  {
  }

  lemma StepKeeps(s: Table, x: Step)
    requires TableOk(s)
    ensures TableOk(Apply(s, x))
  {
    match x
    case DoCreate(repository, t) => if !exists id :: CurrentFor(s, id, repository) { InsertKeeps(s, repository, t); }
    case DoReplace(id, rebuild, t) => ReplaceKeeps(s, id, rebuild, t);
    case DoClaim(id, t) => ClaimJobKeeps(s, id, t);
    case DoPublish(token, product, t) => WriteKeeps(s, token, product, false, t);
    case DoFail(token, retryable, t) => WriteKeeps(s, token, 0, retryable, t);
    case DoCancel(id) =>
      if id in s.jobs {
        assert JobOk(s.jobs[id], s.next);
        ManagementKeeps(s.jobs[id].row, 0);
        RowKeeps(s, id, Cancel(s, id).jobs[id]);
      }
    case DoDispatch(t) => DispatchKeeps(s, t);
    case DoRemove(repository) =>
      forall token | token in s.claims ensures Recorded(Remove(s, repository).jobs, token, s.claims[token]) {
        assert Recorded(s.jobs, token, s.claims[token]);
      }
  }

  lemma {:induction false} Always(steps: seq<Step>)
    ensures TableOk(After(steps))
  {
    if steps != [] {
      Always(steps[..|steps| - 1]);
      hide TableOk, Apply;
      StepKeeps(After(steps[..|steps| - 1]), steps[|steps| - 1]);
    }
  }

  // ---- Results

  /** Only the worker of the latest claim can write to a job, and it does so under the attempt
      number the row has. */
  lemma {:induction false} OnlyLatestClaimWrites(steps: seq<Step>, token: Id, t: Time)
    requires Writes(After(steps), token, t)
    ensures var s := After(steps);
            var row := s.jobs[s.claims[token].job].row;
            row.claims != [] && token == row.claims[|row.claims| - 1] && s.claims[token].attempt == row.attempts
  {
    Always(steps);
    var s := After(steps);
    hide After;
    var c := s.claims[token];
    assert JobOk(s.jobs[c.job], s.next) && Recorded(s.jobs, token, c);
    OnlyLastClaimantWrites(s.jobs[c.job].row, token, t, c.attempt);
  }

  /** Results exist for exactly the completed jobs; a queued job is current with an attempt to
      spare; a superseded job is finished; no job is claimed more than three times; a repository
      has at most one current job. */
  lemma {:induction false} TableIsConsistent(steps: seq<Step>, id: Id)
    requires id in After(steps).jobs
    ensures var j := After(steps).jobs[id];
            && (j.product.Some? <==> j.row.status == Completed)
            && (j.row.status == Queued ==> j.row.current && j.row.attempts < MAX_ATTEMPTS)
            && (!j.row.current ==> j.row.status.Terminal())
            && |j.row.claims| == j.row.attempts <= MAX_ATTEMPTS
            && (j.row.current ==> forall x | x != id :: !CurrentFor(After(steps), x, j.row.repository))
  {
    Always(steps);
    var s := After(steps);
    hide After;
    assert JobOk(s.jobs[id], s.next);
  }

  lemma {:induction false} ResultStays(steps: seq<Step>, x: Step, id: Id)
    requires id in After(steps).jobs && After(steps).jobs[id].row.status == Completed && id in Apply(After(steps), x).jobs
    ensures Apply(After(steps), x).jobs[id].product == After(steps).jobs[id].product
    ensures Apply(After(steps), x).jobs[id].row.status == Completed
  {
    Always(steps);
    var s := After(steps);
    hide After;
    assert JobOk(s.jobs[id], s.next) && id < s.next;
    hide TableOk, RowOk;
  }

  ghost predicate Stored(s: Table, id: Id) { id in s.jobs }

  /** A published result is final: no later steps, takeovers or late workers replace it while the
      repository is kept. */
  lemma {:induction false} ResultsAreFinal(steps: seq<Step>, more: seq<Step>, id: Id)
    requires forall n | 0 <= n <= |more| :: Stored(After(steps + more[..n]), id)
    ensures Stored(After(steps), id) && Stored(After(steps + more), id)
    ensures var a, b := After(steps).jobs[id], After(steps + more).jobs[id];
            a.row.status == Completed ==> b.row.status == Completed && b.product == a.product
    decreases |more|
  {
    assert steps + more[..0] == steps && Stored(After(steps + more[..0]), id);
    assert more[..|more|] == more && Stored(After(steps + more[..|more|]), id);
    if more == [] {
      assert steps + more == steps;
    } else {
      var k := |more| - 1;
      forall n | 0 <= n <= k ensures Stored(After(steps + more[..k][..n]), id) {
        assert more[..k][..n] == more[..n];
      }
      ResultsAreFinal(steps, more[..k], id);
      var all := steps + more;
      assert all[..|all| - 1] == steps + more[..k] && all[|all| - 1] == more[k];
      assert After(all) == Apply(After(steps + more[..k]), more[k]);
      hide After, Apply;
      if After(steps + more[..k]).jobs[id].row.status == Completed { ResultStays(steps + more[..k], more[k], id); }
    }
  }

  // ---- What each transaction leaves, column by column

  ghost predicate OnlyJob(s: Table, v: Table, id: Id) {
    id in s.jobs && id in v.jobs && v == s.(jobs := s.jobs[id := v.jobs[id]])
  }

  /** The lease is gone; everything not named is as it was. */
  ghost predicate Freed(j: Job, k: Job, status: JobStatus, available: Time, product: Option<Id>) {
    k == Job(Row(j.row.repository, j.row.current, status, j.row.attempts, None, None, available, j.row.claims), product)
  }

  /** A failed attempt of the worker that holds the lease: a retryable failure of the first or second
      attempt queues the job again, after half a minute for each attempt made; any other failure ends
      it. Without the lease nothing is recorded. */
  lemma {:induction false} FailureIsRecorded(steps: seq<Step>, token: Id, retryable: bool, t: Time)
    ensures var s, v := After(steps), RecordFailure(After(steps), token, retryable, t);
            if Writes(s, token, t) then
              var id := s.claims[token].job;
              var n := s.jobs[id].row.attempts;
              && OnlyJob(s, v, id) && 1 <= n <= 3
              && (if retryable && n < 3 then Freed(s.jobs[id], v.jobs[id], Queued, t + 30000 * n, None)
                  else Freed(s.jobs[id], v.jobs[id], Failed, t + 30000 * n, None))
            else v == s
  {
    if Writes(After(steps), token, t) {
      OnlyLatestClaimWrites(steps, token, t);
      TableIsConsistent(steps, After(steps).claims[token].job);
    }
    hide After;
  }

  /** The holder of the lease completes its job and publishes its result with it; anyone else changes
      nothing. */
  lemma PublishedTogether(s: Table, token: Id, product: Id, t: Time)
    ensures var v := Publish(s, token, product, t);
            if Writes(s, token, t) then
              var id := s.claims[token].job;
              OnlyJob(s, v, id) && Freed(s.jobs[id], v.jobs[id], Completed, s.jobs[id].row.available, Some(product))
            else v == s
  {
  }

  /** A delivery takes a current job that waits, or whose worker has lost its lease, at most three
      times; any other delivery changes nothing. */
  lemma ClaimTakesLease(s: Table, id: Id, t: Time)
    ensures ClaimJob(s, id, t) ==
            if && id in s.jobs && var r := s.jobs[id].row;
                  r.current && r.attempts < 3 && r.available <= t
                  && (r.status == Queued || (r.status == Running && r.expires.Some? && r.expires.value < t)) then
              var r := s.jobs[id].row;
              var row := Row(r.repository, true, Running, r.attempts + 1, Some(s.next), Some(t + 180000), r.available, r.claims + [s.next]);
              Table(s.next + 1, s.jobs[id := Job(row, s.jobs[id].product)], s.claims[s.next := Claimed(id, r.attempts + 1)])
            else s
  {
  }

  /** Cancelling frees a waiting or running job as cancelled; a finished one stays as it is. */
  lemma {:induction false} CancelFreesJob(steps: seq<Step>, id: Id)
    requires id in After(steps).jobs
    ensures var s, v := After(steps), Cancel(After(steps), id);
            OnlyJob(s, v, id)
            && if s.jobs[id].row.status == Queued || s.jobs[id].row.status == Running
               then Freed(s.jobs[id], v.jobs[id], Cancelled, s.jobs[id].row.available, None) else v == s
  {
    TableIsConsistent(steps, id);
    hide After;
  }

  /** The dispatcher fails exactly the running jobs that have lost their third lease. */
  lemma {:induction false} DispatchFreesJobs(steps: seq<Step>, t: Time)
    ensures var s, v := After(steps), Dispatch(After(steps), t);
            && v == s.(jobs := v.jobs) && v.jobs.Keys == s.jobs.Keys
            && forall id | id in s.jobs ::
                 var r := s.jobs[id].row;
                 if r.status == Running && r.expires.Some? && r.expires.value < t && r.attempts >= 3
                 then Freed(s.jobs[id], v.jobs[id], Failed, r.available, None) else v.jobs[id] == s.jobs[id]
  {
    forall id | id in After(steps).jobs ensures After(steps).jobs[id].product.Some? <==> After(steps).jobs[id].row.status == Completed {
      TableIsConsistent(steps, id);
    }
    hide After;
  }

  /** A job as it waits for its first claim. */
  ghost predicate Waits(j: Job, repository: Id, t: Time) {
    j == Job(Row(repository, true, Queued, 0, None, None, t, []), None)
  }

  /** A repository's first job; one that has a current job gets no other this way. */
  lemma {:induction false} FirstJobWaits(steps: seq<Step>, repository: Id, t: Time)
    ensures var s, v := After(steps), Create(After(steps), repository, t);
            if exists id :: CurrentFor(s, id, repository) then v == s
            else s.next !in s.jobs && s.next in v.jobs && Waits(v.jobs[s.next], repository, t)
                 && v == s.(next := s.next + 1, jobs := s.jobs[s.next := v.jobs[s.next]])
  {
    Always(steps);
    hide After, JobOk;
  }

  /** Replacing a finished current job: it stays with its result but is no longer current, and a new
      job waits in its place. A completed one is replaced only by a rebuild, an active one never. */
  lemma {:induction false} ReplacementWaits(steps: seq<Step>, id: Id, rebuild: bool, t: Time)
    requires id in After(steps).jobs
    ensures var s, v := After(steps), Replace(After(steps), id, rebuild, t);
            var r := s.jobs[id].row;
            if r.current && (r.status == Failed || r.status == Cancelled || (rebuild && r.status == Completed)) then
              && s.next !in s.jobs && s.next in v.jobs && Waits(v.jobs[s.next], r.repository, t)
              && v == s.(next := s.next + 1, jobs := s.jobs[id := s.jobs[id].(row := r.(current := false))][s.next := v.jobs[s.next]])
            else v == s
  {
    Always(steps);
    hide After, JobOk;
  }

  /** Removing a repository removes exactly its jobs. */
  lemma RemovalIsComplete(s: Table, repository: Id)
    ensures var v := Remove(s, repository);
            && v == s.(jobs := v.jobs)
            && (forall id :: id in v.jobs <==> id in s.jobs && s.jobs[id].row.repository != repository)
            && (forall id | id in v.jobs :: v.jobs[id] == s.jobs[id])
  {
  }
}
