/** The job table's transactions as the program performs them, each proved to leave exactly the
    table that the corresponding step of `JobTable` defines. */
module JobStore {
  import opened Options
  import opened Leases
  import JobTable

  class Store {
    var next: Id
    var jobs: map<Id, JobTable.Job>
    var claims: map<Id, JobTable.Claimed>

    constructor ()
      ensures Table() == JobTable.Empty
    {
      next, jobs, claims := 0, map[], map[];
    }

    ghost function Table(): JobTable.Table
      reads this
    {
      JobTable.Table(next, jobs, claims)
    }

    method Update(id: Id, row: Row)
      requires id in jobs
      modifies this`jobs
      ensures Table() == JobTable.SetRow(old(Table()), id, row)
    {
      jobs := jobs[id := jobs[id].(row := row)];
    }

    /** `claim_job`: one conditional update; no row means there is nothing to do. */
    method ClaimJob(id: Id, t: Time) returns (token: Option<Id>)
      modifies this
      ensures Table() == JobTable.ClaimJob(old(Table()), id, t)
      ensures token.Some? <==> id in old(jobs) && Claimable(old(jobs)[id].row, t)
      ensures token.Some? ==> token.value == old(next)
    {
      if id !in jobs { return None; }
      var row := jobs[id].row;
      if !row.current || row.attempts >= MAX_ATTEMPTS || row.available > t { return None; }
      if row.status != Queued && (row.status != Running || row.expires.None? || row.expires.value >= t) { return None; }
      var lease := next;
      next := next + 1;
      row := row.(status := Running, attempts := row.attempts + 1, token := Some(lease), expires := Some(t + LEASE),
                  claims := row.claims + [lease]);
      Update(id, row);
      claims := claims[lease := JobTable.Claimed(id, row.attempts)];
      token := Some(lease);
    }

    /** `publish_result` / `publish_index`; `false` is the LeaseLost exception. */
    method Publish(token: Id, product: Id, t: Time) returns (published: bool)
      modifies this`jobs
      ensures Table() == JobTable.Publish(old(Table()), token, product, t)
      ensures published <==> JobTable.Writes(old(Table()), token, t)
    {
      if token !in claims || claims[token].job !in jobs { return false; }
      var id := claims[token].job;
      if !Held(jobs[id].row, token, t) { return false; }
      Update(id, jobs[id].row.(status := Completed, token := None, expires := None));
      jobs := jobs[id := jobs[id].(product := Some(product))];
      published := true;
    }

    /** `record_failure`, which also decides about the retry. */
    method RecordFailure(token: Id, retryable: bool, t: Time)
      modifies this`jobs
      ensures Table() == JobTable.RecordFailure(old(Table()), token, retryable, t)
    {
      if token !in claims || claims[token].job !in jobs { return; }
      var id, attempt := claims[token].job, claims[token].attempt;
      var retry := retryable && attempt < MAX_ATTEMPTS;
      var row := jobs[id].row;
      if !Held(row, token, t) { return; }
      row := row.(status := if retry then Queued else Failed, token := None, expires := None, available := t + RETRY_STEP * attempt);
      Update(id, row);
    }

    /** `retry` of an import and `start` of an index: supersede, then insert. */
    method Replace(id: Id, rebuild: bool, t: Time) returns (replaced: bool)
      modifies this
      ensures Table() == JobTable.Replace(old(Table()), id, rebuild, t)
      ensures replaced ==> next == old(next) + 1 && old(next) in jobs && jobs[old(next)].row.status == Queued
    {
      if id !in jobs || !jobs[id].row.current { return false; }
      var row := jobs[id].row;
      if row.status != Failed && row.status != Cancelled && !(rebuild && row.status == Completed) { return false; }
      Update(id, row.(current := false));
      jobs := jobs[next := JobTable.Job(NewRow(row.repository, t), None)];
      next := next + 1;
      replaced := true;
    }

    method Cancel(id: Id) returns (cancelled: bool)
      modifies this`jobs
      ensures Table() == JobTable.Cancel(old(Table()), id)
      ensures cancelled <==> id in old(jobs) && !old(jobs)[id].row.status.Terminal()
    {
      cancelled := id in jobs && (jobs[id].row.status == Queued || jobs[id].row.status == Running);
      if cancelled {
        Update(id, jobs[id].row.(status := Cancelled, token := None, expires := None));
      }
    }

    /** `dispatch_once`: fail the jobs whose last attempt was lost. */
    method Dispatch(t: Time)
      modifies this`jobs
      ensures Table() == JobTable.Dispatch(old(Table()), t)
    {
      var rest := jobs.Keys;
      while rest != {}
        invariant rest <= jobs.Keys && jobs.Keys == old(jobs).Keys
        invariant forall id | id in jobs :: jobs[id] == if id in rest then old(jobs)[id] else old(jobs)[id].(row := Recover(old(jobs)[id].row, t))
        decreases rest
      {
        var id :| id in rest;
        if Exhausted(jobs[id].row, t) {
          Update(id, jobs[id].row.(status := Failed, token := None, expires := None));
        }
        rest := rest - {id};
      }
      assert jobs == JobTable.Dispatch(old(Table()), t).jobs;
    }
  }
}
