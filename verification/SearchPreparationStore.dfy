/** The transactions of search preparation as the program performs them, each proved to leave
    exactly the world that the corresponding step of `SearchPreparation` defines. */
module SearchPreparationStore {
  import opened Options
  import opened Leases
  import opened Embedding
  import SP = SearchPreparation
  import Proofs = SearchPreparationProofs

  class Store {
    var next: Id
    var jobs: map<Id, SP.Job>
    var workers: map<Id, SP.Preparer>

    constructor ()
      ensures World() == SP.Empty
    {
      next, jobs, workers := 0, map[], map[];
    }

    ghost function World(): SP.World
      reads this
    {
      SP.World(next, jobs, workers)
    }

    method Move(token: Id, phase: SP.Phase)
      requires token in workers
      modifies this`workers
      ensures World() == SP.Moved(old(World()), token, phase)
    {
      workers := workers[token := workers[token].(phase := phase)];
    }

    /** `latest`: the current job of a repository; a partial unique index allows only one. */
    method Latest(repository: Id) returns (latest: Option<Id>)
      requires Proofs.OneCurrent(jobs)
      ensures latest == SP.Latest(World(), repository)
    {
      var rest := jobs.Keys;
      while rest != {}
        invariant rest <= jobs.Keys
        invariant forall id | id in jobs && id !in rest :: !SP.Current(jobs, id, repository)
        decreases rest
      {
        var id :| id in rest;
        if jobs[id].row.repository == repository && jobs[id].row.current {
          assert SP.Current(jobs, id, repository);
          return Some(id);
        }
        rest := rest - {id};
      }
      latest := None;
    }

    /** `active`: whether the source is prepared in this mode already. */
    method IsPrepared(repository: Id, source: Id, hybrid: bool) returns (found: bool)
      ensures found <==> exists id :: SP.Prepared(World(), id, repository, source, hybrid)
    {
      var rest := jobs.Keys;
      while rest != {}
        invariant rest <= jobs.Keys
        invariant forall id | id in jobs && id !in rest :: !SP.Prepared(World(), id, repository, source, hybrid)
        decreases rest
      {
        var id :| id in rest;
        var j := jobs[id];
        if j.row.repository == repository && j.row.status == Completed && j.source == source && j.hybrid == hybrid {
          assert SP.Prepared(World(), id, repository, source, hybrid);
          return true;
        }
        rest := rest - {id};
      }
      found := false;
    }

    method Start(sources: SP.Sources, repository: Id, source: Id, hybrid: bool, budget: nat, admitted: bool, t: Time)
      requires Proofs.OneCurrent(jobs)
      modifies this`next, this`jobs
      ensures World() == SP.Start(old(World()), sources, repository, source, hybrid, budget, admitted, t)
    {
      if source !in sources { return; }
      var latest := Latest(repository);
      if latest.Some? && (jobs[latest.value].row.status == Queued || jobs[latest.value].row.status == Running) { return; }
      var prepared := IsPrepared(repository, source, hybrid);
      assert World() == old(World());
      if prepared || !admitted { return; }
      if latest.Some? && jobs[latest.value].source == source && jobs[latest.value].hybrid == hybrid {
        var j := jobs[latest.value];
        var row := j.row.(status := Queued, attempts := 0, token := None, expires := None, available := t, claims := []);
        j := j.(row := row);
        if budget > j.budget { j := j.(budget := budget); }
        jobs := jobs[latest.value := j];
      } else {
        if latest.Some? {
          var row := jobs[latest.value].row.(current := false);
          jobs := jobs[latest.value := jobs[latest.value].(row := row)];
        }
        jobs := jobs[next := SP.NewJob(repository, source, hybrid, budget, t)];
        next := next + 1;
      }
    }

    /** `lease_condition` on the worker's job. */
    method Holding(token: Id, t: Time) returns (held: bool)
      ensures held <==> SP.HeldBy(World(), token, t)
    {
      held := token in workers && workers[token].job in jobs && Held(jobs[workers[token].job].row, token, t);
    }

    method PendingChunks(chunks: seq<Chunk>, done: set<Id>) returns (rest: seq<Chunk>)
      ensures rest == SP.Pending(chunks, done)
    {
      rest := [];
      for i := 0 to |chunks|
        invariant rest + SP.Pending(chunks[i..], done) == SP.Pending(chunks, done)
      {
        assert chunks[i..][0] == chunks[i] && chunks[i..][1..] == chunks[i + 1..];
        if chunks[i].id !in done { rest := rest + [chunks[i]]; }
      }
    }

    method LoadDone(sources: SP.Sources, token: Id)
      requires token in workers && workers[token].phase.Loaded? && workers[token].phase.source in sources
      modifies this`workers
      ensures World() == SP.LoadDone(old(World()), sources, token)
    {
      var k := workers[token];
      var done: set<Id> := {};
      if k.job in jobs { done := SP.DoneIds(jobs[k.job].documents); }
      var rest := PendingChunks(sources[k.phase.source], done);
      if k.phase.hybrid {
        var required := BatchTokens(rest);
        if required > k.phase.left {
          Move(token, SP.Failing);
          return;
        }
      }
      Move(token, SP.Planned(k.phase.hybrid, rest));
    }

    /** `reserve` on behalf of the worker's next batch; `false` is the budget error. */
    method Reserve(token: Id, t: Time) returns (reserved: bool)
      requires token in workers && workers[token].phase.Working? && workers[token].phase.hybrid && workers[token].phase.rest != []
      modifies this`jobs, this`workers
      ensures World() == SP.Reserve(old(World()), token, t)
      ensures reserved <==> workers[token].phase.Reserved?
    {
      var rest := workers[token].phase.rest;
      var flat := FlattenParts(SP.Batch(rest));
      var tokens := Tokens(flat);
      FlattenKeepsTokens(SP.Batch(rest));
      var held := Holding(token, t);
      if !held || jobs[workers[token].job].reserved + tokens > jobs[workers[token].job].budget {
        Move(token, SP.Failing);
        return false;
      }
      var j := jobs[workers[token].job];
      jobs := jobs[workers[token].job := j.(reserved := j.reserved + tokens, grants := j.grants + [SP.Grant(tokens, false)])];
      Move(token, SP.Reserved(rest, |j.grants|));
      reserved := true;
    }

    /** The response is checked against the inputs and dealt back to the chunks. */
    method Receive(token: Id, values: seq<nat>, tokens: nat)
      requires token in workers && workers[token].phase.Awaiting?
      modifies this`workers
      ensures World() == SP.Receive(old(World()), token, values, tokens)
    {
      var rest := workers[token].phase.rest;
      var flat := FlattenParts(SP.Batch(rest));
      if |values| != |flat| || tokens != Tokens(flat) {
        Move(token, SP.Failing);
        return;
      }
      var documents := BuildDocuments(SP.Batch(rest), Some(SP.Label(flat, values)));
      Move(token, SP.Built(true, rest, documents, tokens));
    }

    /** Whether the new documents pass the table's constraints. */
    method Accepts(stored: seq<Document>, docs: seq<Document>) returns (ok: bool)
      ensures ok <==> SP.Insertable(stored, docs)
    {
      var taken := SP.DoneIds(stored);
      for i := 0 to |docs|
        invariant taken == SP.DoneIds(stored) + SP.DoneIds(docs[..i])
        invariant SP.Insertable(stored, docs[..i])
      {
        assert docs[..i + 1] == docs[..i] + [docs[i]];
        assert SP.DoneIds(docs[..i + 1]) == SP.DoneIds(docs[..i]) + {docs[i].chunk};
        if docs[i].chunk in taken || docs[i].tokenCount == 0 {
          assert docs[i] in docs;
          if docs[i].chunk in SP.DoneIds(docs[..i]) {
            var k :| 0 <= k < i && docs[k].chunk == docs[i].chunk;
          }
          return false;
        }
        taken := taken + {docs[i].chunk};
      }
      assert docs[..|docs|] == docs;
      ok := true;
    }

    /** `checkpoint`: counters first, then the documents; a constraint undoes both. */
    method Checkpoint(token: Id, t: Time)
      requires token in workers && workers[token].phase.Built?
      modifies this`jobs, this`workers
      ensures World() == SP.Checkpoint(old(World()), token, t)
    {
      var p := workers[token].phase;
      var held := Holding(token, t);
      if !held {
        Move(token, SP.Stopped);
        return;
      }
      var id := workers[token].job;
      var accepted := Accepts(jobs[id].documents, p.documents);
      if !accepted {
        Move(token, SP.Failing);
        return;
      }
      var j := jobs[id].(stored := jobs[id].stored + |p.documents|, input := jobs[id].input + p.usage);
      jobs := jobs[id := j.(documents := j.documents + p.documents)];
      Move(token, SP.Working(p.hybrid, p.rest[|SP.Batch(p.rest)|..]));
    }

    /** The end of a worker: completion after the last batch, or the recorded failure. */
    method Finish(token: Id, t: Time)
      requires token in workers && (workers[token].phase.Failing? || (workers[token].phase.Working? && workers[token].phase.rest == []))
      modifies this`jobs, this`workers
      ensures World() == if old(workers)[token].phase.Failing? then SP.Fail(old(World()), token, t) else SP.Complete(old(World()), token, t)
    {
      var status := if workers[token].phase.Failing? then Failed else Completed;
      var held := Holding(token, t);
      if held {
        var id := workers[token].job;
        var row := jobs[id].row.(status := status, token := None, expires := None);
        jobs := jobs[id := jobs[id].(row := row)];
      }
      Move(token, SP.Stopped);
    }
  }
}
