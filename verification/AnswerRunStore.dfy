/** The transactions of the answer-run protocol as the program performs them: statement by
    statement on mutable tables. Every method is proved to leave exactly the state that the
    corresponding step of `AnswerRuns` defines, so the invariant and the results proved for
    steps hold of these methods. */
module AnswerRunStore {
  import opened Options
  import opened Transcripts
  import AnswerRuns
  import opened AnswerRunInvariant

  type Time = AnswerRuns.Time
  type Run = AnswerRuns.Run
  type Receipt = AnswerRuns.Receipt
  type Worker = AnswerRuns.Worker
  type World = AnswerRuns.World

  class Database {
    var next: Id
    var conversations: map<Id, Conversation>
    var runs: map<Id, Run>
    var receipts: map<Id, Receipt>
    var drafts: map<Id, AnswerRuns.Draft>
    var workers: map<Id, Worker>
    ghost var calls: seq<AnswerRuns.Call>

    constructor ()
      ensures State() == AnswerRuns.Empty
    {
      next, conversations, runs, receipts, drafts, workers, calls := 0, map[], map[], map[], map[], map[], [];
    }

    ghost function State(): World
      reads this
    {
      AnswerRuns.World(next, conversations, runs, receipts, drafts, workers, calls)
    }

    /** `select max(sequence)` over a run's events, 0 when there is none. */
    method MaxSequence(events: map<nat, AnswerRuns.Status>) returns (m: nat)
      ensures m == AnswerRuns.LastSequence(events)
    {
      m := 0;
      var rest := events.Keys;
      while rest != {}
        invariant rest <= events.Keys
        invariant forall k | k in events && k !in rest :: k <= m
        invariant m == 0 || m in events
        decreases rest
      {
        var k :| k in rest;
        if m < k { m := k; }
        rest := rest - {k};
      }
      if events != map[] {
        var k :| k in events;
        assert AnswerRuns.LastSequence(events) in events.Keys;
      }
    }

    method AppendState(id: Id)
      requires id in runs
      modifies this`runs
      ensures runs == old(runs)[id := AnswerRuns.AppendState(old(runs)[id])]
    {
      var run := runs[id];
      if run.status.Terminal() {
        run := run.(preview := "");
      }
      var sequence := MaxSequence(run.events);
      runs := runs[id := run.(events := run.events[sequence + 1 := run.status])];
    }

    method SetPhase(token: Id, phase: AnswerRuns.Phase)
      requires token in workers
      modifies this`workers
      ensures State() == AnswerRuns.SetPhase(old(State()), token, phase)
    {
      workers := workers[token := workers[token].(phase := phase)];
    }

    // ---- Submission

    /** `by_key`: the run stored under a request key of a conversation. */
    method ByKey(c: Id, key: Id) returns (found: Option<Id>)
      ensures found.Some? ==> AnswerRuns.HasKey(State(), found.value, c, key)
      ensures found.None? ==> forall id :: !AnswerRuns.HasKey(State(), id, c, key)
    {
      found := None;
      var rest := runs.Keys;
      while rest != {} && found.None?
        invariant rest <= runs.Keys
        invariant found.Some? ==> AnswerRuns.HasKey(State(), found.value, c, key)
        invariant found.None? ==> forall id | id in runs.Keys - rest :: !AnswerRuns.HasKey(State(), id, c, key)
        decreases rest
      {
        var id :| id in rest;
        if runs[id].conversation == c && runs[id].key == key { found := Some(id); }
        rest := rest - {id};
      }
    }

    /** The two counting queries of `submit`: is a run of the conversation active, and how many
        runs does it have. */
    method Census(c: Id) returns (active: bool, total: nat)
      ensures active <==> exists id :: AnswerRuns.ActiveIn(State(), id, c)
      ensures total == |AnswerRuns.RunsOf(State(), c)|
    {
      active := false;
      var counted: set<Id>, rest := {}, runs.Keys;
      while rest != {}
        invariant rest <= runs.Keys
        invariant counted == set id | id in runs.Keys - rest && runs[id].conversation == c
        invariant active <==> exists id :: id in counted && AnswerRuns.ActiveIn(State(), id, c)
        decreases rest
      {
        var id :| id in rest;
        if runs[id].conversation == c {
          counted := counted + {id};
          if runs[id].status.Active() {
            assert AnswerRuns.ActiveIn(State(), id, c);
            active := true;
          }
        }
        rest := rest - {id};
      }
      assert counted == AnswerRuns.RunsOf(State(), c);
      total := |counted|;
    }

    /** The checks of `submit` under the conversation lock. The unique index on (conversation,
        request key) makes the replayed run the only candidate. */
    method CheckSubmission(c: Id, user: Id, d: AnswerRuns.Draft, climate: AnswerRuns.Climate) returns (reply: AnswerRuns.Reply)
      requires forall a, b :: AnswerRuns.HasKey(State(), a, c, d.key) && AnswerRuns.HasKey(State(), b, c, d.key) ==> a == b
      ensures reply == AnswerRuns.CheckSubmission(State(), c, user, d, climate)
    {
      if c !in conversations || conversations[c].user != user {
        return AnswerRuns.Refused("not_found");
      }
      var existing := ByKey(c, d.key);
      if existing.Some? {
        if runs[existing.value].hash != d.hash {
          return AnswerRuns.Conflict;
        }
        return AnswerRuns.Replayed(existing.value);
      }
      if !climate.enabled { return AnswerRuns.Refused("answers_disabled"); }
      if conversations[c].messageCount >= MAX_MESSAGES { return AnswerRuns.Refused("conversation_full"); }
      var active, total := Census(c);
      if active { return AnswerRuns.Refused("answer_active"); }
      if total >= AnswerRuns.MAX_RUNS { return AnswerRuns.Refused("run_limit"); }
      if climate.source.None? { return AnswerRuns.Refused("index_required"); }
      if !climate.prepared { return AnswerRuns.Refused("search_required"); }
      if !climate.admitted { return AnswerRuns.Refused("rate_limited"); }
      return AnswerRuns.Accepted;
    }

    /** The insertion of an accepted submission. In every reachable state the precondition
        holds (`AnswerRunSteps.InsertAllowed`), which is why no rollback branch is needed. */
    method InsertRun(c: Id, t: Time) returns (id: Id)
      requires c in drafts && AnswerRuns.Insertable(State(), c, drafts[c])
      modifies this`next, this`drafts, this`runs
      ensures id == old(next)
      ensures State() == AnswerRuns.FinishSubmit(old(State()), c, t)
    {
      var d := drafts[c];
      id := next;
      next := next + 1;
      runs := runs[id := AnswerRuns.Run(c, d.key, d.hash, d.question, d.hybrid, d.source, t, AnswerRuns.Queued, AnswerRuns.NotStarted,
                                        None, None, None, None, None, None, None, "", 0, map[])];
      AppendState(id);
      drafts := drafts - {c};
      assert runs == old(runs)[id := runs[id]];
    }

    // ---- Worker

    method Claim(id: Id, t: Time) returns (token: Option<Id>)
      modifies this`next, this`runs, this`workers
      ensures State() == AnswerRuns.Claim(old(State()), id, t)
      ensures token == if AnswerRuns.Claimable(old(State()), id, t) then Some(old(next)) else None
    {
      if id !in runs || runs[id].status != AnswerRuns.Queued || runs[id].created <= t - AnswerRuns.HOUR {
        return None; // duplicate delivery
      }
      var lease := next;
      next := next + 1;
      runs := runs[id := runs[id].(status := AnswerRuns.Running, usage := AnswerRuns.Unknown, started := Some(t),
                                   token := Some(lease), expires := Some(t + AnswerRuns.LEASE))];
      AppendState(id);
      workers := workers[lease := AnswerRuns.Worker(id, AnswerRuns.Phase.Claimed, t, "", None)];
      token := Some(lease);
      assert runs == old(runs)[id := runs[id]];
    }

    predicate Leased(token: Id)
      reads this
      ensures Leased(token) <==> AnswerRuns.Holds(State(), token)
    {
      && token in workers && workers[token].run in runs
      && runs[workers[token].run].status == AnswerRuns.Running
      && runs[workers[token].run].token == Some(token)
    }

    method Load(token: Id, sameConfiguration: bool, t: Time)
      requires token in workers && workers[token].phase.Claimed?
      modifies this`workers
      ensures State() == AnswerRuns.Load(old(State()), token, sameConfiguration, t)
    {
      if !Leased(token) {
        SetPhase(token, AnswerRuns.Stopped);
        return;
      }
      var run := runs[workers[token].run];
      if run.conversation !in conversations {
        SetPhase(token, AnswerRuns.Stopped);
      } else if !sameConfiguration {
        SetPhase(token, AnswerRuns.Failing("answer_config_changed"));
      } else {
        var pin := AnswerRuns.Pin(run.conversation, conversations[run.conversation].user, run.question, run.source, run.hybrid);
        workers := workers[token := workers[token].(phase := AnswerRuns.Ready(pin, false), begun := t)];
      }
    }

    /** `ReceiptWriter.begin`. */
    method BeginReceipt(token: Id, kind: AnswerRuns.Kind, t: Time)
      requires AnswerRuns.Asks(State(), token, kind)
      requires forall x :: !AnswerRuns.Covers(State().receipts, x, workers[token].run, kind)
      modifies this`next, this`receipts, this`workers
      ensures State() == AnswerRuns.Begin(old(State()), token, kind, t)
    {
      var run := workers[token].run;
      if run !in runs || runs[run].status != AnswerRuns.Running || runs[run].token != Some(token)
         || runs[run].expires.None? || runs[run].expires.value <= t {
        SetPhase(token, AnswerRuns.Failing("answer_inactive"));
        return;
      }
      var id := next;
      next := next + 1;
      receipts := receipts[id := AnswerRuns.Receipt(run, kind, None)];
      SetPhase(token, AnswerRuns.Calling(workers[token].phase.pin, kind, id));
    }

    /** `ReceiptWriter.finish`, then on with the answer. */
    method FinishReceipt(token: Id, o: AnswerRuns.Outcome)
      requires token in workers && workers[token].phase.Awaiting?
      modifies this`receipts, this`workers
      ensures State() == AnswerRuns.Finish(old(State()), token, o)
    {
      var p := workers[token].phase;
      if p.receipt in receipts {
        if receipts[p.receipt].usage.None? {
          receipts := receipts[p.receipt := receipts[p.receipt].(usage := Some((o.input, o.output)))];
        }
      } // else the run was deleted: never recreate retained data
      if o.Reject? {
        SetPhase(token, AnswerRuns.Failing("model_invalid"));
      } else if p.kind == AnswerRuns.QueryEmbedding {
        SetPhase(token, AnswerRuns.Ready(p.pin, true));
      } else {
        SetPhase(token, AnswerRuns.Answered(p.pin, Some(p.receipt), o.answer.(source := p.pin.source, inputTokens := o.input, outputTokens := o.output)));
      }
    }

    /** `PreviewWriter.delta` once the excerpts have been taken from the raw text. */
    method Delta(token: Id, text: string, tick: Time, t: Time)
      requires token in workers && workers[token].phase.Awaiting? && workers[token].phase.kind == AnswerRuns.Generation
      requires workers[token].begun <= tick <= workers[token].begun + AnswerRuns.DEADLINE
      modifies this`runs, this`workers
      ensures State() == AnswerRuns.Delta(old(State()), token, text, tick, t)
    {
      var k := workers[token];
      if k.written.Some? && tick - k.written.value < AnswerRuns.PREVIEW_INTERVAL { return; }
      var shown := AnswerRuns.Shown(text);
      if shown == k.previous { return; }
      if !Leased(token) || runs[k.run].expires.None? || runs[k.run].expires.value <= t || runs[k.run].revision >= AnswerRuns.MAX_REVISION {
        SetPhase(token, AnswerRuns.Failing("answer_stopped"));
        return;
      }
      runs := runs[k.run := runs[k.run].(preview := shown, revision := runs[k.run].revision + 1)];
      workers := workers[token := k.(previous := shown, written := Some(tick))];
    }

    /** Publication. The conversation is locked first; a transaction that cannot append the
        pair rolls back, so nothing is written before that is known. */
    method Publish(token: Id, t: Time)
      requires token in workers && workers[token].phase.Answered?
      requires workers[token].phase.pin.conversation !in drafts
      modifies this`conversations, this`runs, this`workers
      ensures State() == AnswerRuns.Publish(old(State()), token, t)
    {
      var p, id := workers[token].phase, workers[token].run;
      if !Leased(token) || runs[id].expires.None? || runs[id].expires.value <= t {
        SetPhase(token, AnswerRuns.Stopped);
        return;
      }
      var before := runs;
      runs := runs[id := runs[id].(status := AnswerRuns.Completed, usage := AnswerRuns.Recorded,
                                   inputTokens := Some(p.answer.inputTokens), outputTokens := Some(p.answer.outputTokens),
                                   finished := Some(t), token := None, expires := None)];
      if p.pin.conversation !in conversations || conversations[p.pin.conversation].user != p.pin.user {
        runs := before;
        SetPhase(token, AnswerRuns.Failing("not_found"));
        return;
      }
      var grown := AppendPair(conversations[p.pin.conversation], id, p.pin.question, p.answer);
      if grown.None? {
        runs := before;
        SetPhase(token, AnswerRuns.Failing("conversation_full"));
        return;
      }
      conversations := conversations[p.pin.conversation := grown.value];
      AppendState(id);
      SetPhase(token, AnswerRuns.Stopped);
      assert runs == old(runs)[id := runs[id]];
    }

    method End(id: Id, status: AnswerRuns.Status, error: Option<string>, t: Time)
      requires id in runs
      modifies this`runs
      ensures runs == old(runs)[id := AnswerRuns.EndRun(old(runs)[id], status, error, t)]
    {
      runs := runs[id := runs[id].(status := status, finished := Some(t), token := None, expires := None, error := error)];
      AppendState(id);
      assert runs == old(runs)[id := runs[id]];
    }

    method FailRun(token: Id, t: Time)
      requires token in workers && workers[token].phase.Failing?
      modifies this`runs, this`workers
      ensures State() == AnswerRuns.FailRun(old(State()), token, t)
    {
      if Leased(token) {
        End(workers[token].run, AnswerRuns.Failed, Some(workers[token].phase.code), t);
      }
      SetPhase(token, AnswerRuns.Stopped);
    }

    // ---- API and dispatcher

    /** `usage`: count the receipts of a run that were never filled in. */
    method CountUnknown(run: Id) returns (unknown: nat)
      ensures unknown == |AnswerRuns.UnknownCalls(State(), run)|
    {
      unknown := 0;
      ghost var found: set<Id> := {};
      var rest := receipts.Keys;
      while rest != {}
        invariant rest <= receipts.Keys && unknown == |found|
        invariant found == set id | id in receipts.Keys - rest && receipts[id].run == run && receipts[id].usage.None?
        decreases rest
      {
        var id :| id in rest;
        if receipts[id].run == run && receipts[id].usage.None? {
          found, unknown := found + {id}, unknown + 1;
        }
        rest := rest - {id};
      }
      assert found == AnswerRuns.UnknownCalls(State(), run);
    }

    method Cancel(id: Id, t: Time) returns (cancelled: bool)
      modifies this`runs
      ensures State() == AnswerRuns.Cancel(old(State()), id, t)
      ensures cancelled <==> id in old(runs) && old(runs)[id].status.Active()
    {
      cancelled := id in runs && runs[id].status.Active();
      if cancelled { End(id, AnswerRuns.Cancelled, None, t); }
    }

    /** The first transaction of `dispatch_answers`: expire lost workers, then stale queued
        runs, appending an event for each. */
    method Dispatch(t: Time)
      modifies this`runs
      ensures State() == AnswerRuns.Dispatch(old(State()), t)
    {
      var lost := set id | id in runs && runs[id].status == AnswerRuns.Running && runs[id].expires.Some? && runs[id].expires.value < t;
      FailAll(lost, "answer_worker_lost", t);
      ghost var mid := runs;
      var stale := set id | id in runs && runs[id].status == AnswerRuns.Queued && runs[id].created <= t - AnswerRuns.HOUR;
      FailAll(stale, "answer_queue_expired", t);
      TwoPasses(old(runs), lost, stale, mid, runs, t);
    }

    /** The two bulk updates never meet in one run. */
    lemma TwoPasses(before: map<Id, AnswerRuns.Run>, lost: set<Id>, stale: set<Id>, mid: map<Id, AnswerRuns.Run>, after: map<Id, AnswerRuns.Run>, t: AnswerRuns.Time)
      requires mid.Keys == before.Keys && after.Keys == before.Keys
      requires lost == set id | id in before && before[id].status == AnswerRuns.Running && before[id].expires.Some? && before[id].expires.value < t
      requires stale == set id | id in mid && mid[id].status == AnswerRuns.Queued && mid[id].created <= t - AnswerRuns.HOUR
      requires forall id | id in mid ::
                 mid[id] == if id in lost then AnswerRuns.EndRun(before[id], AnswerRuns.Failed, Some("answer_worker_lost"), t) else before[id]
      requires forall id | id in after ::
                 after[id] == if id in stale then AnswerRuns.EndRun(mid[id], AnswerRuns.Failed, Some("answer_queue_expired"), t) else mid[id]
      ensures after == map id | id in before :: AnswerRuns.Expire(before[id], t)
    {
      forall id | id in before ensures after[id] == AnswerRuns.Expire(before[id], t) {
        assert mid[id].status == AnswerRuns.Queued ==> id !in lost;
      }
    }

    method FailAll(ids: set<Id>, code: string, t: Time)
      requires ids <= runs.Keys
      modifies this`runs
      ensures runs.Keys == old(runs).Keys
      ensures forall id | id in runs ::
                runs[id] == if id in ids then AnswerRuns.EndRun(old(runs)[id], AnswerRuns.Failed, Some(code), t) else old(runs)[id]
    {
      var rest := ids;
      while rest != {}
        invariant rest <= ids && runs.Keys == old(runs).Keys
        invariant forall id | id in runs ::
                    runs[id] == if id in ids - rest then AnswerRuns.EndRun(old(runs)[id], AnswerRuns.Failed, Some(code), t) else old(runs)[id]
        decreases rest
      {
        var id :| id in rest;
        End(id, AnswerRuns.Failed, Some(code), t);
        rest := rest - {id};
      }
    }
  }
}
