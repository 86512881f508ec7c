/** Search preparation as a state machine: leased jobs that may be taken over, token
    reservations, batch checkpoints, resumption and explicit restarts. Reads are not fenced, so
    a worker may go on with a stale plan; every write is. Each step carries its own clock. */
module SearchPreparation {
  import opened Options
  import opened Leases
  import opened Embedding

  const BATCH := 8

  /** The chunks of every source index, as one pipeline version and provider profile see them;
      they never change. */
  type Sources = map<Id, seq<Chunk>>

  /** History: one reservation, and whether its request has been sent. */
  datatype Grant = Grant(tokens: nat, used: bool)

  /** A row of search_indexes with its rows of search_documents. `grants` and `sent` are
      history: the reservations made and the tokens handed to the provider. */
  datatype Job = Job(row: Row, source: Id, hybrid: bool, documents: seq<Document>, stored: nat, input: nat,
                     reserved: nat, budget: nat, grants: seq<Grant>, sent: nat)

  /** Where a worker is; `rest` are the pending chunks that it has not checkpointed yet. */
  datatype Phase =
    | Started
    | Loaded(source: Id, hybrid: bool, left: int)
    | Planned(hybrid: bool, rest: seq<Chunk>)
    | Working(hybrid: bool, rest: seq<Chunk>)
    | Reserved(rest: seq<Chunk>, grant: nat)
    | Awaiting(rest: seq<Chunk>)
    | Built(hybrid: bool, rest: seq<Chunk>, documents: seq<Document>, usage: nat)
    | Failing
    | Stopped

  /** A worker, identified by its lease token. */
  datatype Preparer = Preparer(job: Id, phase: Phase)

  datatype World = World(next: Id, jobs: map<Id, Job>, workers: map<Id, Preparer>)

  const Empty := World(0, map[], map[])

  function Batch(rest: seq<Chunk>): seq<Chunk> {
    if |rest| <= BATCH then rest else rest[..BATCH]
  }

  function DoneIds(docs: seq<Document>): set<Id> {
    set d | d in docs :: d.chunk
  }

  function Pending(chunks: seq<Chunk>, done: set<Id>): seq<Chunk> {
    if chunks == [] then []
    else (if chunks[0].id in done then [] else [chunks[0]]) + Pending(chunks[1..], done)
  }

  /** The table's constraints on documents: one per chunk, with at least one token. */
  ghost predicate Insertable(stored: seq<Document>, docs: seq<Document>) {
    && (forall i, j | 0 <= i < j < |docs| :: docs[i].chunk != docs[j].chunk)
    && (forall d | d in docs :: d.chunk !in DoneIds(stored) && d.tokenCount > 0)
  }

  // ---- Managing jobs

  ghost predicate Current(jobs: map<Id, Job>, id: Id, repository: Id) {
    id in jobs && jobs[id].row.repository == repository && jobs[id].row.current
  }

  ghost function Latest(w: World, repository: Id): Option<Id> {
    if exists id :: Current(w.jobs, id, repository) then
      var id :| Current(w.jobs, id, repository); Some(id)
    else None
  }

  ghost predicate Prepared(w: World, id: Id, repository: Id, source: Id, hybrid: bool) {
    && id in w.jobs && w.jobs[id].row.repository == repository && w.jobs[id].row.status == Completed
    && w.jobs[id].source == source && w.jobs[id].hybrid == hybrid
  }

  function NewJob(repository: Id, source: Id, hybrid: bool, budget: nat, t: Time): Job {
    Job(NewRow(repository, t), source, hybrid, [], 0, 0, 0, budget, [], 0)
  }

  ghost function Insert(w: World, j: Job): World {
    w.(next := w.next + 1, jobs := w.jobs[w.next := j])
  }

  /** An explicit retry resumes persisted batches and keeps all reservations. */
  function Resume(j: Job, budget: nat, t: Time): Job {
    j.(row := Leases.Restart(j.row, t), budget := if budget > j.budget then budget else j.budget)
  }

  ghost function Change(w: World, id: Id, j: Job): World {
    w.(jobs := w.jobs[id := j])
  }

  /** `start`: refused while active, answered by an existing preparation, resumed in place, or
      begun anew. `admitted` is what settings and rate limits say. */
  ghost function Start(w: World, sources: Sources, repository: Id, source: Id, hybrid: bool, budget: nat, admitted: bool, t: Time): World {
    var latest := Latest(w, repository);
    if source !in sources then w
    else if latest.Some? && !w.jobs[latest.value].row.status.Terminal() then w
    else if exists id :: Prepared(w, id, repository, source, hybrid) then w
    else if !admitted then w
    else if latest.None? then Insert(w, NewJob(repository, source, hybrid, budget, t))
    else
      var j := w.jobs[latest.value];
      if j.source == source && j.hybrid == hybrid then Change(w, latest.value, Resume(j, budget, t))
      else Insert(Change(w, latest.value, j.(row := Supersede(j.row))), NewJob(repository, source, hybrid, budget, t))
  }

  ghost function ClaimJob(w: World, id: Id, t: Time): World {
    if id in w.jobs && Claimable(w.jobs[id].row, t) then
      World(w.next + 1, w.jobs[id := w.jobs[id].(row := Claim(w.jobs[id].row, w.next, t))], w.workers[w.next := Preparer(id, Started)])
    else w
  }

  ghost function Cancel(w: World, id: Id): World {
    if id in w.jobs then Change(w, id, w.jobs[id].(row := CancelRow(w.jobs[id].row))) else w
  }

  ghost function Dispatch(w: World, t: Time): World {
    w.(jobs := map id | id in w.jobs :: w.jobs[id].(row := Recover(w.jobs[id].row, t)))
  }

  ghost function Remove(w: World, repository: Id): World {
    w.(jobs := map id | id in w.jobs && w.jobs[id].row.repository != repository :: w.jobs[id])
  }

  // ---- A worker's steps

  ghost predicate HeldBy(w: World, token: Id, t: Time) {
    token in w.workers && w.workers[token].job in w.jobs && Held(w.jobs[w.workers[token].job].row, token, t)
  }

  ghost function Moved(w: World, token: Id, phase: Phase): World
    requires token in w.workers
  {
    w.(workers := w.workers[token := w.workers[token].(phase := phase)])
  }

  /** Change the worker's job and its phase in one transaction. */
  ghost function Written(w: World, token: Id, j: Job, phase: Phase): World
    requires token in w.workers
  {
    Moved(Change(w, w.workers[token].job, j), token, phase)
  }

  /** Read the job row, without any fence; `same` says that version and profile agree. */
  ghost function LoadJob(w: World, token: Id, same: bool): World {
    if token !in w.workers || w.workers[token].phase != Started then w
    else if w.workers[token].job !in w.jobs then Moved(w, token, Stopped)
    else if !same then Moved(w, token, Failing)
    else
      var j := w.jobs[w.workers[token].job];
      Moved(w, token, Loaded(j.source, j.hybrid, j.budget - j.reserved))
  }

  /** Read the chunks that have a document already, and check that the rest fits the budget. */
  ghost function LoadDone(w: World, sources: Sources, token: Id): World {
    if token !in w.workers || !w.workers[token].phase.Loaded? then w
    else
      var k := w.workers[token];
      var chunks := if k.phase.source in sources then sources[k.phase.source] else [];
      var rest := Pending(chunks, if k.job in w.jobs then DoneIds(w.jobs[k.job].documents) else {});
      Moved(w, token, if k.phase.hybrid && BatchTokens(rest) > k.phase.left then Failing else Planned(k.phase.hybrid, rest))
  }

  ghost function Report(w: World, token: Id, t: Time): World {
    if token !in w.workers || !w.workers[token].phase.Planned? then w
    else if HeldBy(w, token, t) then Moved(w, token, Working(w.workers[token].phase.hybrid, w.workers[token].phase.rest))
    else Moved(w, token, Stopped)
  }

  function Granted(j: Job, tokens: nat): Job {
    j.(reserved := j.reserved + tokens, grants := j.grants + [Grant(tokens, false)])
  }

  /** `reserve`: before each request, within the budget and under the lease. */
  ghost function Reserve(w: World, token: Id, t: Time): World {
    if token !in w.workers || !w.workers[token].phase.Working? || !w.workers[token].phase.hybrid || w.workers[token].phase.rest == [] then w
    else
      var rest := w.workers[token].phase.rest;
      var tokens := BatchTokens(Batch(rest));
      if HeldBy(w, token, t) && w.jobs[w.workers[token].job].reserved + tokens <= w.jobs[w.workers[token].job].budget then
        var j := w.jobs[w.workers[token].job];
        Written(w, token, Granted(j, tokens), Reserved(rest, |j.grants|))
      else Moved(w, token, Failing)
  }

  function Spent(j: Job, grant: nat, tokens: nat): Job {
    j.(grants := if grant < |j.grants| then j.grants[grant := j.grants[grant].(used := true)] else j.grants, sent := j.sent + tokens)
  }

  /** The request leaves for the provider, whether or not the lease still holds. */
  ghost function Send(w: World, token: Id): World {
    if token !in w.workers || !w.workers[token].phase.Reserved? then w
    else
      var k := w.workers[token];
      if k.job in w.jobs then
        Written(w, token, Spent(w.jobs[k.job], k.phase.grant, BatchTokens(Batch(k.phase.rest))), Awaiting(k.phase.rest))
      else Moved(w, token, Awaiting(k.phase.rest))
  }

  /** The i-th returned vector is the one of the i-th input. */
  function Label(inputs: seq<Part>, values: seq<nat>): (vectors: seq<Vector>)
    requires |values| == |inputs|
    ensures Answers(vectors, inputs)
  {
    seq(|inputs|, i requires 0 <= i < |inputs| => Vector(inputs[i], values[i]))
  }

  /** The provider's response, checked against the request and turned into documents. */
  ghost function Receive(w: World, token: Id, values: seq<nat>, tokens: nat): World {
    if token !in w.workers || !w.workers[token].phase.Awaiting? then w
    else
      var rest := w.workers[token].phase.rest;
      var inputs := Flatten(Batch(rest));
      if |values| == |inputs| && tokens == Tokens(inputs) then
        Moved(w, token, Built(true, rest, Documents(Batch(rest), Some(Label(inputs, values))), tokens))
      else Moved(w, token, Failing)
  }

  /** Keyword documents need no provider. */
  ghost function Build(w: World, token: Id): World {
    if token in w.workers && w.workers[token].phase.Working? && !w.workers[token].phase.hybrid && w.workers[token].phase.rest != [] then
      var rest := w.workers[token].phase.rest;
      Moved(w, token, Built(false, rest, Documents(Batch(rest), None), 0))
    else w
  }

  function Stored(j: Job, docs: seq<Document>, usage: nat): Job {
    j.(documents := j.documents + docs, stored := j.stored + |docs|, input := j.input + usage)
  }

  /** `checkpoint`: documents and counters in one fenced transaction, rolled back when a table
      constraint objects. */
  ghost function Checkpoint(w: World, token: Id, t: Time): World {
    if token !in w.workers || !w.workers[token].phase.Built? then w
    else if !HeldBy(w, token, t) then Moved(w, token, Stopped)
    else
      var j, p := w.jobs[w.workers[token].job], w.workers[token].phase;
      if !Insertable(j.documents, p.documents) then Moved(w, token, Failing)
      else Written(w, token, Stored(j, p.documents, p.usage), Working(p.hybrid, p.rest[|Batch(p.rest)|..]))
  }

  ghost function Complete(w: World, token: Id, t: Time): World {
    if token !in w.workers || !w.workers[token].phase.Working? || w.workers[token].phase.rest != [] then w
    else if HeldBy(w, token, t) then
      var j := w.jobs[w.workers[token].job];
      Written(w, token, j.(row := End(j.row, Completed)), Stopped)
    else Moved(w, token, Stopped)
  }

  /** Any error or the timeout; a crash is a worker that takes no further step. */
  ghost function Abort(w: World, token: Id): World {
    if token in w.workers && w.workers[token].phase != Stopped then Moved(w, token, Failing) else w
  }

  ghost function Fail(w: World, token: Id, t: Time): World {
    if token !in w.workers || w.workers[token].phase != Failing then w
    else if HeldBy(w, token, t) then
      var j := w.jobs[w.workers[token].job];
      Written(w, token, j.(row := End(j.row, Failed)), Stopped)
    else Moved(w, token, Stopped)
  }

  // ---- Runs

  datatype Step =
    | DoStart(repository: Id, source: Id, hybrid: bool, budget: nat, admitted: bool, t: Time)
    | DoClaim(id: Id, t: Time)
    | DoLoadJob(token: Id, same: bool)
    | DoLoadDone(token: Id)
    | DoReport(token: Id, t: Time)
    | DoReserve(token: Id, t: Time)
    | DoSend(token: Id)
    | DoReceive(token: Id, values: seq<nat>, tokens: nat)
    | DoBuild(token: Id)
    | DoCheckpoint(token: Id, t: Time)
    | DoComplete(token: Id, t: Time)
    | DoAbort(token: Id)
    | DoFail(token: Id, t: Time)
    | DoCancel(id: Id)
    | DoDispatch(t: Time)
    | DoRemove(repository: Id)

  ghost function Apply(w: World, sources: Sources, x: Step): World {
    match x
    case DoStart(repository, source, hybrid, budget, admitted, t) => Start(w, sources, repository, source, hybrid, budget, admitted, t)
    case DoClaim(id, t) => ClaimJob(w, id, t)
    case DoLoadJob(token, same) => LoadJob(w, token, same)
    case DoLoadDone(token) => LoadDone(w, sources, token)
    case DoReport(token, t) => Report(w, token, t)
    case DoReserve(token, t) => Reserve(w, token, t)
    case DoSend(token) => Send(w, token)
    case DoReceive(token, values, tokens) => Receive(w, token, values, tokens)
    case DoBuild(token) => Build(w, token)
    case DoCheckpoint(token, t) => Checkpoint(w, token, t)
    case DoComplete(token, t) => Complete(w, token, t)
    case DoAbort(token) => Abort(w, token)
    case DoFail(token, t) => Fail(w, token, t)
    case DoCancel(id) => Cancel(w, id)
    case DoDispatch(t) => Dispatch(w, t)
    case DoRemove(repository) => Remove(w, repository)
  }

  ghost function After(sources: Sources, steps: seq<Step>): World {
    if steps == [] then Empty else Apply(After(sources, steps[..|steps| - 1]), sources, steps[|steps| - 1])
  }
}
