/** What every interleaving of preparation steps keeps, and what follows from it. */
module SearchPreparationProofs {
  import opened Options
  import opened Leases
  import opened Embedding
  import opened SearchPreparation

  type Jobs = map<Id, Job>
  type Workers = map<Id, Preparer>

  /** Chunk ids are unique, and a chunk's text has at least one token in every part. */
  ghost predicate ChunksOk(chunks: seq<Chunk>) {
    && (forall i, j | 0 <= i < j < |chunks| :: chunks[i].id != chunks[j].id)
    && (forall c | c in chunks :: c.parts != [] && forall p | p in c.parts :: p != [])
  }

  ghost predicate SourcesOk(sources: Sources) {
    forall s | s in sources :: ChunksOk(sources[s])
  }

  function Total(grants: seq<Grant>): nat {
    if grants == [] then 0 else grants[0].tokens + Total(grants[1..])
  }

  function Used(grants: seq<Grant>): nat {
    if grants == [] then 0 else (if grants[0].used then grants[0].tokens else 0) + Used(grants[1..])
  }

  /** The document of some chunk of the source, made from that chunk's own parts. */
  ghost predicate Made(chunks: seq<Chunk>, hybrid: bool, d: Document) {
    exists c :: c in chunks && FromOwnParts(c, hybrid, d)
  }

  ghost predicate DistinctDocs(docs: seq<Document>) {
    forall i, j | 0 <= i < j < |docs| :: docs[i].chunk != docs[j].chunk
  }

  ghost predicate Stocked(j: Job, chunks: seq<Chunk>) {
    && j.stored == |j.documents| && DistinctDocs(j.documents)
    && (forall d | d in j.documents :: Made(chunks, j.hybrid, d))
    && j.input == (if j.hybrid then CountAll(j.documents) else 0)
    && (j.row.status == Completed ==> forall c | c in chunks :: c.id in DoneIds(j.documents))
  }

  ghost predicate Budgeted(j: Job) {
    && j.input <= j.sent <= j.reserved <= j.budget
    && j.reserved == Total(j.grants) && j.sent == Used(j.grants)
  }

  ghost predicate JobOk(j: Job, sources: Sources, next: Id) {
    && RowOk(j.row) && (forall x | x in j.row.claims :: x < next)
    && j.source in sources && Stocked(j, sources[j.source]) && Budgeted(j)
  }

  /** `rest` lists exactly the chunks that have no document yet. */
  ghost predicate Remaining(chunks: seq<Chunk>, docs: seq<Document>, rest: seq<Chunk>) {
    && (forall i, j | 0 <= i < j < |rest| :: rest[i].id != rest[j].id)
    && (forall c | c in rest :: c in chunks)
    && (forall c | c in chunks :: c in rest <==> c.id !in DoneIds(docs))
  }

  ghost predicate Batched(batch: seq<Chunk>, hybrid: bool, docs: seq<Document>, usage: nat) {
    && |docs| == |batch| && (forall k | 0 <= k < |batch| :: FromOwnParts(batch[k], hybrid, docs[k]))
    && CountAll(docs) == BatchTokens(batch) && usage == (if hybrid then BatchTokens(batch) else 0)
  }

  /** The chunks behind the batch in work. */
  function Later(rest: seq<Chunk>): seq<Chunk> {
    rest[|Batch(rest)|..]
  }

  /** What is still to be embedded fits into what the budget has left. */
  ghost predicate Affords(j: Job, rest: seq<Chunk>) {
    j.hybrid ==> j.reserved + BatchTokens(rest) <= j.budget
  }

  /** What the holder of the lease may rely on. */
  ghost predicate PlanOk(p: Phase, chunks: seq<Chunk>, j: Job) {
    match p
    case Loaded(source, hybrid, left) => source == j.source && hybrid == j.hybrid && left == j.budget - j.reserved
    case Planned(hybrid, rest) => hybrid == j.hybrid && Remaining(chunks, j.documents, rest) && Affords(j, rest)
    case Working(hybrid, rest) => hybrid == j.hybrid && Remaining(chunks, j.documents, rest) && Affords(j, rest)
    case Reserved(rest, _) => j.hybrid && rest != [] && Remaining(chunks, j.documents, rest) && Affords(j, Later(rest))
    case Awaiting(rest) =>
      && j.hybrid && rest != [] && Remaining(chunks, j.documents, rest) && Affords(j, Later(rest))
      && j.input + BatchTokens(Batch(rest)) <= j.sent
    case Built(hybrid, rest, docs, usage) =>
      && hybrid == j.hybrid && rest != [] && Remaining(chunks, j.documents, rest) && Affords(j, Later(rest))
      && Batched(Batch(rest), hybrid, docs, usage) && j.input + usage <= j.sent
    case _ => true
  }

  lemma {:induction false} BatchTokensAppend(a: seq<Chunk>, b: seq<Chunk>)
    ensures BatchTokens(a + b) == BatchTokens(a) + BatchTokens(b)
  {
    if a == [] {
      assert a + b == b;
    } else {
      assert (a + b)[1..] == a[1..] + b;
      BatchTokensAppend(a[1..], b);
    }
  }

  lemma BatchAndLater(rest: seq<Chunk>)
    ensures BatchTokens(rest) == BatchTokens(Batch(rest)) + BatchTokens(Later(rest))
  {
    assert rest == Batch(rest) + Later(rest);
    BatchTokensAppend(Batch(rest), Later(rest));
  }

  /** A reservation that waits for its request, held by a worker with or without the lease. */
  ghost predicate GrantOk(p: Phase, grants: seq<Grant>) {
    p.Reserved? ==> p.grant < |grants| && grants[p.grant] == Grant(BatchTokens(Batch(p.rest)), false)
  }

  ghost predicate WorkerOk(k: Preparer, token: Id, jobs: Jobs, sources: Sources) {
    k.job in jobs ==>
      && GrantOk(k.phase, jobs[k.job].grants)
      && (jobs[k.job].row.token == Some(token) && jobs[k.job].source in sources ==>
            PlanOk(k.phase, sources[jobs[k.job].source], jobs[k.job]))
  }

  ghost predicate JobsOk(jobs: Jobs, sources: Sources, next: Id) {
    forall id | id in jobs :: id < next && JobOk(jobs[id], sources, next)
  }

  ghost predicate WorkersOk(workers: Workers, jobs: Jobs, sources: Sources, next: Id) {
    forall k | k in workers :: k < next && workers[k].job < next && WorkerOk(workers[k], k, jobs, sources)
  }

  /** No two workers sit on the same reservation. */
  ghost predicate Apart(workers: Workers) {
    forall a, b | a in workers && b in workers && a != b && workers[a].phase.Reserved? && workers[b].phase.Reserved? ::
      workers[a].job != workers[b].job || workers[a].phase.grant != workers[b].phase.grant
  }

  ghost predicate OneCurrent(jobs: Jobs) {
    forall a, b | a in jobs && b in jobs && a != b && jobs[a].row.repository == jobs[b].row.repository ::
      !jobs[a].row.current || !jobs[b].row.current
  }

  /** The invariant. The parts are bound to one name so that a proof sees them as one fact. */
  ghost predicate Valid(w: World, sources: Sources) {
    var parts :=
      && JobsOk(w.jobs, sources, w.next)
      && WorkersOk(w.workers, w.jobs, sources, w.next)
      && Apart(w.workers)
      && OneCurrent(w.jobs);
    parts
  }

  // ---- Steps that only move a worker

  lemma MovedKeeps(w: World, sources: Sources, token: Id, phase: Phase)
    requires Valid(w, sources) && token in w.workers
    requires WorkerOk(w.workers[token].(phase := phase), token, w.jobs, sources) && !phase.Reserved?
    ensures Valid(Moved(w, token, phase), sources)
  {
    hide JobsOk, OneCurrent, WorkerOk;
  }

  /** A worker may give up at any point. */
  lemma GivesUp(w: World, sources: Sources, token: Id, phase: Phase)
    requires Valid(w, sources) && token in w.workers && (phase.Failing? || phase.Stopped?)
    ensures Valid(Moved(w, token, phase), sources)
  {
    MovedKeeps(w, sources, token, phase);
  }

  lemma {:induction false} PendingMember(chunks: seq<Chunk>, done: set<Id>, c: Chunk)
    ensures c in Pending(chunks, done) <==> c in chunks && c.id !in done
  {
    if chunks != [] {
      PendingMember(chunks[1..], done, c);
      assert c in chunks <==> c == chunks[0] || c in chunks[1..];
    }
  }

  lemma {:induction false} PendingDistinct(chunks: seq<Chunk>, done: set<Id>)
    requires forall i, j | 0 <= i < j < |chunks| :: chunks[i].id != chunks[j].id
    ensures var rest := Pending(chunks, done);
            forall i, j | 0 <= i < j < |rest| :: rest[i].id != rest[j].id
  {
    if chunks != [] {
      PendingDistinct(chunks[1..], done);
      var rest := Pending(chunks[1..], done);
      forall j | 0 <= j < |rest| ensures rest[j].id != chunks[0].id {
        PendingMember(chunks[1..], done, rest[j]);
      }
    }
  }

  /** Skipping done chunks leaves exactly those without a document. */
  lemma {:induction false} PendingIsRemaining(chunks: seq<Chunk>, docs: seq<Document>)
    requires ChunksOk(chunks)
    ensures Remaining(chunks, docs, Pending(chunks, DoneIds(docs)))
  {
    PendingDistinct(chunks, DoneIds(docs));
    forall c ensures c in Pending(chunks, DoneIds(docs)) <==> c in chunks && c.id !in DoneIds(docs) {
      PendingMember(chunks, DoneIds(docs), c);
    }
  }

  lemma LoadDoneKeeps(w: World, sources: Sources, token: Id)
    requires Valid(w, sources) && SourcesOk(sources)
    ensures Valid(LoadDone(w, sources, token), sources)
  {
    if token in w.workers && w.workers[token].phase.Loaded? {
      var k := w.workers[token];
      if k.phase.source in sources && k.job in w.jobs {
        PendingIsRemaining(sources[k.phase.source], w.jobs[k.job].documents);
      }
      MovedKeeps(w, sources, token, LoadDone(w, sources, token).workers[token].phase);
    }
  }

  lemma {:induction false} BatchedDocuments(batch: seq<Chunk>, vectors: Option<seq<Vector>>)
    requires vectors.Some? ==> Answers(vectors.value, Flatten(batch))
    ensures Batched(batch, vectors.Some?, Documents(batch, vectors), if vectors.Some? then Tokens(Flatten(batch)) else 0)
  {
    CountOfBatch(batch, vectors);
    FlattenKeepsTokens(batch);
    forall k | 0 <= k < |batch| ensures FromOwnParts(batch[k], vectors.Some?, Documents(batch, vectors)[k]) {
      DocumentsAreOwn(batch, vectors, k);
    }
  }

  lemma PlanReceived(k: Preparer, token: Id, jobs: Jobs, sources: Sources, values: seq<nat>)
    requires WorkerOk(k, token, jobs, sources) && k.phase.Awaiting? && |values| == |Flatten(Batch(k.phase.rest))|
    ensures var rest := k.phase.rest;
            var inputs := Flatten(Batch(rest));
            var docs := Documents(Batch(rest), Some(Label(inputs, values)));
            WorkerOk(k.(phase := Built(true, rest, docs, Tokens(inputs))), token, jobs, sources)
  {
    var inputs := Flatten(Batch(k.phase.rest));
    BatchedDocuments(Batch(k.phase.rest), Some(Label(inputs, values)));
    FlattenKeepsTokens(Batch(k.phase.rest));
    hide Remaining, Batched, Batch, Later, Label, Documents, Flatten, Tokens, BatchTokens;
  }

  lemma ReceiveKeeps(w: World, sources: Sources, token: Id, values: seq<nat>, tokens: nat)
    requires Valid(w, sources)
    ensures Valid(Receive(w, token, values, tokens), sources)
  {
    if token in w.workers && w.workers[token].phase.Awaiting? {
      var rest := w.workers[token].phase.rest;
      var inputs := Flatten(Batch(rest));
      if |values| == |inputs| && tokens == Tokens(inputs) {
        var docs := Documents(Batch(rest), Some(Label(inputs, values)));
        PlanReceived(w.workers[token], token, w.jobs, sources, values);
        hide Valid, WorkerOk, Label, Documents, Flatten, Batch, Tokens;
        MovedKeeps(w, sources, token, Built(true, rest, docs, tokens));
      } else {
        hide Valid;
        GivesUp(w, sources, token, Failing);
      }
    }
  }

  // ---- Steps that write to a job

  /** The other workers of the job keep their reservations and, if one of them holds the
      lease, its plan. */
  ghost predicate Spares(w: World, sources: Sources, token: Id, j: Job) {
    token in w.workers && forall k | k in w.workers && k != token && w.workers[k].job == w.workers[token].job ::
      WorkerOk(w.workers[k], k, w.jobs[w.workers[token].job := j], sources)
  }

  ghost predicate Alone(w: World, token: Id, phase: Phase) {
    token in w.workers && (phase.Reserved? ==>
      forall k | k in w.workers && k != token && w.workers[k].phase.Reserved? && w.workers[k].job == w.workers[token].job ::
        w.workers[k].phase.grant != phase.grant)
  }

  lemma WrittenWorkers(w: World, sources: Sources, token: Id, j: Job, phase: Phase)
    requires WorkersOk(w.workers, w.jobs, sources, w.next) && Apart(w.workers) && token in w.workers && w.workers[token].job in w.jobs
    requires WorkerOk(Preparer(w.workers[token].job, phase), token, w.jobs[w.workers[token].job := j], sources)
    requires Spares(w, sources, token, j) && Alone(w, token, phase)
    ensures var v := Written(w, token, j, phase);
            WorkersOk(v.workers, v.jobs, sources, v.next) && Apart(v.workers)
  {
    var id, v := w.workers[token].job, Written(w, token, j, phase);
    hide Spares, GrantOk, PlanOk;
    forall k | k in v.workers ensures k < v.next && v.workers[k].job < v.next && WorkerOk(v.workers[k], k, v.jobs, sources) {
      assert w.workers[k].job < w.next && WorkerOk(w.workers[k], k, w.jobs, sources);
      if k != token && w.workers[k].job == id {
        SparesOne(w, sources, token, j, k);
      }
    }
  }

  lemma SparesOne(w: World, sources: Sources, token: Id, j: Job, k: Id)
    requires Spares(w, sources, token, j) && k in w.workers && k != token && w.workers[k].job == w.workers[token].job
    ensures WorkerOk(w.workers[k], k, w.jobs[w.workers[token].job := j], sources)
  {
    hide WorkerOk;
  }

  lemma WrittenKeeps(w: World, sources: Sources, token: Id, j: Job, phase: Phase)
    requires Valid(w, sources) && token in w.workers && w.workers[token].job in w.jobs
    requires JobOk(j, sources, w.next) && j.row.repository == w.jobs[w.workers[token].job].row.repository
    requires j.row.current ==> w.jobs[w.workers[token].job].row.current
    requires WorkerOk(Preparer(w.workers[token].job, phase), token, w.jobs[w.workers[token].job := j], sources)
    requires Spares(w, sources, token, j) && Alone(w, token, phase)
    ensures Valid(Written(w, token, j, phase), sources)
  {
    WrittenWorkers(w, sources, token, j, phase);
    hide WorkersOk, WorkerOk, Apart, JobOk, Spares, Alone;
  }

  /** While one worker holds the lease, the job's other workers rely only on reservations. */
  lemma HolderSpares(w: World, sources: Sources, token: Id, j: Job)
    requires WorkersOk(w.workers, w.jobs, sources, w.next) && token in w.workers && w.workers[token].job in w.jobs
    requires var old_ := w.jobs[w.workers[token].job];
             old_.row.token == Some(token) && old_.grants <= j.grants && (j.row.token == Some(token) || j.row.token.None?)
    ensures Spares(w, sources, token, j)
  {
    var id := w.workers[token].job;
    forall k | k in w.workers && k != token && w.workers[k].job == id
      ensures WorkerOk(w.workers[k], k, w.jobs[id := j], sources)
    {
      assert WorkerOk(w.workers[k], k, w.jobs, sources);
    }
  }

  lemma {:induction false} TotalAppend(grants: seq<Grant>, g: Grant)
    ensures Total(grants + [g]) == Total(grants) + g.tokens
    ensures Used(grants + [g]) == Used(grants) + (if g.used then g.tokens else 0)
  {
    if grants != [] {
      assert (grants + [g])[1..] == grants[1..] + [g];
      TotalAppend(grants[1..], g);
    }
  }

  lemma {:induction false} TotalSpend(grants: seq<Grant>, i: nat)
    requires i < |grants| && !grants[i].used
    ensures var next := grants[i := grants[i].(used := true)];
            Total(next) == Total(grants) && Used(next) == Used(grants) + grants[i].tokens
    decreases |grants|
  {
    var next := grants[i := grants[i].(used := true)];
    if i == 0 {
      assert next[1..] == grants[1..];
    } else {
      assert next[1..] == grants[1..][i - 1 := grants[i].(used := true)];
      TotalSpend(grants[1..], i - 1);
    }
  }

  lemma {:induction false} UsedWithinTotal(grants: seq<Grant>)
    ensures Used(grants) <= Total(grants)
  {
    if grants != [] { UsedWithinTotal(grants[1..]); }
  }

  lemma GrantedOk(j: Job, tokens: nat, sources: Sources, next: Id)
    requires JobOk(j, sources, next) && j.reserved + tokens <= j.budget
    ensures JobOk(Granted(j, tokens), sources, next)
  {
    TotalAppend(j.grants, Grant(tokens, false));
  }

  lemma ReserveKeeps(w: World, sources: Sources, token: Id, t: Time)
    requires Valid(w, sources)
    ensures Valid(Reserve(w, token, t), sources)
  {
    var v := Reserve(w, token, t);
    if v != w {
      if v.workers[token].phase.Failing? {
        GivesUp(w, sources, token, Failing);
      } else {
        ReservedKeeps(w, sources, token, t);
      }
    }
  }

  lemma ReservedKeeps(w: World, sources: Sources, token: Id, t: Time)
    requires Valid(w, sources) && token in w.workers && w.workers[token].phase.Working? && w.workers[token].phase.hybrid
    requires w.workers[token].phase.rest != [] && HeldBy(w, token, t)
    requires var j := w.jobs[w.workers[token].job]; j.reserved + BatchTokens(Batch(w.workers[token].phase.rest)) <= j.budget
    ensures var j, rest := w.jobs[w.workers[token].job], w.workers[token].phase.rest;
            Valid(Written(w, token, Granted(j, BatchTokens(Batch(rest))), Reserved(rest, |j.grants|)), sources)
  {
    var k := w.workers[token];
    var j, rest := w.jobs[k.job], k.phase.rest;
    var tokens := BatchTokens(Batch(rest));
    GrantedOk(j, tokens, sources, w.next);
    BatchAndLater(rest);
    HolderSpares(w, sources, token, Granted(j, tokens));
    assert WorkerOk(k, token, w.jobs, sources);
    forall x | x in w.workers && x != token && w.workers[x].phase.Reserved? && w.workers[x].job == k.job
      ensures w.workers[x].phase.grant != |j.grants|
    {
      assert WorkerOk(w.workers[x], x, w.jobs, sources);
    }
    hide JobOk, Spares, Remaining, Batch, Later, JobsOk, WorkersOk, Apart, OneCurrent;
    WrittenKeeps(w, sources, token, Granted(j, tokens), Reserved(rest, |j.grants|));
  }

  // ---- Sending a request, possibly without the lease

  lemma SpentOk(j: Job, grant: nat, tokens: nat, sources: Sources, next: Id)
    requires JobOk(j, sources, next) && grant < |j.grants| && j.grants[grant] == Grant(tokens, false)
    ensures JobOk(Spent(j, grant, tokens), sources, next)
  {
    TotalSpend(j.grants, grant);
    UsedWithinTotal(Spent(j, grant, tokens).grants);
  }

  lemma SpentSpares(w: World, sources: Sources, token: Id, tokens: nat)
    requires WorkersOk(w.workers, w.jobs, sources, w.next) && Apart(w.workers)
    requires token in w.workers && w.workers[token].job in w.jobs && w.workers[token].phase.Reserved?
    ensures Spares(w, sources, token, Spent(w.jobs[w.workers[token].job], w.workers[token].phase.grant, tokens))
  {
    var id, grant := w.workers[token].job, w.workers[token].phase.grant;
    var j := Spent(w.jobs[id], grant, tokens);
    forall k | k in w.workers && k != token && w.workers[k].job == id
      ensures WorkerOk(w.workers[k], k, w.jobs[id := j], sources)
    {
      assert WorkerOk(w.workers[k], k, w.jobs, sources);
      hide Remaining, Batched, Batch, Later, BatchTokens;
    }
  }

  lemma SendKeeps(w: World, sources: Sources, token: Id)
    requires Valid(w, sources)
    ensures Valid(Send(w, token), sources)
  {
    if token in w.workers && w.workers[token].phase.Reserved? {
      var k := w.workers[token];
      assert WorkerOk(k, token, w.jobs, sources);
      if k.job in w.jobs {
        var tokens := BatchTokens(Batch(k.phase.rest));
        SpentOk(w.jobs[k.job], k.phase.grant, tokens, sources, w.next);
        SpentSpares(w, sources, token, tokens);
        hide Spares, Remaining, Batch, Later, BatchTokens, JobsOk, WorkersOk, Apart, OneCurrent, Stocked;
        WrittenKeeps(w, sources, token, Spent(w.jobs[k.job], k.phase.grant, tokens), Awaiting(k.phase.rest));
      } else {
        MovedKeeps(w, sources, token, Awaiting(k.phase.rest));
      }
    }
  }

  // ---- Checkpoints

  lemma BatchIsPrefix(rest: seq<Chunk>)
    ensures |Batch(rest)| <= |rest| && rest == Batch(rest) + rest[|Batch(rest)|..]
    ensures rest != [] ==> Batch(rest) != []
  {
  }

  /** A holder's documents meet the table's constraints. */
  lemma BatchIsInsertable(chunks: seq<Chunk>, docs: seq<Document>, rest: seq<Chunk>, hybrid: bool, fresh_: seq<Document>, usage: nat)
    requires ChunksOk(chunks) && Remaining(chunks, docs, rest) && Batched(Batch(rest), hybrid, fresh_, usage)
    ensures Insertable(docs, fresh_)
  {
    var batch := Batch(rest);
    forall i | 0 <= i < |fresh_| ensures fresh_[i].chunk == rest[i].id && rest[i] in chunks && rest[i].id !in DoneIds(docs) && fresh_[i].tokenCount > 0 {
      assert FromOwnParts(batch[i], hybrid, fresh_[i]) && rest[i] in rest;
      assert rest[i].parts[0] in rest[i].parts;
    }
  }

  lemma LaterIsElse(rest: seq<Chunk>, n: nat, c: Chunk)
    requires n <= |rest| && (forall i, j | 0 <= i < j < |rest| :: rest[i].id != rest[j].id) && c in rest[n..]
    ensures forall b | b in rest[..n] :: b.id != c.id
  {
    var y :| 0 <= y < |rest| - n && rest[n..][y] == c;
    forall b | b in rest[..n] ensures b.id != c.id {
      var x :| 0 <= x < n && rest[x] == b;
      assert rest[x].id != rest[n + y].id;
    }
  }

  /** After a checkpoint the remaining chunks are still exactly those without a document. */
  lemma BatchIsDone(chunks: seq<Chunk>, docs: seq<Document>, rest: seq<Chunk>, hybrid: bool, fresh_: seq<Document>, usage: nat)
    requires Remaining(chunks, docs, rest) && Batched(Batch(rest), hybrid, fresh_, usage)
    ensures Remaining(chunks, docs + fresh_, rest[|Batch(rest)|..])
  {
    var batch, later := Batch(rest), rest[|Batch(rest)|..];
    assert rest == batch + later;
    forall c | c in chunks ensures c in later <==> c.id !in DoneIds(docs + fresh_) {
      DoneAfter(batch, docs, fresh_, hybrid, c.id);
      if c in later { LaterIsElse(rest, |batch|, c); }
    }
    forall c | c in later ensures c in chunks { assert c in rest; }
  }

  lemma DoneAfter(batch: seq<Chunk>, docs: seq<Document>, fresh_: seq<Document>, hybrid: bool, id: Id)
    requires |fresh_| == |batch| && forall k | 0 <= k < |batch| :: FromOwnParts(batch[k], hybrid, fresh_[k])
    ensures id in DoneIds(docs + fresh_) <==> id in DoneIds(docs) || exists b :: b in batch && b.id == id
  {
    if id in DoneIds(docs + fresh_) && id !in DoneIds(docs) {
      var d :| d in docs + fresh_ && d.chunk == id;
      assert d in fresh_;
      var k :| 0 <= k < |fresh_| && fresh_[k] == d;
      assert batch[k] in batch && batch[k].id == id;
    }
    if id in DoneIds(docs) {
      var d :| d in docs && d.chunk == id;
      assert d in docs + fresh_;
    }
    if b :| b in batch && b.id == id {
      var k :| 0 <= k < |batch| && batch[k] == b;
      assert fresh_[k] in docs + fresh_ && fresh_[k].chunk == id;
    }
  }

  lemma StoredIsMade(chunks: seq<Chunk>, docs: seq<Document>, rest: seq<Chunk>, hybrid: bool, fresh_: seq<Document>, usage: nat)
    requires Remaining(chunks, docs, rest) && Batched(Batch(rest), hybrid, fresh_, usage)
    requires forall d | d in docs :: Made(chunks, hybrid, d)
    ensures forall d | d in docs + fresh_ :: Made(chunks, hybrid, d)
  {
    forall d | d in fresh_ ensures Made(chunks, hybrid, d) {
      var k :| 0 <= k < |fresh_| && fresh_[k] == d;
      assert FromOwnParts(Batch(rest)[k], hybrid, d) && Batch(rest)[k] == rest[k] && rest[k] in rest;
    }
  }

  lemma StoredIsDistinct(docs: seq<Document>, fresh_: seq<Document>)
    requires DistinctDocs(docs) && Insertable(docs, fresh_)
    ensures DistinctDocs(docs + fresh_)
  {
    forall i, j | 0 <= i < |docs| && 0 <= j < |fresh_| ensures docs[i].chunk != fresh_[j].chunk {
      assert docs[i] in docs && fresh_[j] in fresh_;
      assert docs[i].chunk in DoneIds(docs);
    }
  }

  lemma StoredOk(j: Job, sources: Sources, next: Id, rest: seq<Chunk>, docs: seq<Document>, usage: nat)
    requires JobOk(j, sources, next) && j.row.status == Running && Remaining(sources[j.source], j.documents, rest)
    requires Batched(Batch(rest), j.hybrid, docs, usage) && Insertable(j.documents, docs) && j.input + usage <= j.sent
    ensures JobOk(Stored(j, docs, usage), sources, next)
  {
    hide Insertable, DistinctDocs, Made, Remaining, Batch, BatchTokens, RowOk, Total, Used;
    StoredIsMade(sources[j.source], j.documents, rest, j.hybrid, docs, usage);
    StoredIsDistinct(j.documents, docs);
    CountAppend(j.documents, docs);
  }

  lemma HolderPlan(w: World, sources: Sources, token: Id, t: Time)
    requires Valid(w, sources) && SourcesOk(sources) && HeldBy(w, token, t)
    ensures var k := w.workers[token];
            var j := w.jobs[k.job];
            && JobOk(j, sources, w.next) && j.row.status == Running && j.row.token == Some(token)
            && PlanOk(k.phase, sources[j.source], j) && ChunksOk(sources[j.source])
  {
    assert WorkerOk(w.workers[token], token, w.jobs, sources);
    hide PlanOk, ChunksOk;
  }

  lemma CheckpointKeeps(w: World, sources: Sources, token: Id, t: Time)
    requires Valid(w, sources) && SourcesOk(sources)
    ensures Valid(Checkpoint(w, token, t), sources)
  {
    var v := Checkpoint(w, token, t);
    if v != w {
      if !HeldBy(w, token, t) || !Insertable(w.jobs[w.workers[token].job].documents, w.workers[token].phase.documents) {
        GivesUp(w, sources, token, v.workers[token].phase);
      } else {
        StoredKeeps(w, sources, token, t);
      }
    }
  }

  lemma StoredKeeps(w: World, sources: Sources, token: Id, t: Time)
    requires Valid(w, sources) && SourcesOk(sources) && HeldBy(w, token, t) && w.workers[token].phase.Built?
    requires Insertable(w.jobs[w.workers[token].job].documents, w.workers[token].phase.documents)
    ensures var j, p := w.jobs[w.workers[token].job], w.workers[token].phase;
            && |Batch(p.rest)| <= |p.rest|
            && Valid(Written(w, token, Stored(j, p.documents, p.usage), Working(p.hybrid, p.rest[|Batch(p.rest)|..])), sources)
  {
    HolderPlan(w, sources, token, t);
    var j, p := w.jobs[w.workers[token].job], w.workers[token].phase;
    StoredOk(j, sources, w.next, p.rest, p.documents, p.usage);
    BatchIsDone(sources[j.source], j.documents, p.rest, p.hybrid, p.documents, p.usage);
    HolderSpares(w, sources, token, Stored(j, p.documents, p.usage));
    BatchIsPrefix(p.rest);
    hide Batched, Insertable, Remaining, Batch, JobOk, Spares, JobsOk, WorkersOk, Apart, OneCurrent;
    WrittenKeeps(w, sources, token, Stored(j, p.documents, p.usage), Working(p.hybrid, p.rest[|Batch(p.rest)|..]));
  }

  // ---- The end of a job

  lemma EndedOk(j: Job, sources: Sources, next: Id, status: JobStatus)
    requires JobOk(j, sources, next) && j.row.status == Running && status.Terminal()
    requires status == Completed ==> forall c | c in sources[j.source] :: c.id in DoneIds(j.documents)
    ensures JobOk(j.(row := End(j.row, status)), sources, next)
  {
    hide DistinctDocs, Made, Total, Used, CountAll;
  }

  /** The holder ends its job; it may complete it only when nothing remains. */
  lemma EndKeeps(w: World, sources: Sources, token: Id, t: Time, status: JobStatus)
    requires Valid(w, sources) && SourcesOk(sources) && HeldBy(w, token, t) && (status.Completed? || status.Failed?)
    requires status == Completed ==> w.workers[token].phase.Working? && w.workers[token].phase.rest == []
    ensures var j := w.jobs[w.workers[token].job];
            Valid(Written(w, token, j.(row := End(j.row, status)), Stopped), sources)
  {
    HolderPlan(w, sources, token, t);
    var j := w.jobs[w.workers[token].job];
    EndedOk(j, sources, w.next, status);
    HolderSpares(w, sources, token, j.(row := End(j.row, status)));
    hide JobOk, Spares, JobsOk, WorkersOk, Apart, OneCurrent, PlanOk, ChunksOk;
    WrittenKeeps(w, sources, token, j.(row := End(j.row, status)), Stopped);
  }

  lemma CompleteKeeps(w: World, sources: Sources, token: Id, t: Time)
    requires Valid(w, sources) && SourcesOk(sources)
    ensures Valid(Complete(w, token, t), sources)
  {
    hide Valid, SourcesOk;
    if Complete(w, token, t) != w {
      if HeldBy(w, token, t) { EndKeeps(w, sources, token, t, Completed); } else { GivesUp(w, sources, token, Stopped); }
    }
  }

  lemma FailKeeps(w: World, sources: Sources, token: Id, t: Time)
    requires Valid(w, sources) && SourcesOk(sources)
    ensures Valid(Fail(w, token, t), sources)
  {
    hide Valid, SourcesOk;
    if token in w.workers && w.workers[token].phase == Failing {
      if HeldBy(w, token, t) { EndKeeps(w, sources, token, t, Failed); } else { GivesUp(w, sources, token, Stopped); }
    }
  }

  // ---- The worker's remaining moves

  lemma LoadJobKeeps(w: World, sources: Sources, token: Id, same: bool)
    requires Valid(w, sources)
    ensures Valid(LoadJob(w, token, same), sources)
  {
    if LoadJob(w, token, same) != w {
      MovedKeeps(w, sources, token, LoadJob(w, token, same).workers[token].phase);
    }
  }

  lemma PlanReported(k: Preparer, token: Id, jobs: Jobs, sources: Sources)
    requires WorkerOk(k, token, jobs, sources) && k.phase.Planned?
    ensures WorkerOk(k.(phase := Working(k.phase.hybrid, k.phase.rest)), token, jobs, sources)
  {
    hide Remaining;
  }

  lemma ReportKeeps(w: World, sources: Sources, token: Id, t: Time)
    requires Valid(w, sources)
    ensures Valid(Report(w, token, t), sources)
  {
    if token in w.workers && w.workers[token].phase.Planned? {
      var k := w.workers[token];
      if HeldBy(w, token, t) {
        PlanReported(k, token, w.jobs, sources);
        hide Valid, WorkerOk;
        MovedKeeps(w, sources, token, Working(k.phase.hybrid, k.phase.rest));
      } else {
        hide Valid;
        GivesUp(w, sources, token, Stopped);
      }
    }
  }

  lemma BuildKeeps(w: World, sources: Sources, token: Id)
    requires Valid(w, sources)
    ensures Valid(Build(w, token), sources)
  {
    if Build(w, token) != w {
      BatchedDocuments(Batch(w.workers[token].phase.rest), None);
      BatchAndLater(w.workers[token].phase.rest);
      hide Apart, OneCurrent, Remaining, Batched, Stocked, RowOk;
      MovedKeeps(w, sources, token, Build(w, token).workers[token].phase);
    }
  }

  lemma AbortKeeps(w: World, sources: Sources, token: Id)
    requires Valid(w, sources)
    ensures Valid(Abort(w, token), sources)
  {
    hide Valid;
    if Abort(w, token) != w { GivesUp(w, sources, token, Failing); }
  }
}
