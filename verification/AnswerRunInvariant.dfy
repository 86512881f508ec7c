/** What every reachable state of the answer-run protocol satisfies. */
module AnswerRunInvariant {
  import opened Options
  import opened Transcripts
  import opened AnswerRuns

  // ---- One run

  /** The log a run's history calls for: queued, then running if it was ever claimed, then the
      terminal status if it has one. */
  ghost function Path(r: Run): seq<Status> {
    [Queued] + (if r.started.Some? then [Running] else []) + (if r.status.Terminal() then [r.status] else [])
  }

  ghost predicate Logs(events: map<nat, Status>, path: seq<Status>) {
    && (forall k: nat :: k in events <==> 1 <= k <= |path|)
    && (forall k | k in events :: events[k] == path[k - 1])
  }

  ghost predicate RunOk(r: Run) {
    && Logs(r.events, Path(r))
    && (r.usage == NotStarted <==> r.started.None?)
    && (r.usage == Recorded <==> r.status == Completed)
    && (r.status == Running <==> r.token.Some?)
    && (r.token.Some? <==> r.expires.Some?)
    && (r.status == Running ==> r.started.Some? && r.expires.value < r.created + HOUR + LEASE)
    && (r.status == Queued ==> r.started.None?)
    && (r.inputTokens.Some? <==> r.status == Completed)
    && (r.outputTokens.Some? <==> r.status == Completed)
    && (r.finished.Some? <==> r.status.Terminal())
    && (r.preview != "" ==> r.status == Running) && |r.preview| <= PREVIEW_CHARS
    && (r.started.None? ==> r.revision == 0)
    && r.revision <= 241
  }

  /** How a stored row can change: who it belongs to never does, a claim is never undone, previews
      are only counted up, a finished run never becomes active again. */
  ghost predicate Follows(r: Run, s: Run) {
    && s.conversation == r.conversation && s.key == r.key && s.hash == r.hash && s.question == r.question
    && s.source == r.source && s.hybrid == r.hybrid && s.created == r.created && s.revision >= r.revision
    && (r.started.Some? ==> s.started == r.started)
    && (s.status.Active() ==> r.status.Active())
    && (r.status.Terminal() ==> s == r)
  }

  lemma LastSequenceIsLength(events: map<nat, Status>, path: seq<Status>)
    requires Logs(events, path)
    ensures LastSequence(events) == |path|
  {
    if path == [] {
      assert events == map[];
    } else {
      assert |path| in events;
    }
  }

  /** Appending the new status extends a faithful log by exactly one entry. */
  lemma AppendExtends(r: Run, s: Run)
    requires Logs(r.events, Path(r)) && s.events == r.events
    requires Path(s) == Path(r) + [s.status]
    ensures Logs(AppendState(s).events, Path(AppendState(s)))
  {
    LastSequenceIsLength(r.events, Path(r));
    var a := AppendState(s);
    assert Path(a) == Path(s);
    forall k: nat ensures k in a.events <==> 1 <= k <= |Path(a)| {}
  }

  lemma NewRunOk(c: Id, d: Draft, t: Time)
    ensures RunOk(AppendState(NewRun(c, d, t)))
  {
    var r := NewRun(c, d, t);
    assert Logs(r.events, []);
    LastSequenceIsLength(r.events, []);
  }

  lemma StartOk(r: Run, token: Id, t: Time)
    requires RunOk(r) && r.status == Queued && r.created > t - HOUR
    ensures RunOk(StartRun(r, token, t)) && Follows(r, StartRun(r, token, t))
  {
    AppendExtends(r, r.(status := Running, usage := Unknown, started := Some(t), token := Some(token), expires := Some(t + LEASE)));
  }

  lemma CompleteOk(r: Run, a: Answer, t: Time)
    requires RunOk(r) && r.status == Running
    ensures RunOk(CompleteRun(r, a, t))
  {
    AppendExtends(r, r.(status := Completed, usage := Recorded, inputTokens := Some(a.inputTokens),
                        outputTokens := Some(a.outputTokens), finished := Some(t), token := None, expires := None));
  }

  lemma EndOk(r: Run, status: Status, error: Option<string>, t: Time)
    requires RunOk(r) && r.status.Active() && (status == Failed || status == Cancelled)
    ensures RunOk(EndRun(r, status, error, t))
  {
    AppendExtends(r, r.(status := status, finished := Some(t), token := None, expires := None, error := error));
  }

  // ---- The whole state

  type Conversations = map<Id, Conversation>
  type Runs = map<Id, Run>
  type Receipts = map<Id, Receipt>

  ghost predicate RunsFollow(runs: Runs, next: Runs) {
    && runs.Keys == next.Keys
    && forall id | id in runs :: Follows(runs[id], next[id])
  }

  /** Every identifier in use was handed out earlier. */
  ghost predicate Numbered(w: World) {
    && (forall c | c in w.conversations :: c < w.next)
    && (forall id | id in w.runs :: id < w.next)
    && (forall id | id in w.receipts :: id < w.next)
    && (forall k | k in w.workers :: k < w.next && w.workers[k].run < w.next)
    && (forall i | 0 <= i < |w.calls| :: w.calls[i].run < w.next)
    && (forall c | c in w.conversations :: TurnsBelow(w.conversations[c], w.next))
    && (forall k | k in w.workers :: SlotOk(w.workers[k], w.receipts, w.next))
  }

  /** The receipt a call in flight will fill in is the run's own, or is gone with the run. */
  ghost predicate SlotOk(k: Worker, receipts: Receipts, next: Id) {
    k.phase.Calling? || k.phase.Awaiting? ==>
      k.phase.receipt < next && (k.phase.receipt in receipts ==> receipts[k.phase.receipt].run == k.run)
  }

  ghost predicate TurnsBelow(c: Conversation, next: Id) {
    forall p | p in c.messages :: c.messages[p].turn < next
  }

  ghost predicate Rows(runs: Runs, cs: Conversations) {
    forall id | id in runs :: RunOk(runs[id]) && runs[id].conversation in cs
  }

  /** A saved turn of a stored run belongs to a completed run of that very conversation, and no
      two saved pairs share a turn. */
  ghost predicate Saved(cs: Conversations, runs: Runs) {
    && (forall c | c in cs :: Shape(cs[c]) && TurnsOk(runs, c, cs[c]))
    && (forall c, d | c in cs && d in cs :: Apart(c, cs[c], d, cs[d]))
  }

  ghost predicate TurnsOk(runs: Runs, c: Id, x: Conversation) {
    forall p | p in x.messages :: TurnOk(runs, c, x.messages[p].turn)
  }

  ghost predicate Apart(c: Id, x: Conversation, d: Id, y: Conversation) {
    forall p, q | p in x.messages && q in y.messages :: x.messages[p].turn == y.messages[q].turn ==> c == d && (p + 1) / 2 == (q + 1) / 2
  }

  ghost predicate TurnOk(runs: Runs, c: Id, turn: Id) {
    turn in runs ==> runs[turn].status == Completed && runs[turn].conversation == c
  }

  ghost predicate PairSaved(cs: Conversations, c: Id, p: nat, id: Id, r: Run, a: Answer) {
    && c == r.conversation && c in cs && PairAt(cs[c], p, id, r.question, a) && a.source == r.source
    && r.inputTokens == Some(a.inputTokens) && r.outputTokens == Some(a.outputTokens)
  }

  ghost predicate Published(cs: Conversations, id: Id, r: Run) {
    exists p, a :: PairSaved(cs, r.conversation, p, id, r, a)
  }

  ghost predicate AllPublished(cs: Conversations, runs: Runs) {
    forall id | id in runs && runs[id].status == Completed :: Published(cs, id, runs[id])
  }

  ghost predicate Billed(receipts: Receipts, runs: Runs) {
    && (forall id | id in receipts :: receipts[id].run in runs && runs[receipts[id].run].started.Some?)
    && (forall a, b | a in receipts && b in receipts && a != b :: receipts[a].run != receipts[b].run || receipts[a].kind != receipts[b].kind)
  }

  /** Every receipt of a completed run is filled in. Its generation receipt, if there is one,
      carries the run's tokens; a completed run without one used none. */
  ghost predicate Accounted(receipts: Receipts, id: Id, r: Run) {
    && (forall x | x in receipts && receipts[x].run == id :: receipts[x].usage.Some?)
    && (forall x | Covers(receipts, x, id, Generation) :: receipts[x].usage == Some((r.inputTokens.GetOr(0), r.outputTokens.GetOr(0))))
    && ((forall x :: !Covers(receipts, x, id, Generation)) ==> r.inputTokens == Some(0) && r.outputTokens == Some(0))
  }

  ghost predicate AllAccounted(receipts: Receipts, runs: Runs) {
    forall id | id in runs && runs[id].status == Completed :: Accounted(receipts, id, runs[id])
  }

  /** No run is ever sent twice to the same kind of provider, and a sent call is covered by a
      receipt of its own for as long as its run is stored. */
  ghost predicate CallsOk(calls: seq<Call>, receipts: Receipts, runs: Runs) {
    && (forall i | 0 <= i < |calls| && calls[i].run in runs ::
          runs[calls[i].run].started.Some? && Covers(receipts, calls[i].receipt, calls[i].run, calls[i].kind))
    && (forall i, j | 0 <= i < j < |calls| :: calls[i].run != calls[j].run || calls[i].kind != calls[j].kind)
  }

  // What a worker in a given phase may have left behind.

  ghost predicate PinOk(phase: Phase, r: Run, cs: Conversations) {
    (phase.Ready? || phase.Calling? || phase.Awaiting? || phase.Answered?) ==>
      && phase.pin.conversation == r.conversation && phase.pin.question == r.question && phase.pin.source == r.source
      && r.conversation in cs && cs[r.conversation].user == phase.pin.user
  }

  ghost predicate Allowed(phase: Phase, id: Id, kind: Kind) {
    match phase
    case Claimed => false
    case Ready(_, embedded) => embedded && kind == QueryEmbedding
    case Calling(_, k, receipt) => if k == QueryEmbedding then id == receipt else kind == Generation ==> id == receipt
    case Awaiting(_, k, receipt) => if k == QueryEmbedding then id == receipt else kind == Generation ==> id == receipt
    case Answered(_, paid, _) => kind == Generation ==> paid == Some(id)
    case _ => true
  }

  ghost predicate Open(phase: Phase, run: Id, receipts: Receipts) {
    phase.Calling? || phase.Awaiting? ==>
      Covers(receipts, phase.receipt, run, phase.kind) && receipts[phase.receipt].usage.None?
  }

  /** A worker that is still on its way has only the receipt of its current call unfilled. */
  ghost predicate Settled(phase: Phase, run: Id, receipts: Receipts) {
    phase.Ready? || phase.Calling? || phase.Awaiting? || phase.Answered? ==>
      forall id | id in receipts && receipts[id].run == run && receipts[id].usage.None? ::
        (phase.Calling? || phase.Awaiting?) && id == phase.receipt
  }

  ghost predicate AnswerOk(phase: Phase, run: Id, receipts: Receipts) {
    phase.Answered? ==>
      && phase.answer.source == phase.pin.source
      && match phase.paid
         case Some(id) => Covers(receipts, id, run, Generation) && receipts[id].usage == Some((phase.answer.inputTokens, phase.answer.outputTokens))
         case None => phase.answer.inputTokens == 0 && phase.answer.outputTokens == 0
  }

  ghost predicate Sent(phase: Phase, kind: Kind) {
    match phase
    case Claimed => false
    case Ready(_, embedded) => embedded && kind == QueryEmbedding
    case Calling(_, k, _) => k == Generation && kind == QueryEmbedding
    case Awaiting(_, k, _) => k == QueryEmbedding ==> kind == QueryEmbedding
    case _ => true
  }

  /** The throttle's arithmetic: n preview writes took at least (n - 1) quarter seconds. */
  ghost predicate PreviewOk(revision: nat, k: Worker) {
    match k.written
    case None => revision == 0
    case Some(last) => revision >= 1 && k.begun <= last <= k.begun + DEADLINE && PREVIEW_INTERVAL * (revision - 1) <= last - k.begun
  }

  ghost predicate Bound(k: Worker, r: Run, receipts: Receipts, cs: Conversations) {
    && r.started.Some?
    && PinOk(k.phase, r, cs)
    && PreviewOk(r.revision, k)
    && Open(k.phase, k.run, receipts)
    && Settled(k.phase, k.run, receipts)
    && AnswerOk(k.phase, k.run, receipts)
    && (forall id | id in receipts && receipts[id].run == k.run :: Allowed(k.phase, id, receipts[id].kind))
  }

  ghost predicate WorkerOk(k: Worker, runs: Runs, receipts: Receipts, cs: Conversations, calls: seq<Call>) {
    && (k.run in runs ==> Bound(k, runs[k.run], receipts, cs))
    && (k.phase.Claimed? ==> k.written.None?)
    && (forall i | 0 <= i < |calls| && calls[i].run == k.run :: Sent(k.phase, calls[i].kind))
  }

  ghost predicate WorkersOk(w: World) {
    forall k | k in w.workers :: WorkerOk(w.workers[k], w.runs, w.receipts, w.conversations, w.calls)
  }

  /** Each run has at most one worker for ever, and a running run is leased to it. */
  ghost predicate Leased(workers: map<Id, Worker>, runs: Runs) {
    && (forall a, b | a in workers && b in workers && a != b :: workers[a].run != workers[b].run)
    && (forall id | id in runs && runs[id].status == Running && runs[id].token.Some? ::
          runs[id].token.value in workers && workers[runs[id].token.value].run == id)
  }

  ghost predicate Rival(a: Run, b: Run) {
    a.conversation == b.conversation && (a.key == b.key || (a.status.Active() && b.status.Active()))
  }

  ghost function Within(runs: Runs, c: Id): set<Id> {
    set id | id in runs && runs[id].conversation == c
  }

  ghost predicate DraftOk(runs: Runs, c: Id, d: Draft) {
    && (forall id | id in runs :: runs[id].conversation == c ==> runs[id].key != d.key && !runs[id].status.Active())
    && |Within(runs, c)| < MAX_RUNS
  }

  ghost predicate Submissions(runs: Runs, drafts: map<Id, Draft>, cs: Conversations) {
    && (forall a, b | a in runs && b in runs && a != b :: !Rival(runs[a], runs[b]))
    && (forall c | c in cs :: |Within(runs, c)| <= MAX_RUNS)
    && (forall c | c in drafts :: c in cs && DraftOk(runs, c, drafts[c]))
  }

  /** The invariant. The parts are bound to one name so that a proof sees them as one fact and
      unfolds only those that a step touches. */
  ghost predicate Valid(w: World) {
    var parts :=
      && Numbered(w)
      && Rows(w.runs, w.conversations)
      && Saved(w.conversations, w.runs)
      && AllPublished(w.conversations, w.runs)
      && Billed(w.receipts, w.runs)
      && AllAccounted(w.receipts, w.runs)
      && CallsOk(w.calls, w.receipts, w.runs)
      && WorkersOk(w)
      && Leased(w.workers, w.runs)
      && Submissions(w.runs, w.drafts, w.conversations);
    parts
  }
}
