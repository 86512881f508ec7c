/** The durable answer-run protocol as a state machine.

    `World` is the shared database plus what each worker process remembers. Every committed
    transaction is one step; workers, the dispatcher, the API and duplicated queue deliveries
    may take steps in any order, and a crashed worker is one that takes no further step. Each
    step carries its own clock reading, so no property below relies on synchronised clocks. */
module AnswerRuns {
  import opened Options
  import opened Transcripts

  type Time = int // milliseconds

  const HOUR: Time := 3600000
  const LEASE: Time := 180000
  const DEADLINE: Time := 60000
  const PREVIEW_INTERVAL: Time := 250
  const MAX_REVISION := 256
  const PREVIEW_CHARS := 8000
  const MAX_RUNS := 1000

  datatype Status = Queued | Running | Completed | Failed | Cancelled {
    predicate Terminal() { Completed? || Failed? || Cancelled? }

    predicate Active() { Queued? || Running? }
  }

  datatype UsageState = NotStarted | Unknown | Recorded

  datatype Kind = QueryEmbedding | Generation

  /** A row of answer_runs together with its rows of answer_run_events (`events`, keyed by
      sequence); deleting the run deletes both. */
  datatype Run = Run(
    conversation: Id, key: Id, hash: Id, question: string, hybrid: bool, source: Id, created: Time,
    status: Status, usage: UsageState, started: Option<Time>, finished: Option<Time>,
    token: Option<Id>, expires: Option<Time>, inputTokens: Option<nat>, outputTokens: Option<nat>,
    error: Option<string>, preview: string, revision: nat, events: map<nat, Status>)

  /** A row of usage_receipts; `usage` holds (input, output) once the call is accounted for. */
  datatype Receipt = Receipt(run: Id, kind: Kind, usage: Option<(nat, nat)>)

  /** One request sent to a paid provider, with the receipt that covers it. */
  datatype Call = Call(run: Id, kind: Kind, receipt: Id)

  /** What a worker copied from the database when it started. */
  datatype Pin = Pin(conversation: Id, user: Id, question: string, source: Id, hybrid: bool)

  datatype Phase =
    | Claimed
    | Ready(pin: Pin, embedded: bool)
    | Calling(pin: Pin, kind: Kind, receipt: Id)
    | Awaiting(pin: Pin, kind: Kind, receipt: Id)
    | Answered(pin: Pin, paid: Option<Id>, answer: Answer)
    | Failing(code: string)
    | Stopped

  /** A worker process, identified by its lease token. `begun` is when it started answering;
      `previous` and `written` are the preview throttle's memory. */
  datatype Worker = Worker(run: Id, phase: Phase, begun: Time, previous: string, written: Option<Time>)

  /** A submission that passed every check and still holds the conversation row lock. */
  datatype Draft = Draft(key: Id, hash: Id, question: string, hybrid: bool, source: Id)

  datatype World = World(
    next: Id, conversations: map<Id, Conversation>, runs: map<Id, Run>, receipts: map<Id, Receipt>,
    drafts: map<Id, Draft>, workers: map<Id, Worker>, calls: seq<Call>)

  const Empty := World(0, map[], map[], map[], map[], map[], [])

  // ---- The event log

  ghost function Greatest(s: set<nat>): (m: nat)
    requires s != {}
    ensures m in s && forall x | x in s :: x <= m
  {
    var x :| x in s;
    if s == {x} then x else
      var m := Greatest(s - {x});
      assert s == (s - {x}) + {x};
      if x < m then m else x
  }

  ghost function LastSequence(events: map<nat, Status>): nat {
    if events == map[] then 0 else Greatest(events.Keys)
  }

  /** `append_state`: clear the preview of a finished run, then log its status under the next
      sequence number. */
  ghost function AppendState(r: Run): Run {
    r.(preview := if r.status.Terminal() then "" else r.preview,
       events := r.events[LastSequence(r.events) + 1 := r.status])
  }

  // ---- Submission

  /** What the API answers to a submission. */
  datatype Reply = Accepted | Replayed(run: Id) | Conflict | Refused(code: string)

  /** What the surrounding system says during a submission: whether answers are enabled, which
      index is active (if the search mode is prepared), and whether the limiter admits. */
  datatype Climate = Climate(enabled: bool, source: Option<Id>, prepared: bool, admitted: bool)

  ghost predicate HasKey(w: World, id: Id, c: Id, key: Id) {
    id in w.runs && w.runs[id].conversation == c && w.runs[id].key == key
  }

  ghost predicate ActiveIn(w: World, id: Id, c: Id) {
    id in w.runs && w.runs[id].conversation == c && w.runs[id].status.Active()
  }

  ghost function RunsOf(w: World, c: Id): set<Id> {
    set id | id in w.runs && w.runs[id].conversation == c
  }

  /** `replay`: the stored run answers a repeated request only if the payload is the same. */
  ghost function Replay(w: World, id: Id, hash: Id): Reply
    requires id in w.runs
  {
    if w.runs[id].hash == hash then Replayed(id) else Conflict
  }

  /** The checks of `submit`, in order, under the conversation lock. */
  ghost function CheckSubmission(w: World, c: Id, user: Id, d: Draft, climate: Climate): Reply {
    if c !in w.conversations || w.conversations[c].user != user then Refused("not_found")
    else if exists id :: HasKey(w, id, c, d.key) then
      var id :| HasKey(w, id, c, d.key); Replay(w, id, d.hash)
    else if !climate.enabled then Refused("answers_disabled")
    else if w.conversations[c].messageCount >= MAX_MESSAGES then Refused("conversation_full")
    else if exists id :: ActiveIn(w, id, c) then Refused("answer_active")
    else if |RunsOf(w, c)| >= MAX_RUNS then Refused("run_limit")
    else if climate.source.None? then Refused("index_required")
    else if !climate.prepared then Refused("search_required")
    else if !climate.admitted then Refused("rate_limited")
    else Accepted
  }

  ghost function BeginSubmit(w: World, c: Id, user: Id, d: Draft, climate: Climate): World {
    if c in w.drafts then w // waits for the row lock
    else if CheckSubmission(w, c, user, d, climate).Accepted? then
      w.(drafts := w.drafts[c := d.(source := climate.source.value)])
    else w
  }

  /** The table's constraints that an inserted run must meet: the unique (conversation,
      request key) pair and the partial unique index on active runs. */
  ghost predicate Insertable(w: World, c: Id, d: Draft) {
    && c in w.conversations
    && !(exists id :: HasKey(w, id, c, d.key))
    && !(exists id :: ActiveIn(w, id, c))
  }

  ghost function NewRun(c: Id, d: Draft, t: Time): Run {
    Run(c, d.key, d.hash, d.question, d.hybrid, d.source, t, Queued, NotStarted, None, None, None, None,
        None, None, None, "", 0, map[])
  }

  ghost function Insert(w: World, c: Id, t: Time): World
    requires c in w.drafts
  {
    w.(next := w.next + 1, drafts := w.drafts - {c}, runs := w.runs[w.next := AppendState(NewRun(c, w.drafts[c], t))])
  }

  /** Insert and commit; a violated constraint rolls the submission back. */
  ghost function FinishSubmit(w: World, c: Id, t: Time): World {
    if c !in w.drafts then w
    else if Insertable(w, c, w.drafts[c]) then Insert(w, c, t)
    else w.(drafts := w.drafts - {c})
  }

  // ---- Worker steps

  ghost predicate Holds(w: World, token: Id) {
    && token in w.workers && w.workers[token].run in w.runs
    && w.runs[w.workers[token].run].status == Running
    && w.runs[w.workers[token].run].token == Some(token)
  }

  ghost predicate HoldsUntil(w: World, token: Id, t: Time) {
    Holds(w, token) && w.runs[w.workers[token].run].expires.Some? && w.runs[w.workers[token].run].expires.value > t
  }

  ghost function SetPhase(w: World, token: Id, phase: Phase): World
    requires token in w.workers
  {
    w.(workers := w.workers[token := w.workers[token].(phase := phase)])
  }

  ghost function StartRun(r: Run, token: Id, t: Time): Run {
    AppendState(r.(status := Running, usage := Unknown, started := Some(t),
                   token := Some(token), expires := Some(t + LEASE)))
  }

  ghost predicate Claimable(w: World, id: Id, t: Time) {
    id in w.runs && w.runs[id].status == Queued && w.runs[id].created > t - HOUR
  }

  ghost function Start(w: World, id: Id, t: Time): World
    requires id in w.runs
  {
    w.(next := w.next + 1,
       runs := w.runs[id := StartRun(w.runs[id], w.next, t)],
       workers := w.workers[w.next := Worker(id, Phase.Claimed, t, "", None)])
  }

  /** A delivery of the run to a worker. Anything but a fresh queued run is a no-op. */
  ghost function Claim(w: World, id: Id, t: Time): World {
    if Claimable(w, id, t) then Start(w, id, t) else w
  }

  /** The worker reads its run and conversation back and pins what it will use. */
  ghost function Load(w: World, token: Id, sameConfiguration: bool, t: Time): World {
    if token !in w.workers || w.workers[token].phase != Phase.Claimed then w
    else if !Holds(w, token) then SetPhase(w, token, Stopped)
    else
      var r := w.runs[w.workers[token].run];
      if r.conversation !in w.conversations then SetPhase(w, token, Stopped)
      else if !sameConfiguration then SetPhase(w, token, Failing("answer_config_changed"))
      else
        var pin := Pin(r.conversation, w.conversations[r.conversation].user, r.question, r.source, r.hybrid);
        w.(workers := w.workers[token := w.workers[token].(phase := Ready(pin, false), begun := t)])
  }

  /** The worker is about to call the provider: first the query embedding of a hybrid search,
      then generation. */
  ghost predicate Asks(w: World, token: Id, kind: Kind) {
    && token in w.workers && w.workers[token].phase.Ready?
    && (kind == QueryEmbedding ==> w.workers[token].phase.pin.hybrid)
    && w.workers[token].phase.embedded == (w.workers[token].phase.pin.hybrid && kind == Generation)
  }

  ghost function OpenReceipt(w: World, token: Id, kind: Kind): World
    requires token in w.workers && w.workers[token].phase.Ready?
  {
    SetPhase(w.(next := w.next + 1, receipts := w.receipts[w.next := Receipt(w.workers[token].run, kind, None)]),
             token, Calling(w.workers[token].phase.pin, kind, w.next))
  }

  /** `begin`: commit a receipt before the call it stands for. The unique (run, kind) index
      would reject a second one. */
  ghost function Begin(w: World, token: Id, kind: Kind, t: Time): World {
    if !Asks(w, token, kind) then w
    else if !HoldsUntil(w, token, t) then SetPhase(w, token, Failing("answer_inactive"))
    else if exists id :: Covers(w.receipts, id, w.workers[token].run, kind) then SetPhase(w, token, Failing("answer_worker_error"))
    else OpenReceipt(w, token, kind)
  }

  ghost predicate Covers(receipts: map<Id, Receipt>, id: Id, run: Id, kind: Kind) {
    id in receipts && receipts[id].run == run && receipts[id].kind == kind
  }

  /** The calls of a run whose usage is not known, as `usage` reports them. */
  ghost function UnknownCalls(w: World, run: Id): set<Id> {
    set id | id in w.receipts && w.receipts[id].run == run && w.receipts[id].usage.None?
  }

  /** The request leaves for the provider; from here on it may cost money. */
  ghost function Send(w: World, token: Id): World {
    if token in w.workers && w.workers[token].phase.Calling? then
      var p := w.workers[token].phase;
      SetPhase(w.(calls := w.calls + [Call(w.workers[token].run, p.kind, p.receipt)]), token,
               Awaiting(p.pin, p.kind, p.receipt))
    else w
  }

  /** `finish`: fill a receipt in once, even after cancellation; a deleted one stays deleted. */
  ghost function Account(receipts: map<Id, Receipt>, id: Id, input: nat, output: nat): map<Id, Receipt> {
    if id in receipts && receipts[id].usage.None? then receipts[id := receipts[id].(usage := Some((input, output)))]
    else receipts
  }

  /** What came back from a provider with valid usage: an accepted result (for generation, the
      answer that passed validation and citation checks) or one that was rejected. */
  datatype Outcome = Accept(input: nat, output: nat, answer: Answer) | Reject(input: nat, output: nat)

  /** Where the worker goes when a call returns: a rejected result fails the run, an embedding
      lets it search, a generated answer awaits publication. Retrieval that found another source
      than the pinned one has aborted before, so the answer's source is the pinned one. */
  ghost function Returned(p: Phase, o: Outcome): Phase
    requires p.Awaiting?
  {
    if o.Reject? then Failing("model_invalid")
    else if p.kind == QueryEmbedding then Ready(p.pin, true)
    else Answered(p.pin, Some(p.receipt), o.answer.(source := p.pin.source, inputTokens := o.input, outputTokens := o.output))
  }

  ghost function Finish(w: World, token: Id, o: Outcome): World {
    if token in w.workers && w.workers[token].phase.Awaiting? then
      SetPhase(w.(receipts := Account(w.receipts, w.workers[token].phase.receipt, o.input, o.output)), token,
               Returned(w.workers[token].phase, o))
    else w
  }

  /** Retrieval found no evidence: the answer is produced without any generation call. */
  ghost function NoEvidence(w: World, token: Id, a: Answer): World {
    if token in w.workers && w.workers[token].phase.Ready? && w.workers[token].phase.embedded == w.workers[token].phase.pin.hybrid then
      SetPhase(w, token, Answered(w.workers[token].phase.pin, None, a.(source := w.workers[token].phase.pin.source, inputTokens := 0, outputTokens := 0)))
    else w
  }

  function WithoutNul(s: string): (r: string)
    ensures |r| <= |s|
  {
    if s == "" then "" else (if s[0] == '\0' then "" else [s[0]]) + WithoutNul(s[1..])
  }

  /** What `preview_text` makes of the joined excerpts: at most 8000 characters, none of them NUL. */
  function Shown(text: string): (shown: string)
    ensures |shown| <= PREVIEW_CHARS
  {
    WithoutNul(if |text| <= PREVIEW_CHARS then text else text[..PREVIEW_CHARS])
  }

  /** The throttle lets a new preview through. `tick` is the process clock; the 60-second
      deadline has cut off anything later. */
  ghost predicate Writes(w: World, token: Id, text: string, tick: Time) {
    && token in w.workers && w.workers[token].phase.Awaiting? && w.workers[token].phase.kind == Generation
    && w.workers[token].begun <= tick <= w.workers[token].begun + DEADLINE
    && (w.workers[token].written.Some? ==> tick - w.workers[token].written.value >= PREVIEW_INTERVAL)
    && text != w.workers[token].previous
  }

  ghost function WritePreview(w: World, token: Id, text: string, tick: Time): World
    requires token in w.workers && w.workers[token].run in w.runs
  {
    var k := w.workers[token];
    w.(runs := w.runs[k.run := w.runs[k.run].(preview := text, revision := w.runs[k.run].revision + 1)],
       workers := w.workers[token := k.(previous := text, written := Some(tick))])
  }

  /** `delta`: a throttled preview write, fenced by the lease (read off clock `t`) and by the
      revision limit. */
  ghost function Delta(w: World, token: Id, text: string, tick: Time, t: Time): World {
    if !Writes(w, token, Shown(text), tick) then w
    else if HoldsUntil(w, token, t) && w.runs[w.workers[token].run].revision < MAX_REVISION then
      WritePreview(w, token, Shown(text), tick)
    else SetPhase(w, token, Failing("answer_stopped"))
  }

  /** Any error, provider failure without usage, or the deadline. */
  ghost function Abort(w: World, token: Id, code: string): World {
    if token in w.workers && w.workers[token].phase != Stopped then SetPhase(w, token, Failing(code)) else w
  }

  ghost function CompleteRun(r: Run, a: Answer, t: Time): Run {
    AppendState(r.(status := Completed, usage := Recorded, inputTokens := Some(a.inputTokens),
                   outputTokens := Some(a.outputTokens), finished := Some(t), token := None, expires := None))
  }

  /** What publication writes: both messages are already in `c`; state, event and usage go
      with them in one transaction. */
  ghost function Commit(w: World, token: Id, t: Time, c: Conversation): World
    requires token in w.workers && w.workers[token].phase.Answered? && w.workers[token].run in w.runs
  {
    var k := w.workers[token];
    w.(conversations := w.conversations[k.phase.pin.conversation := c],
       runs := w.runs[k.run := CompleteRun(w.runs[k.run], k.phase.answer, t)],
       workers := w.workers[token := k.(phase := Stopped)])
  }

  /** Publication first locks the conversation. A lost lease ends the worker silently; a full
      conversation rolls everything back and fails the run. */
  ghost function Publish(w: World, token: Id, t: Time): World {
    if token !in w.workers || !w.workers[token].phase.Answered? then w
    else
      var p := w.workers[token].phase;
      if p.pin.conversation in w.drafts then w // waits for the row lock
      else if !HoldsUntil(w, token, t) then SetPhase(w, token, Stopped)
      else if p.pin.conversation !in w.conversations || w.conversations[p.pin.conversation].user != p.pin.user then
        SetPhase(w, token, Failing("not_found"))
      else match AppendPair(w.conversations[p.pin.conversation], w.workers[token].run, p.pin.question, p.answer)
        case None => SetPhase(w, token, Failing("conversation_full"))
        case Some(c) => Commit(w, token, t, c)
  }

  ghost function EndRun(r: Run, status: Status, error: Option<string>, t: Time): Run {
    AppendState(r.(status := status, finished := Some(t), token := None, expires := None, error := error))
  }

  ghost function FailRun(w: World, token: Id, t: Time): World {
    if token !in w.workers || !w.workers[token].phase.Failing? then w
    else
      var id := w.workers[token].run;
      SetPhase(if Holds(w, token) then w.(runs := w.runs[id := EndRun(w.runs[id], Failed, Some(w.workers[token].phase.code), t)])
               else w, token, Stopped)
  }

  // ---- Other actors

  ghost function Cancel(w: World, id: Id, t: Time): World {
    if id in w.runs && w.runs[id].status.Active() then
      w.(runs := w.runs[id := EndRun(w.runs[id], Cancelled, None, t)])
    else w
  }

  /** One dispatcher pass over a run: a running one whose lease ran out and a queued one older
      than an hour are failed; nothing is ever claimed again. */
  ghost function Expire(r: Run, t: Time): Run {
    if r.status == Running && r.expires.Some? && r.expires.value < t then EndRun(r, Failed, Some("answer_worker_lost"), t)
    else if r.status == Queued && r.created <= t - HOUR then EndRun(r, Failed, Some("answer_queue_expired"), t)
    else r
  }

  ghost function Dispatch(w: World, t: Time): World {
    w.(runs := map id | id in w.runs :: Expire(w.runs[id], t))
  }

  ghost function CreateConversation(w: World, user: Id): World {
    w.(next := w.next + 1, conversations := w.conversations[w.next := Conversation(user, 0, map[])])
  }

  /** The synchronous route: an answer saved directly under a turn id of its own. */
  ghost function Ask(w: World, c: Id, question: string, a: Answer): World {
    if c !in w.conversations || c in w.drafts then w
    else match AppendPair(w.conversations[c], w.next, question, a)
      case None => w
      case Some(d) => w.(next := w.next + 1, conversations := w.conversations[c := d])
  }

  /** Deleting conversations (one, or all of a removed repository) cascades to their runs,
      events, messages and receipts. */
  ghost function Delete(w: World, cs: set<Id>): World {
    if cs !! w.drafts.Keys then
      var runs := map id | id in w.runs && w.runs[id].conversation !in cs :: w.runs[id];
      w.(conversations := w.conversations - cs, runs := runs,
         receipts := map id | id in w.receipts && w.receipts[id].run in runs :: w.receipts[id])
    else w
  }

  // ---- Runs of the whole system

  datatype Step =
    | DoCreate(user: Id)
    | DoBeginSubmit(c: Id, user: Id, draft: Draft, climate: Climate)
    | DoFinishSubmit(c: Id, t: Time)
    | DoAbandonSubmit(c: Id)
    | DoClaim(run: Id, t: Time)
    | DoLoad(token: Id, sameConfiguration: bool, t: Time)
    | DoBegin(token: Id, kind: Kind, t: Time)
    | DoSend(token: Id)
    | DoFinish(token: Id, outcome: Outcome)
    | DoNoEvidence(token: Id, answer: Answer)
    | DoDelta(token: Id, text: string, tick: Time, t: Time)
    | DoAbort(token: Id, code: string)
    | DoPublish(token: Id, t: Time)
    | DoFailRun(token: Id, t: Time)
    | DoCancel(run: Id, t: Time)
    | DoDispatch(t: Time)
    | DoAsk(c: Id, question: string, answer: Answer)
    | DoDelete(cs: set<Id>)

  ghost function Apply(w: World, s: Step): World {
    match s
    case DoCreate(user) => CreateConversation(w, user)
    case DoBeginSubmit(c, user, d, climate) => BeginSubmit(w, c, user, d, climate)
    case DoFinishSubmit(c, t) => FinishSubmit(w, c, t)
    case DoAbandonSubmit(c) => w.(drafts := w.drafts - {c})
    case DoClaim(run, t) => Claim(w, run, t)
    case DoLoad(token, same, t) => Load(w, token, same, t)
    case DoBegin(token, kind, t) => Begin(w, token, kind, t)
    case DoSend(token) => Send(w, token)
    case DoFinish(token, o) => Finish(w, token, o)
    case DoNoEvidence(token, a) => NoEvidence(w, token, a)
    case DoDelta(token, text, tick, t) => Delta(w, token, text, tick, t)
    case DoAbort(token, code) => Abort(w, token, code)
    case DoPublish(token, t) => Publish(w, token, t)
    case DoFailRun(token, t) => FailRun(w, token, t)
    case DoCancel(run, t) => Cancel(w, run, t)
    case DoDispatch(t) => Dispatch(w, t)
    case DoAsk(c, q, a) => Ask(w, c, q, a)
    case DoDelete(cs) => Delete(w, cs)
  }

  /** Any interleaving: the state after a list of steps from the empty database. */
  ghost function After(steps: seq<Step>): World {
    if steps == [] then Empty else Apply(After(steps[..|steps| - 1]), steps[|steps| - 1])
  }
}
