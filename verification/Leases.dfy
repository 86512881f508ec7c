/** The lease protocol shared by imports, indexing and search preparation (`claim_job`,
    `lease_condition` and the dispatcher's recovery), seen on a single job row. Unlike an answer
    run, an expired job may be taken over, at most three times. */
module Leases {
  import opened Options

  type Id = nat
  type Time = int // milliseconds

  const LEASE: Time := 180000
  const RETRY_STEP: Time := 30000
  const MAX_ATTEMPTS := 3

  datatype JobStatus = Queued | Running | Completed | Failed | Cancelled {
    predicate Terminal() { Completed? || Failed? || Cancelled? }
  }

  /** The columns the protocol uses. `claims` is a history variable: the lease tokens
      handed out since the row was created or last restarted. */
  datatype Row = Row(repository: Id, current: bool, status: JobStatus, attempts: nat,
                     token: Option<Id>, expires: Option<Time>, available: Time, claims: seq<Id>)

  function NewRow(repository: Id, t: Time): Row {
    Row(repository, true, Queued, 0, None, None, t, [])
  }

  predicate Claimable(r: Row, t: Time) {
    && r.current && r.attempts < MAX_ATTEMPTS && r.available <= t
    && (r.status == Queued || (r.status == Running && r.expires.Some? && r.expires.value < t))
  }

  function Claim(r: Row, token: Id, t: Time): Row {
    r.(status := Running, attempts := r.attempts + 1, token := Some(token), expires := Some(t + LEASE), claims := r.claims + [token])
  }

  /** `lease_condition`: every write of a worker is conditional on this. */
  predicate Held(r: Row, token: Id, t: Time) {
    r.status == Running && r.token == Some(token) && r.current && r.expires.Some? && r.expires.value > t
  }

  function End(r: Row, status: JobStatus): Row {
    r.(status := status, token := None, expires := None)
  }

  /** A retryable import failure puts the job back with a growing delay. */
  function Retry(r: Row, attempt: nat, t: Time): Row {
    r.(status := Queued, token := None, expires := None, available := t + RETRY_STEP * attempt)
  }

  /** Any other import failure ends the job. */
  function GiveUp(r: Row, attempt: nat, t: Time): Row {
    End(r, Failed).(available := t + RETRY_STEP * attempt)
  }

  /** The dispatcher gives up on a lost worker after the last attempt. */
  predicate Exhausted(r: Row, t: Time) {
    r.status == Running && r.expires.Some? && r.expires.value < t && r.attempts >= MAX_ATTEMPTS
  }

  function Recover(r: Row, t: Time): Row {
    if Exhausted(r, t) then End(r, Failed) else r
  }

  function CancelRow(r: Row): Row {
    if r.status == Queued || r.status == Running then End(r, Cancelled) else r
  }

  function Supersede(r: Row): Row {
    r.(current := false)
  }

  /** An explicit restart of a finished search preparation in place. */
  function Restart(r: Row, t: Time): Row {
    r.(status := Queued, attempts := 0, token := None, expires := None, available := t, claims := [])
  }

  /** What every row satisfies. */
  ghost predicate RowOk(r: Row) {
    && (r.status == Running <==> r.token.Some?)
    && (r.token.Some? <==> r.expires.Some?)
    && r.attempts == |r.claims| <= MAX_ATTEMPTS
    && (forall i, j | 0 <= i < j < |r.claims| :: r.claims[i] < r.claims[j])
    && (r.token.Some? ==> r.claims != [] && r.claims[|r.claims| - 1] == r.token.value)
    && (r.status == Queued ==> r.current && r.attempts < MAX_ATTEMPTS)
    && (!r.current ==> r.status.Terminal())
  }

  lemma ClaimKeeps(r: Row, token: Id, t: Time)
    requires RowOk(r) && Claimable(r, t) && forall x | x in r.claims :: x < token
    ensures RowOk(Claim(r, token, t))
  {
    forall i | 0 <= i < |r.claims| ensures r.claims[i] < token { assert r.claims[i] in r.claims; }
  }

  /** Only the most recent claimant can still write, and while it can, the attempt number it
      was given at its claim is the row's. */
  lemma OnlyLastClaimantWrites(r: Row, token: Id, t: Time, attempt: nat)
    requires RowOk(r) && Held(r, token, t)
    requires 1 <= attempt <= |r.claims| && r.claims[attempt - 1] == token
    ensures token == r.claims[|r.claims| - 1] && attempt == r.attempts
  {
  }

  lemma WritesKeep(r: Row, token: Id, t: Time, status: JobStatus, attempt: nat)
    requires RowOk(r) && Held(r, token, t) && status.Terminal()
    requires 1 <= attempt <= |r.claims| && r.claims[attempt - 1] == token
    ensures RowOk(End(r, status)) && RowOk(GiveUp(r, attempt, t)) && (attempt < MAX_ATTEMPTS ==> RowOk(Retry(r, attempt, t)))
  {
    OnlyLastClaimantWrites(r, token, t, attempt);
  }

  lemma ManagementKeeps(r: Row, t: Time)
    requires RowOk(r)
    ensures RowOk(Recover(r, t)) && RowOk(CancelRow(r))
    ensures r.status.Terminal() ==> RowOk(Supersede(r))
    ensures r.status.Terminal() && r.current ==> RowOk(Restart(r, t))
  {
  }

  /** No row is stuck: at any time an unfinished row can be claimed, waits for a deadline that
      is still ahead, or is failed by the dispatcher. The three exclude each other. */
  lemma NeverStuck(r: Row, t: Time)
    requires RowOk(r) && !r.status.Terminal()
    ensures var waiting := (r.attempts < MAX_ATTEMPTS && r.available > t) || (r.status == Running && r.expires.value >= t);
            && (Claimable(r, t) || waiting || Exhausted(r, t))
            && !(Claimable(r, t) && waiting) && !(Claimable(r, t) && Exhausted(r, t)) && !(Exhausted(r, t) && waiting)
  {
  }

  /** A lease lasts three minutes from its claim, for its claimant alone, and not beyond the end, the
      restart or the replacement of the job. */
  lemma LeaseIsExact(r: Row, token: Id, t: Time, x: Id, u: Time, status: JobStatus)
    requires Claimable(r, t)
    ensures Held(Claim(r, token, t), x, u) <==> x == token && u < t + 180000
    ensures status.Terminal() ==> !Held(End(r, status), x, u)
    ensures !Held(Restart(r, t), x, u) && !Held(Supersede(r), x, u) && !Held(CancelRow(r), x, u)
  {
  }

  /** A worker that lost its lease and one that holds it never overlap: whatever the old
      claimant still tries after a takeover is refused. */
  lemma TakeoverFences(r: Row, stale: Id, token: Id, t: Time, later: Time)
    requires RowOk(r) && Claimable(r, t) && stale in r.claims && forall x | x in r.claims :: x < token
    ensures !Held(Claim(r, token, t), stale, later)
  {
  }
}
