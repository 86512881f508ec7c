/** The rate limiter (`RedisRateLimiter.check`): one atomic script over several fixed-window
    counters. Times are milliseconds of the store's clock; a counter is gone at its expiry. */
module RateLimits {
  import opened Options

  type Key = string
  type Time = nat

  datatype Limit = Limit(key: Key, count: nat, seconds: nat) {
    function Length(): nat { seconds * 1000 }
  }

  /** A stored counter; `None` would never expire. */
  datatype Counter = Counter(value: nat, expires: Option<Time>)

  type Store = map<Key, Counter>

  predicate Live(store: Store, key: Key, now: Time) {
    key in store && (store[key].expires.Some? ==> now < store[key].expires.value)
  }

  /** GET, with 0 for a missing key. */
  function Value(store: Store, key: Key, now: Time): nat {
    if Live(store, key, now) then store[key].value else 0
  }

  /** INCR: a missing key starts at 1 without an expiry. */
  function Incr(store: Store, key: Key, now: Time): Store {
    store[key := if Live(store, key, now) then store[key].(value := store[key].value + 1) else Counter(1, None)]
  }

  /** EXPIRE; a timeout of 0 deletes the key. */
  function Expire(store: Store, l: Limit, now: Time): Store {
    if l.key !in store then store
    else if l.Length() == 0 then store - {l.key}
    else store[l.key := store[l.key].(expires := Some(now + l.Length()))]
  }

  function Count(store: Store, l: Limit, now: Time): Store {
    var next := Incr(store, l.key, now);
    if next[l.key].value == 1 then Expire(next, l, now) else next
  }

  function CountAll(store: Store, limits: seq<Limit>, now: Time): Store {
    if limits == [] then store else Count(CountAll(store, limits[..|limits| - 1], now), limits[|limits| - 1], now)
  }

  predicate Admits(store: Store, limits: seq<Limit>, now: Time) {
    forall l | l in limits :: Value(store, l.key, now) < l.count
  }

  /** The script: look at every counter first, and count only if all of them admit. */
  function Check(store: Store, limits: seq<Limit>, now: Time): Store {
    if Admits(store, limits, now) then CountAll(store, limits, now) else store
  }

  class Redis {
    var store: Store

    constructor ()
      ensures store == map[]
    {
      store := map[];
    }

    /** The script as written; `false` is the rate_limited error. */
    method Eval(limits: seq<Limit>, now: Time) returns (admitted: bool)
      modifies this
      ensures admitted <==> Admits(old(store), limits, now)
      ensures store == Check(old(store), limits, now)
    {
      for i := 0 to |limits|
        invariant store == old(store)
        invariant forall k | 0 <= k < i :: Value(store, limits[k].key, now) < limits[k].count
      {
        if Value(store, limits[i].key, now) >= limits[i].count {
          assert limits[i] in limits;
          return false;
        }
      }
      for i := 0 to |limits|
        invariant store == CountAll(old(store), limits[..i], now)
      {
        assert limits[..i + 1][..i] == limits[..i];
        store := Incr(store, limits[i].key, now);
        var count := store[limits[i].key].value;
        if count == 1 { store := Expire(store, limits[i], now); }
      }
      assert limits[..|limits|] == limits;
      admitted := true;
    }
  }

  // ---- One check

  ghost predicate DistinctKeys(limits: seq<Limit>) {
    forall i, j | 0 <= i < j < |limits| :: limits[i].key != limits[j].key
  }

  lemma {:induction false} CountAllExact(store: Store, limits: seq<Limit>, now: Time, key: Key)
    requires DistinctKeys(limits) && forall l | l in limits :: l.seconds > 0
    ensures Value(CountAll(store, limits, now), key, now) == Value(store, key, now) + (if exists l :: l in limits && l.key == key then 1 else 0)
  {
    if limits != [] {
      var front, last := limits[..|limits| - 1], limits[|limits| - 1];
      CountAllExact(store, front, now, key);
      assert limits == front + [last];
      assert last.key == key ==> !exists l :: l in front && l.key == key;
      hide Count, Value;
      CountRaises(CountAll(store, front, now), last, now, key);
    }
  }

  lemma CountRaises(store: Store, l: Limit, now: Time, key: Key)
    requires l.seconds > 0
    ensures Value(Count(store, l, now), key, now) == Value(store, key, now) + (if l.key == key then 1 else 0)
  {
    assert l.Length() > 0;
  }

  /** All or nothing: a denied check changes no counter, an admitted one raises exactly the
      counters it names, each by one. */
  lemma CheckIsAllOrNothing(store: Store, limits: seq<Limit>, now: Time, key: Key)
    requires DistinctKeys(limits) && forall l | l in limits :: l.seconds > 0
    ensures !Admits(store, limits, now) ==> Check(store, limits, now) == store
    ensures Admits(store, limits, now) ==>
              Value(Check(store, limits, now), key, now) == Value(store, key, now) + (if exists l :: l in limits && l.key == key then 1 else 0)
  {
    CountAllExact(store, limits, now, key);
  }

  // ---- Runs

  datatype Event = Event(limits: seq<Limit>, now: Time)

  ghost predicate ClockRuns(events: seq<Event>) {
    forall i, j | 0 <= i < j < |events| :: events[i].now <= events[j].now
  }

  function After(events: seq<Event>): Store {
    if events == [] then map[]
    else Check(After(events[..|events| - 1]), events[|events| - 1].limits, events[|events| - 1].now)
  }

  ghost predicate AllExpire(store: Store) {
    forall key | key in store :: store[key].expires.Some? && store[key].value >= 1
  }

  lemma {:induction false} CountAllExpires(store: Store, limits: seq<Limit>, now: Time)
    requires AllExpire(store)
    ensures AllExpire(CountAll(store, limits, now))
  {
    if limits != [] { CountAllExpires(store, limits[..|limits| - 1], now); }
  }

  /** No counter is ever left without an expiry, whatever is checked when. */
  lemma {:induction false} EveryCounterExpires(events: seq<Event>)
    ensures AllExpire(After(events))
  {
    if events != [] {
      var last := events[|events| - 1];
      EveryCounterExpires(events[..|events| - 1]);
      CountAllExpires(After(events[..|events| - 1]), last.limits, last.now);
    }
  }

  // ---- How many checks an interval admits

  /** Wherever the key is used, it is used with this limit. */
  ghost predicate Uses(events: seq<Event>, l: Limit) {
    forall e | e in events :: DistinctKeys(e.limits) && forall x | x in e.limits :: x.key == l.key ==> x == l
  }

  ghost predicate Admitted(events: seq<Event>, l: Limit)
    requires events != []
  {
    l in events[|events| - 1].limits && Admits(After(events[..|events| - 1]), events[|events| - 1].limits, events[|events| - 1].now)
  }

  /** The times of the admitted checks of a key, grouped by the window that counted them. */
  ghost function Windows(events: seq<Event>, l: Limit): seq<seq<Time>> {
    if events == [] then []
    else
      var before, now := Windows(events[..|events| - 1], l), events[|events| - 1].now;
      if !Admitted(events, l) then before
      else if before != [] && Live(After(events[..|events| - 1]), l.key, now) then
        before[..|before| - 1] + [before[|before| - 1] + [now]]
      else before + [[now]]
  }

  /** The times of the admitted checks, in order. */
  ghost function Admissions(events: seq<Event>, l: Limit): seq<Time> {
    if events == [] then []
    else Admissions(events[..|events| - 1], l) + (if Admitted(events, l) then [events[|events| - 1].now] else [])
  }

  function Flat(ws: seq<seq<Time>>): seq<Time> {
    if ws == [] then [] else Flat(ws[..|ws| - 1]) + ws[|ws| - 1]
  }

  function CountIn(times: seq<Time>, from: Time, to: Time): nat {
    if times == [] then 0
    else CountIn(times[..|times| - 1], from, to) + (if from <= times[|times| - 1] < to then 1 else 0)
  }

  /** One window: at most `count` admissions within its length, the first of them at its start. */
  ghost predicate WindowOk(w: seq<Time>, l: Limit) {
    w != [] && |w| <= l.count && forall x | x in w :: w[0] <= x < w[0] + l.Length()
  }

  ghost predicate WindowsOk(ws: seq<seq<Time>>, l: Limit) {
    && (forall w | w in ws :: WindowOk(w, l))
    && (forall i, j | 0 <= i < j < |ws| && ws[i] != [] && ws[j] != [] :: ws[i][0] + l.Length() <= ws[j][0])
  }

  /** The stored counter is the last window. */
  ghost predicate Matches(store: Store, ws: seq<seq<Time>>, l: Limit) {
    && (l.key in store ==> ws != [] && ws[|ws| - 1] != [] && store[l.key] == Counter(|ws[|ws| - 1]|, Some(ws[|ws| - 1][0] + l.Length())))
    && (l.key !in store ==> ws == [])
  }

  ghost predicate Past(ws: seq<seq<Time>>, now: Time) {
    forall w | w in ws :: forall x | x in w :: x <= now
  }

  lemma {:induction false} CountAllAt(store: Store, limits: seq<Limit>, now: Time, l: Limit)
    requires DistinctKeys(limits) && (forall x | x in limits && x.key == l.key :: x == l) && l.seconds > 0
    ensures var next := CountAll(store, limits, now);
            if l in limits then l.key in next && next[l.key] == (if Live(store, l.key, now) then store[l.key].(value := store[l.key].value + 1, expires := if store[l.key].value == 0 then Some(now + l.Length()) else store[l.key].expires) else Counter(1, Some(now + l.Length())))
            else (l.key in next <==> l.key in store) && (l.key in store ==> next[l.key] == store[l.key])
  {
    if limits != [] {
      var front, last := limits[..|limits| - 1], limits[|limits| - 1];
      assert limits == front + [last];
      CountAllAt(store, front, now, l);
      CountOne(CountAll(store, front, now), last, now, l);
      if last.key == l.key {
        assert l !in front by { forall x | x in front ensures x.key != last.key { var i :| 0 <= i < |front| && front[i] == x; assert limits[i].key != limits[|front|].key; } }
      }
    }
  }

  lemma CountOne(store: Store, x: Limit, now: Time, l: Limit)
    requires (x.key == l.key ==> x == l) && l.seconds > 0
    ensures var next := Count(store, x, now);
            if x == l then l.key in next && next[l.key] == (if Live(store, l.key, now) then store[l.key].(value := store[l.key].value + 1, expires := if store[l.key].value == 0 then Some(now + l.Length()) else store[l.key].expires) else Counter(1, Some(now + l.Length())))
            else (l.key in next <==> l.key in store) && (l.key in store ==> next[l.key] == store[l.key])
  {
    assert l.Length() > 0;
  }

  /** An admission within the current window. */
  lemma WindowGrows(ws: seq<seq<Time>>, l: Limit, now: Time)
    requires WindowsOk(ws, l) && ws != [] && Past(ws, now)
    requires var w := ws[|ws| - 1]; w != [] && |w| < l.count && now < w[0] + l.Length()
    ensures var next := ws[..|ws| - 1] + [ws[|ws| - 1] + [now]]; WindowsOk(next, l) && Past(next, now)
  {
    var n := |ws| - 1;
    var w := ws[n];
    assert w in ws && WindowOk(w, l) && w[0] in w;
    var next := ws[..n] + [w + [now]];
    forall v | v in next ensures WindowOk(v, l) {
      if v != w + [now] { assert v in ws; }
    }
    forall v | v in next ensures forall x | x in v :: x <= now {
      if v != w + [now] { assert v in ws; }
    }
    forall i, j | 0 <= i < j < |next| && next[i] != [] && next[j] != [] ensures next[i][0] + l.Length() <= next[j][0] {
      assert next[i] == ws[i] && next[j][0] == ws[j][0];
    }
  }

  /** An admission that opens a new window. */
  lemma WindowOpens(ws: seq<seq<Time>>, l: Limit, now: Time)
    requires WindowsOk(ws, l) && Past(ws, now) && l.count > 0 && l.seconds > 0
    requires ws != [] ==> ws[|ws| - 1] != [] && ws[|ws| - 1][0] + l.Length() <= now
    ensures WindowsOk(ws + [[now]], l) && Past(ws + [[now]], now)
  {
    var next := ws + [[now]];
    assert l.Length() > 0;
    forall i, j | 0 <= i < j < |next| && next[i] != [] && next[j] != [] ensures next[i][0] + l.Length() <= next[j][0] {
      if j == |ws| && i < |ws| - 1 { assert ws[i][0] + l.Length() <= ws[|ws| - 1][0]; }
    }
  }

  lemma LaterIsPast(ws: seq<seq<Time>>, t: Time, now: Time)
    requires Past(ws, t) && t <= now
    ensures Past(ws, now)
  {
    forall w | w in ws ensures forall x | x in w :: x <= now { assert forall x | x in w :: x <= t; }
  }

  /** The windows after one more check. */
  ghost function NextWindows(store: Store, ws: seq<seq<Time>>, limits: seq<Limit>, l: Limit, now: Time): seq<seq<Time>> {
    if l !in limits || !Admits(store, limits, now) then ws
    else if ws != [] && Live(store, l.key, now) then ws[..|ws| - 1] + [ws[|ws| - 1] + [now]]
    else ws + [[now]]
  }

  lemma WindowStep(store: Store, ws: seq<seq<Time>>, limits: seq<Limit>, l: Limit, now: Time)
    requires WindowsOk(ws, l) && Past(ws, now) && Matches(store, ws, l) && l.count > 0 && l.seconds > 0
    ensures WindowsOk(NextWindows(store, ws, limits, l, now), l) && Past(NextWindows(store, ws, limits, l, now), now)
  {
    hide WindowsOk, Past;
    if l in limits && Admits(store, limits, now) {
      assert Value(store, l.key, now) < l.count;
      if ws != [] && Live(store, l.key, now) { WindowGrows(ws, l, now); } else { WindowOpens(ws, l, now); }
    }
  }

  lemma MatchStep(store: Store, ws: seq<seq<Time>>, limits: seq<Limit>, l: Limit, now: Time)
    requires Matches(store, ws, l) && l.seconds > 0
    requires DistinctKeys(limits) && forall x | x in limits && x.key == l.key :: x == l
    ensures Matches(Check(store, limits, now), NextWindows(store, ws, limits, l, now), l)
  {
    CountAllAt(store, limits, now, l);
    hide CountAll, DistinctKeys;
  }

  /** The stored counter always is the last window of the admissions so far. */
  lemma {:induction false} WindowsMatch(events: seq<Event>, l: Limit)
    requires ClockRuns(events) && Uses(events, l) && l.count > 0 && l.seconds > 0
    ensures WindowsOk(Windows(events, l), l) && Matches(After(events), Windows(events, l), l)
    ensures events != [] ==> Past(Windows(events, l), events[|events| - 1].now)
  {
    if events != [] {
      var front, last := events[..|events| - 1], events[|events| - 1];
      assert last in events;
      WindowsMatch(front, l);
      hide WindowsOk, Matches, Check, Admits, DistinctKeys, Live;
      if front == [] { assert Windows(front, l) == []; NothingPast(last.now); } else { LaterIsPast(Windows(front, l), front[|front| - 1].now, last.now); }
      hide Past;
      WindowStep(After(front), Windows(front, l), last.limits, l, last.now);
      MatchStep(After(front), Windows(front, l), last.limits, l, last.now);
      assert Windows(events, l) == NextWindows(After(front), Windows(front, l), last.limits, l, last.now);
    }
  }

  lemma NothingPast(now: Time)
    ensures Past([], now)
  {
  }

  lemma {:induction false} WindowsAreAdmissions(events: seq<Event>, l: Limit)
    ensures Flat(Windows(events, l)) == Admissions(events, l)
  {
    if events != [] {
      var front, now := events[..|events| - 1], events[|events| - 1].now;
      WindowsAreAdmissions(front, l);
      var ws := Windows(front, l);
      if ws != [] { assert (ws[..|ws| - 1] + [ws[|ws| - 1] + [now]])[..|ws| - 1] == ws[..|ws| - 1]; }
      assert (ws + [[now]])[..|ws|] == ws;
    }
  }

  // ---- Counting

  lemma {:induction false} CountAppend(a: seq<Time>, b: seq<Time>, from: Time, to: Time)
    ensures CountIn(a + b, from, to) == CountIn(a, from, to) + CountIn(b, from, to)
  {
    if b == [] {
      assert a + b == a;
    } else {
      assert (a + b)[..|a + b| - 1] == a + b[..|b| - 1];
      CountAppend(a, b[..|b| - 1], from, to);
    }
  }

  lemma {:induction false} CountAtMost(times: seq<Time>, from: Time, to: Time)
    ensures CountIn(times, from, to) <= |times|
  {
    if times != [] { CountAtMost(times[..|times| - 1], from, to); }
  }

  lemma {:induction false} CountNone(times: seq<Time>, from: Time, to: Time)
    requires forall x | x in times :: x < from || to <= x
    ensures CountIn(times, from, to) == 0
  {
    if times != [] {
      assert times[|times| - 1] in times;
      var front := times[..|times| - 1];
      forall x | x in front ensures x < from || to <= x { assert x in times; }
      CountNone(front, from, to);
    }
  }

  /** A window that starts before the interval loses at least its first admission. */
  lemma {:induction false} CountLate(w: seq<Time>, from: Time, to: Time)
    requires w != [] && w[0] < from
    ensures CountIn(w, from, to) <= |w| - 1
  {
    assert w == [w[0]] + w[1..];
    CountAppend([w[0]], w[1..], from, to);
    CountNone([w[0]], from, to);
    CountAtMost(w[1..], from, to);
  }

  /** Windows that all start a length before the interval have no admission in it. */
  lemma {:induction false} OldWindowsAreOut(ws: seq<seq<Time>>, l: Limit, from: Time, to: Time)
    requires WindowsOk(ws, l) && (ws != [] ==> ws[|ws| - 1] != [] && ws[|ws| - 1][0] + l.Length() <= from)
    ensures CountIn(Flat(ws), from, to) == 0
  {
    if ws != [] {
      var n := |ws| - 1;
      assert ws[n] in ws && WindowOk(ws[n], l);
      FrontOk(ws, l);
      OldWindowsAreOut(ws[..n], l, from, to);
      CountNone(ws[n], from, to);
      CountAppend(Flat(ws[..n]), ws[n], from, to);
    }
  }

  lemma FrontOk(ws: seq<seq<Time>>, l: Limit)
    requires WindowsOk(ws, l) && ws != []
    ensures WindowsOk(ws[..|ws| - 1], l)
    ensures |ws| > 1 ==> ws[|ws| - 2] != [] && ws[|ws| - 1] != [] && WindowOk(ws[|ws| - 2], l) && ws[|ws| - 2][0] + l.Length() <= ws[|ws| - 1][0]
  {
    if |ws| > 1 { assert ws[|ws| - 2] in ws && ws[|ws| - 1] in ws; }
    forall w | w in ws[..|ws| - 1] ensures WindowOk(w, l) { assert w in ws; }
  }

  /** An interval as long as a window meets at most two windows, and the earlier one only with
      admissions after its first. */
  lemma {:induction false} TwoWindowsAtMost(ws: seq<seq<Time>>, l: Limit, from: Time)
    requires WindowsOk(ws, l) && l.count > 0
    ensures CountIn(Flat(ws), from, from + l.Length()) <= 2 * l.count - 1
    ensures ws != [] && ws[|ws| - 1] != [] && ws[|ws| - 1][0] < from ==> CountIn(Flat(ws), from, from + l.Length()) <= l.count - 1
  {
    if ws != [] {
      var n, to := |ws| - 1, from + l.Length();
      var w, front := ws[n], ws[..n];
      assert w in ws && WindowOk(w, l) && w[0] in w;
      FrontOk(ws, l);
      CountAppend(Flat(front), w, from, to);
      CountAtMost(w, from, to);
      TwoWindowsAtMost(front, l, from);
      if w[0] < from {
        CountLate(w, from, to);
        OldWindowsAreOut(front, l, from, to);
      } else if w[0] >= to {
        CountNone(w, from, to);
      } else if front == [] {
        assert Flat(front) == [];
      }
    }
  }

  /** Any interval of the limit's length admits fewer than twice its count. */
  lemma IntervalIsBounded(events: seq<Event>, l: Limit, from: Time)
    requires ClockRuns(events) && Uses(events, l) && l.count > 0 && l.seconds > 0
    ensures CountIn(Admissions(events, l), from, from + l.Length()) <= 2 * l.count - 1
  {
    WindowsMatch(events, l);
    WindowsAreAdmissions(events, l);
    TwoWindowsAtMost(Windows(events, l), l, from);
  }

  function CheckAt(l: Limit, now: Time): Event {
    Event([l], now)
  }

  lemma {:induction false} OneCheck(events: seq<Event>, l: Limit, now: Time)
    ensures After(events + [CheckAt(l, now)]) == if Value(After(events), l.key, now) < l.count then Count(After(events), l, now) else After(events)
    ensures Admissions(events + [CheckAt(l, now)], l) == Admissions(events, l) + (if Value(After(events), l.key, now) < l.count then [now] else [])
  {
    var next := events + [CheckAt(l, now)];
    assert next[..|next| - 1] == events;
    var store := After(events);
    assert Admits(store, [l], now) <==> Value(store, l.key, now) < l.count by { assert l in [l]; }
    assert CountAll(store, [l], now) == Count(store, l, now) by { assert [l][..0] == []; }
  }

  lemma CountMore(times: seq<Time>, x: Time, from: Time, to: Time)
    ensures CountIn(times + [x], from, to) == CountIn(times, from, to) + (if from <= x < to then 1 else 0)
  {
    assert (times + [x])[..|times|] == times;
  }

  // ---- The bound is reached by every limit

  function Repeat(x: Time, n: nat): seq<Time> {
    if n == 0 then [] else Repeat(x, n - 1) + [x]
  }

  function ChecksAt(l: Limit, times: seq<Time>): seq<Event> {
    if times == [] then [] else ChecksAt(l, times[..|times| - 1]) + [CheckAt(l, times[|times| - 1])]
  }

  /** One check that opens a window, `count - 1` right before its end, and `count` right at it. */
  function Straddling(l: Limit): seq<Time>
    requires l.count > 0 && l.seconds > 0
  {
    [0] + Repeat(l.Length() - 1, l.count - 1) + Repeat(l.Length(), l.count)
  }

  /** Every check so far was admitted, and the counter is c. */
  ghost predicate AllAdmitted(l: Limit, times: seq<Time>, c: Counter) {
    After(ChecksAt(l, times)) == map[l.key := c] && Admissions(ChecksAt(l, times), l) == times
  }

  lemma ChecksOne(l: Limit, times: seq<Time>, t: Time)
    ensures ChecksAt(l, times + [t]) == ChecksAt(l, times) + [CheckAt(l, t)]
  {
    assert (times + [t])[..|times|] == times;
  }

  /** A check within the current window. */
  lemma CheckCounts(l: Limit, times: seq<Time>, t: Time, c: Counter)
    requires AllAdmitted(l, times, c) && c.expires.Some? && t < c.expires.value && 1 <= c.value < l.count
    ensures AllAdmitted(l, times + [t], c.(value := c.value + 1))
  {
    ChecksOne(l, times, t);
    OneCheck(ChecksAt(l, times), l, t);
    hide After, Admissions, ChecksAt;
    assert Count(map[l.key := c], l, t) == map[l.key := c.(value := c.value + 1)];
  }

  /** A check behind the window's end, or the first one. */
  lemma CheckOpens(l: Limit, times: seq<Time>, t: Time)
    requires times == [] || exists c :: AllAdmitted(l, times, c) && c.expires.Some? && c.expires.value <= t
    requires l.count > 0 && l.seconds > 0
    ensures AllAdmitted(l, times + [t], Counter(1, Some(t + l.Length())))
  {
    ChecksOne(l, times, t);
    OneCheck(ChecksAt(l, times), l, t);
    assert l.Length() > 0;
    if times == [] {
      assert After([]) == map[] && Admissions([], l) == [] && times + [t] == [] + [t];
    }
    hide After, Admissions, ChecksAt;
  }

  lemma {:induction false} EarlyChecks(l: Limit, n: nat)
    requires n < l.count && l.seconds > 0
    ensures AllAdmitted(l, [0] + Repeat(l.Length() - 1, n), Counter(n + 1, Some(l.Length())))
  {
    hide AllAdmitted;
    if n == 0 {
      CheckOpens(l, [], 0);
      assert [] + [0] == [0] + Repeat(l.Length() - 1, 0);
    } else {
      var times := [0] + Repeat(l.Length() - 1, n - 1);
      EarlyChecks(l, n - 1);
      CheckCounts(l, times, l.Length() - 1, Counter(n, Some(l.Length())));
      assert times + [l.Length() - 1] == [0] + Repeat(l.Length() - 1, n);
    }
  }

  lemma {:induction false} LateChecks(l: Limit, n: nat)
    requires 1 <= n <= l.count && l.seconds > 0
    ensures AllAdmitted(l, [0] + Repeat(l.Length() - 1, l.count - 1) + Repeat(l.Length(), n), Counter(n, Some(l.Length() + l.Length())))
    decreases n
  {
    hide AllAdmitted;
    var early, t := [0] + Repeat(l.Length() - 1, l.count - 1), l.Length();
    var times := early + Repeat(t, n - 1);
    assert times + [t] == early + Repeat(t, n);
    if n == 1 {
      EarlyChecks(l, l.count - 1);
      assert times == early;
      CheckOpens(l, times, t);
    } else {
      LateChecks(l, n - 1);
      CheckCounts(l, times, t, Counter(n - 1, Some(t + t)));
    }
  }

  lemma {:induction false} CountRepeat(x: Time, n: nat, from: Time, to: Time)
    ensures CountIn(Repeat(x, n), from, to) == if from <= x < to then n else 0
  {
    if n > 0 {
      CountRepeat(x, n - 1, from, to);
      CountMore(Repeat(x, n - 1), x, from, to);
    }
  }

  lemma {:induction false} ChecksRun(l: Limit, times: seq<Time>)
    requires forall i, j | 0 <= i < j < |times| :: times[i] <= times[j]
    ensures |ChecksAt(l, times)| == |times| && forall i | 0 <= i < |times| :: ChecksAt(l, times)[i] == CheckAt(l, times[i])
    ensures ClockRuns(ChecksAt(l, times)) && Uses(ChecksAt(l, times), l)
  {
    if times != [] { ChecksRun(l, times[..|times| - 1]); }
  }

  lemma {:induction false} RepeatAt(x: Time, n: nat)
    ensures |Repeat(x, n)| == n && forall i | 0 <= i < n :: Repeat(x, n)[i] == x
  {
    if n > 0 { RepeatAt(x, n - 1); }
  }

  /** The bound is reached by every limit: in the interval of the limit's length that starts right
      before the first window's end, twice the count minus one checks are admitted. */
  lemma BoundIsReached(l: Limit)
    requires l.count > 0 && l.seconds > 0
    ensures var events := ChecksAt(l, Straddling(l));
            && ClockRuns(events) && Uses(events, l)
            && CountIn(Admissions(events, l), l.Length() - 1, l.Length() - 1 + l.Length()) == 2 * l.count - 1
  {
    var from, to := l.Length() - 1, l.Length() - 1 + l.Length();
    RepeatAt(from, l.count - 1);
    RepeatAt(l.Length(), l.count);
    hide Repeat;
    ChecksRun(l, Straddling(l));
    hide ChecksAt, CountIn, ClockRuns, Uses;
    LateChecks(l, l.count);
    StraddlingCount(l);
  }

  lemma StraddlingCount(l: Limit)
    requires l.count > 0 && l.seconds > 0
    ensures CountIn(Straddling(l), l.Length() - 1, l.Length() - 1 + l.Length()) == 2 * l.count - 1
  {
    var from, to := l.Length() - 1, l.Length() - 1 + l.Length();
    CountNone([0], from, to);
    hide Repeat, CountIn;
    CountAppend([0] + Repeat(from, l.count - 1), Repeat(l.Length(), l.count), from, to);
    CountAppend([0], Repeat(from, l.count - 1), from, to);
    CountRepeat(from, l.count - 1, from, to);
    CountRepeat(l.Length(), l.count, from, to);
  }
}
