/** What the reconnect loop (`RunTimeline`'s `connect`) keeps between connections: the cursor, the
    events shown, the preview and the back-off. Connections come and go; the view must not. */
module TimelineView {
  import opened AnswerRuns

  const LONGEST_DELAY := 15000
  const RATE_DELAY := 60000

  datatype Entry = Entry(sequence: nat, status: Status)

  /** How a connection ended. */
  datatype Ending = Finished | Again | Expired | Unavailable | Limited | Interrupted

  /** A callback of the stream client, or the end of a connection. */
  datatype Callback =
    | OnEvent(entry: Entry)
    | OnPreview(revision: nat, text: string)
    | OnEnd(ending: Ending)

  /** `delay` is the pause before the next connection; `open` is false once the loop has ended. */
  datatype View = View(cursor: nat, terminalSeen: bool, revision: int, failures: nat, events: seq<Entry>, preview: string, delay: nat, open: bool)

  const Fresh := View(0, false, -1, 0, [], "", 1000, true)

  function Without(events: seq<Entry>, sequence: nat): seq<Entry> {
    if events == [] then [] else (if events[0].sequence == sequence then [] else [events[0]]) + Without(events[1..], sequence)
  }

  function Place(e: Entry, sorted: seq<Entry>): seq<Entry> {
    if sorted == [] || e.sequence < sorted[0].sequence then [e] + sorted else [sorted[0]] + Place(e, sorted[1..])
  }

  function Sort(events: seq<Entry>): seq<Entry> {
    if events == [] then [] else Place(events[0], Sort(events[1..]))
  }

  function Power(n: nat): nat {
    if n == 0 then 1 else 2 * Power(n - 1)
  }

  function Pause(failures: nat): nat {
    var wait := 1000 * Power(if failures < 4 then failures else 4);
    if wait < LONGEST_DELAY then wait else LONGEST_DELAY
  }

  function Handle(v: View, c: Callback): View {
    if !v.open then v
    else match c
      case OnEvent(e) =>
        v.(cursor := e.sequence, terminalSeen := v.terminalSeen || e.status.Terminal(), failures := 0,
           preview := if e.status.Terminal() then "" else v.preview, events := Sort(Without(v.events, e.sequence) + [e]))
      case OnPreview(revision, text) =>
        if !v.terminalSeen && revision >= v.revision then v.(revision := revision, preview := text) else v
      case OnEnd(Finished) => v.(preview := "", open := false)
      case OnEnd(Again) => v.(failures := 0, delay := 1000)
      case OnEnd(Expired) => v.(preview := "", open := false)
      case OnEnd(Unavailable) => v.(preview := "", open := false)
      case OnEnd(Limited) => v.(preview := "", failures := v.failures + 1, delay := RATE_DELAY)
      case OnEnd(Interrupted) => v.(preview := "", failures := v.failures + 1, delay := Pause(v.failures + 1))
  }

  function After(callbacks: seq<Callback>): View {
    if callbacks == [] then Fresh else Handle(After(callbacks[..|callbacks| - 1]), callbacks[|callbacks| - 1])
  }

  /** The closure variables of the component, updated by its callbacks. */
  class Timeline {
    var cursor: nat
    var terminalSeen: bool
    var revision: int
    var failures: nat
    var events: seq<Entry>
    var preview: string
    var delay: nat
    var open: bool

    constructor ()
      ensures Shown() == Fresh
    {
      cursor, terminalSeen, revision, failures, events, preview, delay, open := 0, false, -1, 0, [], "", 1000, true;
    }

    ghost function Shown(): View
      reads this
    {
      View(cursor, terminalSeen, revision, failures, events, preview, delay, open)
    }

    method Event(e: Entry)
      requires open
      modifies this
      ensures Shown() == Handle(old(Shown()), OnEvent(e))
    {
      cursor := e.sequence;
      if e.status.Terminal() {
        terminalSeen := true;
        preview := "";
      }
      failures := 0;
      events := Sort(Without(events, e.sequence) + [e]);
    }

    method Preview(value: nat, text: string)
      requires open
      modifies this
      ensures Shown() == Handle(old(Shown()), OnPreview(value, text))
    {
      if !terminalSeen && value >= revision {
        revision := value;
        preview := text;
      }
    }

    method End(ending: Ending)
      requires open
      modifies this
      ensures Shown() == Handle(old(Shown()), OnEnd(ending))
    {
      match ending
      case Again => failures, delay := 0, 1000;
      case Limited =>
        preview := "";
        failures := failures + 1;
        delay := RATE_DELAY;
      case Interrupted =>
        preview := "";
        failures := failures + 1;
        delay := Pause(failures);
      case _ =>
        preview := "";
        open := false;
    }
  }

  // ---- What the user sees

  /** The client hands over only the event after the cursor (`consumeEvents` checks it). */
  ghost predicate InSequence(callbacks: seq<Callback>) {
    forall i | 0 <= i < |callbacks| && callbacks[i].OnEvent? && After(callbacks[..i]).open ::
      callbacks[i].entry.sequence == After(callbacks[..i]).cursor + 1
  }

  /** The entries are numbered 1 to the cursor. */
  ghost predicate Numbered(v: View) {
    |v.events| == v.cursor && forall i | 0 <= i < |v.events| :: v.events[i].sequence == i + 1
  }

  lemma {:induction false} NothingRemoved(events: seq<Entry>, sequence: nat)
    requires forall e | e in events :: e.sequence != sequence
    ensures Without(events, sequence) == events
  {
    if events != [] { NothingRemoved(events[1..], sequence); }
  }

  lemma {:induction false} SortedStays(events: seq<Entry>)
    requires forall i, j | 0 <= i < j < |events| :: events[i].sequence < events[j].sequence
    ensures Sort(events) == events
  {
    if events != [] {
      SortedStays(events[1..]);
      if |events| > 1 { assert events[0].sequence < events[1].sequence; }
    }
  }

  lemma NextEntry(v: View, e: Entry)
    requires Numbered(v) && e.sequence == v.cursor + 1
    ensures Sort(Without(v.events, e.sequence) + [e]) == v.events + [e]
  {
    NothingRemoved(v.events, e.sequence);
    SortedStays(v.events + [e]);
  }

  ghost predicate ViewOk(v: View) {
    && Numbered(v) && (v.terminalSeen <==> exists e :: e in v.events && e.status.Terminal())
    && (v.terminalSeen ==> v.preview == "")
  }

  lemma HandleKeeps(v: View, c: Callback)
    requires ViewOk(v) && (c.OnEvent? && v.open ==> c.entry.sequence == v.cursor + 1)
    ensures ViewOk(Handle(v, c))
  {
    if c.OnEvent? && v.open {
      NextEntry(v, c.entry);
      hide Sort, Without;
      assert forall e :: e in v.events + [c.entry] <==> e in v.events || e == c.entry;
    }
  }

  lemma FrontInSequence(callbacks: seq<Callback>)
    requires InSequence(callbacks) && callbacks != []
    ensures InSequence(callbacks[..|callbacks| - 1])
  {
    var front := callbacks[..|callbacks| - 1];
    forall i | 0 <= i < |front| ensures front[i] == callbacks[i] && front[..i] == callbacks[..i] {}
  }

  /** Across any number of connections the view shows every accepted event once, in order, and
      never a preview once a terminal event has been seen. */
  lemma {:induction false} ViewIsFaithful(callbacks: seq<Callback>)
    requires InSequence(callbacks)
    ensures Numbered(After(callbacks))
    ensures After(callbacks).terminalSeen <==> exists e :: e in After(callbacks).events && e.status.Terminal()
    ensures After(callbacks).terminalSeen ==> After(callbacks).preview == ""
  {
    ViewStaysOk(callbacks);
    hide After, Numbered;
  }

  lemma {:induction false} ViewStaysOk(callbacks: seq<Callback>)
    requires InSequence(callbacks)
    ensures ViewOk(After(callbacks))
  {
    if callbacks != [] {
      var n := |callbacks| - 1;
      FrontInSequence(callbacks);
      ViewStaysOk(callbacks[..n]);
      hide ViewOk, Handle;
      HandleKeeps(After(callbacks[..n]), callbacks[n]);
    }
  }

  /** Preview revisions shown never go back, over reconnects too, and the back-off never exceeds
      fifteen seconds unless the server asked for a minute. */
  lemma {:induction false} PreviewsNeverGoBack(callbacks: seq<Callback>, more: seq<Callback>)
    ensures After(callbacks).revision <= After(callbacks + more).revision
    ensures After(callbacks + more).delay <= LONGEST_DELAY || After(callbacks + more).delay == RATE_DELAY
    decreases |callbacks| + |more|, |more|
  {
    var all := callbacks + more;
    if more != [] {
      var k := |more| - 1;
      assert all[..|all| - 1] == callbacks + more[..k];
      PreviewsNeverGoBack(callbacks, more[..k]);
    } else {
      assert all == callbacks;
      if callbacks != [] {
        var k := |callbacks| - 1;
        assert callbacks[..k] + [] == callbacks[..k];
        PreviewsNeverGoBack(callbacks[..k], []);
      }
    }
  }

  // ---- Back-off

  function Times(n: nat, c: Callback): seq<Callback> { seq(n, i => c) }

  /** Anything that shows that the stream works. */
  predicate Works(c: Callback) { c.OnEvent? || c == OnEnd(Again) }

  lemma {:induction false} InterruptionsCount(callbacks: seq<Callback>, n: nat)
    requires After(callbacks).open && After(callbacks).failures == 0
    ensures var v := After(callbacks + Times(n, OnEnd(Interrupted)));
            v.open && v.failures == n && (n > 0 ==> v.delay == Pause(n) && v.preview == "") && v.events == After(callbacks).events
  {
    if n == 0 {
      assert callbacks + Times(0, OnEnd(Interrupted)) == callbacks;
    } else {
      InterruptionsCount(callbacks, n - 1);
      var all := callbacks + Times(n, OnEnd(Interrupted));
      assert all[..|all| - 1] == callbacks + Times(n - 1, OnEnd(Interrupted)) && all[|all| - 1] == OnEnd(Interrupted);
    }
  }

  /** After the n-th interruption in a row the loop waits two, four, eight and then always fifteen
      seconds; the preview is gone, the events stay. Any event, and any orderly reconnect, starts the
      count again. */
  lemma BackOffDoubles(callbacks: seq<Callback>, c: Callback, n: nat)
    requires After(callbacks).open && Works(c) && n > 0
    ensures var v := After(callbacks + [c] + Times(n, OnEnd(Interrupted)));
            && v.delay == (if n == 1 then 2000 else if n == 2 then 4000 else if n == 3 then 8000 else 15000)
            && v.preview == "" && v.events == After(callbacks + [c]).events && v.open
  {
    assert (callbacks + [c])[..|callbacks|] == callbacks;
    assert After(callbacks + [c]).failures == 0 && After(callbacks + [c]).open;
    assert Power(0) == 1 && Power(1) == 2 && Power(2) == 4 && Power(3) == 8 && Power(4) == 16;
    hide After, Sort, Without;
    InterruptionsCount(callbacks + [c], n);
  }

  /** Each way of losing a connection: completion, an expired session and an unavailable run end the
      loop; an orderly reconnect comes after a second and keeps the preview; a limit is waited out for
      a minute and counts as a failure. */
  lemma EndingsAreTold(callbacks: seq<Callback>, ending: Ending, more: seq<Callback>)
    requires After(callbacks).open
    ensures var u, v := After(callbacks), After(callbacks + [OnEnd(ending)]);
            && v.events == u.events && v.cursor == u.cursor && v.revision == u.revision && v.terminalSeen == u.terminalSeen
            && (ending == Finished || ending == Expired || ending == Unavailable ==> After(callbacks + [OnEnd(ending)] + more) == u.(preview := "", open := false))
            && (ending == Again ==> v.open && v.delay == 1000 && v.preview == u.preview)
            && (ending == Limited ==> v.open && v.delay == 60000 && v.preview == "" && v.failures == u.failures + 1)
  {
    assert (callbacks + [OnEnd(ending)])[..|callbacks|] == callbacks;
    if !After(callbacks + [OnEnd(ending)]).open { ClosedForGood(callbacks + [OnEnd(ending)], more); }
  }

  lemma {:induction false} ClosedForGood(callbacks: seq<Callback>, more: seq<Callback>)
    requires !After(callbacks).open
    ensures After(callbacks + more) == After(callbacks)
    decreases |more|
  {
    if more == [] {
      assert callbacks + more == callbacks;
    } else {
      var n := |more| - 1;
      assert (callbacks + more)[..|callbacks + more| - 1] == callbacks + more[..n];
      ClosedForGood(callbacks, more[..n]);
    }
  }
}
