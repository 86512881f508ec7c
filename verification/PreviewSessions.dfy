/** What a session of the event stream sends, page by page and over all its pages: every new event,
    every change of the preview, keep-alives, and how it ends. */
module PreviewSessions {
  import opened Options
  import opened AnswerRuns
  import opened EventServer
  import opened EventSessions

  type Shot = (nat, string)

  // ---- One page

  /** The preview that was sent last. */
  function LastSent(xs: seq<Signal>): Option<Shot> {
    if xs == [] then None
    else if xs[|xs| - 1].Preview? then Some((xs[|xs| - 1].revision, xs[|xs| - 1].text))
    else LastSent(xs[..|xs| - 1])
  }

  /** The server remembers what it has sent. */
  ghost predicate Remembers(s: Server, includePreview: bool) {
    s.sent == LastSent(s.out) && (!includePreview ==> s.sent == None)
  }

  lemma {:induction false} LastOfQuiet(xs: seq<Signal>, more: seq<Signal>)
    requires forall x | x in more :: !x.Preview?
    ensures LastSent(xs + more) == LastSent(xs)
    decreases |more|
  {
    if more == [] {
      assert xs + more == xs;
    } else {
      var n := |more| - 1;
      assert (xs + more)[..|xs + more| - 1] == xs + more[..n] && (xs + more)[|xs + more| - 1] == more[n];
      LastOfQuiet(xs, more[..n]);
    }
  }

  lemma LastOfPage(xs: seq<Signal>, updates: seq<Signal>, preview: seq<Signal>, last: seq<Signal>)
    requires (forall x | x in updates + last :: !x.Preview?) && |preview| <= 1 && forall x | x in preview :: x.Preview?
    ensures LastSent(xs + (updates + preview + last)) == if preview == [] then LastSent(xs) else Some((preview[0].revision, preview[0].text))
  {
    LastOfQuiet(xs, updates);
    LastOfQuiet(xs + updates + preview, last);
    assert xs + (updates + preview + last) == xs + updates + preview + last;
    if preview != [] {
      assert preview == [preview[0]];
      assert (xs + updates + preview)[..|xs + updates|] == xs + updates;
    } else {
      assert xs + updates + preview == xs + updates;
    }
  }

  function NextCursor(cursor: nat, size: nat): nat { if cursor + 3 < size then cursor + 3 else size }

  /** The run's status, or one of the new events, is terminal. */
  ghost predicate Finishes(log: seq<Status>, cursor: nat, p: PollResult)
    requires p.Page? && Readable(|log|, p) && cursor <= p.maximum
  {
    log[p.seen - 1].Terminal() || exists i | cursor <= i < NextCursor(cursor, p.upto) :: log[i].Terminal()
  }

  function ChangedPreview(out: seq<Signal>, includePreview: bool, shot: Shot): seq<Signal> {
    if includePreview && LastSent(out) != Some(shot) then [Preview(shot.0, shot.1)] else []
  }

  ghost predicate EventsFrom(events: seq<Signal>, cursor: nat, log: seq<Status>) {
    cursor + |events| <= |log| && forall i | 0 <= i < |events| :: events[i] == Update(cursor + i + 1, log[cursor + i])
  }

  /** What a page that is served adds to the stream: the new events, up to three, numbered from the
      cursor; its preview, if previews were asked for and it is not the one sent last; and the end of
      the stream if the run's status or one of the events is terminal, or else every fifth time a
      keep-alive. */
  ghost predicate Adds(log: seq<Status>, s: Server, t: Server, tick: nat, includePreview: bool, p: PollResult)
    requires p.Page? && Readable(|log|, p) && s.cursor <= p.maximum
  {
    var n := NextCursor(s.cursor, p.upto) - s.cursor;
    && t.cursor == s.cursor + n && t.closed == Finishes(log, s.cursor, p)
    && |s.out| + n <= |t.out| && t.out[..|s.out|] == s.out
    && EventsFrom(t.out[|s.out|..|s.out| + n], s.cursor, log)
    && t.out[|s.out| + n..] == ChangedPreview(s.out, includePreview, p.preview)
                               + (if t.closed then [StreamEnd] else if tick % 5 == 0 then [KeepAlive] else [])
  }

  lemma TerminalSince(log: seq<Status>, from: nat, end: nat)
    requires from <= end <= |log|
    ensures AnyTerminal(log[from..end]) <==> exists i | from <= i < end :: log[i].Terminal()
  {
    if AnyTerminal(log[from..end]) {
      var i :| 0 <= i < |log[from..end]| && log[from..end][i].Terminal();
      assert log[from + i].Terminal();
    }
    if exists i | from <= i < end :: log[i].Terminal() {
      var i :| from <= i < end && log[i].Terminal();
      assert log[from..end][i - from].Terminal();
    }
  }

  lemma Three(out: seq<Signal>, updates: seq<Signal>, preview: seq<Signal>, last: seq<Signal>)
    ensures var t := out + (updates + preview + last);
            && |out| + |updates| <= |t| && t[..|out|] == out && t[|out|..|out| + |updates|] == updates && t[|out| + |updates|..] == preview + last
  {
    assert updates + preview + last == updates + (preview + last);
  }

  lemma SamePreview(s: Server, includePreview: bool, shot: Shot)
    requires Remembers(s, includePreview)
    ensures PreviewSignals(s.sent, if includePreview then Some(shot) else None) == ChangedPreview(s.out, includePreview, shot)
  {
    hide LastSent;
  }

  lemma UpdatesAreEvents(log: seq<Status>, from: nat, end: nat)
    requires from <= end <= |log|
    ensures |Updates(log, from, end)| == end - from && EventsFrom(Updates(log, from, end), from, log)
  {
  }

  lemma PageAdds(log: seq<Status>, s: Server, tick: nat, includePreview: bool, p: PollResult)
    requires p.Page? && Readable(|log|, p) && s.cursor <= p.maximum && !s.closed && Remembers(s, includePreview)
    ensures Adds(log, s, Serve(log, s, tick, includePreview, p), tick, includePreview, p)
  {
    var end := PageEnd(p.upto, s.cursor);
    var updates, preview, last := Updates(log, s.cursor, end), PreviewSignals(s.sent, if includePreview then Some(p.preview) else None),
                                  Last(TerminalPage(log, s.cursor, p), tick);
    ServePage(log, s, tick, includePreview, p);
    TerminalSince(log, s.cursor, end);
    SamePreview(s, includePreview, p.preview);
    UpdatesAreEvents(log, s.cursor, end);
    assert Finishes(log, s.cursor, p) == TerminalPage(log, s.cursor, p);
    hide LastSent, ChangedPreview, AnyTerminal, PreviewSignals, Serve, Finishes, TerminalPage, Remembers, Updates, EventsFrom, Adds;
    FromParts(log, s, Serve(log, s, tick, includePreview, p), tick, includePreview, p, updates);
  }

  lemma FromParts(log: seq<Status>, s: Server, t: Server, tick: nat, includePreview: bool, p: PollResult, updates: seq<Signal>)
    requires p.Page? && Readable(|log|, p) && s.cursor <= p.maximum
    requires t.cursor == s.cursor + |updates| == NextCursor(s.cursor, p.upto) && t.closed == Finishes(log, s.cursor, p)
    requires EventsFrom(updates, s.cursor, log)
    requires t.out == s.out + (updates + ChangedPreview(s.out, includePreview, p.preview) + (if t.closed then [StreamEnd] else if tick % 5 == 0 then [KeepAlive] else []))
    ensures Adds(log, s, t, tick, includePreview, p)
  {
    hide LastSent, ChangedPreview, Finishes, EventsFrom, Readable;
    Three(s.out, updates, ChangedPreview(s.out, includePreview, p.preview), if t.closed then [StreamEnd] else if tick % 5 == 0 then [KeepAlive] else []);
  }

  lemma PageRemembers(log: seq<Status>, s: Server, tick: nat, includePreview: bool, p: PollResult)
    requires p.Page? && Readable(|log|, p) && s.cursor <= p.maximum && !s.closed && Remembers(s, includePreview)
    ensures Remembers(Serve(log, s, tick, includePreview, p), includePreview)
  {
    var updates, preview, last := Updates(log, s.cursor, PageEnd(p.upto, s.cursor)),
                                  PreviewSignals(s.sent, if includePreview then Some(p.preview) else None), Last(TerminalPage(log, s.cursor, p), tick);
    LastOfPage(s.out, updates, preview, last);
    hide LastSent, TerminalPage;
  }

  /** A poll that finds no page: a client that has gone is sent nothing, an expired session and any
      other error, a cursor ahead of the run among them, are told apart, and the stream is over. */
  ghost predicate BreaksOff(s: Server, t: Server, p: PollResult) {
    && t.closed && t.cursor == s.cursor && t.sent == s.sent
    && t.out == s.out + (if p.Disconnected? then [] else if p == Broken(Some(401)) then [StreamError("unauthenticated")]
                         else [StreamError("stream_unavailable")])
  }

  lemma PollBreaksOff(log: seq<Status>, s: Server, tick: nat, includePreview: bool, p: PollResult)
    requires Readable(|log|, p) && !s.closed && (p.Page? ==> s.cursor > p.maximum) && Remembers(s, includePreview)
    ensures var t := Serve(log, s, tick, includePreview, p);
            BreaksOff(s, t, p) && Remembers(t, includePreview)
  {
    assert s.out + [] == s.out;
    if !p.Disconnected? {
      var error := StreamError(if p == Broken(Some(401)) then "unauthenticated" else "stream_unavailable");
      LastOfQuiet(s.out, [error]);
    }
  }

  // ---- All pages

  /** The poll that comes next finds a page. */
  ghost predicate Finds(s: Server, p: PollResult) { !s.closed && p.Page? && s.cursor <= p.maximum }

  /** The previews of the pages that were served, in order. */
  ghost function Shots(log: seq<Status>, start: nat, includePreview: bool, polls: seq<PollResult>): seq<Shot>
    requires forall p | p in polls :: Readable(|log|, p)
  {
    if polls == [] then []
    else
      var front, p := polls[..|polls| - 1], polls[|polls| - 1];
      Shots(log, start, includePreview, front) + (if Finds(Served(log, start, includePreview, front), p) then [p.preview] else [])
  }

  /** Those that differ from the one before. */
  function Changes(shots: seq<Shot>): seq<Shot> {
    if shots == [] then []
    else
      var n := |shots| - 1;
      Changes(shots[..n]) + (if n > 0 && shots[n] == shots[n - 1] then [] else [shots[n]])
  }

  /** The previews among some signals. */
  function Previews(xs: seq<Signal>): seq<Shot> {
    if xs == [] then []
    else Previews(xs[..|xs| - 1]) + (if xs[|xs| - 1].Preview? then [(xs[|xs| - 1].revision, xs[|xs| - 1].text)] else [])
  }

  lemma {:induction false} PreviewsOfSum(xs: seq<Signal>, ys: seq<Signal>)
    ensures Previews(xs + ys) == Previews(xs) + Previews(ys)
    decreases |ys|
  {
    if ys == [] {
      assert xs + ys == xs;
    } else {
      var n := |ys| - 1;
      assert (xs + ys)[..|xs + ys| - 1] == xs + ys[..n] && (xs + ys)[|xs + ys| - 1] == ys[n];
      PreviewsOfSum(xs, ys[..n]);
    }
  }

  lemma {:induction false} PreviewsOfQuiet(xs: seq<Signal>)
    requires forall x | x in xs :: !x.Preview?
    ensures Previews(xs) == []
  {
    if xs != [] { PreviewsOfQuiet(xs[..|xs| - 1]); }
  }

  lemma {:induction false} LastOfPreviews(xs: seq<Signal>)
    ensures LastSent(xs) == if Previews(xs) == [] then None else Some(Previews(xs)[|Previews(xs)| - 1])
  {
    if xs != [] { LastOfPreviews(xs[..|xs| - 1]); }
  }

  /** The last change is to the last one, and each change is one. */
  lemma {:induction false} ChangesAreExact(shots: seq<Shot>)
    ensures shots != [] ==> Changes(shots) != [] && Changes(shots)[|Changes(shots)| - 1] == shots[|shots| - 1]
    ensures forall i | 0 < i < |Changes(shots)| :: Changes(shots)[i] != Changes(shots)[i - 1]
    ensures forall x :: x in Changes(shots) <==> x in shots
  {
    if shots != [] {
      var n := |shots| - 1;
      ChangesAreExact(shots[..n]);
      assert shots == shots[..n] + [shots[n]];
    }
  }

  lemma PagePreviews(s: Server, t: Server, log: seq<Status>, tick: nat, includePreview: bool, p: PollResult)
    requires p.Page? && Readable(|log|, p) && s.cursor <= p.maximum && Adds(log, s, t, tick, includePreview, p)
    ensures Previews(t.out) == Previews(s.out) + (if includePreview && LastSent(s.out) != Some(p.preview) then [p.preview] else [])
  {
    var n := NextCursor(s.cursor, p.upto) - s.cursor;
    var preview := ChangedPreview(s.out, includePreview, p.preview);
    var events, last := t.out[|s.out|..|s.out| + n], if t.closed then [StreamEnd] else if tick % 5 == 0 then [KeepAlive] else [];
    assert forall x | x in events :: !x.Preview?;
    hide LastSent, Previews, Readable, Finishes, EventsFrom, ChangedPreview;
    Cut(s.out, t.out, n);
    PreviewParts(s.out, events, preview, last);
    PreviewIsOne(s.out, includePreview, p.preview);
  }

  lemma PreviewIsOne(out: seq<Signal>, includePreview: bool, shot: Shot)
    ensures Previews(ChangedPreview(out, includePreview, shot)) == if includePreview && LastSent(out) != Some(shot) then [shot] else []
  {
    hide LastSent, Previews;
    OnePreview(ChangedPreview(out, includePreview, shot));
    PreviewsOfQuiet([]);
  }

  lemma OnePreview(preview: seq<Signal>)
    requires |preview| <= 1 && forall x | x in preview :: x.Preview?
    ensures Previews(preview) == if preview == [] then [] else [(preview[0].revision, preview[0].text)]
  {
    if preview != [] { assert preview[..0] == []; }
  }

  lemma Cut(out: seq<Signal>, all: seq<Signal>, n: nat)
    requires |out| + n <= |all| && all[..|out|] == out
    ensures all == out + all[|out|..|out| + n] + all[|out| + n..]
  {
  }

  lemma PreviewParts(out: seq<Signal>, events: seq<Signal>, preview: seq<Signal>, last: seq<Signal>)
    requires forall x | x in events + last :: !x.Preview?
    ensures Previews(out + events + (preview + last)) == Previews(out) + Previews(preview)
  {
    PreviewsOfSum(out + events, preview + last);
    PreviewsOfSum(out, events);
    PreviewsOfSum(preview, last);
    PreviewsOfQuiet(events);
    PreviewsOfQuiet(last);
  }

  lemma PollRemembers(log: seq<Status>, s: Server, tick: nat, includePreview: bool, p: PollResult)
    requires Readable(|log|, p) && Remembers(s, includePreview)
    ensures Remembers(Serve(log, s, tick, includePreview, p), includePreview)
  {
    hide Remembers, Serve;
    if Finds(s, p) {
      PageRemembers(log, s, tick, includePreview, p);
    } else if s.closed {
      ClosedServes(log, s, tick, includePreview, p);
    } else {
      PollBreaksOff(log, s, tick, includePreview, p);
    }
  }

  lemma {:induction false} ServedRemembers(log: seq<Status>, start: nat, includePreview: bool, polls: seq<PollResult>)
    requires forall p | p in polls :: Readable(|log|, p)
    ensures Remembers(Served(log, start, includePreview, polls), includePreview)
  {
    if polls != [] {
      var front := polls[..|polls| - 1];
      ServedRemembers(log, start, includePreview, front);
      PollRemembers(log, Served(log, start, includePreview, front), |front|, includePreview, polls[|front|]);
      hide Remembers, Serve;
    }
  }

  lemma QuietPoll(log: seq<Status>, s: Server, tick: nat, includePreview: bool, p: PollResult)
    requires Readable(|log|, p) && Remembers(s, includePreview) && !Finds(s, p)
    ensures Previews(Serve(log, s, tick, includePreview, p).out) == Previews(s.out)
  {
    if s.closed {
      ClosedServes(log, s, tick, includePreview, p);
    } else {
      PollBreaksOff(log, s, tick, includePreview, p);
      hide Serve, Remembers;
      QuietBreak(s, Serve(log, s, tick, includePreview, p), p);
    }
  }

  lemma QuietBreak(s: Server, t: Server, p: PollResult)
    requires BreaksOff(s, t, p)
    ensures Previews(t.out) == Previews(s.out)
  {
    var more := t.out[|s.out|..];
    PreviewsOfQuiet(more);
    PreviewsOfSum(s.out, more);
    hide Previews;
    assert t.out == s.out + more;
  }

  lemma PageShot(log: seq<Status>, s: Server, tick: nat, includePreview: bool, p: PollResult, shots: seq<Shot>)
    requires Finds(s, p) && Readable(|log|, p) && Remembers(s, includePreview) && Previews(s.out) == (if includePreview then Changes(shots) else [])
    ensures Previews(Serve(log, s, tick, includePreview, p).out) == (if includePreview then Changes(shots + [p.preview]) else [])
  {
    PageAdds(log, s, tick, includePreview, p);
    hide Serve, Remembers, LastSent, Adds, Readable, Changes;
    PagePreviews(s, Serve(log, s, tick, includePreview, p), log, tick, includePreview, p);
    if includePreview { LastIsChange(s.out, shots, p.preview); }
  }

  lemma LastIsChange(out: seq<Signal>, shots: seq<Shot>, shot: Shot)
    requires Previews(out) == Changes(shots)
    ensures Changes(shots + [shot]) == Changes(shots) + (if LastSent(out) != Some(shot) then [shot] else [])
  {
    LastOfPreviews(out);
    ChangesAreExact(shots);
    NextChange(shots, shot);
    hide LastSent, Previews;
  }

  lemma PollShot(log: seq<Status>, s: Server, tick: nat, includePreview: bool, p: PollResult, shots: seq<Shot>)
    requires Readable(|log|, p) && Remembers(s, includePreview) && Previews(s.out) == (if includePreview then Changes(shots) else [])
    ensures Previews(Serve(log, s, tick, includePreview, p).out)
            == (if includePreview then Changes(shots + (if Finds(s, p) then [p.preview] else [])) else [])
  {
    hide Serve, Remembers, Previews, Changes, Finds, Readable;
    if Finds(s, p) {
      PageShot(log, s, tick, includePreview, p, shots);
    } else {
      QuietPoll(log, s, tick, includePreview, p);
      assert shots + [] == shots;
    }
  }

  /** The previews sent over a whole session: those of the pages served, each time one differs from
      the one before, if previews were asked for; otherwise none. */
  lemma {:induction false} PreviewsAreSent(log: seq<Status>, start: nat, includePreview: bool, polls: seq<PollResult>)
    requires forall p | p in polls :: Readable(|log|, p)
    ensures Previews(Served(log, start, includePreview, polls).out)
            == if includePreview then Changes(Shots(log, start, includePreview, polls)) else []
  {
    if polls != [] {
      var n := |polls| - 1;
      PreviewsAreSent(log, start, includePreview, polls[..n]);
      ServedRemembers(log, start, includePreview, polls[..n]);
      PollShot(log, Served(log, start, includePreview, polls[..n]), n, includePreview, polls[n], Shots(log, start, includePreview, polls[..n]));
      hide Serve, Remembers, Previews, Changes, Finds, Readable;
    }
  }

  lemma ClosedServes(log: seq<Status>, s: Server, tick: nat, includePreview: bool, p: PollResult)
    requires s.closed && Readable(|log|, p)
    ensures Serve(log, s, tick, includePreview, p) == s
  {
  }

  lemma NextChange(shots: seq<Shot>, shot: Shot)
    ensures Changes(shots + [shot]) == Changes(shots) + (if shots != [] && shots[|shots| - 1] == shot then [] else [shot])
  {
    assert (shots + [shot])[..|shots|] == shots;
  }

  // ---- A poll, and the end of a session

  /** Each poll of a session is answered in one of three ways: the page found is sent, the stream
      breaks off, or it is over already. */
  lemma {:induction false} PollIsAnswered(log: seq<Status>, start: nat, includePreview: bool, polls: seq<PollResult>, p: PollResult)
    requires Readable(|log|, p) && forall q | q in polls :: Readable(|log|, q)
    ensures forall q | q in polls + [p] :: Readable(|log|, q)
    ensures var s, t := Served(log, start, includePreview, polls), Served(log, start, includePreview, polls + [p]);
            if s.closed then t == s
            else if p.Page? && s.cursor <= p.maximum then Adds(log, s, t, |polls|, includePreview, p) else BreaksOff(s, t, p)
  {
    assert (polls + [p])[..|polls|] == polls;
    var s := Served(log, start, includePreview, polls);
    ServedRemembers(log, start, includePreview, polls);
    hide Serve, Adds, BreaksOff, Remembers;
    if s.closed {
      ClosedServes(log, s, |polls|, includePreview, p);
    } else if p.Page? && s.cursor <= p.maximum {
      PageAdds(log, s, |polls|, includePreview, p);
    } else {
      PollBreaksOff(log, s, |polls|, includePreview, p);
    }
  }

  ghost predicate SaysGoodbye(s: Server, polls: seq<PollResult>) {
    s.closed ==> Disconnected in polls || (s.out != [] && (s.out[|s.out| - 1].StreamEnd? || s.out[|s.out| - 1].StreamError?))
  }

  lemma AddsGoodbye(log: seq<Status>, s: Server, t: Server, tick: nat, includePreview: bool, p: PollResult, polls: seq<PollResult>)
    requires p.Page? && Readable(|log|, p) && s.cursor <= p.maximum && Adds(log, s, t, tick, includePreview, p)
    ensures SaysGoodbye(t, polls)
  {
    if t.closed {
      var n := NextCursor(s.cursor, p.upto) - s.cursor;
      var tail := t.out[|s.out| + n..];
      assert tail == ChangedPreview(s.out, includePreview, p.preview) + [StreamEnd];
      assert tail[|tail| - 1] == t.out[|t.out| - 1];
    }
  }

  lemma {:induction false} ServedGoodbye(log: seq<Status>, start: nat, includePreview: bool, polls: seq<PollResult>)
    requires forall p | p in polls :: Readable(|log|, p)
    ensures SaysGoodbye(Served(log, start, includePreview, polls), polls)
  {
    if polls != [] {
      var front, p := polls[..|polls| - 1], polls[|polls| - 1];
      assert polls == front + [p];
      ServedGoodbye(log, start, includePreview, front);
      PollIsAnswered(log, start, includePreview, front, p);
      var s, t := Served(log, start, includePreview, front), Served(log, start, includePreview, polls);
      hide Served, Adds;
      if !s.closed && p.Page? && s.cursor <= p.maximum { AddsGoodbye(log, s, t, |front|, includePreview, p, polls); }
    }
  }

  /** A session of all its 25 polls tells the client how it ended, unless the client has left: with the
      end of the stream, with an error, or, if neither has come up, with the request to come back. */
  lemma SessionSaysGoodbye(log: seq<Status>, start: nat, includePreview: bool, polls: seq<PollResult>)
    requires |polls| == 25 && (forall p | p in polls :: Readable(|log|, p)) && Disconnected !in polls
    ensures var xs := Session(log, start, includePreview, polls);
            xs != [] && Control(xs[|xs| - 1]) && (xs[|xs| - 1].Reconnect? <==> !Served(log, start, includePreview, polls).closed)
  {
    ServedGoodbye(log, start, includePreview, polls);
    hide Served;
  }
}
