/** What a model call is given: the recent dialogue that is snapshotted at submission
    (`snapshot_history`), bounded (`bounded_history`) and fitted into the payload
    (`build_context`), and the check of an answer's citations. Token and byte counts are
    arbitrary functions; nothing below assumes that fewer turns need fewer tokens. */
module AnswerContext {
  import opened Options
  import opened Sequences
  import opened Transcripts

  const MAX_TURNS := 3
  const MAX_TOKENS := 1000
  const MAX_BYTES := 8192
  const MAX_ANSWER := 8000
  const MAX_QUESTION := 512

  datatype Turn = Turn(turn: Id, question: string, answer: string)

  /** Sizes of the JSON text of a list of turns. */
  datatype Sizes = Sizes(tokens: seq<Turn> -> nat, bytes: seq<Turn> -> nat)

  predicate Fits(sizes: Sizes, turns: seq<Turn>) {
    sizes.tokens(turns) <= MAX_TOKENS && sizes.bytes(turns) <= MAX_BYTES
  }

  /** Drop the oldest turn until the rest satisfies `fits`; `None` if nothing does. */
  function Trim(fits: seq<Turn> -> bool, turns: seq<Turn>): Option<seq<Turn>> {
    if fits(turns) then Some(turns) else if turns == [] then None else Trim(fits, turns[1..])
  }

  function LastTurns(turns: seq<Turn>): seq<Turn> {
    if |turns| <= MAX_TURNS then turns else turns[|turns| - MAX_TURNS..]
  }

  function Bounded(sizes: Sizes, turns: seq<Turn>): seq<Turn> {
    Trim(ts => Fits(sizes, ts), LastTurns(turns)).GetOr([])
  }

  method BoundedHistory(sizes: Sizes, turns: seq<Turn>) returns (selected: seq<Turn>)
    ensures selected == Bounded(sizes, turns)
  {
    selected := if |turns| > MAX_TURNS then turns[|turns| - MAX_TURNS..] else turns;
    while selected != [] && (sizes.tokens(selected) > MAX_TOKENS || sizes.bytes(selected) > MAX_BYTES)
      invariant Trim(ts => Fits(sizes, ts), selected).GetOr([]) == Bounded(sizes, turns)
      decreases |selected|
    {
      selected := selected[1..];
    }
  }

  /** `build_context` for one question and its evidence: `payloadFits` says whether the whole
      payload with these turns is within its limits. */
  function Context(sizes: Sizes, payloadFits: seq<Turn> -> bool, history: seq<Turn>): Option<seq<Turn>> {
    Trim(payloadFits, Bounded(sizes, history))
  }

  /** `None` is the answer_context_limit error. */
  method BuildContext(sizes: Sizes, payloadFits: seq<Turn> -> bool, history: seq<Turn>) returns (result: Option<seq<Turn>>)
    ensures result == Context(sizes, payloadFits, history)
  {
    var selected := BoundedHistory(sizes, history);
    while true
      invariant Trim(payloadFits, selected) == Context(sizes, payloadFits, history)
      decreases |selected|
    {
      if payloadFits(selected) { return Some(selected); }
      if selected == [] { return None; }
      selected := selected[1..];
    }
  }

  // ---- The longest suffix that fits

  predicate IsSuffix(s: seq<Turn>, turns: seq<Turn>) {
    |s| <= |turns| && turns[|turns| - |s|..] == s
  }

  lemma {:induction false} TrimIsLongest(fits: seq<Turn> -> bool, turns: seq<Turn>)
    ensures Trim(fits, turns).Some? ==> IsSuffix(Trim(fits, turns).value, turns) && fits(Trim(fits, turns).value)
    ensures forall s | IsSuffix(s, turns) && fits(s) :: Trim(fits, turns).Some? && |s| <= |Trim(fits, turns).value|
  {
    if !fits(turns) && turns != [] {
      TrimIsLongest(fits, turns[1..]);
      forall s | IsSuffix(s, turns) && fits(s) ensures IsSuffix(s, turns[1..]) {
        assert |s| == |turns| ==> s == turns;
        assert turns[1..][|turns| - 1 - |s|..] == turns[|turns| - |s|..];
      }
    }
  }

  /** At most 1000 tokens and 8192 bytes of JSON. */
  predicate Small(sizes: Sizes, turns: seq<Turn>) {
    sizes.tokens(turns) <= 1000 && sizes.bytes(turns) <= 8192
  }

  /** The bounded history is the longest list of at most three newest turns that is small enough; it
      is empty when none is. */
  lemma BoundedIsLongest(sizes: Sizes, turns: seq<Turn>)
    ensures var b := Bounded(sizes, turns);
            && |b| <= 3 && IsSuffix(b, turns) && (b == [] || Small(sizes, b))
            && forall s | IsSuffix(s, turns) && |s| <= 3 && Small(sizes, s) :: |s| <= |b|
  {
    var fits := ts => Fits(sizes, ts);
    var last := LastTurns(turns);
    TrimIsLongest(fits, last);
    var b := Bounded(sizes, turns);
    assert IsSuffix(b, last);
    SameSuffixes(b, turns);
    forall s | IsSuffix(s, turns) && |s| <= 3 && Small(sizes, s) ensures |s| <= |b| {
      SameSuffixes(s, turns);
      hide Trim, IsSuffix, LastTurns;
      assert fits(s);
    }
  }

  /** The suffixes of the last three turns are the suffixes of at most three turns. */
  lemma SameSuffixes(s: seq<Turn>, turns: seq<Turn>)
    ensures IsSuffix(s, LastTurns(turns)) <==> IsSuffix(s, turns) && |s| <= MAX_TURNS
  {
    var last := LastTurns(turns);
    if |s| <= |last| { assert last[|last| - |s|..] == turns[|turns| - |s|..]; }
  }

  /** Bounding twice is bounding once: a history stored at submission reaches the worker, and
      the payload builder after it, unchanged. */
  lemma BoundedIsStable(sizes: Sizes, turns: seq<Turn>)
    ensures Bounded(sizes, Bounded(sizes, turns)) == Bounded(sizes, turns)
  {
    BoundedIsLongest(sizes, turns);
    if Bounded(sizes, turns) == [] { assert LastTurns([]) == []; }
  }

  /** The payload takes the longest suffix of the stored history that lets it fit, and fails
      only if it does not fit with any of them, the empty history included. */
  lemma ContextIsLongest(sizes: Sizes, payloadFits: seq<Turn> -> bool, turns: seq<Turn>)
    ensures var stored := Bounded(sizes, turns);
            match Context(sizes, payloadFits, stored)
            case Some(c) =>
              && IsSuffix(c, stored) && payloadFits(c)
              && forall s | IsSuffix(s, stored) && payloadFits(s) :: |s| <= |c|
            case None => !payloadFits([]) && forall s | IsSuffix(s, stored) :: !payloadFits(s)
  {
    var stored := Bounded(sizes, turns);
    BoundedIsStable(sizes, turns);
    TrimIsLongest(payloadFits, stored);
    assert IsSuffix([], stored);
  }

  // ---- The snapshot

  function AnswerText(a: Answer): string {
    Join(a.claims, "\n")
  }

  /** A pair of message rows that may be quoted: an answered question about this source. */
  predicate Eligible(c: Conversation, q: nat, a: nat, source: Id)
    requires q in c.messages && a in c.messages
  {
    && c.messages[a].role == Assistant && c.messages[q].role == User
    && c.messages[a].turn == c.messages[q].turn && a == q + 1
    && c.messages[a].answer.Some? && c.messages[a].answer.value.source == source && c.messages[a].answer.value.grounded
    && var text := AnswerText(c.messages[a].answer.value); text != "" && |text| <= MAX_ANSWER
  }

  function Quote(c: Conversation, q: nat, a: nat): Turn
    requires q in c.messages && a in c.messages
  {
    Turn(c.messages[a].turn, c.messages[q].content, if c.messages[a].answer.Some? then AnswerText(c.messages[a].answer.value) else "")
  }

  /** From the newest pair back, stopping at the first that may not be quoted. `rows` are
      positions, newest first. */
  function Recent(c: Conversation, rows: seq<nat>, source: Id): seq<Turn>
    requires forall p | p in rows :: p in c.messages
    decreases |rows|
  {
    if |rows| < 2 || !Eligible(c, rows[1], rows[0], source) then []
    else [Quote(c, rows[1], rows[0])] + Recent(c, rows[2..], source)
  }

  function NewestSix(c: Conversation, bound: nat): (rows: seq<nat>)
    ensures |rows| <= 6 && forall p | p in rows :: p in c.messages
  {
    var d := Descending(c.messages, bound);
    forall i | 0 <= i < |d| ensures d[i] in c.messages { DescendingBelow(c.messages, bound, i); }
    if |d| <= 6 then d else d[..6]
  }

  function Snapshot(sizes: Sizes, c: Conversation, bound: nat, source: Id): seq<Turn> {
    Bounded(sizes, Reverse(Recent(c, NewestSix(c, bound), source)))
  }

  /** `snapshot_history`; `bound` is above every stored position. */
  method SnapshotHistory(sizes: Sizes, c: Conversation, bound: nat, source: Id) returns (turns: seq<Turn>)
    ensures turns == Snapshot(sizes, c, bound, source)
  {
    hide Eligible, Quote, Bounded, NewestSix;
    var rows := NewestSix(c, bound);
    var selected: seq<Turn> := [];
    var offset: nat := 0;
    while offset + 1 < |rows|
      invariant offset <= |rows|
      invariant selected + Recent(c, rows[offset..], source) == Recent(c, rows, source)
    {
      var answerRow, questionRow := rows[offset], rows[offset + 1];
      assert rows[offset..][0] == answerRow && rows[offset..][1] == questionRow && rows[offset..][2..] == rows[offset + 2..];
      if !Eligible(c, questionRow, answerRow, source) {
        assert selected == Recent(c, rows, source);
        turns := BoundedHistory(sizes, Reverse(selected));
        return;
      }
      selected := selected + [Quote(c, questionRow, answerRow)];
      offset := offset + 2;
    }
    assert selected == Recent(c, rows, source);
    turns := BoundedHistory(sizes, Reverse(selected));
  }

  /** The turn is the saved pair at p, and it may be quoted. */
  ghost predicate QuotedAt(c: Conversation, p: nat, source: Id, t: Turn) {
    Question(c, p) && Eligible(c, p, p + 1, source) && t == Quote(c, p, p + 1)
  }

  lemma {:induction false} DescendingOfShape(c: Conversation, bound: nat)
    requires Shape(c) && bound <= c.messageCount + 1
    ensures var d := Descending(c.messages, bound);
            |d| == (if bound == 0 then 0 else bound - 1) && forall i | 0 <= i < |d| :: d[i] == bound - 1 - i
    decreases bound
  {
    if bound > 0 { DescendingOfShape(c, bound - 1); }
  }

  lemma {:induction false} DescendingAbove(c: Conversation, bound: nat)
    requires Shape(c) && bound > c.messageCount
    ensures Descending(c.messages, bound) == Descending(c.messages, c.messageCount + 1)
    decreases bound
  {
    if bound > c.messageCount + 1 { DescendingAbove(c, bound - 1); }
  }

  /** The k-th quoted turn, from the newest, is the k-th newest pair; the pair behind the last
      one is not quotable or not there. */
  lemma {:induction false} RecentIsConsecutive(c: Conversation, rows: seq<nat>, top: int, source: Id, k: nat)
    requires Shape(c) && (forall p | p in rows :: p in c.messages) && top >= 0 && top % 2 == 0 && |rows| % 2 == 0
    requires forall i | 0 <= i < |rows| :: rows[i] == top - i && rows[i] >= 1
    ensures |Recent(c, rows, source)| * 2 <= |rows|
    ensures k < |Recent(c, rows, source)| ==> top >= 2 * k + 1 && QuotedAt(c, top - 2 * k - 1, source, Recent(c, rows, source)[k])
    ensures var n := |Recent(c, rows, source)|; 2 * n < |rows| ==> top >= 2 * n + 2 && !Eligible(c, top - 2 * n - 1, top - 2 * n, source)
    decreases |rows|
  {
    hide Eligible, Quote, Question, Shape;
    if |rows| >= 2 {
      assert rows[1] in rows && rows[0] in rows;
      if Eligible(c, rows[1], rows[0], source) {
        QuestionAt(c, rows[1]);
        RecentIsConsecutive(c, rows[2..], top - 2, source, if k > 0 then k - 1 else 0);
      }
    }
  }

  lemma QuestionAt(c: Conversation, p: nat)
    requires Shape(c) && p in c.messages && p % 2 == 1
    ensures Question(c, p)
  {
  }

  lemma NewestRows(c: Conversation, bound: nat)
    requires Shape(c) && bound > c.messageCount
    ensures var rows := NewestSix(c, bound);
            |rows| % 2 == 0 && |rows| == (if c.messageCount <= 6 then c.messageCount else 6) && forall i | 0 <= i < |rows| :: rows[i] == c.messageCount - i && rows[i] >= 1
    ensures c.messageCount % 2 == 0
  {
    DescendingAbove(c, bound);
    DescendingOfShape(c, c.messageCount + 1);
  }

  /** The turns are the pairs that end at position `top`, newest first. */
  ghost predicate NewestFirst(c: Conversation, top: int, source: Id, turns: seq<Turn>) {
    forall k | 0 <= k < |turns| :: top >= 2 * k + 1 && QuotedAt(c, top - 2 * k - 1, source, turns[k])
  }

  /** The turns are the pairs that end at position `top`, oldest first. */
  ghost predicate OldestFirst(c: Conversation, top: int, source: Id, turns: seq<Turn>) {
    2 * |turns| <= top && forall i | 0 <= i < |turns| :: QuotedAt(c, top - 2 * (|turns| - i) + 1, source, turns[i])
  }

  lemma RecentIsNewestFirst(c: Conversation, bound: nat, source: Id)
    requires Shape(c) && bound > c.messageCount
    ensures NewestFirst(c, c.messageCount, source, Recent(c, NewestSix(c, bound), source))
    ensures 2 * |Recent(c, NewestSix(c, bound), source)| <= c.messageCount
  {
    var rows := NewestSix(c, bound);
    NewestRows(c, bound);
    hide NewestSix, Shape, Recent, QuotedAt;
    RecentIsConsecutive(c, rows, c.messageCount, source, 0);
    forall k | 0 <= k < |Recent(c, rows, source)|
      ensures c.messageCount >= 2 * k + 1 && QuotedAt(c, c.messageCount - 2 * k - 1, source, Recent(c, rows, source)[k])
    {
      RecentIsConsecutive(c, rows, c.messageCount, source, k);
    }
  }

  lemma ReversedSuffix(c: Conversation, top: int, source: Id, recent: seq<Turn>, sizes: Sizes)
    requires NewestFirst(c, top, source, recent) && 2 * |recent| <= top
    ensures |Bounded(sizes, Reverse(recent))| <= MAX_TURNS && OldestFirst(c, top, source, Bounded(sizes, Reverse(recent)))
  {
    hide Bounded, QuotedAt;
    var b := Bounded(sizes, Reverse(recent));
    BoundedOfReverse(sizes, recent, 0);
    forall i | 0 <= i < |b| ensures QuotedAt(c, top - 2 * (|b| - i) + 1, source, b[i]) {
      BoundedOfReverse(sizes, recent, i);
      assert QuotedAt(c, top - 2 * (|b| - 1 - i) - 1, source, recent[|b| - 1 - i]);
    }
  }

  /** The m newest pairs are there and may all be quoted. */
  ghost predicate Quotable(c: Conversation, source: Id, m: nat)
    requires Shape(c)
  {
    2 * m <= c.messageCount && forall i | 0 <= i < m :: PairEligible(c, source, i)
  }

  /** The i-th newest pair may be quoted. */
  ghost predicate PairEligible(c: Conversation, source: Id, i: nat)
    requires Shape(c) && 2 * i + 2 <= c.messageCount
  {
    MayBeQuoted(c, c.messageCount - 2 * i - 1, source)
  }

  /** The pair at p was answered from the evidence of this source, and the claims make up a text of
      1 to 8000 characters. */
  ghost predicate MayBeQuoted(c: Conversation, p: nat, source: Id)
    requires Shape(c) && p in c.messages && p % 2 == 1
  {
    assert Question(c, p);
    var a := c.messages[p + 1].answer.value;
    a.source == source && a.grounded && 1 <= |Join(a.claims, "\n")| <= 8000
  }

  /** The pair as a turn: its question as asked, and its claims line by line. */
  ghost function Said(c: Conversation, p: nat): Turn
    requires Shape(c) && p in c.messages && p % 2 == 1
  {
    assert Question(c, p);
    Turn(c.messages[p].turn, c.messages[p].content, Join(c.messages[p + 1].answer.value.claims, "\n"))
  }

  lemma PairIsSpelled(c: Conversation, p: nat, source: Id)
    requires Shape(c) && p in c.messages && p % 2 == 1
    ensures p + 1 in c.messages && (Eligible(c, p, p + 1, source) <==> MayBeQuoted(c, p, source)) && Quote(c, p, p + 1) == Said(c, p)
  {
    assert Question(c, p);
  }

  /** The m newest pairs as turns, oldest first. */
  ghost function NewestQuotes(c: Conversation, m: nat): seq<Turn>
    requires Shape(c) && 2 * m <= c.messageCount
  {
    seq(m, i requires 0 <= i < m => Said(c, c.messageCount - 2 * (m - i) + 1))
  }

  lemma QuotedPair(c: Conversation, source: Id, i: nat, t: Turn)
    requires Shape(c) && 2 * i + 2 <= c.messageCount && QuotedAt(c, c.messageCount - 2 * i - 1, source, t)
    ensures PairEligible(c, source, i)
  {
    PairIsSpelled(c, c.messageCount - 2 * i - 1, source);
    hide Eligible, MayBeQuoted;
  }

  lemma RecentIsQuotable(c: Conversation, bound: nat, source: Id, m: nat)
    requires Shape(c) && bound > c.messageCount && m <= |Recent(c, NewestSix(c, bound), source)|
    ensures Quotable(c, source, m)
  {
    RecentIsNewestFirst(c, bound, source);
    hide NewestSix, Recent, QuotedAt, Shape, PairEligible;
    forall i | 0 <= i < m ensures PairEligible(c, source, i) {
      QuotedPair(c, source, i, Recent(c, NewestSix(c, bound), source)[i]);
    }
  }

  /** The collected turns are the newest pairs up to the first that may not be quoted, at most
      three. */
  lemma RecentIsExact(c: Conversation, bound: nat, source: Id, m: nat)
    requires Shape(c) && bound > c.messageCount && m <= MAX_TURNS
    ensures Quotable(c, source, m) <==> m <= |Recent(c, NewestSix(c, bound), source)|
  {
    var rows := NewestSix(c, bound);
    var n := |Recent(c, rows, source)|;
    NewestRows(c, bound);
    hide NewestSix, Recent, Eligible, QuotedAt, Shape;
    if m <= n {
      hide Quotable;
      RecentIsQuotable(c, bound, source, m);
    } else {
      RecentIsConsecutive(c, rows, c.messageCount, source, n);
      if 2 * n + 2 <= c.messageCount { NotSpelled(c, source, n); }
    }
  }

  lemma NotSpelled(c: Conversation, source: Id, n: nat)
    requires Shape(c) && 2 * n + 2 <= c.messageCount
    requires c.messageCount - 2 * n - 1 in c.messages && c.messageCount - 2 * n in c.messages
    requires !Eligible(c, c.messageCount - 2 * n - 1, c.messageCount - 2 * n, source)
    ensures !PairEligible(c, source, n)
  {
    PairIsSpelled(c, c.messageCount - 2 * n - 1, source);
    hide Eligible, MayBeQuoted;
  }

  /** Their newest m, oldest first. */
  lemma ReversedEnd(c: Conversation, source: Id, recent: seq<Turn>, m: nat)
    requires Shape(c) && NewestFirst(c, c.messageCount, source, recent) && m <= |recent| && 2 * m <= c.messageCount
    ensures IsSuffix(NewestQuotes(c, m), Reverse(recent))
  {
    NewestQuotesLength(c, m);
    var all, s := Reverse(recent), NewestQuotes(c, m);
    forall i | 0 <= i < m ensures recent[m - 1 - i] == s[i] {
      assert QuotedAt(c, c.messageCount - 2 * (m - 1 - i) - 1, source, recent[m - 1 - i]);
      hide Shape, QuotedAt, NewestQuotes;
      NewestIs(c, source, m, i, recent[m - 1 - i]);
    }
    hide Shape, QuotedAt, NewestQuotes, NewestFirst;
    EndOfReverse(recent, s);
  }

  lemma EndOfReverse(recent: seq<Turn>, s: seq<Turn>)
    requires |s| <= |recent| && forall i | 0 <= i < |s| :: recent[|s| - 1 - i] == s[i]
    ensures IsSuffix(s, Reverse(recent))
  {
    var end := Reverse(recent)[|recent| - |s|..];
    forall i | 0 <= i < |s| ensures end[i] == s[i] { assert end[i] == recent[|s| - 1 - i]; }
  }

  lemma NewestIs(c: Conversation, source: Id, m: nat, i: nat, t: Turn)
    requires Shape(c) && 2 * m <= c.messageCount && i < m && QuotedAt(c, c.messageCount - 2 * (m - 1 - i) - 1, source, t)
    ensures |NewestQuotes(c, m)| == m && t == NewestQuotes(c, m)[i]
  {
    var p := c.messageCount - 2 * (m - 1 - i) - 1;
    assert p == c.messageCount - 2 * (m - i) + 1 && p % 2 == 1;
    SaidAt(c, p, source, t);
    hide Shape, QuotedAt, Said;
  }

  lemma SaidAt(c: Conversation, p: nat, source: Id, t: Turn)
    requires Shape(c) && QuotedAt(c, p, source, t) && p % 2 == 1
    ensures t == Said(c, p)
  {
    PairIsSpelled(c, p, source);
    hide Eligible, MayBeQuoted;
  }

  /** On a well-shaped transcript the snapshot quotes consecutive answered pairs of one source,
      up to and including the newest message, oldest first. It stops because there are three,
      because the next pair is not there or may not be quoted, or because more do not fit: of the
      numbers up to three of newest pairs that may all be quoted, it takes the greatest that fits. */
  lemma SnapshotIsConsecutive(sizes: Sizes, c: Conversation, bound: nat, source: Id)
    requires Shape(c) && bound > c.messageCount
    ensures var turns := Snapshot(sizes, c, bound, source);
            && |turns| <= 3 && Quotable(c, source, |turns|) && turns == NewestQuotes(c, |turns|)
            && (turns == [] || Small(sizes, turns)) && OldestFirst(c, c.messageCount, source, turns)
            && forall m | |turns| < m <= 3 && Quotable(c, source, m) :: !Small(sizes, NewestQuotes(c, m))
  {
    var recent, turns := Recent(c, NewestSix(c, bound), source), Snapshot(sizes, c, bound, source);
    RecentIsNewestFirst(c, bound, source);
    hide NewestFirst, OldestFirst, Recent, NewestSix, Bounded, Quotable, NewestQuotes, Shape, Small;
    ReversedSuffix(c, c.messageCount, source, recent, sizes);
    BoundedIsLongest(sizes, Reverse(recent));
    RecentIsExact(c, bound, source, |turns|);
    ReversedEnd(c, source, recent, |turns|);
    forall m | |turns| < m <= 3 && Quotable(c, source, m) ensures !Small(sizes, NewestQuotes(c, m)) {
      RecentIsExact(c, bound, source, m);
      ReversedEnd(c, source, recent, m);
      NewestQuotesLength(c, m);
    }
    NewestQuotesLength(c, |turns|);
  }

  lemma NewestQuotesLength(c: Conversation, m: nat)
    requires Shape(c) && 2 * m <= c.messageCount
    ensures |NewestQuotes(c, m)| == m
  {
  }

  lemma BoundedOfReverse(sizes: Sizes, recent: seq<Turn>, i: nat)
    ensures var b := Bounded(sizes, Reverse(recent));
            |b| <= MAX_TURNS && |b| <= |recent| && (i < |b| ==> b[i] == recent[|b| - 1 - i])
  {
    BoundedIsLongest(sizes, Reverse(recent));
    var b := Bounded(sizes, Reverse(recent));
    hide Bounded;
    if i < |b| { assert b[i] == Reverse(recent)[|recent| - |b| + i]; }
  }

  // ---- The retrieval question

  function RetrievalQuestion(question: string, turns: seq<Turn>): string {
    if turns == [] || |question| >= 510 then question
    else
      var last := turns[|turns| - 1].question;
      var room := 511 - |question|;
      question + "\n" + (if |last| <= room then last else last[..room])
  }

  /** The query is the current question, with the previous one behind it on a line of its own as far as
      512 characters reach; a question that leaves no room for it stands alone. */
  lemma RetrievalQuestionFits(question: string, turns: seq<Turn>)
    requires |question| <= MAX_QUESTION
    ensures var r := RetrievalQuestion(question, turns);
            if turns == [] || |question| >= 510 then r == question
            else
              var last := turns[|turns| - 1].question;
              && question + "\n" <= r <= question + "\n" + last
              && |r| == (if |question| + 1 + |last| <= 512 then |question| + 1 + |last| else 512)
  {
  }

  // ---- Citations

  ghost predicate Distinct(s: seq<string>) {
    forall i, j | 0 <= i < j < |s| :: s[i] != s[j]
  }

  function Members(s: seq<string>): set<string> {
    set x | x in s
  }

  /** Comparing a list's length with its set's size detects repetitions exactly. */
  lemma {:induction false} SizeDetectsRepetition(s: seq<string>)
    ensures |Members(s)| <= |s|
    ensures |Members(s)| == |s| <==> Distinct(s)
  {
    if s != [] {
      var rest := s[1..];
      SizeDetectsRepetition(rest);
      assert Members(s) == Members(rest) + {s[0]};
      if s[0] in Members(rest) {
        var j :| 0 <= j < |rest| && rest[j] == s[0];
        assert s[j + 1] == s[0];
        assert Members(s) == Members(rest);
      } else {
        assert |Members(s)| == |Members(rest)| + 1;
        if Distinct(rest) {
          forall j | 0 <= j < |rest| ensures s[0] != rest[j] { assert rest[j] in Members(rest); }
        }
        if Distinct(s) {
          forall i, j | 0 <= i < j < |rest| ensures rest[i] != rest[j] { assert s[i + 1] != s[j + 1]; }
        }
      }
    }
  }

  datatype CitationCheck = Sound | BadEvidence | BadCitation

  /** `validate_citations`: every claim cites distinct, existing pieces of evidence. */
  method ValidateCitations(claims: seq<seq<string>>, evidence: seq<string>) returns (r: CitationCheck)
    ensures r == Sound <==> Distinct(evidence) && forall c | c in claims :: Distinct(c) && forall id | id in c :: id in evidence
    ensures r == BadEvidence <==> !Distinct(evidence)
  {
    var known := Members(evidence);
    SizeDetectsRepetition(evidence);
    if |known| != |evidence| { return BadEvidence; }
    for k := 0 to |claims|
      invariant forall c | c in claims[..k] :: Distinct(c) && forall id | id in c :: id in evidence
    {
      SizeDetectsRepetition(claims[k]);
      assert claims[..k + 1] == claims[..k] + [claims[k]] && claims[k] in claims;
      var cited := Members(claims[k]);
      if |cited| != |claims[k]| || !(cited <= known) {
        if Distinct(claims[k]) {
          var id :| id in cited && id !in known;
        }
        return BadCitation;
      }
      forall id | id in claims[k] ensures id in evidence { assert id in cited; }
    }
    assert claims[..|claims|] == claims;
    r := Sound;
  }
}
