/** Saved conversations: the question/answer pairs appended to a transcript and the paging
    over them (`ConversationStore`). A conversation's message rows are a map keyed by their
    `position`; nothing in the representation says that positions are contiguous. */
module Transcripts {
  import opened Options
  import opened Sequences

  type Id = nat

  const MAX_MESSAGES := 200
  const PAGE_SIZE := 20

  datatype Role = User | Assistant

  /** A validated answer. `grounded` is the answer status "answered". */
  datatype Answer = Answer(source: Id, grounded: bool, claims: seq<string>, limitation: string,
                           inputTokens: nat, outputTokens: nat)

  datatype Message = Message(turn: Id, role: Role, content: string, answer: Option<Answer>)

  datatype Conversation = Conversation(user: Id, messageCount: nat, messages: map<nat, Message>)

  /** The text saved for an answer: its claims, then the limitation when there is one. */
  function Rendered(a: Answer): string {
    Join(a.claims + (if a.limitation == "" then [] else [a.limitation]), "\n\n")
  }

  /** The saved text reads: the claims in order and then the limitation, if there is one, each two
      parts with an empty line between them. */
  lemma RenderedReads(a: Answer, claim: string)
    ensures a.claims == [] ==> Rendered(a) == a.limitation
    ensures a.claims == [claim] && a.limitation == "" ==> Rendered(a) == claim
    ensures a.claims != [] && a.limitation == "" ==> Rendered(a.(claims := a.claims + [claim])) == Rendered(a) + "\n\n" + claim
    ensures a.claims != [] && a.limitation != "" ==> Rendered(a) == Rendered(a.(limitation := "")) + "\n\n" + a.limitation
  {
    assert a.claims + [] == a.claims && a.claims + [claim] + [] == a.claims + [claim];
    if a.claims != [] {
      JoinLast(a.claims, "\n\n", claim);
      JoinLast(a.claims, "\n\n", a.limitation);
    }
  }

  /** `append_pair`: the counter moves by two and the pair takes the two newest positions;
      `None` is the conversation_full error. */
  function AppendPair(c: Conversation, turn: Id, question: string, answer: Answer): Option<Conversation> {
    if c.messageCount <= MAX_MESSAGES - 2 then
      var count := c.messageCount + 2;
      Some(c.(messageCount := count,
              messages := c.messages[count - 1 := Message(turn, User, question, None)]
                                    [count := Message(turn, Assistant, Rendered(answer), Some(answer))]))
    else None
  }

  /** Positions are exactly 1..messageCount, an even number of at most 200; each odd position
      is a question and the next one its answer. */
  ghost predicate Shape(c: Conversation) {
    && c.messageCount % 2 == 0
    && c.messageCount <= MAX_MESSAGES
    && (forall p: nat :: p in c.messages <==> 1 <= p <= c.messageCount)
    && (forall p | p in c.messages && p % 2 == 1 :: Question(c, p))
  }

  ghost predicate Question(c: Conversation, p: nat) {
    && p in c.messages && p + 1 in c.messages
    && c.messages[p].role == User && c.messages[p].answer.None?
    && c.messages[p + 1].role == Assistant && c.messages[p + 1].answer.Some?
    && c.messages[p + 1].content == Rendered(c.messages[p + 1].answer.value)
    && c.messages[p].turn == c.messages[p + 1].turn
  }

  /** The saved pair of a turn: question at `p`, its answer right after. */
  ghost predicate PairAt(c: Conversation, p: nat, turn: Id, question: string, answer: Answer) {
    && p % 2 == 1 && Question(c, p)
    && c.messages[p].turn == turn
    && c.messages[p].content == question
    && c.messages[p + 1].answer == Some(answer)
  }

  ghost function Positions(c: Conversation, turn: Id): set<nat> {
    set p | p in c.messages && c.messages[p].turn == turn
  }

  /** Appending keeps the shape, adds exactly the new pair after everything already saved and
      leaves each earlier message where it was; it is refused exactly when the pair would not
      fit below the limit. */
  lemma AppendKeepsShape(c: Conversation, turn: Id, question: string, answer: Answer)
    requires Shape(c)
    ensures AppendPair(c, turn, question, answer).None? <==> c.messageCount == MAX_MESSAGES
    ensures AppendPair(c, turn, question, answer).Some? ==>
              var d := AppendPair(c, turn, question, answer).value;
              && Shape(d)
              && PairAt(d, c.messageCount + 1, turn, question, answer)
              && (forall p | p in c.messages :: p in d.messages && d.messages[p] == c.messages[p])
              && (forall p | p in d.messages && p !in c.messages :: d.messages[p].turn == turn)
              && (forall p, t, q, a :: PairAt(c, p, t, q, a) ==> PairAt(d, p, t, q, a))
  {
    if c.messageCount <= MAX_MESSAGES - 2 {
      var d := AppendPair(c, turn, question, answer).value;
      forall p | p in d.messages && p % 2 == 1 ensures Question(d, p) {
        if p <= c.messageCount { assert Question(c, p); }
      }
    }
  }

  // ---- Paging

  function Min(a: nat, b: nat): nat { if a < b then a else b }

  function Reverse<T>(s: seq<T>): (r: seq<T>)
    ensures |r| == |s| && forall i | 0 <= i < |s| :: r[i] == s[|s| - 1 - i]
  {
    seq(|s|, i requires 0 <= i < |s| => s[|s| - 1 - i])
  }

  /** The positions below `bound` that hold a message, newest first. */
  function Descending(m: map<nat, Message>, bound: nat): seq<nat> {
    if bound == 0 then []
    else if bound - 1 in m then [bound - 1] + Descending(m, bound - 1)
    else Descending(m, bound - 1)
  }

  lemma {:induction false} DescendingBelow(m: map<nat, Message>, bound: nat, i: nat)
    requires i < |Descending(m, bound)|
    ensures Descending(m, bound)[i] in m && Descending(m, bound)[i] < bound
    ensures Descending(m, Descending(m, bound)[i]) == Descending(m, bound)[i + 1..]
  {
    var d, tail := Descending(m, bound), Descending(m, bound - 1);
    if bound - 1 !in m {
      DescendingBelow(m, bound - 1, i);
    } else if i == 0 {
      assert d[1..] == tail;
    } else {
      DescendingBelow(m, bound - 1, i - 1);
      assert d[i] == tail[i - 1] && d[i + 1..] == tail[i..];
    }
  }

  lemma {:induction false} DescendingHolds(m: map<nat, Message>, bound: nat, p: nat)
    requires p in m && p < bound
    ensures p in Descending(m, bound)
  {
    if p != bound - 1 { DescendingHolds(m, bound - 1, p); }
  }

  /** One page as `messages` computes it: at most 21 rows are fetched newest first, the newest
      20 are shown oldest first, and a 21st row only signals that an older page exists. */
  function Page(m: map<nat, Message>, before: nat): (seq<nat>, Option<nat>) {
    var fetched := Descending(m, before);
    var rows := fetched[..Min(PAGE_SIZE + 1, |fetched|)];
    var page := Reverse(rows[..Min(PAGE_SIZE, |rows|)]);
    (page, if |rows| > PAGE_SIZE then Some(page[0]) else None)
  }

  /** Reading a transcript back: follow `next_before` until there is none, placing each older
      page in front. */
  function ReadBack(m: map<nat, Message>, before: nat): seq<nat> {
    var (page, next) := Page(m, before);
    (if next.Some? then NextIsOlder(m, before); ReadBack(m, next.value) else []) + page
  }

  lemma NextIsOlder(m: map<nat, Message>, before: nat)
    ensures Page(m, before).1.Some? ==>
              |Descending(m, before)| > PAGE_SIZE && Page(m, before).1.value < before
              && Page(m, before).1.value == Descending(m, before)[PAGE_SIZE - 1]
  {
    if |Descending(m, before)| > PAGE_SIZE { DescendingBelow(m, before, PAGE_SIZE - 1); }
  }

  lemma {:induction false} ReadBackIsReverse(m: map<nat, Message>, before: nat)
    ensures ReadBack(m, before) == Reverse(Descending(m, before))
  {
    var d := Descending(m, before);
    var (page, next) := Page(m, before);
    if next.Some? {
      NextIsOlder(m, before);
      DescendingBelow(m, before, PAGE_SIZE - 1);
      ReadBackIsReverse(m, next.value);
      assert page == Reverse(d[..PAGE_SIZE]);
      assert Reverse(d) == Reverse(d[PAGE_SIZE..]) + Reverse(d[..PAGE_SIZE]);
    } else {
      assert page == Reverse(d);
    }
  }

  /** A page is full, with twenty messages, unless fewer are left; and it names the oldest of them as
      the next starting point exactly if there are older ones. */
  lemma PageIsFull(m: map<nat, Message>, before: nat)
    ensures var (page, next) := Page(m, before);
            && |page| == Min(20, |Descending(m, before)|) && (next.Some? <==> |Descending(m, before)| > 20)
            && (next.Some? ==> next.value == page[0])
  {
  }

  /** Following `next_before` visits every message below the starting point exactly once, in
      transcript order, however long the transcript is. */
  lemma {:induction false} ReadBackVisitsAllOnce(m: map<nat, Message>, before: nat)
    ensures forall i, j | 0 <= i < j < |ReadBack(m, before)| :: ReadBack(m, before)[i] < ReadBack(m, before)[j]
    ensures forall p: nat :: p in ReadBack(m, before) <==> p in m && p < before
  {
    ReadBackIsReverse(m, before);
    var d, r := Descending(m, before), ReadBack(m, before);
    forall i, j | 0 <= i < j < |r| ensures r[i] < r[j] {
      var k, l := |d| - 1 - j, |d| - 1 - i;
      DescendingBelow(m, before, k);
      assert d[l] == d[k + 1..][l - k - 1];
      DescendingBelow(m, d[k], l - k - 1);
    }
    forall p: nat ensures p in r <==> p in m && p < before {
      if p in m && p < before {
        DescendingHolds(m, before, p);
        var i :| 0 <= i < |d| && d[i] == p;
        assert r[|d| - 1 - i] == p;
      } else if p in r {
        var i :| 0 <= i < |r| && r[i] == p;
        DescendingBelow(m, before, |d| - 1 - i);
      }
    }
  }
}
