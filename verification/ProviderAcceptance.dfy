/** Exactly which provider streams are accepted, in terms of the events and of the fields of the
    completed response. */
module ProviderAcceptance {
  import opened Options
  import opened ProviderStream
  import opened ProviderStreamResults
  import opened ProviderUsage
  import opened SourceLines

  /** The response is complete, of the model asked for, and has consistent usage within the cap. */
  ghost predicate Sound(r: Response, model: string, cap: nat, input: nat, output: nat) {
    && r.Response? && r.status == Some("completed") && r.model == Some(model) && r.output.Some?
    && r.usage == Some(Usage(input, output, input + output)) && output <= cap
  }

  /** Among its items there is one message, of the assistant and completed, with one content. */
  ghost predicate OneMessage(items: seq<Item>, c: Content) {
    exists k :: 0 <= k < |items| && OnlyMessage(items, k, c)
  }

  ghost predicate OnlyMessage(items: seq<Item>, k: nat, c: Content)
    requires k < |items|
  {
    && items[k].kind == "message" && items[k].role == Some("assistant") && items[k].status == Some("completed") && items[k].content == [c]
    && forall j | 0 <= j < |items| && j != k :: items[j].kind != "message"
  }

  /** The deltas are there, all of one output, and that output's completed text is the deltas joined. */
  ghost predicate Streamed(before: seq<Value>, items: seq<Item>) {
    exists id: Identity ::
      && (exists v :: v in before && v.Delta?) && (forall v | v in before && v.Delta? :: v.identity == id)
      && id.output < |items| && items[id.output].id == Some(id.item)
      && id.content < |items[id.output].content| && items[id.output].content[id.content].text == Some(Concat(DeltasOf(before)))
  }

  lemma {:induction false} OneOfMessages(items: seq<Item>)
    ensures forall m | m in Messages(items) :: m.kind == "message" && m in items
    ensures Messages(items) == [] <==> forall j | 0 <= j < |items| :: items[j].kind != "message"
  {
    if items != [] {
      OneOfMessages(items[1..]);
      assert items == [items[0]] + items[1..];
    }
  }

  /** One message is found exactly if one item is a message. */
  lemma {:induction false} MessageIsFound(items: seq<Item>, m: Item)
    ensures Messages(items) == [m] <==>
              exists k :: 0 <= k < |items| && items[k] == m && m.kind == "message" && forall j | 0 <= j < |items| && j != k :: items[j].kind != "message"
  {
    if items != [] {
      var rest := items[1..];
      OneOfMessages(rest);
      if items[0].kind == "message" {
        assert Messages(items) == [items[0]] + Messages(rest);
        if Messages(items) == [m] {
          assert Messages(rest) == [] by { assert |[items[0]] + Messages(rest)| == 1; }
          assert items[0] == ([items[0]] + Messages(rest))[0] == m;
          forall j | 0 <= j < |items| && j != 0 ensures items[j].kind != "message" { assert rest[j - 1] == items[j]; }
        }
        if k :| 0 <= k < |items| && items[k] == m && m.kind == "message" && forall j | 0 <= j < |items| && j != k :: items[j].kind != "message" {
          assert k == 0;
          forall j | 0 <= j < |rest| ensures rest[j].kind != "message" { assert rest[j] == items[j + 1]; }
        }
      } else {
        MessageIsFound(rest, m);
        if k :| 0 <= k < |rest| && rest[k] == m && m.kind == "message" && forall j | 0 <= j < |rest| && j != k :: rest[j].kind != "message" {
          assert items[k + 1] == m;
          forall j | 0 <= j < |items| && j != k + 1 ensures items[j].kind != "message" { if j > 0 { assert items[j] == rest[j - 1]; } }
        }
        if k :| 0 <= k < |items| && items[k] == m && m.kind == "message" && forall j | 0 <= j < |items| && j != k :: items[j].kind != "message" {
          assert rest[k - 1] == m;
          forall j | 0 <= j < |rest| && j != k - 1 ensures rest[j].kind != "message" { assert rest[j] == items[j + 1]; }
        }
      }
    }
  }

  lemma MessageHolds(items: seq<Item>, c: Content)
    ensures OneMessage(items, c) <==>
              && |Messages(items)| == 1 && Messages(items)[0].role == Some("assistant") && Messages(items)[0].status == Some("completed")
              && Messages(items)[0].content == [c]
  {
    OneOfMessages(items);
    if |Messages(items)| == 1 {
      var m := Messages(items)[0];
      assert Messages(items) == [m];
      MessageIsFound(items, m);
      if m.role == Some("assistant") && m.status == Some("completed") && m.content == [c] {
        var k :| 0 <= k < |items| && items[k] == m && m.kind == "message" && forall j | 0 <= j < |items| && j != k :: items[j].kind != "message";
        assert OnlyMessage(items, k, c);
      }
    }
    if k :| 0 <= k < |items| && OnlyMessage(items, k, c) {
      MessageIsFound(items, items[k]);
    }
  }

  /** An answer with the draft d. */
  ghost predicate Answers(draft: string -> Option<Draft>, items: seq<Item>, d: Draft) {
    exists c :: OneMessage(items, c) && c.kind == "output_text" && draft(c.text.GetOr("")) == Some(d)
  }

  ghost predicate Refuses(items: seq<Item>) {
    exists c :: OneMessage(items, c) && c.kind == "refusal"
  }

  lemma CheckIsExact(draft: string -> Option<Draft>, r: Response, model: string, cap: nat, d: Draft, input: nat, output: nat)
    ensures CheckResponse(draft, r, model, cap) == Return(Generated(Some(d), input, output))
            <==> Sound(r, model, cap, input, output) && Answers(draft, r.output.value, d)
    ensures CheckResponse(draft, r, model, cap) == Return(Generated(None, input, output))
            <==> Sound(r, model, cap, input, output) && Refuses(r.output.value)
  {
    if Sound(r, model, cap, input, output) {
      var messages := Messages(r.output.value);
      if |messages| == 1 && |messages[0].content| == 1 {
        assert messages[0].content == [messages[0].content[0]];
        MessageHolds(r.output.value, messages[0].content[0]);
      }
      forall c | OneMessage(r.output.value, c) ensures |messages| == 1 && messages[0].content == [c] { MessageHolds(r.output.value, c); }
      hide OneMessage, Messages;
      assert "refusal" != "output_text" by { assert |"refusal"| != |"output_text"|; }
    }
  }

  lemma ValidateIsExact(draft: string -> Option<Draft>, r: Response, model: string, cap: nat, g: Generated)
    ensures Validate(draft, r, model, cap) == Return(g) <==> CheckResponse(draft, r, model, cap) == Return(g)
  {
    hide CheckResponse, Credible;
  }

  lemma MatchesIsStreamed(p: Progress, before: seq<Value>, r: Response)
    requires Follows(p, before) && Latest(p, before) && r.Response? && r.output.Some?
    ensures Matches(p, r) <==> Streamed(before, r.output.value)
  {
    hide Orderly, DeltasOf, Concat, Bytes;
  }

  /** The exact condition for an answer: behind an acceptable beginning of fewer than 12000 events, a
      completion in sequence returns the draft d with these tokens if and only if the response is sound,
      its only message has one text that reads as d, and the text streamed before is the completed text
      of the output it was streamed for. */
  lemma AcceptanceIsExact(draft: string -> Option<Draft>, before: seq<Value>, s: nat, r: Response, after: seq<Value>, stop: Stop, model: string,
                          cap: nat, d: Draft, input: nat, output: nat)
    requires Acceptable(before) && |before| < 12000 && forall w | w in before && Streaming(w) :: w.sequence < s
    ensures Consumed(draft, Fresh, before + ([Completed(s, r)] + after), stop, model, cap).0 == Return(Generated(Some(d), input, output))
            <==> Sound(r, model, cap, input, output) && Answers(draft, r.output.value, d) && Streamed(before, r.output.value)
  {
    var p := Ends(draft, before, s, r, after, stop, model, cap);
    CheckIsExact(draft, r, model, cap, d, input, output);
    ValidateIsExact(draft, r, model, cap, Generated(Some(d), input, output));
    hide Consumed, Follows, Latest, Validate, CheckResponse, Acceptable, Matches, Streamed, Answers;
    if Sound(r, model, cap, input, output) { MatchesIsStreamed(p, before, r); }
  }

  /** And for a refusal: the response is sound and its only message has one refusal; what was streamed
      does not matter. */
  lemma RefusalIsExact(draft: string -> Option<Draft>, before: seq<Value>, s: nat, r: Response, after: seq<Value>, stop: Stop, model: string,
                       cap: nat, input: nat, output: nat)
    requires Acceptable(before) && |before| < 12000 && forall w | w in before && Streaming(w) :: w.sequence < s
    ensures Consumed(draft, Fresh, before + ([Completed(s, r)] + after), stop, model, cap).0 == Return(Generated(None, input, output))
            <==> Sound(r, model, cap, input, output) && Refuses(r.output.value)
  {
    var p := Ends(draft, before, s, r, after, stop, model, cap);
    CheckIsExact(draft, r, model, cap, 0, input, output);
    ValidateIsExact(draft, r, model, cap, Generated(None, input, output));
    hide Consumed, Follows, Latest, Validate, CheckResponse, Acceptable, Matches, Refuses;
  }

  lemma Ends(draft: string -> Option<Draft>, before: seq<Value>, s: nat, r: Response, after: seq<Value>, stop: Stop, model: string, cap: nat)
    returns (p: Progress)
    requires Acceptable(before) && |before| < 12000 && forall w | w in before && Streaming(w) :: w.sequence < s
    ensures Follows(p, before) && Latest(p, before)
    ensures Consumed(draft, Fresh, before + ([Completed(s, r)] + after), stop, model, cap).0 == Complete(draft, p, r, model, cap)
  {
    var v := Completed(s, r);
    FreshFollows();
    assert [] + before == before && Latest(Fresh, []);
    hide Follows, Latest, Acceptable, Consumed, Complete;
    p := AcceptableIsTaken(draft, Fresh, [], before, [v] + after, stop, model, cap);
    InSequence(p, before, v);
    assert Take(draft, p, v, model, cap) == End(Complete(draft, p, r, model, cap));
    EndsThere(draft, p, v, after, stop, model, cap);
  }

  // ---- What is refused, and why

  /** Usage is trusted exactly if it is that of the model asked for, adds up, and keeps to the cap. */
  lemma CredibleIsExact(r: Response, model: string, cap: nat, u: Usage)
    ensures Credible(r, model, cap) == Some(u)
            <==> r.Response? && r.model == Some(model) && r.usage == Some(u) && u.total == u.input + u.output && u.output <= cap
  {
  }

  /** A completion in sequence that is not accepted: the answer is incomplete if the response has all
      its fields and says so, and otherwise invalid; either way the tokens are charged if they can be
      trusted. */
  lemma RejectionIsExact(draft: string -> Option<Draft>, before: seq<Value>, s: nat, r: Response, after: seq<Value>, stop: Stop, model: string, cap: nat)
    requires Acceptable(before) && |before| < 12000 && forall w | w in before && Streaming(w) :: w.sequence < s
    ensures var result := Consumed(draft, Fresh, before + ([Completed(s, r)] + after), stop, model, cap).0;
            var whole := r.Response? && r.status.Some? && r.model.Some? && r.output.Some? && r.usage.Some?;
            var cause := if whole && r.status != Some("completed") then Incomplete else Invalid;
            result.Raise? ==>
              result.error == match Credible(r, model, cap) case Some(u) => Charged(cause, u.input, u.output) case None => cause
  {
    var p := Ends(draft, before, s, r, after, stop, model, cap);
    hide Consumed, Follows, Latest, Acceptable;
    CauseIsExact(draft, p, r, model, cap);
  }

  lemma CauseIsExact(draft: string -> Option<Draft>, p: Progress, r: Response, model: string, cap: nat)
    ensures var whole := r.Response? && r.status.Some? && r.model.Some? && r.output.Some? && r.usage.Some?;
            var cause := if whole && r.status != Some("completed") then Incomplete else Invalid;
            Complete(draft, p, r, model, cap).Raise? ==>
              Complete(draft, p, r, model, cap).error == match Credible(r, model, cap) case Some(u) => Charged(cause, u.input, u.output) case None => cause
  {
    if Validate(draft, r, model, cap).Return? { AcceptedIsCredible(draft, r, model, cap); }
    hide Matches, Messages;
  }

  /** A stream that only begins acceptably: everything streamed so far has been handed on, and the
      answer is incomplete at the end of the stream and invalid at a broken budget or payload. */
  lemma UnfinishedIsRefused(draft: string -> Option<Draft>, before: seq<Value>, stop: Stop, model: string, cap: nat)
    requires Acceptable(before)
    ensures var (r, p) := Consumed(draft, Fresh, before, stop, model, cap);
            p.deltas == DeltasOf(before) && r == Raise(if stop == EndOfStream then Incomplete else Invalid)
  {
    FreshFollows();
    assert [] + before == before && before + [] == before && Latest(Fresh, []);
    hide Latest, Acceptable, Orderly;
    var p := AcceptableIsTaken(draft, Fresh, [], before, [], stop, model, cap);
  }

  // ---- Two texts

  /** A message that reads A, and a summary B. */
  const Mixed: seq<Item> := [Item(Some("m"), "message", Some("assistant"), Some("completed"), [Content("output_text", Some("A"))]),
                             Item(Some("r"), "reasoning", None, None, [Content("summary", Some("B"))])]

  lemma MixedAnswers(draft: string -> Option<Draft>, d: Draft)
    requires draft("A") == Some(d)
    ensures Answers(draft, Mixed, d)
  {
    var c := Content("output_text", Some("A"));
    assert |"reasoning"| != |"message"|;
    assert OnlyMessage(Mixed, 0, c);
    assert OneMessage(Mixed, c);
  }

  lemma MixedStreams(v: Value)
    requires v == Delta(0, Identity("r", 1, 0), "B")
    ensures Acceptable([v]) && Concat(DeltasOf([v])) == "B" && Streamed([v], Mixed)
  {
    assert "B"[..0] == "" && Bytes("B", 0, 1) == 1;
    OneDelta(v);
    var id := v.identity;
    hide DeltasOf, Concat, Acceptable, Bytes;
    assert v in [v] && id.output < |Mixed| && Mixed[id.output].content[id.content].text == Some("B");
  }

  /** The two parts of the condition are independent: the text streamed is compared with the output
      it was streamed for, which need not be the message that is read as the answer. */
  lemma StreamedTextMayNotBeTheAnswer(draft: string -> Option<Draft>, d: Draft, stop: Stop, model: string, cap: nat)
    requires draft("A") == Some(d) && cap >= 1
    ensures var v, r := Delta(0, Identity("r", 1, 0), "B"), Response(Some("completed"), Some(model), Some(Mixed), Some(Usage(1, 1, 2)));
            Concat(DeltasOf([v])) == "B" && Consumed(draft, Fresh, [v, Completed(1, r)], stop, model, cap).0 == Return(Generated(Some(d), 1, 1))
  {
    var v, r := Delta(0, Identity("r", 1, 0), "B"), Response(Some("completed"), Some(model), Some(Mixed), Some(Usage(1, 1, 2)));
    MixedAnswers(draft, d);
    MixedStreams(v);
    hide Consumed, Acceptable, Answers, Streamed, DeltasOf, Concat, Mixed;
    AcceptanceIsExact(draft, [v], 1, r, [], stop, model, cap, d, 1, 1);
    assert [v] + ([Completed(1, r)] + []) == [v, Completed(1, r)];
  }

  lemma OneDelta(v: Value)
    requires v.Delta? && Bytes(v.delta, 0, |v.delta|) <= MAX_TEXT
    ensures Acceptable([v]) && Concat(DeltasOf([v])) == v.delta
  {
    assert [v][..0] == [] && DeltasOf([v]) == [v.delta] && [v.delta][..0] == [];
    assert "" + v.delta == v.delta;
  }
}
