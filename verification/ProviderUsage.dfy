/** When the tokens of a provider call are accounted for: over whole streams, which usage reports
    survive and which are lost. */
module ProviderUsage {
  import opened Options
  import opened SourceLines
  import opened ProviderStream
  import opened ProviderStreamResults

  /** The credible usage that an event brings along. */
  function Carried(v: Value, model: string, cap: nat): Option<Usage> {
    match v
    case Completed(_, r) => Credible(r, model, cap)
    case Trouble(Some(r)) => Credible(r, model, cap)
    case BadEnvelope(Some(r)) => Credible(r, model, cap)
    case _ => None
  }

  /** A beginning of a stream that gives no reason to stop: orderly, not too long, and not too much
      text. */
  ghost predicate Acceptable(values: seq<Value>) {
    var text := Concat(DeltasOf(values));
    Orderly(values) && |values| <= MAX_EVENTS && Bytes(text, 0, |text|) <= MAX_TEXT
  }

  /** The last sequence number, and an identity only from a delta. */
  ghost predicate Latest(p: Progress, seen: seq<Value>) {
    && (if seen == [] then p.sequence == -1 else Streaming(seen[|seen| - 1]) && p.sequence == seen[|seen| - 1].sequence)
    && (p.identity.Some? ==> exists v :: v in seen && v.Delta?)
  }

  lemma {:induction false} TextGrows(seen: seq<Value>, more: seq<Value>) returns (tail: string)
    ensures Concat(DeltasOf(seen + more)) == Concat(DeltasOf(seen)) + tail
    decreases |more|
  {
    if more == [] {
      assert seen + more == seen;
      tail := "";
    } else {
      var front, v := more[..|more| - 1], more[|more| - 1];
      assert seen + more == seen + front + [v];
      tail := TextGrows(seen, front);
      DeltasOne(seen + front, v);
      hide DeltasOf, Concat;
      if v.Delta? {
        ConcatOne(DeltasOf(seen + front), v.delta);
        assert Concat(DeltasOf(seen)) + tail + v.delta == Concat(DeltasOf(seen)) + (tail + v.delta);
        tail := tail + v.delta;
      } else {
        assert DeltasOf(seen + front) + [] == DeltasOf(seen + front);
      }
    }
  }

  /** A shorter beginning is acceptable too. */
  lemma AcceptableFront(seen: seq<Value>, more: seq<Value>)
    requires Acceptable(seen + more)
    ensures Acceptable(seen)
  {
    var tail := TextGrows(seen, more);
    BytesOfSum(Concat(DeltasOf(seen)), tail, |tail|);
    OrderlyFront(seen, more);
    hide Orderly, DeltasOf, Concat, Bytes;
  }

  lemma OrderlyFront(seen: seq<Value>, more: seq<Value>)
    requires Orderly(seen + more)
    ensures Orderly(seen)
  {
    var all := seen + more;
    forall v | v in seen ensures v in all {}
    forall i, j | 0 <= i < j < |seen| ensures seen[i] == all[i] && seen[j] == all[j] {}
  }

  /** The next event of an acceptable beginning is in sequence and of the same output. */
  lemma NextInOrder(p: Progress, seen: seq<Value>, v: Value)
    requires Ordered(p, seen) && Latest(p, seen) && Orderly(seen + [v])
    ensures Streaming(v) && p.sequence < v.sequence && (v.Delta? && p.identity.Some? ==> p.identity.value == v.identity)
  {
    var all := seen + [v];
    assert all[|seen|] == v && v in all;
    if seen != [] { assert all[|seen| - 1] == seen[|seen| - 1]; }
    if v.Delta? && p.identity.Some? {
      var w :| w in seen && w.Delta?;
      assert w in all;
    }
  }

  /** The next event of an acceptable beginning is taken. */
  lemma TakesNext(draft: string -> Option<Draft>, p: Progress, seen: seq<Value>, v: Value, model: string, cap: nat)
    requires Follows(p, seen) && Latest(p, seen) && Acceptable(seen + [v])
    ensures Take(draft, p, v, model, cap).On? && Latest(Take(draft, p, v, model, cap).p, seen + [v])
  {
    NextInOrder(p, seen, v);
    if v.Delta? { TextOfNext(p, seen, v); }
    hide Orderly, DeltasOf, Concat, Bytes, Complete, Validate;
    NextIsLatest(p, Take(draft, p, v, model, cap).p, seen, v);
  }

  lemma NextIsLatest(p: Progress, q: Progress, seen: seq<Value>, v: Value)
    requires Latest(p, seen) && Streaming(v) && q.sequence == v.sequence && (v.Delta? || q.identity == p.identity)
    ensures Latest(q, seen + [v])
  {
    var all := seen + [v];
    assert all[|seen|] == v && v in all;
    if q.identity.Some? && !v.Delta? {
      var w :| w in seen && w.Delta?;
      assert w in all;
    }
  }

  lemma TextOfNext(p: Progress, seen: seq<Value>, v: Value)
    requires Follows(p, seen) && Acceptable(seen + [v]) && v.Delta?
    ensures Bytes(p.accumulated + v.delta, 0, |p.accumulated + v.delta|) <= MAX_TEXT
  {
    DeltasOne(seen, v);
    hide DeltasOf, Concat, Bytes, Orderly;
    ConcatOne(DeltasOf(seen), v.delta);
  }

  lemma {:induction false} AcceptableIsTaken(draft: string -> Option<Draft>, p: Progress, seen: seq<Value>, before: seq<Value>, rest: seq<Value>,
                                             stop: Stop, model: string, cap: nat)
    returns (q: Progress)
    requires Follows(p, seen) && Latest(p, seen) && Acceptable(seen + before)
    ensures Follows(q, seen + before) && Latest(q, seen + before)
    ensures Consumed(draft, p, before + rest, stop, model, cap) == Consumed(draft, q, rest, stop, model, cap)
    decreases |before|
  {
    hide Follows, Latest, Acceptable, Take;
    if before == [] {
      assert seen + before == seen && before + rest == rest;
      q := p;
    } else {
      var v, tail := before[0], before[1..];
      assert seen + before == seen + [v] + tail;
      AcceptableFront(seen + [v], tail);
      TakesNext(draft, p, seen, v, model, cap);
      TakeFollows(draft, p, seen, v, model, cap);
      assert (before + rest)[1..] == tail + rest;
      q := AcceptableIsTaken(draft, Take(draft, p, v, model, cap).p, seen + [v], tail, rest, stop, model, cap);
    }
  }

  /** The reader takes every one of the events and goes on. */
  predicate Taken(draft: string -> Option<Draft>, p: Progress, values: seq<Value>, model: string, cap: nat)
    decreases |values|
  {
    values == [] || (Take(draft, p, values[0], model, cap).On? && Taken(draft, Take(draft, p, values[0], model, cap).p, values[1..], model, cap))
  }

  lemma {:induction false} TakenFrom(draft: string -> Option<Draft>, p: Progress, seen: seq<Value>, values: seq<Value>, model: string, cap: nat)
    requires Follows(p, seen) && Latest(p, seen) && Acceptable(seen)
    ensures Taken(draft, p, values, model, cap) <==> Acceptable(seen + values)
    decreases |values|
  {
    hide Follows, Latest, Acceptable, Take;
    if values == [] {
      assert seen + values == seen;
    } else {
      var v, tail := values[0], values[1..];
      assert seen + values == seen + [v] + tail;
      if Acceptable(seen + values) { AcceptableFront(seen + [v], tail); }
      if Acceptable(seen + [v]) {
        TakesNext(draft, p, seen, v, model, cap);
        TakeFollows(draft, p, seen, v, model, cap);
        TakenFrom(draft, Take(draft, p, v, model, cap).p, seen + [v], tail, model, cap);
      } else if Take(draft, p, v, model, cap).On? {
        TakeFollows(draft, p, seen, v, model, cap);
        FollowsIsAcceptable(draft, p, seen, v, model, cap);
      }
    }
  }

  lemma FollowsIsAcceptable(draft: string -> Option<Draft>, p: Progress, seen: seq<Value>, v: Value, model: string, cap: nat)
    requires Follows(p, seen) && Take(draft, p, v, model, cap).On? && Follows(Take(draft, p, v, model, cap).p, seen + [v])
    ensures Acceptable(seen + [v])
  {
    hide Orderly, DeltasOf, Concat, Bytes, Validate, Complete;
  }

  /** The acceptable beginnings are exactly those that the reader takes without stopping. */
  lemma AcceptableIsExact(draft: string -> Option<Draft>, values: seq<Value>, model: string, cap: nat)
    ensures Taken(draft, Fresh, values, model, cap) <==> Acceptable(values)
  {
    FreshFollows();
    assert Latest(Fresh, []) && Acceptable([]) && [] + values == values;
    TakenFrom(draft, Fresh, [], values, model, cap);
  }

  /** The event is one that the stream's reader looks at, in its place. */
  ghost predicate Timely(before: seq<Value>, v: Value) {
    |before| < MAX_EVENTS && (v.Completed? ==> forall w | w in before && Streaming(w) :: w.sequence < v.sequence)
  }

  lemma EndsThere(draft: string -> Option<Draft>, p: Progress, v: Value, after: seq<Value>, stop: Stop, model: string, cap: nat)
    requires Take(draft, p, v, model, cap).End?
    ensures Consumed(draft, p, [v] + after, stop, model, cap).0 == Take(draft, p, v, model, cap).result
  {
    assert ([v] + after)[0] == v;
    hide Take;
  }

  /** The exact condition: when a stream ends with an event that carries credible usage, its result
      reports that usage if and only if the event is among the first 12000 and either a completion
      in sequence or an error event whose attached response is not itself a valid answer. */
  lemma UsageIsReported(draft: string -> Option<Draft>, before: seq<Value>, v: Value, after: seq<Value>, stop: Stop, model: string, cap: nat)
    requires Acceptable(before) && Carried(v, model, cap).Some?
    ensures var result, u := Consumed(draft, Fresh, before + ([v] + after), stop, model, cap).0, Carried(v, model, cap).value;
            Reported(result) == Some((u.input, u.output))
            <==> Timely(before, v) && (v.Completed? || (v.Trouble? && Validate(draft, v.attached.value, model, cap).Raise?))
  {
    FreshFollows();
    assert [] + before == before;
    assert Latest(Fresh, []);
    hide Follows, Latest, Acceptable, Take, Reported, Validate, Orderly, Consumed;
    var p := AcceptableIsTaken(draft, Fresh, [], before, [v] + after, stop, model, cap);
    InSequence(p, before, v);
    EndReports(draft, p, v, model, cap);
    EndsThere(draft, p, v, after, stop, model, cap);
  }

  lemma InSequence(p: Progress, before: seq<Value>, v: Value)
    requires Follows(p, before) && Latest(p, before)
    ensures p.count == |before|
    ensures v.Completed? ==> (p.sequence < v.sequence <==> forall w | w in before && Streaming(w) :: w.sequence < v.sequence)
  {
    hide Orderly, DeltasOf, Concat, Bytes;
    if before != [] { assert before[|before| - 1] in before; }
  }

  /** What an event with credible usage makes of it. */
  lemma EndReports(draft: string -> Option<Draft>, p: Progress, v: Value, model: string, cap: nat)
    requires Carried(v, model, cap).Some?
    ensures var t, u := Take(draft, p, v, model, cap), Carried(v, model, cap).value;
            && t.End?
            && (Reported(t.result) == Some((u.input, u.output))
                <==> p.count < MAX_EVENTS && ((v.Completed? && p.sequence < v.sequence)
                                              || (v.Trouble? && Validate(draft, v.attached.value, model, cap).Raise?)))
  {
    var r := if v.Completed? then v.response else v.attached.value;
    UsageSurvives(draft, r, model, cap);
    hide Validate, Credible, Matches;
  }

  // ---- Two ways to lose it

  /** A refusal that would be accepted: one token in, one out. */
  function Refusal(model: string): Response {
    Response(Some("completed"), Some(model),
             Some([Item(None, "message", Some("assistant"), Some("completed"), [Content("refusal", None)])]), Some(Usage(1, 1, 2)))
  }

  lemma RefusalIsValid(draft: string -> Option<Draft>, model: string, cap: nat)
    requires cap >= 1
    ensures Validate(draft, Refusal(model), model, cap) == Return(Generated(None, 1, 1))
    ensures Credible(Refusal(model), model, cap) == Some(Usage(1, 1, 2))
  {
    var item := Refusal(model).output.value[0];
    assert Messages([item]) == [item] by { assert [item][1..] == []; }
  }

  /** A completion event out of order loses the usage it carries. */
  lemma OutOfOrderLosesUsage(draft: string -> Option<Draft>, stop: Stop, model: string, cap: nat)
    requires cap >= 1
    ensures Carried(Completed(5, Refusal(model)), model, cap).Some?
    ensures Consumed(draft, Fresh, [Metadata(5), Completed(5, Refusal(model))], stop, model, cap).0 == Raise(Invalid)
  {
    RefusalIsValid(draft, model, cap);
    assert [Metadata(5), Completed(5, Refusal(model))][1..] == [Completed(5, Refusal(model))];
    hide Refusal, Validate, Credible;
  }

  /** An error event loses the usage of a response that is itself valid. */
  lemma ErrorWithValidResponseLosesUsage(draft: string -> Option<Draft>, stop: Stop, model: string, cap: nat)
    requires cap >= 1
    ensures Carried(Trouble(Some(Refusal(model))), model, cap).Some?
    ensures Consumed(draft, Fresh, [Trouble(Some(Refusal(model)))], stop, model, cap).0 == Raise(Incomplete)
  {
    RefusalIsValid(draft, model, cap);
    hide Refusal, Validate, Credible;
  }
}
