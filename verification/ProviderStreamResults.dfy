/** What an accepted provider stream guarantees, and that a truncated one is never accepted. */
module ProviderStreamResults {
  import opened Options
  import opened SourceLines
  import opened ProviderStream

  // ---- Acceptance

  function DeltasOf(values: seq<Value>): seq<string> {
    if values == [] then []
    else DeltasOf(values[..|values| - 1]) + (if values[|values| - 1].Delta? then [values[|values| - 1].delta] else [])
  }

  function Concat(texts: seq<string>): string {
    if texts == [] then "" else Concat(texts[..|texts| - 1]) + texts[|texts| - 1]
  }

  predicate Streaming(v: Value) { v.Delta? || v.Metadata? }

  /** A stretch of the stream that is still being accepted: text deltas and metadata only, in
      strictly increasing order, all text for one output. */
  ghost predicate Orderly(values: seq<Value>) {
    && (forall v | v in values :: Streaming(v))
    && (forall i, j | 0 <= i < j < |values| && Streaming(values[i]) && Streaming(values[j]) :: values[i].sequence < values[j].sequence)
    && (forall v, w | v in values && w in values && v.Delta? && w.Delta? :: v.identity == w.identity)
  }

  /** The position after `seen`. */
  ghost predicate Ordered(p: Progress, seen: seq<Value>) {
    && p.count == |seen| && Orderly(seen)
    && (forall v | v in seen && Streaming(v) :: v.sequence <= p.sequence)
    && (forall v | v in seen && v.Delta? :: p.identity == Some(v.identity))
  }

  /** What the sink was given is exactly the text of the deltas. */
  ghost predicate Sunk(p: Progress, seen: seq<Value>) {
    p.deltas == DeltasOf(seen) && p.accumulated == Concat(p.deltas) && Bytes(p.accumulated, 0, |p.accumulated|) <= MAX_TEXT
  }

  ghost predicate Follows(p: Progress, seen: seq<Value>) {
    Ordered(p, seen) && Sunk(p, seen)
  }

  lemma ConcatOne(texts: seq<string>, t: string)
    ensures Concat(texts + [t]) == Concat(texts) + t
  {
    assert (texts + [t])[..|texts|] == texts;
  }

  lemma DeltasOne(seen: seq<Value>, v: Value)
    ensures DeltasOf(seen + [v]) == DeltasOf(seen) + (if v.Delta? then [v.delta] else [])
  {
    assert (seen + [v])[..|seen|] == seen;
  }

  lemma TakeSinks(draft: string -> Option<Draft>, p: Progress, seen: seq<Value>, v: Value, model: string, cap: nat)
    requires Sunk(p, seen) && Take(draft, p, v, model, cap).On?
    ensures Sunk(Take(draft, p, v, model, cap).p, seen + [v])
  {
    DeltasOne(seen, v);
    hide DeltasOf, Concat, Bytes, Validate, Complete;
    if v.Delta? { ConcatOne(p.deltas, v.delta); }
  }

  lemma OrderlyOne(seen: seq<Value>, v: Value)
    requires Orderly(seen) && Streaming(v)
    requires forall w | w in seen && Streaming(w) :: w.sequence < v.sequence
    requires v.Delta? ==> forall w | w in seen && w.Delta? :: w.identity == v.identity
    ensures Orderly(seen + [v])
  {
    forall i | 0 <= i < |seen| ensures Streaming(seen[i]) ==> seen[i].sequence < v.sequence { assert seen[i] in seen; }
  }

  lemma TakeOrders(draft: string -> Option<Draft>, p: Progress, seen: seq<Value>, v: Value, model: string, cap: nat)
    requires Ordered(p, seen) && Take(draft, p, v, model, cap).On?
    ensures Ordered(Take(draft, p, v, model, cap).p, seen + [v])
  {
    hide Bytes, Validate, Complete;
    assert Streaming(v);
    OrderlyOne(seen, v);
    hide Orderly;
  }

  lemma TakeFollows(draft: string -> Option<Draft>, p: Progress, seen: seq<Value>, v: Value, model: string, cap: nat)
    requires Follows(p, seen) && Take(draft, p, v, model, cap).On?
    ensures Follows(Take(draft, p, v, model, cap).p, seen + [v])
  {
    hide Ordered, Sunk, Take;
    TakeSinks(draft, p, seen, v, model, cap);
    TakeOrders(draft, p, seen, v, model, cap);
  }

  lemma TakeEnds(draft: string -> Option<Draft>, p: Progress, v: Value, model: string, cap: nat)
    requires Take(draft, p, v, model, cap).End? && Take(draft, p, v, model, cap).result.Return?
    ensures v.Completed? && p.sequence < v.sequence && Take(draft, p, v, model, cap).result == Complete(draft, p, v.response, model, cap)
  {
    hide Validate, Complete, Bytes;
  }

  /** Whatever happens, the sink received exactly the deltas of some orderly beginning of the
      stream; and a result is returned only by a completion event right behind it. */
  lemma {:induction false} ConsumedFollows(draft: string -> Option<Draft>, p: Progress, seen: seq<Value>, values: seq<Value>,
                                           stop: Stop, model: string, cap: nat) returns (k: nat)
    requires Follows(p, seen)
    ensures k <= |values|
    ensures var (r, q) := Consumed(draft, p, values, stop, model, cap);
            && Follows(q, seen + values[..k])
            && (r.Return? ==> k < |values| && values[k].Completed? && q.sequence < values[k].sequence
                              && r == Complete(draft, q, values[k].response, model, cap))
    decreases |values|
  {
    hide Follows, Take, Complete;
    if values == [] {
      k := 0;
      assert seen + values[..0] == seen;
    } else {
      match Take(draft, p, values[0], model, cap)
      case End(r) =>
        k := 0;
        assert seen + values[..0] == seen;
        if r.Return? { TakeEnds(draft, p, values[0], model, cap); }
      case On(q) =>
        TakeFollows(draft, p, seen, values[0], model, cap);
        var n := ConsumedFollows(draft, q, seen + [values[0]], values[1..], stop, model, cap);
        k := n + 1;
        assert seen + [values[0]] + values[1..][..n] == seen + values[..k];
    }
  }

  lemma CompleteReturns(draft: string -> Option<Draft>, p: Progress, r: Response, model: string, cap: nat)
    requires Complete(draft, p, r, model, cap).Return?
    ensures var g := Complete(draft, p, r, model, cap).value;
            && Credible(r, model, cap) == Some(Usage(g.input, g.output, g.input + g.output))
            && (!g.Refused() ==> Matches(p, r))
  {
    AcceptedIsCredible(draft, r, model, cap);
    hide Matches, Validate, Credible;
  }

  lemma FollowsFacts(p: Progress, seen: seq<Value>, s: int)
    requires Follows(p, seen) && p.sequence < s
    ensures Orderly(seen) && p.deltas == DeltasOf(seen) && p.accumulated == Concat(DeltasOf(seen))
    ensures forall v | v in seen && Streaming(v) :: v.sequence < s
  {
    hide Orderly, DeltasOf, Concat, Bytes;
  }

  /** The completion event at k ends the stream with `g` after progress p. */
  ghost predicate EndsWhole(values: seq<Value>, k: nat, p: Progress, g: Generated, model: string, cap: nat) {
    && k < |values| && values[k].Completed? && Orderly(values[..k])
    && (forall v | v in values[..k] && Streaming(v) :: v.sequence < values[k].sequence)
    && p.deltas == DeltasOf(values[..k])
    && Credible(values[k].response, model, cap) == Some(Usage(g.input, g.output, g.input + g.output))
    && (!g.Refused() ==> Matches(p, values[k].response) && p.accumulated == Concat(p.deltas))
  }

  lemma FreshFollows()
    ensures Follows(Fresh, [])
  {
  }

  /** An accepted answer is whole: behind an orderly stream of one output comes its completion,
      and the text handed to the sink is, put together, the completed text of that output. */
  lemma AcceptedIsWhole(draft: string -> Option<Draft>, values: seq<Value>, stop: Stop, model: string, cap: nat)
    requires Consumed(draft, Fresh, values, stop, model, cap).0.Return?
    ensures var (r, p) := Consumed(draft, Fresh, values, stop, model, cap);
            exists k :: EndsWhole(values, k, p, r.value, model, cap)
  {
    hide Consumed, Credible, Complete, Matches, Follows, Orderly, DeltasOf, Concat;
    FreshFollows();
    var k := ConsumedFollows(draft, Fresh, [], values, stop, model, cap);
    assert [] + values[..k] == values[..k];
    var (r, p) := Consumed(draft, Fresh, values, stop, model, cap);
    CompleteReturns(draft, p, values[k].response, model, cap);
    FollowsFacts(p, values[..k], values[k].sequence);
    assert EndsWhole(values, k, p, r.value, model, cap);
  }

  lemma {:induction false} NoCompletionNoAnswer(draft: string -> Option<Draft>, p: Progress, values: seq<Value>, stop: Stop, model: string, cap: nat)
    requires forall v | v in values :: !v.Completed?
    ensures Consumed(draft, p, values, stop, model, cap).0.Raise?
    decreases |values|
  {
    if values != [] {
      assert values[0] in values;
      match Take(draft, p, values[0], model, cap)
      case On(q) => NoCompletionNoAnswer(draft, q, values[1..], stop, model, cap);
      case End(_) =>
    }
  }

  /** A truncated stream is never accepted: cut an accepted stream anywhere before its
      completion event, and the answer is refused, however the stream ended. */
  lemma TruncationIsRefused(draft: string -> Option<Draft>, values: seq<Value>, stop: Stop, cut: nat, early: Stop, model: string, cap: nat)
    requires Consumed(draft, Fresh, values, stop, model, cap).0.Return? && cut <= |values|
    requires forall v | v in values[..cut] :: !v.Completed?
    ensures Consumed(draft, Fresh, values[..cut], early, model, cap).0.Raise?
    ensures cut < |values|
  {
    NoCompletionNoAnswer(draft, Fresh, values[..cut], early, model, cap);
    if cut == |values| { assert values[..cut] == values; NoCompletionNoAnswer(draft, Fresh, values, stop, model, cap); }
  }
}
