/** Reciprocal-rank fusion (`fuse`): chunks found by several channels are ordered by the sum of
    1 / (60 + rank), with exact rationals for the scores. */
module Fusion {

  type Id = nat

  datatype Channel = Channel(name: string, ids: seq<Id>)

  datatype Ranked = Ranked(chunk: Id, score: real, ranks: map<string, nat>)

  /** Append the ids that are not there yet, in order: how a dictionary collects keys. */
  function Merge(order: seq<Id>, ids: seq<Id>): seq<Id> {
    if ids == [] then order
    else
      var before := Merge(order, ids[..|ids| - 1]);
      if ids[|ids| - 1] in before then before else before + [ids[|ids| - 1]]
  }

  /** `dict.fromkeys`: first occurrences only. */
  function Dedup(ids: seq<Id>): seq<Id> {
    Merge([], ids)
  }

  function IndexOf(ids: seq<Id>, x: Id): (i: nat)
    requires x in ids
    ensures i < |ids| && ids[i] == x && x !in ids[..i]
  {
    if ids[0] == x then 0 else 1 + IndexOf(ids[1..], x)
  }

  /** The 1-based rank of a chunk in a channel, 0 if it is not there. */
  function RankIn(ids: seq<Id>, x: Id): nat {
    if x in Dedup(ids) then IndexOf(Dedup(ids), x) + 1 else 0
  }

  function Share(rank: nat): real {
    if rank == 0 then 0.0 else 1.0 / (60 + rank) as real
  }

  function Score(channels: seq<Channel>, x: Id): real {
    if channels == [] then 0.0
    else Score(channels[..|channels| - 1], x) + Share(RankIn(channels[|channels| - 1].ids, x))
  }

  function Ranks(channels: seq<Channel>, x: Id): map<string, nat> {
    if channels == [] then map[]
    else
      var last := channels[|channels| - 1];
      var before := Ranks(channels[..|channels| - 1], x);
      if RankIn(last.ids, x) == 0 then before else before[last.name := RankIn(last.ids, x)]
  }

  /** Every chunk found, in the order of discovery. */
  function Found(channels: seq<Channel>): seq<Id> {
    if channels == [] then [] else Merge(Found(channels[..|channels| - 1]), Dedup(channels[|channels| - 1].ids))
  }

  /** x sorts strictly before y. */
  predicate Ahead(scores: map<Id, real>, tie: Id -> int, x: Id, y: Id)
    requires x in scores && y in scores
  {
    scores[x] > scores[y] || (scores[x] == scores[y] && tie(x) < tie(y))
  }

  /** Stable insertion: behind everything that is not strictly after x. */
  function Insert(scores: map<Id, real>, tie: Id -> int, sorted: seq<Id>, x: Id): (r: seq<Id>)
    requires x in scores && forall y | y in sorted :: y in scores
    ensures forall y :: y in r <==> y == x || y in sorted
  {
    if sorted == [] || !Ahead(scores, tie, x, sorted[|sorted| - 1]) then sorted + [x]
    else
      var rest := Insert(scores, tie, sorted[..|sorted| - 1], x);
      assert sorted == sorted[..|sorted| - 1] + [sorted[|sorted| - 1]];
      rest + [sorted[|sorted| - 1]]
  }

  function Sort(scores: map<Id, real>, tie: Id -> int, ids: seq<Id>): (r: seq<Id>)
    requires forall y | y in ids :: y in scores
    ensures forall y :: y in r <==> y in ids
  {
    if ids == [] then []
    else
      assert ids == ids[..|ids| - 1] + [ids[|ids| - 1]];
      Insert(scores, tie, Sort(scores, tie, ids[..|ids| - 1]), ids[|ids| - 1])
  }

  function Scores(channels: seq<Channel>): map<Id, real> {
    map x | x in Found(channels) :: Score(channels, x)
  }

  /** All chunks, best first. */
  function Ordered(channels: seq<Channel>, tie: Id -> int): seq<Id> {
    Sort(Scores(channels), tie, Found(channels))
  }

  function Fused(channels: seq<Channel>, tie: Id -> int, limit: nat): seq<Ranked> {
    var ordered := Ordered(channels, tie);
    var cut := if |ordered| <= limit then ordered else ordered[..limit];
    seq(|cut|, i requires 0 <= i < |cut| => Ranked(cut[i], Score(channels, cut[i]), Ranks(channels, cut[i])))
  }

  // ---- The loops as written

  lemma {:induction false} MergeMembers(order: seq<Id>, ids: seq<Id>, x: Id)
    ensures x in Merge(order, ids) <==> x in order || x in ids
  {
    if ids != [] {
      MergeMembers(order, ids[..|ids| - 1], x);
      assert ids == ids[..|ids| - 1] + [ids[|ids| - 1]];
    }
  }

  ghost predicate Distinct(s: seq<Id>) {
    forall i, j | 0 <= i < j < |s| :: s[i] != s[j]
  }

  lemma {:induction false} MergeDistinct(order: seq<Id>, ids: seq<Id>)
    requires Distinct(order)
    ensures Distinct(Merge(order, ids))
  {
    if ids != [] { MergeDistinct(order, ids[..|ids| - 1]); }
  }

  lemma RankAt(ids: seq<Id>, j: nat)
    requires j < |Dedup(ids)|
    ensures RankIn(ids, Dedup(ids)[j]) == j + 1
  {
    MergeDistinct([], ids);
    IndexIs(Dedup(ids), j);
  }

  lemma {:induction false} IndexIs(ids: seq<Id>, j: nat)
    requires Distinct(ids) && j < |ids|
    ensures IndexOf(ids, ids[j]) == j
  {
    if j > 0 {
      assert ids[1..][j - 1] == ids[j];
      IndexIs(ids[1..], j - 1);
    }
  }

  /** Scores after the first channels and the first entries of the next one. */
  ghost predicate ScoresTallied(channels: seq<Channel>, c: Channel, part: seq<Id>, order: seq<Id>, scores: map<Id, real>) {
    && (forall x :: x in scores <==> x in order)
    && (forall x | x in scores :: scores[x] == Score(channels, x) + (if x in part then Share(RankIn(c.ids, x)) else 0.0))
  }

  ghost predicate RanksTallied(channels: seq<Channel>, c: Channel, part: seq<Id>, order: seq<Id>, ranks: map<Id, map<string, nat>>) {
    && (forall x :: x in ranks <==> x in order)
    && (forall x | x in ranks :: ranks[x] == (if x in part then Ranks(channels, x)[c.name := RankIn(c.ids, x)] else Ranks(channels, x)))
  }

  ghost predicate Tallied(channels: seq<Channel>, c: Channel, part: seq<Id>, order: seq<Id>, scores: map<Id, real>, ranks: map<Id, map<string, nat>>) {
    && order == Merge(Found(channels), part)
    && ScoresTallied(channels, c, part, order, scores) && RanksTallied(channels, c, part, order, ranks)
  }

  lemma {:induction false} Unseen(channels: seq<Channel>, x: Id)
    requires x !in Found(channels)
    ensures Score(channels, x) == 0.0 && Ranks(channels, x) == map[]
  {
    if channels != [] {
      var last := channels[|channels| - 1];
      MergeMembers(Found(channels[..|channels| - 1]), Dedup(last.ids), x);
      Unseen(channels[..|channels| - 1], x);
    }
  }

  lemma OneScore(channels: seq<Channel>, c: Channel, part: seq<Id>, order: seq<Id>, scores: map<Id, real>, x: Id)
    requires ScoresTallied(channels, c, part, order, scores) && x !in part && (x !in order ==> Score(channels, x) == 0.0)
    ensures ScoresTallied(channels, c, part + [x], if x in order then order else order + [x],
                          scores[x := (if x in scores then scores[x] else 0.0) + Share(RankIn(c.ids, x))])
  {
    hide Score, RankIn, Share;
  }

  lemma OneRank(channels: seq<Channel>, c: Channel, part: seq<Id>, order: seq<Id>, ranks: map<Id, map<string, nat>>, x: Id)
    requires RanksTallied(channels, c, part, order, ranks) && x !in part && (x !in order ==> Ranks(channels, x) == map[])
    ensures RanksTallied(channels, c, part + [x], if x in order then order else order + [x],
                         ranks[x := (if x in ranks then ranks[x] else map[])[c.name := RankIn(c.ids, x)]])
  {
    hide Ranks, RankIn;
  }

  lemma MergeOne(order: seq<Id>, part: seq<Id>, x: Id)
    ensures Merge(order, part + [x]) == (if x in Merge(order, part) then Merge(order, part) else Merge(order, part) + [x])
  {
    assert (part + [x])[..|part|] == part;
  }

  lemma TallyOne(channels: seq<Channel>, c: Channel, j: nat, order: seq<Id>, scores: map<Id, real>, ranks: map<Id, map<string, nat>>)
    requires j < |Dedup(c.ids)| && Tallied(channels, c, Dedup(c.ids)[..j], order, scores, ranks)
    ensures var x := Dedup(c.ids)[j];
            var order' := if x in order then order else order + [x];
            var scores' := scores[x := (if x in scores then scores[x] else 0.0) + 1.0 / (60 + (j + 1)) as real];
            var ranks' := ranks[x := (if x in ranks then ranks[x] else map[])[c.name := j + 1]];
            Tallied(channels, c, Dedup(c.ids)[..j + 1], order', scores', ranks')
  {
    var part, x := Dedup(c.ids)[..j], Dedup(c.ids)[j];
    MergeDistinct([], c.ids);
    RankAt(c.ids, j);
    assert Dedup(c.ids)[..j + 1] == part + [x] && x !in part;
    if x !in order {
      MergeMembers(Found(channels), part, x);
      Unseen(channels, x);
    }
    hide Found, Score, Ranks, RankIn, Dedup, ScoresTallied, RanksTallied;
    OneScore(channels, c, part, order, scores, x);
    OneRank(channels, c, part, order, ranks, x);
    MergeOne(Found(channels), part, x);
  }

  /** The tables after whole channels. */
  ghost predicate Counted(channels: seq<Channel>, order: seq<Id>, scores: map<Id, real>, ranks: map<Id, map<string, nat>>) {
    && order == Found(channels)
    && (forall x :: x in scores <==> x in order) && (forall x :: x in ranks <==> x in order)
    && (forall x | x in scores :: scores[x] == Score(channels, x))
    && (forall x | x in ranks :: ranks[x] == Ranks(channels, x))
  }

  lemma TallyFirst(channels: seq<Channel>, c: Channel, order: seq<Id>, scores: map<Id, real>, ranks: map<Id, map<string, nat>>)
    requires Counted(channels, order, scores, ranks)
    ensures Tallied(channels, c, [], order, scores, ranks)
  {
  }

  lemma TallyNext(channels: seq<Channel>, i: nat, order: seq<Id>, scores: map<Id, real>, ranks: map<Id, map<string, nat>>)
    requires i < |channels| && Tallied(channels[..i], channels[i], Dedup(channels[i].ids), order, scores, ranks)
    ensures Counted(channels[..i + 1], order, scores, ranks)
  {
    assert channels[..i + 1] == channels[..i] + [channels[i]];
    TallyLast(channels[..i], channels[i], order, scores, ranks);
  }

  lemma TallyLast(channels: seq<Channel>, c: Channel, order: seq<Id>, scores: map<Id, real>, ranks: map<Id, map<string, nat>>)
    requires Tallied(channels, c, Dedup(c.ids), order, scores, ranks)
    ensures Counted(channels + [c], order, scores, ranks)
  {
    assert (channels + [c])[..|channels|] == channels;
    forall x | x in scores ensures scores[x] == Score(channels + [c], x) && ranks[x] == Ranks(channels + [c], x) {
      hide Dedup, Share, IndexOf, Merge;
    }
    hide Dedup, Share, IndexOf, Merge;
  }

  method Fuse(channels: seq<Channel>, tie: Id -> int, limit: nat) returns (result: seq<Ranked>)
    ensures result == Fused(channels, tie, limit)
  {
    var order: seq<Id>, scores: map<Id, real>, ranks: map<Id, map<string, nat>> := [], map[], map[];
    for i := 0 to |channels|
      invariant Counted(channels[..i], order, scores, ranks)
    {
      order, scores, ranks := Tally(channels, i, order, scores, ranks);
    }
    assert channels[..|channels|] == channels;
    assert scores == Scores(channels);
    var ordered := Sort(scores, tie, order);
    if |ordered| > limit { ordered := ordered[..limit]; }
    result := seq(|ordered|, k requires 0 <= k < |ordered| => Ranked(ordered[k], scores[ordered[k]], ranks[ordered[k]]));
  }

  /** The inner loop, over one channel. */
  method Tally(channels: seq<Channel>, i: nat, order0: seq<Id>, scores0: map<Id, real>, ranks0: map<Id, map<string, nat>>)
    returns (order: seq<Id>, scores: map<Id, real>, ranks: map<Id, map<string, nat>>)
    requires i < |channels| && Counted(channels[..i], order0, scores0, ranks0)
    ensures Counted(channels[..i + 1], order, scores, ranks)
  {
    hide Counted, Tallied;
    order, scores, ranks := order0, scores0, ranks0;
    var ids := Dedup(channels[i].ids);
    assert ids[..0] == [];
    TallyFirst(channels[..i], channels[i], order, scores, ranks);
    for j := 0 to |ids|
      invariant Tallied(channels[..i], channels[i], ids[..j], order, scores, ranks)
    {
      var x := ids[j];
      TallyOne(channels[..i], channels[i], j, order, scores, ranks);
      order := if x in order then order else order + [x];
      scores := scores[x := (if x in scores then scores[x] else 0.0) + 1.0 / (60 + (j + 1)) as real];
      ranks := ranks[x := (if x in ranks then ranks[x] else map[])[channels[i].name := j + 1]];
    }
    assert ids[..|ids|] == ids;
    TallyNext(channels, i, order, scores, ranks);
  }

  // ---- Results

  /** A smaller limit gives a prefix of what a larger one gives. */
  lemma LimitIsPrefix(channels: seq<Channel>, tie: Id -> int, small: nat, large: nat)
    requires small <= large
    ensures Fused(channels, tie, small) <= Fused(channels, tie, large)
  {
  }

  /** Everything found is ranked exactly once when the limit allows it. */
  lemma {:induction false} InsertSize(scores: map<Id, real>, tie: Id -> int, sorted: seq<Id>, x: Id)
    requires x in scores && (forall y | y in sorted :: y in scores) && Distinct(sorted) && x !in sorted
    ensures Distinct(Insert(scores, tie, sorted, x)) && |Insert(scores, tie, sorted, x)| == |sorted| + 1
  {
    if sorted != [] && Ahead(scores, tie, x, sorted[|sorted| - 1]) {
      var front, last := sorted[..|sorted| - 1], sorted[|sorted| - 1];
      InsertSize(scores, tie, front, x);
      forall i | 0 <= i < |Insert(scores, tie, front, x)| ensures Insert(scores, tie, front, x)[i] != last {
        assert Insert(scores, tie, front, x)[i] in Insert(scores, tie, front, x);
        assert last !in front;
      }
    }
  }

  lemma {:induction false} SortSize(scores: map<Id, real>, tie: Id -> int, ids: seq<Id>)
    requires (forall y | y in ids :: y in scores) && Distinct(ids)
    ensures Distinct(Sort(scores, tie, ids)) && |Sort(scores, tie, ids)| == |ids|
  {
    if ids != [] {
      SortSize(scores, tie, ids[..|ids| - 1]);
      InsertSize(scores, tie, Sort(scores, tie, ids[..|ids| - 1]), ids[|ids| - 1]);
    }
  }

  lemma {:induction false} FoundDistinct(channels: seq<Channel>)
    ensures Distinct(Found(channels))
  {
    if channels != [] {
      FoundDistinct(channels[..|channels| - 1]);
      MergeDistinct(Found(channels[..|channels| - 1]), Dedup(channels[|channels| - 1].ids));
    }
  }

  lemma {:induction false} FoundMembers(channels: seq<Channel>, x: Id)
    ensures x in Found(channels) <==> exists c :: c in channels && x in c.ids
  {
    if channels != [] {
      var front, last := channels[..|channels| - 1], channels[|channels| - 1];
      FoundMembers(front, x);
      MergeMembers(Found(front), Dedup(last.ids), x);
      MergeMembers([], last.ids, x);
      assert channels == front + [last];
    }
  }

  /** The ranking holds exactly the chunks that some channel returned, each once. */
  lemma RankingIsComplete(channels: seq<Channel>, tie: Id -> int, x: Id)
    ensures x in Ordered(channels, tie) <==> exists c :: c in channels && x in c.ids
    ensures Distinct(Ordered(channels, tie))
  {
    FoundMembers(channels, x);
    FoundDistinct(channels);
    SortSize(Scores(channels), tie, Found(channels));
  }

  ghost predicate InOrder(scores: map<Id, real>, tie: Id -> int, s: seq<Id>) {
    && (forall y | y in s :: y in scores)
    && forall i, j | 0 <= i < j < |s| && s[i] in scores && s[j] in scores :: !Ahead(scores, tie, s[j], s[i])
  }

  lemma {:induction false} InsertOrders(scores: map<Id, real>, tie: Id -> int, sorted: seq<Id>, x: Id)
    requires x in scores && InOrder(scores, tie, sorted)
    ensures InOrder(scores, tie, Insert(scores, tie, sorted, x))
  {
    var n := |sorted|;
    var r := Insert(scores, tie, sorted, x);
    if n > 0 && Ahead(scores, tie, x, sorted[n - 1]) {
      var front := sorted[..n - 1];
      InsertOrders(scores, tie, front, x);
      var rest := Insert(scores, tie, front, x);
      forall i | 0 <= i < |rest| ensures !Ahead(scores, tie, sorted[n - 1], rest[i]) {
        assert rest[i] in rest;
        if rest[i] != x {
          var k :| 0 <= k < n - 1 && sorted[k] == rest[i];
        }
      }
    } else if n > 0 {
      forall i | 0 <= i < n ensures !Ahead(scores, tie, x, sorted[i]) {
        if i < n - 1 { assert !Ahead(scores, tie, sorted[n - 1], sorted[i]); }
      }
    }
  }

  lemma {:induction false} SortOrders(scores: map<Id, real>, tie: Id -> int, ids: seq<Id>)
    requires forall y | y in ids :: y in scores
    ensures InOrder(scores, tie, Sort(scores, tie, ids))
  {
    if ids != [] {
      SortOrders(scores, tie, ids[..|ids| - 1]);
      InsertOrders(scores, tie, Sort(scores, tie, ids[..|ids| - 1]), ids[|ids| - 1]);
    }
  }

  lemma ShareFalls(p: nat, q: nat)
    requires 0 < p < q
    ensures Share(p) > Share(q) > 0.0
  {
    var x, y := (60 + p) as real, (60 + q) as real;
    assert x * y > 0.0;
    assert 1.0 / x - 1.0 / y == (y - x) / (x * y);
  }

  lemma SharePositive(p: nat)
    requires p > 0
    ensures Share(p) > 0.0
  {
  }

  /** a is ranked no worse than b in the channel. */
  predicate NoWorse(c: Channel, a: Id, b: Id) {
    RankIn(c.ids, b) == 0 || 0 < RankIn(c.ids, a) <= RankIn(c.ids, b)
  }

  predicate Better(c: Channel, a: Id, b: Id) {
    RankIn(c.ids, a) > 0 && (RankIn(c.ids, b) == 0 || RankIn(c.ids, a) < RankIn(c.ids, b))
  }

  lemma ChannelCompares(c: Channel, a: Id, b: Id)
    requires NoWorse(c, a, b)
    ensures Share(RankIn(c.ids, a)) >= Share(RankIn(c.ids, b))
    ensures Better(c, a, b) ==> Share(RankIn(c.ids, a)) > Share(RankIn(c.ids, b))
  {
    var p, q := RankIn(c.ids, a), RankIn(c.ids, b);
    hide RankIn;
    if 0 < p < q { ShareFalls(p, q); }
    if p > 0 { SharePositive(p); }
  }

  lemma {:induction false} ScoreCompares(channels: seq<Channel>, a: Id, b: Id)
    requires forall c | c in channels :: NoWorse(c, a, b)
    ensures Score(channels, a) >= Score(channels, b)
    ensures (exists c :: c in channels && Better(c, a, b)) ==> Score(channels, a) > Score(channels, b)
  {
    if channels != [] {
      var front, last := channels[..|channels| - 1], channels[|channels| - 1];
      assert channels == front + [last];
      ScoreCompares(front, a, b);
      ChannelCompares(last, a, b);
    }
  }

  /** Dominance: a chunk ranked no worse in every channel and better in one comes first. */
  lemma DominantComesFirst(channels: seq<Channel>, tie: Id -> int, i: nat, j: nat)
    requires i < |Ordered(channels, tie)| && j < |Ordered(channels, tie)|
    requires var a, b := Ordered(channels, tie)[i], Ordered(channels, tie)[j];
             (forall c | c in channels :: NoWorse(c, a, b)) && exists c :: c in channels && Better(c, a, b)
    ensures i < j
  {
    var s := Ordered(channels, tie);
    ScoreCompares(channels, s[i], s[j]);
    SortOrders(Scores(channels), tie, Found(channels));
    hide Sort, Score;
    assert s[i] in s && s[j] in s;
    assert s[i] in Scores(channels) && s[j] in Scores(channels);
    assert Ahead(Scores(channels), tie, s[i], s[j]);
  }

  // ---- The ranking in terms of the lists alone

  function Members(s: seq<Id>): set<Id> { set x | x in s }

  /** The place of a chunk in a channel's list, counting every chunk once. */
  ghost function Position(ids: seq<Id>, x: Id): nat
    requires x in ids
  {
    |Members(ids[..IndexOf(ids, x) + 1])|
  }

  /** The sum of 1 / (60 + place) over the channels that found the chunk. */
  ghost function Total(channels: seq<Channel>, x: Id): real {
    if channels == [] then 0.0
    else (if x in channels[0].ids then 1.0 / (60 + Position(channels[0].ids, x)) as real else 0.0) + Total(channels[1..], x)
  }

  lemma {:induction false} DistinctSize(s: seq<Id>)
    requires Distinct(s)
    ensures |Members(s)| == |s|
  {
    if s != [] {
      var n := |s| - 1;
      DistinctSize(s[..n]);
      assert s[n] !in Members(s[..n]);
      assert Members(s) == Members(s[..n]) + {s[n]};
    }
  }

  lemma {:induction false} IndexInFront(ids: seq<Id>, n: nat, x: Id)
    requires n <= |ids| && x in ids[..n]
    ensures x in ids && IndexOf(ids, x) == IndexOf(ids[..n], x)
  {
    if ids[0] != x {
      assert ids[..n][1..] == ids[1..][..n - 1];
      IndexInFront(ids[1..], n - 1, x);
    }
  }

  lemma {:induction false} IndexAtEnd(ids: seq<Id>, x: Id)
    requires x !in ids
    ensures IndexOf(ids + [x], x) == |ids|
  {
    if ids != [] {
      assert (ids + [x])[1..] == ids[1..] + [x];
      IndexAtEnd(ids[1..], x);
    }
  }

  /** An earlier place does not depend on what follows. */
  lemma PositionInFront(ids: seq<Id>, n: nat, x: Id)
    requires n <= |ids| && x in ids[..n]
    ensures x in ids && Position(ids, x) == Position(ids[..n], x)
  {
    IndexInFront(ids, n, x);
    assert ids[..IndexOf(ids, x) + 1] == ids[..n][..IndexOf(ids[..n], x) + 1];
  }

  /** A new chunk takes the next place. */
  lemma PositionAtEnd(ids: seq<Id>, x: Id)
    requires x !in ids
    ensures Position(ids + [x], x) == |Dedup(ids)| + 1
  {
    IndexAtEnd(ids, x);
    assert (ids + [x])[..|ids| + 1] == ids + [x];
    MergeDistinct([], ids);
    DistinctSize(Dedup(ids));
    forall y ensures y in ids <==> y in Dedup(ids) { MergeMembers([], ids, y); }
    assert Members(ids + [x]) == Members(Dedup(ids)) + {x};
  }

  lemma DedupOne(front: seq<Id>, last: Id)
    ensures Dedup(front + [last]) == (if last in front then Dedup(front) else Dedup(front) + [last])
  {
    MergeOne([], front, last);
    MergeMembers([], front, last);
  }

  lemma RankInFront(front: seq<Id>, last: Id, x: Id)
    requires x in front
    ensures RankIn(front + [last], x) == RankIn(front, x)
  {
    DedupOne(front, last);
    MergeMembers([], front, x);
    var d := Dedup(front);
    assert x in d;
    hide Dedup;
    if last !in front { IndexBefore(d, last, x); }
  }

  lemma {:induction false} IndexBefore(ids: seq<Id>, last: Id, x: Id)
    requires x in ids
    ensures x in ids + [last] && IndexOf(ids + [last], x) == IndexOf(ids, x)
  {
    assert (ids + [last])[0] == ids[0] && (ids + [last])[1..] == ids[1..] + [last];
    if ids[0] != x { IndexBefore(ids[1..], last, x); }
  }

  lemma RankAtEnd(front: seq<Id>, x: Id)
    requires x !in front
    ensures RankIn(front + [x], x) == |Dedup(front)| + 1
  {
    DedupOne(front, x);
    MergeMembers([], front, x);
    IndexAtEnd(Dedup(front), x);
    hide Dedup;
  }

  /** The rank of a chunk is its place. */
  lemma {:induction false} RankIsPosition(ids: seq<Id>, x: Id)
    ensures RankIn(ids, x) == if x in ids then Position(ids, x) else 0
  {
    if x in ids {
      var n := |ids| - 1;
      var front, last := ids[..n], ids[n];
      assert ids == front + [last];
      hide Position, RankIn, Dedup;
      if x in front {
        RankIsPosition(front, x);
        PositionInFront(ids, n, x);
        RankInFront(front, last, x);
      } else {
        PositionAtEnd(front, x);
        RankAtEnd(front, x);
      }
    } else {
      MergeMembers([], ids, x);
    }
  }

  lemma {:induction false} TotalOfSum(channels: seq<Channel>, c: Channel, x: Id)
    ensures Total(channels + [c], x) == Total(channels, x) + (if x in c.ids then 1.0 / (60 + Position(c.ids, x)) as real else 0.0)
  {
    if channels == [] {
      assert (channels + [c])[1..] == [];
    } else {
      assert (channels + [c])[1..] == channels[1..] + [c];
      hide Position;
      TotalOfSum(channels[1..], c, x);
    }
  }

  lemma ShareIsExact(ids: seq<Id>, x: Id)
    ensures Share(RankIn(ids, x)) == if x in ids then 1.0 / (60 + Position(ids, x)) as real else 0.0
  {
    RankIsPosition(ids, x);
    if x in ids { assert ids[IndexOf(ids, x)] in Members(ids[..IndexOf(ids, x) + 1]); }
    hide RankIn;
  }

  lemma {:induction false} ScoreIsTotal(channels: seq<Channel>, x: Id)
    ensures Score(channels, x) == Total(channels, x)
  {
    if channels != [] {
      var front, last := channels[..|channels| - 1], channels[|channels| - 1];
      assert channels == front + [last];
      assert Score(channels, x) == Score(front, x) + Share(RankIn(last.ids, x));
      ScoreIsTotal(front, x);
      hide Position, RankIn, Share, Score, Total;
      TotalOfSum(front, last, x);
      ShareIsExact(last.ids, x);
    }
  }

  ghost predicate DistinctNames(channels: seq<Channel>) {
    forall i, j | 0 <= i < j < |channels| :: channels[i].name != channels[j].name
  }

  /** The places of a chunk by channel. */
  ghost predicate Places(channels: seq<Channel>, x: Id, ranks: map<string, nat>) {
    && (forall c | c in channels :: c.name in ranks <==> x in c.ids)
    && (forall c | c in channels && x in c.ids :: ranks[c.name] == Position(c.ids, x))
    && (forall name | name in ranks :: exists c :: c in channels && c.name == name)
  }

  lemma {:induction false} RanksArePlaces(channels: seq<Channel>, x: Id)
    requires DistinctNames(channels)
    ensures Places(channels, x, Ranks(channels, x))
  {
    if channels != [] {
      var front, last := channels[..|channels| - 1], channels[|channels| - 1];
      assert channels == front + [last];
      forall i, j | 0 <= i < j < |front| ensures front[i].name != front[j].name { assert channels[i].name != channels[j].name; }
      RanksArePlaces(front, x);
      RankIsPosition(last.ids, x);
      if x in last.ids { assert last.ids[IndexOf(last.ids, x)] in Members(last.ids[..IndexOf(last.ids, x) + 1]); }
      hide Position, RankIn;
      forall c | c in front ensures c.name != last.name {
        var i :| 0 <= i < |front| && front[i] == c;
        assert channels[i] == c;
      }
      assert last.name !in Ranks(front, x);
      PlacesOne(front, last, x, Ranks(front, x));
    }
  }

  lemma PlacesOne(front: seq<Channel>, last: Channel, x: Id, ranks: map<string, nat>)
    requires Places(front, x, ranks) && last.name !in ranks && forall c | c in front :: c.name != last.name
    ensures Places(front + [last], x, if x in last.ids then ranks[last.name := Position(last.ids, x)] else ranks)
  {
    hide Position;
    forall name | name in ranks ensures exists c :: c in front + [last] && c.name == name {
      var c :| c in front && c.name == name;
      assert c in front + [last];
    }
    assert last in front + [last];
  }

  /** What the caller gets: the best chunks, up to the limit, each with the sum of 1 / (60 + place) over
      the channels that found it and its place in each of them; greater sums come first, and between
      equal sums the smaller tie key. */
  lemma RankingIsExact(channels: seq<Channel>, tie: Id -> int, limit: nat)
    requires DistinctNames(channels)
    ensures var r, all := Fused(channels, tie, limit), Ordered(channels, tie);
            && |r| == (if |all| <= limit then |all| else limit)
            && (forall i | 0 <= i < |r| :: r[i].chunk == all[i] && r[i].score == Total(channels, all[i]) && Places(channels, all[i], r[i].ranks))
    ensures var all := Ordered(channels, tie);
            forall i, j | 0 <= i < j < |all| ::
              Total(channels, all[i]) > Total(channels, all[j])
              || (Total(channels, all[i]) == Total(channels, all[j]) && tie(all[i]) <= tie(all[j]))
  {
    var r, all := Fused(channels, tie, limit), Ordered(channels, tie);
    forall i | 0 <= i < |r| ensures r[i].score == Total(channels, all[i]) && Places(channels, all[i], r[i].ranks) {
      ScoreIsTotal(channels, all[i]);
      RanksArePlaces(channels, all[i]);
    }
    SortOrders(Scores(channels), tie, Found(channels));
    hide Sort, Score, Places, Total, Ranks;
    forall i, j | 0 <= i < j < |all|
      ensures Total(channels, all[i]) > Total(channels, all[j])
              || (Total(channels, all[i]) == Total(channels, all[j]) && tie(all[i]) <= tie(all[j]))
    {
      ScoreIsTotal(channels, all[i]);
      ScoreIsTotal(channels, all[j]);
      assert all[i] in all && all[j] in all && all[i] in Scores(channels) && all[j] in Scores(channels);
      assert !Ahead(Scores(channels), tie, all[j], all[i]);
    }
  }
}
