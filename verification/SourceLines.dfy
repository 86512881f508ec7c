/** Characters, their widths in UTF-8 and UTF-16, and the lines of a source text. A line ends with LF, CR LF
    or a lone CR. */
module SourceLines {

  function Width(c: char): (n: nat)
    ensures 1 <= n <= 4
  {
    if c as int < 0x80 then 1 else if c as int < 0x800 then 2 else if c as int < 0x10000 then 3 else 4
  }

  /** The UTF-8 length of content[a..b]. */
  function Bytes(content: string, a: nat, b: nat): nat
    requires a <= b <= |content|
    decreases b
  {
    if a == b then 0 else Bytes(content, a, b - 1) + Width(content[b - 1])
  }

  lemma {:induction false} BytesOfSum(a: string, b: string, k: nat)
    requires k <= |b|
    ensures Bytes(a + b, 0, |a| + k) == Bytes(a, 0, |a|) + Bytes(b, 0, k)
    decreases k
  {
    if k == 0 { BytesOfPrefix(a, b, |a|); } else { BytesOfSum(a, b, k - 1); }
  }

  lemma {:induction false} BytesOfPrefix(a: string, b: string, k: nat)
    requires k <= |a|
    ensures Bytes(a + b, 0, k) == Bytes(a, 0, k)
    decreases k
  {
    if k > 0 { BytesOfPrefix(a, b, k - 1); }
  }

  /** The UTF-16 length of a text, which is what JavaScript calls its length. */
  function Units(s: string): nat {
    if s == "" then 0 else Units(s[..|s| - 1]) + (if s[|s| - 1] as int < 0x10000 then 1 else 2)
  }

  lemma {:induction false} UnitsOfSum(a: string, b: string)
    ensures Units(a + b) == Units(a) + Units(b)
    decreases |b|
  {
    if b == "" {
      assert a + b == a;
    } else {
      assert (a + b)[..|a + b| - 1] == a + b[..|b| - 1];
      UnitsOfSum(a, b[..|b| - 1]);
    }
  }

  lemma {:induction false} UnitsBounds(s: string)
    ensures |s| <= Units(s) <= 2 * |s| && Bytes(s, 0, |s|) <= 3 * Units(s)
  {
    if s != "" {
      var front := s[..|s| - 1];
      UnitsBounds(front);
      assert s == front + [s[|s| - 1]];
      BytesOfPrefix(front, [s[|s| - 1]], |front|);
    }
  }

  /** A line break ends just before position k. */
  predicate BreakEnd(content: string, k: nat)
    requires k <= |content|
  {
    k > 0 && (content[k - 1] == '\n' || (content[k - 1] == '\r' && (k == |content| || content[k] != '\n')))
  }

  /** The 1-based line of position k: one more than the line breaks that end at or before it. */
  function LineOf(content: string, k: nat): (line: nat)
    requires k <= |content|
    ensures 1 <= line
  {
    if k == 0 then 1 else LineOf(content, k - 1) + (if BreakEnd(content, k) then 1 else 0)
  }

  /** The starts of the lines that begin at or before k. */
  function StartsUpTo(content: string, k: nat): (starts: seq<nat>)
    requires k <= |content|
    ensures |starts| == LineOf(content, k) && starts[0] == 0
    ensures forall i | 0 <= i < |starts| :: starts[i] <= k
  {
    if k == 0 then [0] else StartsUpTo(content, k - 1) + (if BreakEnd(content, k) then [k] else [])
  }

  function Starts(content: string): seq<nat> {
    StartsUpTo(content, |content|)
  }

  predicate Increasing(s: seq<nat>) {
    forall i, j | 0 <= i < j < |s| :: s[i] < s[j]
  }

  lemma {:induction false} StartsIncrease(content: string, k: nat)
    requires k <= |content|
    ensures Increasing(StartsUpTo(content, k))
  {
    if k > 0 { StartsIncrease(content, k - 1); }
  }

  /** The later line starts come after the earlier ones. */
  lemma {:induction false} StartsExtend(content: string, k: nat, m: nat)
    requires k <= m <= |content|
    ensures var some, all := StartsUpTo(content, k), StartsUpTo(content, m);
            some <= all && forall i | |some| <= i < |all| :: all[i] > k
  {
    if k < m { StartsExtend(content, k, m - 1); }
  }

  /** Line numbers grow with the position. */
  lemma {:induction false} LinesGrow(content: string, a: nat, b: nat)
    requires a <= b <= |content|
    ensures LineOf(content, a) <= LineOf(content, b)
  {
    if a < b { LinesGrow(content, a, b - 1); }
  }

  /** A prefix that holds exactly the entries up to x = all[i] has i + 1 of them. */
  lemma Count(some: seq<nat>, all: seq<nat>, x: nat, i: nat)
    requires Increasing(all) && some <= all && i < |all| && all[i] == x
    requires (forall j | 0 <= j < |some| :: some[j] <= x) && (forall j | |some| <= j < |all| :: all[j] > x)
    ensures |some| == i + 1
  {
    assert forall j | 0 <= j < |some| :: all[j] <= x;
    assert forall j | i < j < |all| :: all[j] > x;
    PrefixEnds(some, all, x, i + 1);
  }

  /** A prefix that holds exactly the entries up to x ends where the entries exceed x. */
  lemma PrefixEnds(some: seq<nat>, all: seq<nat>, x: nat, r: nat)
    requires some <= all && r <= |all| && (r < |all| ==> x < all[r])
    requires (forall j | 0 <= j < |some| :: some[j] <= x) && (forall j | |some| <= j < |all| :: all[j] > x)
    ensures |some| <= r
    ensures (forall j | 0 <= j < r :: all[j] <= x) ==> |some| == r
  {
    forall j | 0 <= j < |some| ensures all[j] <= x { assert some[j] == all[j]; }
    assert |some| < r ==> all[|some|] > x;
  }

  /** Line i begins at its start and ends where the next one begins. */
  lemma LineBounds(content: string, i: nat, k: nat)
    requires i < |Starts(content)| && k <= |content|
    ensures LineOf(content, Starts(content)[i]) == i + 1
    ensures i + 1 < |Starts(content)| && k < Starts(content)[i + 1] ==> LineOf(content, k) <= i + 1
    ensures LineOf(content, k) <= |Starts(content)|
  {
    var all := Starts(content);
    StartsIncrease(content, |content|);
    StartsExtend(content, all[i], |content|);
    var some := StartsUpTo(content, all[i]);
    Count(some, all, all[i], i);
    StartsExtend(content, k, |content|);
    if i + 1 < |all| && k < all[i + 1] {
      var upTo := StartsUpTo(content, k);
      PrefixEnds(upTo, all, k, i + 1);
    }
  }

  /** Collect the line starts by scanning for line breaks. */
  method LineStarts(content: string) returns (starts: seq<nat>)
    ensures starts == Starts(content)
  {
    starts := [0];
    var i: nat := 0;
    while i < |content|
      invariant i <= |content| && starts == StartsUpTo(content, i)
      invariant i > 0 && i < |content| && content[i - 1] == '\r' ==> content[i] != '\n'
    {
      if content[i] == '\r' && i + 1 < |content| && content[i + 1] == '\n' {
        assert StartsUpTo(content, i + 1) == starts;
        i := i + 2;
        starts := starts + [i];
      } else {
        i := i + 1;
        if content[i - 1] == '\r' || content[i - 1] == '\n' { starts := starts + [i]; }
      }
    }
  }

  /** `bisect_right`: how many entries are at most x. */
  method BisectRight(s: seq<nat>, x: nat) returns (r: nat)
    requires Increasing(s)
    ensures r <= |s| && (forall i | 0 <= i < r :: s[i] <= x) && (forall i | r <= i < |s| :: x < s[i])
  {
    var hi: nat := |s|;
    r := 0;
    while r < hi
      invariant r <= hi <= |s|
      invariant (forall i | 0 <= i < r :: s[i] <= x) && (forall i | hi <= i < |s| :: x < s[i])
    {
      var mid := (r + hi) / 2;
      if x < s[mid] { hi := mid; } else { r := mid + 1; }
    }
  }

  /** Bisecting the line starts finds the true line of a position. */
  lemma BisectFindsLine(content: string, k: nat, r: nat)
    requires k <= |content|
    requires var s := Starts(content);
             r <= |s| && (forall i | 0 <= i < r :: s[i] <= k) && (forall i | r <= i < |s| :: k < s[i])
    ensures r == LineOf(content, k)
  {
    StartsExtend(content, k, |content|);
    var some, all := StartsUpTo(content, k), Starts(content);
    PrefixEnds(some, all, k, r);
  }
}
