/** Cutting a server-sent event stream into frames while it arrives (the WHATWG HTML Living
    Standard, sections 9.2.5 and 9.2.6, restricted to LF and CRLF line ends). Both decoders of
    the program work this way: append the block to what is left over, turn CRLF into LF in the
    whole buffer, cut off every frame that is now complete. */
module EventFraming {

  /** One pass of `replace("\r\n", "\n")`. */
  function Normalize(s: string): (r: string)
    ensures |r| <= |s|
  {
    if s == "" then ""
    else if |s| >= 2 && s[0] == '\r' && s[1] == '\n' then "\n" + Normalize(s[2..])
    else [s[0]] + Normalize(s[1..])
  }

  /** Where the first blank line starts, or -1. */
  function Find(s: string): (i: int)
    ensures i == -1 || 0 <= i <= |s| - 2
  {
    if |s| < 2 then -1
    else if s[0] == '\n' && s[1] == '\n' then 0
    else var i := Find(s[1..]); if i < 0 then -1 else i + 1
  }

  /** All complete frames of a text, and the text after the last of them. */
  function Split(s: string): (seq<string>, string)
    decreases |s|
  {
    var i := Find(s);
    if i < 0 then ([], s)
    else var (frames, rest) := Split(s[i + 2..]); ([s[..i]] + frames, rest)
  }

  /** The incremental decoder: frames produced and text left over after a list of blocks. */
  function Feed(blocks: seq<string>): (seq<string>, string) {
    if blocks == [] then ([], "")
    else
      var (frames, rest) := Feed(blocks[..|blocks| - 1]);
      var (more, rest') := Split(Normalize(rest + blocks[|blocks| - 1]));
      (frames + more, rest')
  }

  function Flat(blocks: seq<string>): string {
    if blocks == [] then "" else Flat(blocks[..|blocks| - 1]) + blocks[|blocks| - 1]
  }

  /** Frames written back out, each followed by its blank line. */
  function Unsplit(frames: seq<string>): string {
    if frames == [] then "" else frames[0] + "\n\n" + Unsplit(frames[1..])
  }

  predicate CrLfAt(s: string, i: int) {
    0 <= i <= |s| - 2 && s[i] == '\r' && s[i + 1] == '\n'
  }

  /** The one sequence the decoders do not handle: a bare CR right before a CRLF. */
  predicate CrCrLfAt(s: string, i: int) {
    0 <= i <= |s| - 3 && s[i] == '\r' && s[i + 1] == '\r' && s[i + 2] == '\n'
  }

  ghost predicate Plain(s: string) {
    forall i :: !CrCrLfAt(s, i)
  }

  ghost predicate Unix(s: string) {
    forall i :: !CrLfAt(s, i)
  }

  lemma PlainTail(s: string, n: nat)
    requires Plain(s) && n <= |s|
    ensures Plain(s[n..])
  {
    forall i ensures !CrCrLfAt(s[n..], i) {
      assert !CrCrLfAt(s, n + i);
    }
  }

  lemma PlainPrefix(a: string, b: string)
    requires Plain(a + b)
    ensures Plain(a)
  {
    forall i ensures !CrCrLfAt(a, i) {
      assert !CrCrLfAt(a + b, i);
    }
  }

  lemma NormalizeCrLf(x: string)
    ensures Normalize("\r\n" + x) == "\n" + Normalize(x)
  {
    assert ("\r\n" + x)[2..] == x;
  }

  lemma NormalizeChar(c: char, x: string)
    requires c == '\r' && x != "" ==> x[0] != '\n'
    ensures Normalize([c] + x) == [c] + Normalize(x)
  {
    assert ([c] + x)[1..] == x;
  }

  lemma NormalizeFirst(x: string)
    requires x != "" && x[0] != '\n' && !CrLfAt(x, 0)
    ensures Normalize(x) != "" && Normalize(x)[0] != '\n'
  {
  }

  /** Normalising again after more text arrived gives what one pass over everything gives. */
  lemma {:induction false} NormalizeResumes(p: string, b: string)
    requires Plain(p + b)
    ensures Normalize(Normalize(p) + b) == Normalize(p + b)
    decreases |p|
  {
    if p == "" {
      assert p + b == b && Normalize(p) + b == b;
    } else if CrLfAt(p, 0) {
      var q := p[2..];
      assert p == "\r\n" + q && p + b == "\r\n" + (q + b) && (p + b)[2..] == q + b;
      PlainTail(p + b, 2);
      NormalizeResumes(q, b);
      NormalizeCrLf(q);
      NormalizeCrLf(q + b);
      hide Normalize;
      NormalizeChar('\n', Normalize(q) + b);
      assert "\n" + Normalize(q) + b == ['\n'] + (Normalize(q) + b);
    } else {
      assert p == [p[0]] + p[1..];
      ResumesAfterChar(p[0], p[1..], b);
    }
  }

  lemma {:induction false} ResumesAfterChar(c: char, q: string, b: string)
    requires Plain([c] + q + b) && !CrLfAt([c] + q, 0)
    ensures Normalize(Normalize([c] + q) + b) == Normalize([c] + q + b)
    decreases |q| + 1, 0
  {
    var p := [c] + q;
    assert p + b == [c] + (q + b);
    if q == "" {
      assert p == [c];
      NormalizeChar(c, "");
      assert Normalize(p) == p;
    } else {
      assert q[0] == p[1];
      assert (p + b)[1..] == q + b;
      PlainTail(p + b, 1);
      NormalizeResumes(q, b);
      if c == '\r' {
        assert !CrCrLfAt(p + b, 0);
        assert (p + b)[1] == q[0] && (|q| > 1 ==> (p + b)[2] == q[1]);
        NormalizeFirst(q);
      }
      NormalizeChar(c, q);
      hide Normalize;
      NormalizeChar(c, q + b);
      assert Normalize(q) != "" || c != '\r';
      NormalizeChar(c, Normalize(q) + b);
      assert [c] + Normalize(q) + b == [c] + (Normalize(q) + b);
    }
  }

  /** A normalised text has no CRLF left, provided no CR preceded a CRLF. */
  lemma {:induction false} NormalizedIsUnix(s: string)
    requires Plain(s)
    ensures Unix(Normalize(s))
  {
    if s != "" {
      var n := if CrLfAt(s, 0) then 2 else 1;
      PlainTail(s, n);
      NormalizedIsUnix(s[n..]);
      var r, tail := Normalize(s), Normalize(s[n..]);
      assert r == [r[0]] + tail;
      assert !CrCrLfAt(s, 0);
      forall i ensures !CrLfAt(r, i) {
        if i > 0 { assert !CrLfAt(tail, i - 1); }
      }
    }
  }

  /** What is already normalised and complete is not touched by a later pass. */
  lemma {:induction false} NormalizeKeepsFront(a: string, c: string)
    requires Unix(a) && (a == "" || a[|a| - 1] != '\r')
    ensures Normalize(a + c) == a + Normalize(c)
  {
    if a == "" {
      assert a + c == c;
    } else {
      assert !CrLfAt(a, 0);
      assert (a + c)[1..] == a[1..] + c;
      forall i ensures !CrLfAt(a[1..], i) { assert !CrLfAt(a, i + 1); }
      NormalizeKeepsFront(a[1..], c);
    }
  }

  /** The position of a frame's end does not depend on what follows it. */
  lemma {:induction false} FindIsLocal(x: string, y: string)
    requires Find(x) >= 0
    ensures Find(x[..Find(x) + 2] + y) == Find(x)
  {
    var i := Find(x);
    var z := x[..i + 2] + y;
    if i > 0 {
      FindIsLocal(x[1..], y);
      assert z[1..] == x[1..][..i + 1] + y;
    }
  }

  lemma {:induction false} FindEnds(x: string)
    requires Find(x) >= 0
    ensures x[..Find(x) + 2] == x[..Find(x)] + "\n\n"
  {
    if Find(x) > 0 {
      FindEnds(x[1..]);
      assert x[..Find(x) + 2] == [x[0]] + x[1..][..Find(x) + 1];
    }
  }

  lemma SplitOnce(x: string)
    ensures Find(x) < 0 ==> Split(x) == ([], x)
    ensures Find(x) >= 0 ==> Split(x) == ([x[..Find(x)]] + Split(x[Find(x) + 2..]).0, Split(x[Find(x) + 2..]).1)
  {
  }

  lemma SplitFront(f: string, z: string)
    requires Find(f + "\n\n" + z) == |f|
    ensures Split(f + "\n\n" + z) == ([f] + Split(z).0, Split(z).1)
  {
    var x := f + "\n\n" + z;
    SplitOnce(x);
    assert x[..|f|] == f && x[|f| + 2..] == z;
  }

  lemma UnsplitFront(f: string, later: seq<string>, y: string)
    ensures Unsplit([f] + later) + y == f + "\n\n" + (Unsplit(later) + y)
  {
    assert ([f] + later)[1..] == later;
  }

  lemma FrontResumes(x: string, later: seq<string>, rest: string, y: string)
    requires Find(x) >= 0 && x[Find(x) + 2..] == Unsplit(later) + rest
    requires Split(Unsplit(later) + y) == (later + Split(y).0, Split(y).1)
    ensures var frames := [x[..Find(x)]] + later;
            x == Unsplit(frames) + rest && Split(Unsplit(frames) + y) == (frames + Split(y).0, Split(y).1)
  {
    hide Split, Unsplit;
    var i, z := Find(x), Unsplit(later) + y;
    var f := x[..i];
    FindEnds(x);
    UnsplitFront(f, later, y);
    UnsplitFront(f, later, rest);
    FindIsLocal(x, z);
    SplitFront(f, z);
    assert [f] + later + Split(y).0 == [f] + (later + Split(y).0);
    assert x == x[..i + 2] + x[i + 2..];
  }

  /** Cutting loses nothing, and frames already cut stay cut whatever follows them. */
  lemma {:induction false} SplitResumes(x: string, y: string)
    ensures x == Unsplit(Split(x).0) + Split(x).1
    ensures Split(Unsplit(Split(x).0) + y) == (Split(x).0 + Split(y).0, Split(y).1)
    decreases |x|
  {
    SplitOnce(x);
    if Find(x) < 0 {
      assert Unsplit([]) + y == y && [] + Split(y).0 == Split(y).0;
    } else {
      var tail := x[Find(x) + 2..];
      SplitResumes(tail, y);
      hide Split, Unsplit;
      FrontResumes(x, Split(tail).0, Split(tail).1, y);
    }
  }

  lemma {:induction false} UnsplitEnds(frames: seq<string>)
    ensures frames == [] || (Unsplit(frames) != "" && Unsplit(frames)[|Unsplit(frames)| - 1] == '\n')
  {
    if frames != [] { UnsplitEnds(frames[1..]); }
  }

  lemma UnixPrefix(a: string, b: string)
    requires Unix(a + b)
    ensures Unix(a)
  {
    forall i ensures !CrLfAt(a, i) { assert !CrLfAt(a + b, i); }
  }

  /** A pass over a half-cut buffer leaves the frames already cut alone. */
  lemma NormalizeBehindFrames(frames: seq<string>, rest: string, b: string)
    requires Unix(Unsplit(frames) + rest)
    ensures Normalize(Unsplit(frames) + rest + b) == Unsplit(frames) + Normalize(rest + b)
  {
    var u := Unsplit(frames);
    UnsplitEnds(frames);
    UnixPrefix(u, rest);
    NormalizeKeepsFront(u, rest + b);
    assert u + rest + b == u + (rest + b);
  }

  /** One more block: the decoder's state after the text `p` followed by `b` is what cutting
      the whole text gives. */
  lemma BlockResumes(p: string, b: string)
    requires Plain(p + b)
    ensures var (frames, rest) := Split(Normalize(p));
            var (more, rest') := Split(Normalize(rest + b));
            Split(Normalize(p + b)) == (frames + more, rest')
  {
    hide Split, Normalize, Unix, Plain, Unsplit;
    var (frames, rest) := Split(Normalize(p));
    PlainPrefix(p, b);
    NormalizeResumes(p, b);
    NormalizedIsUnix(p);
    SplitResumes(Normalize(p), Normalize(rest + b));
    NormalizeBehindFrames(frames, rest, b);
  }

  /** Any division of a text into blocks gives the same frames and the same leftover as cutting
      the whole text at once. */
  lemma {:induction false} FragmentationDoesNotMatter(blocks: seq<string>)
    requires Plain(Flat(blocks))
    ensures Feed(blocks) == Split(Normalize(Flat(blocks)))
  {
    if blocks != [] {
      var k := |blocks| - 1;
      PlainPrefix(Flat(blocks[..k]), blocks[k]);
      FragmentationDoesNotMatter(blocks[..k]);
      BlockResumes(Flat(blocks[..k]), blocks[k]);
    }
  }

  // ---- The condition is necessary

  /** How much text the decoder has kept, frames and leftover together. */
  function Kept(state: (seq<string>, string)): nat {
    |Unsplit(state.0)| + |state.1|
  }

  lemma NormalizeCrCrLf(c: string)
    ensures Normalize("\r\r\n" + c) == "\r\n" + Normalize(c)
  {
    assert "\r\r\n" + c == ['\r'] + ("\r\n" + c);
    NormalizeChar('\r', "\r\n" + c);
    NormalizeCrLf(c);
    hide Normalize;
    assert ['\r'] + ("\n" + Normalize(c)) == "\r\n" + Normalize(c);
  }

  /** A CR before a CRLF shields what precedes it from what follows. */
  lemma {:induction false} NormalizeAtCr(a: string, c: string)
    ensures Normalize(a + ("\r\r\n" + c)) == Normalize(a) + ("\r\n" + Normalize(c))
    decreases |a|
  {
    var tail := "\r\r\n" + c;
    if a == "" {
      assert a + tail == tail;
      NormalizeCrCrLf(c);
    } else if CrLfAt(a, 0) {
      var q := a[2..];
      assert a == "\r\n" + q && a + tail == "\r\n" + (q + tail);
      NormalizeAtCr(q, c);
      NormalizeCrLf(q);
      NormalizeCrLf(q + tail);
    } else {
      var q := a[1..];
      assert a == [a[0]] + q && a + tail == [a[0]] + (q + tail);
      NormalizeAtCr(q, c);
      if q != "" { assert q[0] == a[1] && (q + tail)[0] == q[0]; }
      NormalizeChar(a[0], q);
      NormalizeChar(a[0], q + tail);
    }
  }

  lemma NormalizeStopsAtCr(a: string, c: string)
    ensures |Normalize(a + "\r\r\n" + c)| == |Normalize(a)| + 2 + |Normalize(c)|
    ensures Normalize(a + "\r\r\n") == Normalize(a) + "\r\n"
  {
    NormalizeAtCr(a, c);
    NormalizeAtCr(a, "");
    assert Normalize("") == "";
    hide Normalize;
    assert a + "\r\r\n" + c == a + ("\r\r\n" + c) && a + "\r\r\n" == a + ("\r\r\n" + "");
    assert "\r\n" + "" == "\r\n";
  }

  lemma {:induction false} NormalizeShrinks(r: string, c: string)
    requires |r| >= 2 && CrLfAt(r, |r| - 2)
    ensures |Normalize(r + c)| < |r| + |Normalize(c)|
    decreases |r|
  {
    if |r| == 2 {
      assert (r + c)[2..] == c;
    } else {
      var n := if CrLfAt(r + c, 0) then 2 else 1;
      assert (r + c)[n..] == r[n..] + c;
      NormalizeShrinks(r[n..], c);
    }
  }

  lemma KeptIsLength(x: string)
    ensures Kept(Split(x)) == |x|
  {
    SplitResumes(x, "");
  }

  /** A text that ends in CR LF keeps both in the leftover: no frame ends there. */
  lemma {:induction false} CrLfStaysInRest(x: string)
    requires CrLfAt(x, |x| - 2)
    ensures |Split(x).1| >= 2 && CrLfAt(Split(x).1, |Split(x).1| - 2)
    decreases |x|
  {
    var i := Find(x);
    if i >= 0 {
      FindEnds(x);
      assert x[i] == (x[..i] + "\n\n")[i] && x[i + 1] == (x[..i] + "\n\n")[i + 1];
      CrLfStaysInRest(x[i + 2..]);
    }
  }

  /** With a CR before a CRLF, cutting the text right after it changes the outcome. */
  lemma CrCrLfIsFragile(a: string, c: string)
    ensures Feed([a + "\r\r\n", c]) != Split(Normalize(a + "\r\r\n" + c))
  {
    var first := a + "\r\r\n";
    var x := Normalize(first);
    NormalizeStopsAtCr(a, c);
    assert [first, c][..1] == [first] && [first][..0] == [] && "" + first == first;
    assert Feed([first]) == Split(x) by { assert [] + Split(x).0 == Split(x).0; }
    var (frames, rest) := Split(x);
    CrLfStaysInRest(x);
    NormalizeShrinks(rest, c);
    KeptIsLength(x);
    KeptIsLength(Normalize(rest + c));
    KeptIsLength(Normalize(a + "\r\r\n" + c));
    UnsplitAppend(frames, Split(Normalize(rest + c)).0);
  }

  lemma {:induction false} UnsplitAppend(a: seq<string>, b: seq<string>)
    ensures Unsplit(a + b) == Unsplit(a) + Unsplit(b)
  {
    if a == [] {
      assert a + b == b;
    } else {
      assert (a + b)[1..] == a[1..] + b;
      UnsplitAppend(a[1..], b);
    }
  }

  /** A text with a CR before a CRLF has two divisions that are decoded differently. */
  lemma NotPlainIsFragile(text: string, i: nat) returns (blocks: seq<string>)
    requires CrCrLfAt(text, i)
    ensures Flat(blocks) == text && Feed(blocks) != Split(Normalize(text))
  {
    var a, c := text[..i], text[i + 3..];
    assert text == a + "\r\r\n" + c;
    CrCrLfIsFragile(a, c);
    blocks := [a + "\r\r\n", c];
    hide Feed, Split, Normalize;
    TwoBlocks(a + "\r\r\n", c);
  }

  lemma TwoBlocks(a: string, b: string)
    ensures Flat([a, b]) == a + b
  {
    assert [a, b][..1] == [a] && [a][..0] == [];
    assert Flat([a]) == "" + a == a;
  }

  /** The exact condition: a text is decoded the same way under every division into blocks if
      and only if it contains no CR CR LF. */
  lemma FragmentationIndependence(text: string)
    ensures (forall blocks | Flat(blocks) == text :: Feed(blocks) == Split(Normalize(text))) <==> Plain(text)
  {
    if Plain(text) {
      forall blocks | Flat(blocks) == text ensures Feed(blocks) == Split(Normalize(text)) {
        FragmentationDoesNotMatter(blocks);
      }
    } else {
      var i :| CrCrLfAt(text, i);
      var blocks := NotPlainIsFragile(text, i);
    }
  }
}
