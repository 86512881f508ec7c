/** Where the frames of a text end before it is normalised. A decoder that normalises its leftover
    over and over finds the same frames, at the same places of the text. */
module FrameEnds {
  import opened EventFraming
  import opened Sequences

  /** The first k characters, normalised. */
  function UpTo(s: string, k: nat): string
    requires k <= |s|
  {
    Normalize(s[..k])
  }

  /** The first k characters contain a complete frame. */
  predicate Framed(s: string, k: nat)
    requires k <= |s|
  {
    Find(UpTo(s, k)) >= 0
  }

  /** The first position behind a complete frame, searching from k, or -1. */
  function EndFrom(s: string, k: nat): (e: int)
    requires k <= |s|
    ensures e == -1 || k <= e <= |s|
    ensures e >= 0 ==> Framed(s, e)
    ensures forall j | k <= j <= |s| && (e < 0 || j < e) :: !Framed(s, j)
    decreases |s| - k
  {
    if Framed(s, k) then k else if k == |s| then -1 else EndFrom(s, k + 1)
  }

  /** Where the first frame of the text ends, its blank line included, or -1. */
  function FrameEnd(s: string): (e: int)
    ensures e == -1 || 2 <= e <= |s|
    ensures e >= 0 ==> Framed(s, e)
  {
    EndFrom(s, 0)
  }

  lemma NotBefore(s: string, k: nat)
    requires k <= |s| && (FrameEnd(s) < 0 || k < FrameEnd(s))
    ensures !Framed(s, k)
  {
  }

  /** That frame, normalised and without its blank line. */
  function FirstFrame(s: string): string
    requires FrameEnd(s) >= 0
  {
    var x := UpTo(s, FrameEnd(s));
    x[..Find(x)]
  }

  // ---- Normalising at a cut

  lemma {:induction false} NormalizeCut(a: string, z: string)
    requires a == "" || z == "" || a[|a| - 1] != '\r' || z[0] != '\n'
    ensures Normalize(a + z) == Normalize(a) + Normalize(z)
    decreases |a|
  {
    if a == "" {
      assert a + z == z && Normalize("") == "";
      return;
    }
    hide Normalize;
    if CrLfAt(a, 0) {
      var q := a[2..];
      assert a == "\r\n" + q && a + z == "\r\n" + (q + z);
      NormalizeCut(q, z);
      NormalizeCrLf(q);
      NormalizeCrLf(q + z);
      Regroup("\n", Normalize(q), Normalize(z));
    } else {
      var q := a[1..];
      assert a == [a[0]] + q && a + z == [a[0]] + (q + z);
      NormalizeCut(q, z);
      Regroup([a[0]], Normalize(q), Normalize(z));
      if q != "" { assert q[0] == a[1] && (q + z)[0] == q[0]; } else { assert q + z == z; }
      NormalizeChar(a[0], q);
      NormalizeChar(a[0], q + z);
    }
  }

  /** A cut between the two characters of a CR LF. */
  lemma NormalizeTorn(z: string, w: string)
    ensures Normalize(z + "\r") == Normalize(z) + "\r" && Normalize(z + ("\r\n" + w)) == Normalize(z) + ("\n" + Normalize(w))
  {
    assert Normalize("\r") == "\r";
    NormalizeCrLf(w);
    hide Normalize;
    NormalizeCut(z, "\r");
    NormalizeCut(z, "\r\n" + w);
  }

  lemma {:induction false} UnixIsNormal(s: string)
    requires Unix(s)
    ensures Normalize(s) == s
  {
    if s != "" {
      assert !CrLfAt(s, 0);
      forall i ensures !CrLfAt(s[1..], i) { assert !CrLfAt(s, i + 1); }
      UnixIsNormal(s[1..]);
    }
  }

  /** One more character: it is appended, or it turns a final CR into the LF of a CR LF. */
  lemma NormalizeOne(y: string, c: char)
    ensures if c == '\n' && y != "" && y[|y| - 1] == '\r'
            then Normalize(y) == Normalize(y[..|y| - 1]) + "\r" && Normalize(y + [c]) == Normalize(y[..|y| - 1]) + "\n"
            else Normalize(y + [c]) == Normalize(y) + [c]
  {
    assert Normalize([c]) == [c];
    if c == '\n' && y != "" && y[|y| - 1] == '\r' {
      var z := y[..|y| - 1];
      assert y == z + "\r" && y + [c] == z + "\r\n";
      NormalizeCut(z, "\r");
      NormalizeCut(z, "\r\n");
      assert Normalize("\r\n") == "\n" by { assert "\r\n"[2..] == ""; }
      assert Normalize("\r") == "\r";
    } else {
      NormalizeCut(y, [c]);
    }
  }

  lemma {:induction false} FindOne(z: string, c: char)
    requires Find(z) < 0
    ensures Find(z + [c]) >= 0 ==> c == '\n' && z != "" && z[|z| - 1] == '\n' && Find(z + [c]) == |z| - 1
  {
    if |z| >= 2 {
      assert (z + [c])[1..] == z[1..] + [c];
      FindOne(z[1..], c);
    }
  }

  lemma {:induction false} FindPrefix(x: string, k: nat)
    requires Find(x) < 0 && k <= |x|
    ensures Find(x[..k]) < 0
  {
    if k >= 2 {
      assert x[..k][1..] == x[1..][..k - 1];
      FindPrefix(x[1..], k - 1);
    }
  }

  /** Where a blank line is completed, f is what stands before it. */
  lemma BlankAtEnd(z: string, c: char, f: string)
    requires Find(z) < 0 && Find(z + [c]) >= 0 && f == (z + [c])[..Find(z + [c])]
    ensures c == '\n' && z == f + "\n" && z + [c] == f + "\n\n" && Find(f + "\n\n") == |f|
  {
    FindOne(z, c);
    hide Find;
    assert z == z[..|z| - 1] + "\n" && f == z[..|z| - 1];
    assert z + [c] == f + "\n\n";
  }

  lemma BlankAfterCr(y: string, f: string)
    requires y != "" && y[|y| - 1] == '\r' && Find(Normalize(y)) < 0 && Find(Normalize(y + ['\n'])) >= 0
    requires f == Normalize(y + ['\n'])[..Find(Normalize(y + ['\n']))]
    ensures Normalize(y + ['\n']) == f + "\n\n" && Find(f + "\n\n") == |f| && Normalize(y) == f + "\n\r"
  {
    NormalizeOne(y, '\n');
    var z := Normalize(y[..|y| - 1]);
    hide Normalize, Find;
    assert Normalize(y)[..|z|] == z;
    FindPrefix(Normalize(y), |z|);
    assert Normalize(y + ['\n']) == z + ['\n'];
    BlankAtEnd(z, '\n', f);
    assert f + "\n" + "\r" == f + "\n\r";
  }

  lemma BlankCompleted(y: string, c: char, f: string)
    requires y != "" && Find(Normalize(y)) < 0 && Find(Normalize(y + [c])) >= 0
    requires f == Normalize(y + [c])[..Find(Normalize(y + [c]))]
    ensures c == '\n' && Normalize(y + [c]) == f + "\n\n" && Find(f + "\n\n") == |f|
    ensures Normalize(y) == f + (if y[|y| - 1] == '\r' then "\n\r" else "\n")
  {
    NormalizeOne(y, c);
    hide Normalize, Find;
    if c == '\n' && y[|y| - 1] == '\r' { BlankAfterCr(y, f); } else { BlankAtEnd(Normalize(y), c, f); }
  }

  /** A first frame ends in a blank line; before its last character the leftover is one or, with
      a CR there, two characters longer than the frame. */
  lemma FirstFrameEnds(s: string)
    requires FrameEnd(s) >= 0
    ensures var e, f := FrameEnd(s), FirstFrame(s);
            && s[e - 1] == '\n' && Normalize(s[..e]) == f + "\n\n" && Find(f + "\n\n") == |f|
            && Normalize(s[..e - 1]) == f + (if s[e - 2] == '\r' then "\n\r" else "\n")
  {
    var e := FrameEnd(s);
    var y := s[..e - 1];
    assert s[..e] == y + [s[e - 1]] && y[|y| - 1] == s[e - 2];
    NotBefore(s, e - 1);
    hide Normalize, Find, FrameEnd;
    BlankCompleted(y, s[e - 1], FirstFrame(s));
  }

  // ---- Reading on

  /** The first frame does not depend on what follows it. */
  lemma FrameIsLocal(x: string, later: string)
    requires FrameEnd(x) >= 0
    ensures FrameEnd(x + later) == FrameEnd(x) && FirstFrame(x + later) == FirstFrame(x)
    ensures (x + later)[FrameEnd(x)..] == x[FrameEnd(x)..] + later
  {
    var s, e := x + later, FrameEnd(x);
    forall k | 0 <= k <= e ensures s[..k] == x[..k] {}
    assert Framed(s, e);
    forall k | 0 <= k < e ensures !Framed(s, k) { NotBefore(x, k); }
    assert FrameEnd(s) == e;
  }

  lemma SameLast(x: string)
    ensures x == "" <==> Normalize(x) == ""
    ensures x != "" ==> Normalize(x)[|Normalize(x)| - 1] == x[|x| - 1]
  {
    if x != "" {
      var y := x[..|x| - 1];
      assert x == y + [x[|x| - 1]];
      NormalizeOne(y, x[|x| - 1]);
    }
  }

  lemma NormalizedAgain(x: string, later: string, k: nat)
    requires Plain(x + later) && k <= |later|
    ensures UpTo(Normalize(x) + later, |Normalize(x)| + k) == UpTo(x + later, |x| + k)
  {
    var now, rest := later[..k], later[k..];
    assert (Normalize(x) + later)[..|Normalize(x)| + k] == Normalize(x) + now;
    assert (x + later)[..|x| + k] == x + now && x + later == x + now + rest;
    hide Normalize, Plain;
    PlainPrefix(x + now, rest);
    NormalizeResumes(x, now);
  }

  lemma NoFrameInside(x: string, k: nat)
    requires Plain(x) && FrameEnd(x) < 0 && k <= |Normalize(x)|
    ensures Find(Normalize(Normalize(x)[..k])) < 0
  {
    var y := Normalize(x);
    NotBefore(x, |x|);
    assert x[..|x|] == x;
    NormalizedIsUnix(x);
    hide Normalize, Find, Unix, Plain;
    FindPrefix(y, k);
    assert y == y[..k] + y[k..];
    UnixPrefix(y[..k], y[k..]);
    UnixIsNormal(y[..k]);
  }

  /** A complete frame needs more than x. */
  lemma FramedNotYet(x: string, later: string, k: nat)
    requires Plain(x + later) && FrameEnd(x) < 0
    ensures k <= |x| ==> !Framed(x + later, k)
    ensures k <= |Normalize(x)| ==> !Framed(Normalize(x) + later, k)
  {
    PlainPrefix(x, later);
    hide Normalize, Find, Plain, FrameEnd;
    if k <= |x| {
      NotBefore(x, k);
      assert (x + later)[..k] == x[..k];
    }
    if k <= |Normalize(x)| {
      NoFrameInside(x, k);
      assert (Normalize(x) + later)[..k] == Normalize(x)[..k];
    }
  }

  /** Text that holds no complete frame may be normalised before the rest arrives: the next frame
      ends at the same place of the rest. */
  lemma NormalizedFrameEnd(x: string, later: string)
    requires Plain(x + later) && FrameEnd(x) < 0
    ensures var e, d := FrameEnd(x + later), FrameEnd(Normalize(x) + later);
            && (e < 0 <==> d < 0)
            && (e >= 0 ==> e > |x| && e - |x| == d - |Normalize(x)|)
  {
    var s, t, y := x + later, Normalize(x) + later, Normalize(x);
    var e, d := FrameEnd(s), FrameEnd(t);
    hide Normalize, Plain, UpTo, Find, FrameEnd;
    if e >= 0 {
      FramedNotYet(x, later, e);
      NormalizedAgain(x, later, e - |x|);
      if d < 0 || e - |x| + |y| < d { NotBefore(t, e - |x| + |y|); }
    }
    if d >= 0 {
      FramedNotYet(x, later, d);
      NormalizedAgain(x, later, d - |y|);
      if e < 0 || d - |y| + |x| < e { NotBefore(s, d - |y| + |x|); }
    }
  }

  lemma SameBehind(x: string, y: string, later: string, e: nat, d: nat)
    requires |x| < e <= |x + later| && e - |x| == d - |y|
    requires (x == "" <==> y == "") && (x != "" ==> x[|x| - 1] == y[|y| - 1])
    ensures (x + later)[e..] == (y + later)[d..]
    ensures e >= 2 && d >= 2 ==> (x + later)[e - 2] == (y + later)[d - 2]
  {
  }

  lemma SameFirst(s: string, t: string)
    requires FrameEnd(s) >= 0 && FrameEnd(t) >= 0 && UpTo(s, FrameEnd(s)) == UpTo(t, FrameEnd(t))
    ensures FirstFrame(s) == FirstFrame(t)
  {
  }

  /** It is the same frame, with the same line end and the same text behind it. */
  lemma NormalizedFrame(x: string, later: string)
    requires Plain(x + later) && FrameEnd(x) < 0 && FrameEnd(x + later) >= 0
    ensures var s, t := x + later, Normalize(x) + later;
            && FrameEnd(t) >= 0 && FirstFrame(s) == FirstFrame(t) && s[FrameEnd(s)..] == t[FrameEnd(t)..]
            && s[FrameEnd(s) - 2] == t[FrameEnd(t) - 2]
  {
    var y := Normalize(x);
    hide Normalize, Plain, FrameEnd, Find, FirstFrame, Framed, UpTo;
    NormalizedFrameEnd(x, later);
    var k := FrameEnd(x + later) - |x|;
    assert FrameEnd(x + later) == |x| + k && FrameEnd(y + later) == |y| + k;
    NormalizedAgain(x, later, k);
    SameFirst(x + later, y + later);
    SameLast(x);
    SameBehind(x, y, later, |x| + k, |y| + k);
  }

  lemma LastTwo(x: string)
    requires |Normalize(x)| >= 2 && Normalize(x)[|Normalize(x)| - 1] == '\r' && Normalize(x)[|Normalize(x)| - 2] == '\r'
    ensures |x| >= 2 && x[|x| - 1] == '\r' && x[|x| - 2] == '\r'
  {
    SameLast(x);
    var z := x[..|x| - 1];
    assert x == z + ['\r'];
    NormalizeOne(z, '\r');
    SameLast(z);
  }

  lemma RestIsPlain(x: string, later: string)
    requires Plain(x + later)
    ensures Plain(Normalize(x) + later)
  {
    var y := Normalize(x);
    PlainPrefix(x, later);
    NormalizedIsUnix(x);
    SameLast(x);
    if |y| >= 2 && y[|y| - 1] == '\r' && y[|y| - 2] == '\r' {
      LastTwo(x);
      assert !CrCrLfAt(x + later, |x| - 2);
    }
    hide Normalize;
    forall i ensures !CrCrLfAt(y + later, i) {
      assert !CrLfAt(y, i + 1) && !CrCrLfAt(x + later, i - |y| + |x|);
    }
  }

  /** The leftover, before more text arrives, is in the same situation as the text it stands for. */
  lemma RestStaysPlain(x: string, later: string)
    requires Plain(x + later) && FrameEnd(x) < 0
    ensures Plain(Normalize(x) + later) && Normalize(Normalize(x)) == Normalize(x) && FrameEnd(Normalize(x)) < 0
  {
    RestIsPlain(x, later);
    PlainPrefix(x, later);
    NormalizedIsUnix(x);
    UnixIsNormal(Normalize(x));
    hide Normalize, FrameEnd, Plain, Unix;
    assert x + "" == x && Normalize(x) + "" == Normalize(x);
    NormalizedFrameEnd(x, "");
  }

  lemma FrameEndOfPrefix(s: string, k: nat)
    requires k <= |s|
    ensures FrameEnd(s) >= 0 && k < FrameEnd(s) ==> FrameEnd(s[..k]) < 0
    ensures 0 <= FrameEnd(s) <= k ==> FrameEnd(s[..k]) == FrameEnd(s) && FirstFrame(s[..k]) == FirstFrame(s)
  {
    var e := FrameEnd(s);
    var x := s[..k];
    assert s == x + s[k..];
    if FrameEnd(x) >= 0 { FrameIsLocal(x, s[k..]); }
    if 0 <= e <= k {
      assert x[..e] == s[..e];
      if FrameEnd(x) < 0 { NotBefore(x, e); }
    }
  }

  // ---- Cutting the normalised text gives the same frames

  lemma FirstFrameSplits(s: string)
    requires FrameEnd(s) >= 0
    ensures var f, z := FirstFrame(s), Normalize(s[FrameEnd(s)..]);
            Normalize(s) == f + "\n\n" + z && Find(f + "\n\n" + z) == |f|
  {
    var e, f := FrameEnd(s), FirstFrame(s);
    FirstFrameEnds(s);
    assert s == s[..e] + s[e..] && s[..e][|s[..e]| - 1] == s[e - 1];
    hide FrameEnd, FirstFrame;
    NormalizeCut(s[..e], s[e..]);
    var z := Normalize(s[e..]);
    hide Normalize;
    assert (f + "\n\n")[..|f| + 2] + z == f + "\n\n" + z;
    FindIsLocal(f + "\n\n", z);
  }

  lemma NoFrameNoBlank(s: string)
    requires FrameEnd(s) < 0
    ensures Find(Normalize(s)) < 0
  {
    NotBefore(s, |s|);
    assert s[..|s|] == s;
  }

  lemma SplitFrames(s: string)
    ensures FrameEnd(s) < 0 ==> Split(Normalize(s)) == ([], Normalize(s))
    ensures FrameEnd(s) >= 0 ==>
              var (frames, rest) := Split(Normalize(s[FrameEnd(s)..]));
              Split(Normalize(s)) == ([FirstFrame(s)] + frames, rest)
  {
    if FrameEnd(s) < 0 {
      NoFrameNoBlank(s);
    } else {
      FirstFrameSplits(s);
      hide Normalize, FrameEnd, FirstFrame, Find;
      SplitFront(FirstFrame(s), Normalize(s[FrameEnd(s)..]));
    }
  }

  lemma LineEnds()
    ensures Normalize("\r\n\r\n") == "\n\n" && Normalize("\r\n\r") == "\n\r"
  {
    NormalizeCrLf("\r\n");
    NormalizeCrLf("");
    NormalizeCrLf("\r");
    assert "\r\n" + "\r\n" == "\r\n\r\n" && "\r\n" + "\r" == "\r\n\r" && "\r\n" + "" == "\r\n";
    assert Normalize("\r") == "\r" && Normalize("") == "";
  }
}
