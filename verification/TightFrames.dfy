/** Frames without blank lines and CRs, as the server writes them, while their blank line arrives. */
module TightFrames {
  import opened EventFraming
  import opened EventWire
  import opened FrameEnds

  /** A tight frame behind which a blank line arrives, with LF line ends: before the last
      character there is no frame yet. */
  lemma TightFrame(f: string)
    requires Tight(f)
    ensures Normalize(f + "\n\n") == f + "\n\n" && Find(f + "\n\n") == |f|
    ensures Normalize(f + "\n") == f + "\n" && Find(f + "\n") < 0
  {
    NormalizeWithoutCr(f + "\n\n");
    NormalizeWithoutCr(f + "\n");
    NoBlankBefore(f);
    hide Normalize, Find;
    assert f + "\n\n" + "" == f + "\n\n";
    FindAfterTight(f, "");
  }

  /** The same with CR LF line ends. */
  lemma TightFrameAtCr(f: string)
    requires Tight(f)
    ensures Normalize(f + "\r\n\r\n") == f + "\n\n" && Find(f + "\n\n") == |f|
    ensures Normalize(f + "\r\n\r") == f + "\n\r" && Find(f + "\n\r") < 0
  {
    TightFrame(f);
    NormalizeWithoutCr(f);
    LineEnds();
    NormalizeCut(f, "\r\n\r\n");
    NormalizeCut(f, "\r\n\r");
    hide Normalize, Tight;
    FindOne(f + "\n", '\r');
    assert f + "\n" + ['\r'] == f + "\n\r";
  }

  /** A tight frame with its blank line at the front of a text is its first frame. */
  lemma TightFirst(f: string, z: string)
    requires Tight(f)
    ensures var s := f + "\n\n" + z;
            FrameEnd(s) == |f| + 2 && FirstFrame(s) == f && s[|f| + 2..] == z && s[|f|] == '\n'
  {
    var x := f + "\n\n";
    TightFrame(f);
    forall k | 0 <= k < |x| ensures !Framed(x, k) {
      var y := f + "\n";
      assert x[..k] == y[..k];
      FindPrefix(y, k);
      NormalizeWithoutCr(y[..k]);
    }
    assert x[..|x|] == x && Framed(x, |x|);
    assert FrameEnd(x) == |x|;
    assert FirstFrame(x) == f;
    hide Normalize, Tight, FrameEnd, FirstFrame, Framed;
    FrameIsLocal(x, z);
  }
}
