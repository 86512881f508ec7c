/** The program reads server-sent events twice: the provider's stream in the backend and the run's
    events in the browser. The two decoders read a frame's payload in different ways; this module
    says for which frames they agree. */
module TwoDecoders {
  import opened EventWire
  import opened ProviderStream
  import opened Sequences

  /** How many lines are the bare word `data`. */
  function Bare(lines: seq<string>): nat {
    if lines == [] then 0 else (if lines[0] == "data" then 1 else 0) + Bare(lines[1..])
  }

  /** What the browser decoder collects from the lines of a frame. */
  function Collected(lines: seq<string>): seq<string> {
    if lines == [] then []
    else
      (if IsData(lines[0]) then [EventWire.Value(lines[0][5..])] else if lines[0] == "data" then [""] else [])
      + Collected(lines[1..])
  }

  lemma DataName(line: string)
    ensures IsData(line) <==> IndexOf(line, ':') == 4 && |line| > 4 && line[..4] == "data"
  {
    if IsData(line) {
      assert line[..5][..4] == line[..4] && line[..5][4] == line[4];
      assert forall j | 0 <= j < 4 :: line[j] == "data"[j];
    }
    if IndexOf(line, ':') == 4 && |line| > 4 && line[..4] == "data" { assert line[..5] == line[..4] + [line[4]]; }
  }

  lemma LineCollects(f: Fields, line: string)
    ensures ReadLine(f, line).data == f.data + Collected([line])
  {
    DataName(line);
    assert [line][1..] == [] && Collected([]) == [];
    var colon := IndexOf(line, ':');
    assert line[..colon] == "data" ==> |line[..colon]| == 4;
    assert colon == |line| ==> line[..colon] == line;
  }

  lemma {:induction false} BrowserCollects(f: Fields, lines: seq<string>)
    ensures ReadLines(f, lines).data == f.data + Collected(lines)
    decreases |lines|
  {
    if lines != [] {
      LineCollects(f, lines[0]);
      BrowserCollects(ReadLine(f, lines[0]), lines[1..]);
      assert [lines[0]][1..] == [] && Collected([lines[0]]) + Collected(lines[1..]) == Collected(lines);
    }
  }

  /** The browser collects what the provider's decoder does, and an empty line for each bare word. */
  lemma {:induction false} CollectedMore(lines: seq<string>)
    ensures |Collected(lines)| == |DataLines(lines)| + Bare(lines)
    ensures Bare(lines) == 0 ==> Collected(lines) == DataLines(lines)
  {
    if lines != [] { CollectedMore(lines[1..]); }
  }

  function LineFeeds(s: string): nat {
    if s == "" then 0 else (if s[0] == '\n' then 1 else 0) + LineFeeds(s[1..])
  }

  lemma {:induction false} LineFeedsAppend(a: string, b: string)
    ensures LineFeeds(a + b) == LineFeeds(a) + LineFeeds(b)
  {
    if a == "" {
      assert a + b == b;
    } else {
      assert (a + b)[1..] == a[1..] + b;
      LineFeedsAppend(a[1..], b);
    }
  }

  /** Joining lines without line feeds puts one between each two of them. */
  lemma {:induction false} JoinedLineFeeds(data: seq<string>)
    requires forall d | d in data :: LineFeeds(d) == 0
    ensures LineFeeds(Join(data, "\n")) == if data == [] then 0 else |data| - 1
    decreases |data|
  {
    if |data| > 1 {
      assert data[0] in data && forall d | d in data[1..] :: d in data;
      JoinedLineFeeds(data[1..]);
      LineFeedsAppend(data[0] + "\n", Join(data[1..], "\n"));
      LineFeedsAppend(data[0], "\n");
      assert LineFeeds("\n") == 1;
    } else if data != [] {
      assert data[0] in data;
    }
  }

  lemma {:induction false} NoLineFeeds(s: string)
    requires forall i | 0 <= i < |s| :: s[i] != '\n'
    ensures LineFeeds(s) == 0
  {
    if s != "" { NoLineFeeds(s[1..]); }
  }

  lemma {:induction false} LinesHaveNone(s: string, line: string)
    requires line in Lines(s)
    ensures forall i | 0 <= i < |line| :: line[i] != '\n'
    decreases |s|
  {
    var i := IndexOf(s, '\n');
    if i < |s| && line != s[..i] { LinesHaveNone(s[i + 1..], line); }
  }

  lemma {:induction false} ValuesHaveNone(lines: seq<string>, d: string)
    requires forall line | line in lines :: forall i | 0 <= i < |line| :: line[i] != '\n'
    requires d in DataLines(lines) || d in Collected(lines)
    ensures LineFeeds(d) == 0
    decreases |lines|
  {
    var line := lines[0];
    assert line in lines;
    if IsData(line) && d == EventWire.Value(line[5..]) {
      NoLineFeeds(d);
    } else if d != "" {
      ValuesHaveNone(lines[1..], d);
    }
  }

  /** The exact condition: the provider decoder and the browser decoder read the same payload from
      a frame if and only if none of its lines is the bare word `data`, or exactly one is and the
      frame has no `data:` line. */
  lemma TwoDecodersAgree(frame: string)
    ensures DataOf(frame) == Join(ReadFrame(frame).data, "\n")
            <==> Bare(Lines(frame)) == 0 || (Bare(Lines(frame)) == 1 && forall line | line in Lines(frame) :: !IsData(line))
  {
    var lines := Lines(frame);
    BrowserCollects(Fields("", "", []), lines);
    assert [] + Collected(lines) == Collected(lines);
    CollectedMore(lines);
    forall line | line in lines ensures forall i | 0 <= i < |line| :: line[i] != '\n' { LinesHaveNone(frame, line); }
    forall d | d in DataLines(lines) || d in Collected(lines) ensures LineFeeds(d) == 0 { ValuesHaveNone(lines, d); }
    JoinedLineFeeds(DataLines(lines));
    JoinedLineFeeds(Collected(lines));
    NoDataLines(lines);
    if DataLines(lines) == [] && Bare(lines) == 1 { OneBare(lines); }
  }

  lemma {:induction false} NoDataLines(lines: seq<string>)
    ensures DataLines(lines) == [] <==> forall line | line in lines :: !IsData(line)
  {
    if lines != [] {
      NoDataLines(lines[1..]);
      assert lines == [lines[0]] + lines[1..];
    }
  }

  lemma {:induction false} OneBare(lines: seq<string>)
    requires DataLines(lines) == [] && Bare(lines) <= 1
    ensures Join(Collected(lines), "\n") == ""
  {
    if lines != [] {
      OneBare(lines[1..]);
      CollectedMore(lines[1..]);
      if lines[0] == "data" { assert Collected(lines) == [""] + []; }
    }
  }

  lemma DataWords()
    ensures !IsData("data") && IsData("data: x") && EventWire.Value("data: x"[5..]) == "x"
  {
    assert "data: x"[..5] == "data:" && "data: x"[5..] == " x" && " x"[1..] == "x";
  }

  lemma BareThenData(lines: seq<string>)
    requires lines == ["data"] + ["data: x"]
    ensures DataLines(lines) == ["x"] && Collected(lines) == [""] + ["x"]
  {
    DataWords();
    assert ["data: x"] == ["data: x"] + [];
    hide IsData, EventWire.Value;
    FirstLine("data: x", []);
    FirstLine("data", ["data: x"]);
  }

  /** It fails, for example, on a bare word in front of a `data:` line. */
  lemma TwoDecodersDiffer()
    ensures DataOf("data\ndata: x") == "x" && Join(ReadFrame("data\ndata: x").data, "\n") == "\nx"
  {
    var lines := ["data"] + ["data: x"];
    TheseLines();
    BareThenData(lines);
    BrowserCollects(Fields("", "", []), lines);
    hide Lines, DataLines, Collected, ReadLines;
    assert [] + ([""] + ["x"]) == [""] + ["x"];
    assert ([""] + ["x"])[1..] == ["x"] && "" + "\n" + "x" == "\nx";
  }

  lemma TheseLines()
    ensures Lines("data\ndata: x") == ["data"] + ["data: x"]
  {
    assert OneLine("data");
    assert OneLine("data: x");
    hide OneLine, Lines;
    TwoLinesOf("data", "data: x");
    assert "data" + "\n" + "data: x" == "data\ndata: x";
  }

  lemma TwoLinesOf(a: string, b: string)
    requires OneLine(a) && OneLine(b)
    ensures Lines(a + "\n" + b) == [a] + [b]
  {
    LinesCons(a, b);
    LastLine(b);
  }

  lemma FirstLine(line: string, later: seq<string>)
    ensures DataLines([line] + later) == (if IsData(line) then [EventWire.Value(line[5..])] else []) + DataLines(later)
    ensures Collected([line] + later) ==
            (if IsData(line) then [EventWire.Value(line[5..])] else if line == "data" then [""] else []) + Collected(later)
  {
    assert ([line] + later)[1..] == later;
  }
}
