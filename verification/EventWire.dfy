/** The text of one frame: how the server writes it (`RunStream.frames`) and how the client
    reads its fields (`consumeEvents`). */
module EventWire {
  import opened EventFraming
  import opened Sequences

  /** What the server sends: a keep-alive comment, or an event with an optional id. */
  datatype Frame = Comment(text: string) | Event(id: string, name: string, data: string)

  function Body(f: Frame): string {
    match f
    case Comment(text) => ": " + text
    case Event(id, name, data) =>
      (if id == "" then "" else "id: " + id + "\n") + ("event: " + name + "\n" + ("data: " + data))
  }

  function Encode(fs: seq<Frame>): string {
    if fs == [] then "" else Body(fs[0]) + "\n\n" + Encode(fs[1..])
  }

  function Bodies(fs: seq<Frame>): seq<string> {
    seq(|fs|, i requires 0 <= i < |fs| => Body(fs[i]))
  }

  predicate OneLine(s: string) {
    forall i | 0 <= i < |s| :: s[i] != '\n' && s[i] != '\r'
  }

  /** Payloads are JSON on one line; ids and names are plain words. */
  predicate Sendable(f: Frame) {
    match f
    case Comment(text) => OneLine(text)
    case Event(id, name, data) => OneLine(id) && OneLine(name) && OneLine(data)
  }

  // ---- Reading a frame

  datatype Fields = Fields(name: string, id: string, data: seq<string>)

  function IndexOf(s: string, c: char): (i: nat)
    ensures i <= |s| && (i < |s| ==> s[i] == c)
    ensures forall j | 0 <= j < i :: s[j] != c
  {
    if s == "" || s[0] == c then 0 else 1 + IndexOf(s[1..], c)
  }

  function Lines(s: string): seq<string>
    decreases |s|
  {
    var i := IndexOf(s, '\n');
    if i == |s| then [s] else [s[..i]] + Lines(s[i + 1..])
  }

  /** The field value after a colon, without one leading space. */
  function Value(s: string): string {
    if s != "" && s[0] == ' ' then s[1..] else s
  }

  function ReadLine(f: Fields, line: string): Fields {
    if line != "" && line[0] == ':' then f
    else
      var colon := IndexOf(line, ':');
      var name := line[..colon];
      var value := if colon == |line| then "" else Value(line[colon + 1..]);
      if name == "event" then f.(name := value)
      else if name == "id" then f.(id := value)
      else if name == "data" then f.(data := f.data + [value])
      else f
  }

  function ReadLines(f: Fields, lines: seq<string>): Fields
    decreases |lines|
  {
    if lines == [] then f else ReadLines(ReadLine(f, lines[0]), lines[1..])
  }

  function ReadFrame(frame: string): Fields {
    ReadLines(Fields("", "", []), Lines(frame))
  }

  /** The fields a sent frame stands for. */
  function FieldsOf(f: Frame): Fields {
    match f
    case Comment(_) => Fields("", "", [])
    case Event(id, name, data) => Fields(name, id, [data])
  }

  // ---- A frame survives the trip

  lemma {:induction false} IndexOfAfter(a: string, c: char, b: string)
    requires forall i | 0 <= i < |a| :: a[i] != c
    ensures IndexOf(a + [c] + b, c) == |a|
  {
    if a != "" {
      assert (a + [c] + b)[1..] == a[1..] + [c] + b;
      IndexOfAfter(a[1..], c, b);
    }
  }

  lemma LinesCons(a: string, b: string)
    requires OneLine(a)
    ensures Lines(a + "\n" + b) == [a] + Lines(b)
  {
    IndexOfAfter(a, '\n', b);
    assert (a + "\n" + b)[..|a|] == a && (a + "\n" + b)[|a| + 1..] == b;
  }

  lemma {:induction false} LastLine(a: string)
    requires OneLine(a)
    ensures Lines(a) == [a]
  {
    var i := IndexOf(a, '\n');
    assert i == |a|;
  }

  lemma ReadField(f: Fields, name: string, value: string)
    requires name != "" && forall i | 0 <= i < |name| :: name[i] != ':'
    ensures ReadLine(f, name + ": " + value) ==
            if name == "event" then f.(name := value)
            else if name == "id" then f.(id := value)
            else if name == "data" then f.(data := f.data + [value])
            else f
  {
    var line := name + ": " + value;
    assert line == name + [':'] + (" " + value);
    IndexOfAfter(name, ':', " " + value);
    assert line[..|name|] == name && line[|name| + 1..] == " " + value && (" " + value)[1..] == value;
  }

  lemma ReadCons(f: Fields, line: string, lines: seq<string>)
    ensures ReadLines(f, [line] + lines) == ReadLines(ReadLine(f, line), lines)
  {
    assert ([line] + lines)[1..] == lines;
  }

  lemma OneLineJoin(a: string, b: string)
    requires OneLine(a) && OneLine(b)
    ensures OneLine(a + b)
  {
  }

  lemma EventLine(f: Fields, name: string)
    ensures ReadLine(f, "event: " + name) == f.(name := name)
  {
    assert "event: " + name == "event" + ": " + name;
    ReadField(f, "event", name);
  }

  lemma DataLine(f: Fields, data: string)
    ensures ReadLine(f, "data: " + data) == f.(data := f.data + [data])
  {
    assert "data: " + data == "data" + ": " + data;
    ReadField(f, "data", data);
  }

  lemma TwoLines(name: string, data: string)
    requires OneLine(name) && OneLine(data)
    ensures Lines("event: " + name + "\n" + ("data: " + data)) == ["event: " + name] + ["data: " + data]
  {
    OneLineJoin("event: ", name);
    OneLineJoin("data: ", data);
    hide OneLine, Lines;
    LinesCons("event: " + name, "data: " + data);
    LastLine("data: " + data);
  }

  lemma EventLines(name: string, data: string, f: Fields)
    requires OneLine(name) && OneLine(data) && f.data == []
    ensures ReadLines(f, Lines("event: " + name + "\n" + ("data: " + data))) == Fields(name, f.id, [data])
  {
    var e, d := "event: " + name, "data: " + data;
    TwoLines(name, data);
    EventLine(f, name);
    DataLine(f.(name := name), data);
    assert f.data + [data] == [data];
    hide Lines, ReadLine, OneLine;
    ReadCons(f, e, [d]);
    assert [d] == [d] + [];
    ReadCons(f.(name := name), d, []);
  }

  /** Reading back what was written gives exactly the id, name and payload that were sent, also
      when the payload starts with a space or contains colons. */
  lemma FrameRoundTrip(f: Frame)
    requires Sendable(f)
    ensures ReadFrame(Body(f)) == FieldsOf(f)
  {
    var none := Fields("", "", []);
    match f
    case Comment(text) =>
      LastLine(": " + text);
      ReadCons(none, ": " + text, []);
      assert [": " + text] + [] == [": " + text];
    case Event(id, name, data) =>
      var rest := "event: " + name + "\n" + ("data: " + data);
      if id == "" {
        assert Body(f) == rest;
        EventLines(name, data, none);
      } else {
        var i := "id: " + id;
        assert Body(f) == i + "\n" + rest;
        LinesCons(i, rest);
        assert i == "id" + ": " + id;
        ReadField(none, "id", id);
        EventLines(name, data, none.(id := id));
        ReadCons(none, i, Lines(rest));
      }
  }

  // ---- A stream of frames survives any fragmentation and any truncation

  /** A nonempty text without blank lines that neither starts nor ends with a line end. */
  ghost predicate Tight(s: string) {
    && s != "" && s[0] != '\n' && s[|s| - 1] != '\n'
    && (forall i :: !(0 <= i < |s| - 1 && s[i] == '\n' && s[i + 1] == '\n'))
    && (forall i | 0 <= i < |s| :: s[i] != '\r')
  }

  lemma TightLine(s: string)
    requires OneLine(s) && s != ""
    ensures Tight(s)
  {
  }

  lemma TightJoin(a: string, b: string)
    requires Tight(a) && Tight(b)
    ensures Tight(a + "\n" + b)
  {
  }

  lemma BodyIsTight(f: Frame)
    requires Sendable(f)
    ensures Tight(Body(f))
  {
    match f
    case Comment(text) => TightLine(": " + text);
    case Event(id, name, data) =>
      TightLine("event: " + name);
      TightLine("data: " + data);
      TightJoin("event: " + name, "data: " + data);
      if id != "" {
        TightLine("id: " + id);
        TightJoin("id: " + id, "event: " + name + "\n" + ("data: " + data));
        assert Body(f) == "id: " + id + "\n" + ("event: " + name + "\n" + ("data: " + data));
      } else {
        assert Body(f) == "event: " + name + "\n" + ("data: " + data);
      }
  }

  lemma {:induction false} FindAfterTight(b: string, z: string)
    requires b == "" || Tight(b)
    ensures Find(b + "\n\n" + z) == |b|
  {
    if b != "" {
      var s := b + "\n\n" + z;
      assert s[1..] == b[1..] + "\n\n" + z;
      if |b| > 1 && b[1] == '\n' {
        assert |b| > 2;
        FindAfterTight(b[2..], z);
        assert s[1..][1..] == b[2..] + "\n\n" + z;
        assert Find(s[1..][1..]) == |b| - 2;
      } else {
        FindAfterTight(b[1..], z);
      }
    }
  }

  lemma {:induction false} NoBlankBefore(f: string)
    requires forall i :: !(0 <= i < |f| - 1 && f[i] == '\n' && f[i + 1] == '\n')
    requires f != "" ==> f[|f| - 1] != '\n'
    ensures Find(f + "\n") < 0
  {
    if f != "" {
      var s := f + "\n";
      assert s[1..] == f[1..] + "\n";
      assert !(0 <= 0 < |f| - 1 && f[0] == '\n' && f[0 + 1] == '\n');
      forall i ensures !(0 <= i < |f[1..]| - 1 && f[1..][i] == '\n' && f[1..][i + 1] == '\n') {
        assert !(0 <= i + 1 < |f| - 1 && f[i + 1] == '\n' && f[i + 1 + 1] == '\n');
      }
      NoBlankBefore(f[1..]);
    }
  }

  lemma {:induction false} SplitEncoded(fs: seq<Frame>)
    requires forall f | f in fs :: Sendable(f)
    ensures Split(Encode(fs)) == (Bodies(fs), "")
  {
    if fs != [] {
      SplitEncoded(fs[1..]);
      BodyIsTight(fs[0]);
      assert Bodies(fs) == [Body(fs[0])] + Bodies(fs[1..]);
      var z := Encode(fs[1..]);
      assert Encode(fs) == Body(fs[0]) + "\n\n" + z;
      hide Split, Body, Tight, Encode, Sendable, Find;
      FindAfterTight(Body(fs[0]), z);
      SplitFront(Body(fs[0]), z);
    }
  }

  lemma {:induction false} EncodedHasNoCr(fs: seq<Frame>)
    requires forall f | f in fs :: Sendable(f)
    ensures forall i | 0 <= i < |Encode(fs)| :: Encode(fs)[i] != '\r'
  {
    if fs != [] {
      BodyIsTight(fs[0]);
      EncodedHasNoCr(fs[1..]);
    }
  }

  lemma {:induction false} NormalizeWithoutCr(s: string)
    requires forall i | 0 <= i < |s| :: s[i] != '\r'
    ensures Normalize(s) == s && Plain(s)
  {
    if s != "" { NormalizeWithoutCr(s[1..]); }
  }

  lemma SplitOfPrefix(x: string, y: string)
    ensures Split(x).0 <= Split(x + y).0
  {
    SplitResumes(x, Split(x).1 + y);
    hide Split, Unsplit;
    assert Unsplit(Split(x).0) + Split(x).1 + y == Unsplit(Split(x).0) + (Split(x).1 + y);
  }

  lemma PrefixDecodes(fs: seq<Frame>, text: string)
    requires (forall f | f in fs :: Sendable(f)) && text <= Encode(fs)
    ensures Plain(text) && Split(Normalize(text)).0 <= Bodies(fs)
    ensures text == Encode(fs) ==> Split(Normalize(text)) == (Bodies(fs), "")
  {
    EncodedHasNoCr(fs);
    NormalizeWithoutCr(text);
    SplitEncoded(fs);
    hide Split, Encode, Normalize, Plain;
    assert Encode(fs) == text + Encode(fs)[|text|..];
    SplitOfPrefix(text, Encode(fs)[|text|..]);
  }

  /** Whatever the server writes, the client decodes the same frames however the bytes are cut
      into blocks; if the connection breaks anywhere, it has decoded a prefix of them. */
  lemma {:induction false} StreamSurvivesTransport(fs: seq<Frame>, blocks: seq<string>)
    requires forall f | f in fs :: Sendable(f)
    requires Flat(blocks) <= Encode(fs)
    ensures Feed(blocks).0 <= Bodies(fs)
    ensures Flat(blocks) == Encode(fs) ==> Feed(blocks) == (Bodies(fs), "")
    ensures forall i | 0 <= i < |Feed(blocks).0| :: ReadFrame(Feed(blocks).0[i]) == FieldsOf(fs[i])
  {
    hide Feed, Split, Normalize, Encode, ReadFrame, Body, Plain, Flat;
    PrefixDecodes(fs, Flat(blocks));
    FragmentationDoesNotMatter(blocks);
    forall i | 0 <= i < |Feed(blocks).0| ensures ReadFrame(Feed(blocks).0[i]) == FieldsOf(fs[i]) {
      assert Feed(blocks).0[i] == Bodies(fs)[i];
      FrameRoundTrip(fs[i]);
    }
  }
}
