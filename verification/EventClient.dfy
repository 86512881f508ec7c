/** The browser side of the run timeline (`consumeEvents`): bytes in, callbacks out. The method
    below decodes, limits and interprets the stream as it arrives; the lemmas say when its result
    depends only on the text received, not on how it was cut into blocks, and that it understands
    what the server sends. */
module EventClient {
  import opened Options
  import opened AnswerRuns
  import opened EventFraming
  import opened EventServer
  import opened EventWire
  import opened FrameEnds
  import opened FrameLimits
  import opened Sequences
  import opened SourceLines
  import opened TightFrames
  import TimelineView

  const MAX_BYTES := 2 * 1024 * 1024
  const MAX_FRAME := 65536

  /** A block as read from the network: its decoded text and its size in bytes. */
  datatype Block = Block(text: string, bytes: nat)

  datatype RunEvent = RunEvent(run: string, sequence: nat, status: Status)

  datatype AnswerPreview = AnswerPreview(run: string, revision: nat, text: string)

  /** The JSON payloads: how the server writes events and previews, and how the client parses them
      (`None` is no JSON of the right shape). */
  datatype Codec = Codec(
    showEvent: RunEvent -> string, readEvent: string -> Option<RunEvent>,
    showPreview: AnswerPreview -> string, readPreview: string -> Option<AnswerPreview>,
    readCode: string -> Option<string>)

  /** The bounds of the client's schemas. */
  predicate EventSchema(e: RunEvent) { 1 <= e.sequence <= 3 }

  predicate PreviewSchema(p: AnswerPreview) { p.revision <= 256 && Units(p.text) <= 16000 }

  datatype Outcome = Open | Done | Again | Fault(reason: string)

  const SCHEMA := Fault("schema")

  /** `calls` are the callbacks made, `revision` is the last preview revision passed on, -1 before
      the first. */
  datatype Client = Client(cursor: nat, calls: seq<TimelineView.Callback>, revision: int, outcome: Outcome)

  function Start(cursor: nat): Client { Client(cursor, [], -1, Open) }

  function Digits(n: nat): (s: string)
    ensures s != "" && OneLine(s)
  {
    if n < 10 then ["0123456789"[n]] else Digits(n / 10) + ["0123456789"[n % 10]]
  }

  /** The client's reaction to one decoded frame. */
  function HandleFields(run: string, codec: Codec, c: Client, f: Fields): Client {
    if f.name == "" then c
    else if f.name == "run.status" then
      match codec.readEvent(Join(f.data, "\n"))
      case None => c.(outcome := SCHEMA)
      case Some(e) =>
        if !EventSchema(e) then c.(outcome := SCHEMA)
        else if e.run != run || f.id != Digits(e.sequence) then c.(outcome := Fault("Invalid event identity"))
        else if e.sequence <= c.cursor then c
        else if e.sequence != c.cursor + 1 then c.(outcome := Fault("Event sequence gap"))
        else c.(cursor := e.sequence, calls := c.calls + [TimelineView.OnEvent(TimelineView.Entry(e.sequence, e.status))])
    else if f.name == "answer.preview" then
      match codec.readPreview(Join(f.data, "\n"))
      case None => c.(outcome := SCHEMA)
      case Some(p) =>
        if !PreviewSchema(p) then c.(outcome := SCHEMA)
        else if f.id != "" || p.run != run then c.(outcome := Fault("Invalid preview identity"))
        else if p.revision >= c.revision then c.(calls := c.calls + [TimelineView.OnPreview(p.revision, p.text)], revision := p.revision)
        else c
    else if f.name == "stream.end" then c.(outcome := Done)
    else if f.name == "stream.reconnect" then c.(outcome := Again)
    else if f.name == "stream.error" then
      match codec.readCode(Join(f.data, "\n"))
      case None => c.(outcome := SCHEMA)
      case Some(code) => c.(outcome := Fault(if code == "unauthenticated" then "401" else "503"))
    else c.(outcome := Fault("Unknown stream event"))
  }

  /** The frame carries the run's next event. */
  ghost predicate NextEvent(run: string, codec: Codec, c: Client, f: Fields, e: RunEvent) {
    && f.name == "run.status" && codec.readEvent(Join(f.data, "\n")) == Some(e) && e.run == run && f.id == Digits(e.sequence)
    && e.sequence == c.cursor + 1 && e.sequence <= 3
  }

  /** The frame carries a preview of the run that is not older than the last one. */
  ghost predicate NewPreview(run: string, codec: Codec, c: Client, f: Fields, p: AnswerPreview) {
    && f.name == "answer.preview" && codec.readPreview(Join(f.data, "\n")) == Some(p) && p.run == run && f.id == ""
    && p.revision <= 256 && Units(p.text) <= 16000 && c.revision <= p.revision
  }

  /** The frame says nothing new: a comment, an event of the run that was there before, or an older
      preview of it. */
  ghost predicate NothingNew(run: string, codec: Codec, c: Client, f: Fields) {
    || f.name == ""
    || (f.name == "run.status" && exists e :: codec.readEvent(Join(f.data, "\n")) == Some(e) && e.run == run && f.id == Digits(e.sequence)
                                              && 1 <= e.sequence <= 3 && e.sequence <= c.cursor)
    || (f.name == "answer.preview" && exists p :: codec.readPreview(Join(f.data, "\n")) == Some(p) && p.run == run && f.id == ""
                                                  && PreviewSchema(p) && p.revision < c.revision)
  }

  /** What any frame at all can do to a client that listens: only the run's next event and a preview of
      the run that is not older are passed on, and as they are; a frame that says nothing new changes
      nothing; every other frame ends the connection, as completed for the end of the stream, for another
      connection when asked to come back, and otherwise as a fault, of which only an error frame with
      the code `unauthenticated` is told apart as an expired session. */
  lemma FrameIsJudged(run: string, codec: Codec, c: Client, f: Fields)
    requires c.outcome.Open?
    ensures var d := HandleFields(run, codec, c, f);
            && (forall e | NextEvent(run, codec, c, f, e) ::
                  d == c.(cursor := e.sequence, calls := c.calls + [TimelineView.OnEvent(TimelineView.Entry(e.sequence, e.status))]))
            && (forall p | NewPreview(run, codec, c, f, p) ::
                  d == c.(calls := c.calls + [TimelineView.OnPreview(p.revision, p.text)], revision := p.revision))
            && (NothingNew(run, codec, c, f) ==> d == c)
            && ((forall e :: !NextEvent(run, codec, c, f, e)) && (forall p :: !NewPreview(run, codec, c, f, p)) && !NothingNew(run, codec, c, f) ==>
                  && d == c.(outcome := d.outcome) && !d.outcome.Open?
                  && (d.outcome == Done <==> f.name == "stream.end") && (d.outcome == Again <==> f.name == "stream.reconnect")
                  && (d.outcome == Fault("401") <==> f.name == "stream.error" && codec.readCode(Join(f.data, "\n")) == Some("unauthenticated")))
  {
    hide Join, Digits, PreviewSchema, NewPreview, NothingNew, NextEvent;
    NextIsPassed(run, codec, c, f);
    PreviewIsPassed(run, codec, c, f);
    if NothingNew(run, codec, c, f) {
      NothingChanges(run, codec, c, f);
    } else if (forall e :: !NextEvent(run, codec, c, f, e)) && forall p :: !NewPreview(run, codec, c, f, p) {
      OthersEnd(run, codec, c, f);
    }
    hide HandleFields;
  }

  lemma NextIsPassed(run: string, codec: Codec, c: Client, f: Fields)
    requires c.outcome.Open?
    ensures forall e | NextEvent(run, codec, c, f, e) ::
              HandleFields(run, codec, c, f) == c.(cursor := e.sequence, calls := c.calls + [TimelineView.OnEvent(TimelineView.Entry(e.sequence, e.status))])
  {
    hide Join, Digits, Units;
  }

  lemma PreviewIsPassed(run: string, codec: Codec, c: Client, f: Fields)
    requires c.outcome.Open?
    ensures forall p | NewPreview(run, codec, c, f, p) ::
              HandleFields(run, codec, c, f) == c.(calls := c.calls + [TimelineView.OnPreview(p.revision, p.text)], revision := p.revision)
  {
    assert |"answer.preview"| != |"run.status"|;
    hide Join, Digits, Units;
  }

  lemma NothingChanges(run: string, codec: Codec, c: Client, f: Fields)
    requires c.outcome.Open? && NothingNew(run, codec, c, f)
    ensures HandleFields(run, codec, c, f) == c
  {
    assert |"answer.preview"| != |"run.status"|;
    hide Join, Digits, Units;
  }

  lemma OthersEnd(run: string, codec: Codec, c: Client, f: Fields)
    requires c.outcome.Open? && !NothingNew(run, codec, c, f)
    requires (forall e :: !NextEvent(run, codec, c, f, e)) && forall p :: !NewPreview(run, codec, c, f, p)
    ensures var d := HandleFields(run, codec, c, f);
            && d == c.(outcome := d.outcome) && !d.outcome.Open?
            && (d.outcome == Done <==> f.name == "stream.end") && (d.outcome == Again <==> f.name == "stream.reconnect")
            && (d.outcome == Fault("401") <==> f.name == "stream.error" && codec.readCode(Join(f.data, "\n")) == Some("unauthenticated"))
  {
    var data := Join(f.data, "\n");
    hide Join, Digits, Units;
    if f.name == "run.status" && codec.readEvent(data).Some? {
      assert !NextEvent(run, codec, c, f, codec.readEvent(data).value);
    } else if f.name == "answer.preview" && codec.readPreview(data).Some? {
      assert !NewPreview(run, codec, c, f, codec.readPreview(data).value);
    }
    FaultsDiffer();
  }

  lemma FaultsDiffer()
    ensures forall s | s in ["schema", "Invalid event identity", "Event sequence gap", "Invalid preview identity", "503", "Unknown stream event"] :: s != "401"
  {
    assert |"401"| == 3 && "503"[0] != "401"[0];
  }

  function HandleAll(run: string, codec: Codec, c: Client, frames: seq<string>): Client
    decreases |frames|
  {
    if frames == [] || !c.outcome.Open? then c
    else HandleAll(run, codec, HandleFields(run, codec, c, ReadFrame(frames[0])), frames[1..])
  }

  // ---- The loop as written

  const TOO_LARGE := Fault("Event frame exceeds limit")
  const CLOSED := Fault("Event stream ended without a control frame")

  /** The inner loop cuts off and handles complete frames until one ends the stream. */
  function ClientReader(run: string, codec: Codec): Reader<Client> {
    Reader((c: Client) => c.outcome.Open?, (c: Client, frame: string) => HandleFields(run, codec, c, ReadFrame(frame)),
           (c: Client) => c.(outcome := TOO_LARGE), (c: Client) => c.(outcome := CLOSED), (c: Client) => |c.calls|, Utf16, MAX_FRAME)
  }

  function AbsorbFrames(run: string, codec: Codec, c: Client, buffer: string): (Client, string) {
    Absorb(ClientReader(run, codec), c, buffer)
  }

  function Consumed(run: string, codec: Codec, c: Client, buffer: string, bytes: nat, blocks: seq<Block>): Client
    decreases |blocks|
  {
    if blocks == [] then c.(outcome := CLOSED)
    else if bytes + blocks[0].bytes > MAX_BYTES then c.(outcome := Fault("Event stream exceeds limit"))
    else
      var (c', rest) := AbsorbFrames(run, codec, c, Normalize(buffer + blocks[0].text));
      if !c'.outcome.Open? then c'
      else if Units(rest) > MAX_FRAME then c'.(outcome := TOO_LARGE)
      else Consumed(run, codec, c', rest, bytes + blocks[0].bytes, blocks[1..])
  }

  method Consume(run: string, codec: Codec, cursor: nat, blocks: seq<Block>) returns (c: Client)
    ensures c == Consumed(run, codec, Start(cursor), "", 0, blocks)
  {
    c := Start(cursor);
    var buffer: string, bytes: nat, next: nat := "", 0, 0;
    while next < |blocks|
      invariant next <= |blocks| && c.outcome.Open?
      invariant Consumed(run, codec, c, buffer, bytes, blocks[next..]) ==
                Consumed(run, codec, Start(cursor), "", 0, blocks)
    {
      var part := blocks[next];
      assert blocks[next..][1..] == blocks[next + 1..];
      next := next + 1;
      if bytes + part.bytes > MAX_BYTES { return c.(outcome := Fault("Event stream exceeds limit")); }
      bytes := bytes + part.bytes;
      buffer := Normalize(buffer + part.text);
      ghost var c0, whole := c, buffer;
      var end := Find(buffer);
      while end >= 0
        invariant c.outcome.Open? && end == Find(buffer)
        invariant AbsorbFrames(run, codec, c, buffer) == AbsorbFrames(run, codec, c0, whole)
        decreases |buffer|
      {
        var frame := buffer[..end];
        if Units(frame) > MAX_FRAME { return c.(outcome := TOO_LARGE); }
        buffer := buffer[end + 2..];
        c := HandleFields(run, codec, c, ReadFrame(frame));
        if !c.outcome.Open? {
          assert AbsorbFrames(run, codec, c, buffer) == (c, buffer);
          return;
        }
        end := Find(buffer);
      }
      if Units(buffer) > MAX_FRAME { return c.(outcome := TOO_LARGE); }
    }
    c := c.(outcome := CLOSED);
  }

  // ---- When the result depends on the text alone

  function Joined(blocks: seq<Block>): string {
    if blocks == [] then "" else blocks[0].text + Joined(blocks[1..])
  }

  function TotalBytes(blocks: seq<Block>): nat {
    if blocks == [] then 0 else blocks[0].bytes + TotalBytes(blocks[1..])
  }

  function Texts(blocks: seq<Block>): seq<string> {
    if blocks == [] then [] else [blocks[0].text] + Texts(blocks[1..])
  }

  /** The blocks divide the text, byte for byte. */
  ghost predicate Divide(blocks: seq<Block>, text: string) {
    Joined(blocks) == text && TotalBytes(blocks) == Bytes(text, 0, |text|)
  }

  lemma ReaderIsLawful(run: string, codec: Codec)
    ensures Lawful(ClientReader(run, codec))
  {
    hide ReadFrame;
  }

  lemma {:induction false} TextsAreJoined(blocks: seq<Block>)
    ensures TextOf(Texts(blocks)) == Joined(blocks)
  {
    if blocks != [] { TextsAreJoined(blocks[1..]); }
  }

  lemma ConsumeStep(run: string, codec: Codec, c: Client, buffer: string, bytes: nat, blocks: seq<Block>)
    requires blocks != [] && bytes + blocks[0].bytes <= MAX_BYTES
    ensures var m := ClientReader(run, codec);
            var (d, rest) := Absorb(m, c, Normalize(buffer + blocks[0].text));
            Consumed(run, codec, c, buffer, bytes, blocks) ==
            if !m.open(d) then d else if m.Size(rest) > m.limit then m.over(d)
            else Consumed(run, codec, d, rest, bytes + blocks[0].bytes, blocks[1..])
  {
  }

  lemma {:induction false} ConsumedIsDecode(run: string, codec: Codec, c: Client, buffer: string, bytes: nat, blocks: seq<Block>)
    requires bytes + TotalBytes(blocks) <= MAX_BYTES
    ensures Consumed(run, codec, c, buffer, bytes, blocks) == Decode(ClientReader(run, codec), c, buffer, Texts(blocks))
    decreases |blocks|
  {
    if blocks != [] {
      var m := ClientReader(run, codec);
      ConsumeStep(run, codec, c, buffer, bytes, blocks);
      DecodeStep(m, c, buffer, Texts(blocks));
      assert Texts(blocks)[1..] == Texts(blocks[1..]);
      var (d, rest) := Absorb(m, c, Normalize(buffer + blocks[0].text));
      hide Normalize, Absorb, ClientReader, Decode, Consumed;
      ConsumedIsDecode(run, codec, d, rest, bytes + blocks[0].bytes, blocks[1..]);
    }
  }

  /** A block as long as its text. */
  function Sized(text: string): Block { Block(text, Bytes(text, 0, |text|)) }

  function Blocks(texts: seq<string>): seq<Block> {
    if texts == [] then [] else [Sized(texts[0])] + Blocks(texts[1..])
  }

  lemma {:induction false} BlocksDivide(texts: seq<string>)
    ensures Divide(Blocks(texts), TextOf(texts)) && Texts(Blocks(texts)) == texts
  {
    if texts != [] {
      BlocksDivide(texts[1..]);
      var b := Sized(texts[0]);
      FirstBlock(b, Blocks(texts[1..]));
      BytesOfSum(texts[0], TextOf(texts[1..]), |TextOf(texts[1..])|);
      hide Joined, TotalBytes, Texts, Bytes;
    }
  }

  lemma FirstBlock(b: Block, later: seq<Block>)
    ensures Joined([b] + later) == b.text + Joined(later) && TotalBytes([b] + later) == b.bytes + TotalBytes(later)
    ensures Texts([b] + later) == [b.text] + Texts(later)
  {
    assert ([b] + later)[1..] == later;
  }

  /** The exact condition under which the blocks do not matter: within the byte limit, a text
      without CR CR LF gives the same client under every division if and only if it is steady,
      that is, if no frame of the permitted size, nor of one unit less when a CR precedes
      the last LF of its blank line, is reached while the client is listening (or the client makes
      no callback between that frame and a frame that is too large anyway). */
  lemma FrameLimitIsExact(run: string, codec: Codec, cursor: nat, text: string)
    requires Plain(text) && Bytes(text, 0, |text|) <= MAX_BYTES
    ensures (forall blocks | Divide(blocks, text) ::
               Consumed(run, codec, Start(cursor), "", 0, blocks) == Read(ClientReader(run, codec), Start(cursor), text))
            <==> Steady(ClientReader(run, codec), Start(cursor), text)
  {
    var m, c := ClientReader(run, codec), Start(cursor);
    StartsOpen(run, codec, cursor);
    hide *;
    ReaderIsLawful(run, codec);
    LimitIsExact(m, c, text);
    if Steady(m, c, text) {
      EvenBlocks(run, codec, c, text);
    } else {
      var texts :| TextOf(texts) == text && Decode(m, c, "", texts) != Read(m, c, text);
      UnevenBlocks(run, codec, c, text, texts);
    }
  }

  lemma StartsOpen(run: string, codec: Codec, cursor: nat)
    ensures ClientReader(run, codec).open(Start(cursor))
  {
  }

  lemma EvenBlocks(run: string, codec: Codec, c: Client, text: string)
    requires Bytes(text, 0, |text|) <= MAX_BYTES
    requires forall texts | TextOf(texts) == text :: Decode(ClientReader(run, codec), c, "", texts) == Read(ClientReader(run, codec), c, text)
    ensures forall blocks | Divide(blocks, text) :: Consumed(run, codec, c, "", 0, blocks) == Read(ClientReader(run, codec), c, text)
  {
    hide *;
    forall blocks | Divide(blocks, text) ensures Consumed(run, codec, c, "", 0, blocks) == Read(ClientReader(run, codec), c, text) {
      DividedDecode(run, codec, c, blocks, text);
    }
  }

  lemma UnevenBlocks(run: string, codec: Codec, c: Client, text: string, texts: seq<string>)
    requires TextOf(texts) == text && Decode(ClientReader(run, codec), c, "", texts) != Read(ClientReader(run, codec), c, text)
    requires Bytes(text, 0, |text|) <= MAX_BYTES
    ensures exists blocks :: Divide(blocks, text) && Consumed(run, codec, c, "", 0, blocks) != Read(ClientReader(run, codec), c, text)
  {
    hide Decode, Read, TextOf, Divide, Consumed, ClientReader;
    BlocksDivide(texts);
    DividedDecode(run, codec, c, Blocks(texts), text);
  }

  lemma DividedDecode(run: string, codec: Codec, c: Client, blocks: seq<Block>, text: string)
    requires Divide(blocks, text) && Bytes(text, 0, |text|) <= MAX_BYTES
    ensures TextOf(Texts(blocks)) == text
    ensures Consumed(run, codec, c, "", 0, blocks) == Decode(ClientReader(run, codec), c, "", Texts(blocks))
  {
    TextsAreJoined(blocks);
    ConsumedIsDecode(run, codec, c, "", 0, blocks);
  }

  /** A connection that closes without a control frame is an error. */
  function Closed(c: Client): Client {
    if c.outcome.Open? then c.(outcome := CLOSED) else c
  }

  lemma {:induction false} ReadHandlesAll(run: string, codec: Codec, c: Client, s: string)
    requires var (frames, rest) := Split(Normalize(s)); Units(rest) <= MAX_FRAME && forall f | f in frames :: Units(f) <= MAX_FRAME
    ensures Read(ClientReader(run, codec), c, s) == Closed(HandleAll(run, codec, c, Split(Normalize(s)).0))
    decreases |s|
  {
    SplitFrames(s);
    if c.outcome.Open? && FrameEnd(s) >= 0 {
      var f, tail := FirstFrame(s), s[FrameEnd(s)..];
      var frames := Split(Normalize(s)).0;
      assert frames[0] == f && frames[1..] == Split(Normalize(tail)).0 && f in frames;
      hide Normalize, FrameEnd, FirstFrame, Split, HandleFields, ReadFrame;
      ReadHandlesAll(run, codec, HandleFields(run, codec, c, ReadFrame(f)), tail);
    }
  }

  /** Within the limits, with room for the blank lines, what the client passes on and how it ends
      depend only on the text: every division gives the result of handling all frames. */
  lemma ConsumeIgnoresFragmentation(run: string, codec: Codec, cursor: nat, blocks: seq<Block>)
    requires TotalBytes(blocks) <= MAX_BYTES && Plain(Joined(blocks))
    requires var (frames, rest) := Split(Normalize(Joined(blocks)));
             Units(rest) <= MAX_FRAME && forall f | f in frames :: Units(f) <= MAX_FRAME - (if '\r' in Joined(blocks) then 2 else 1)
    ensures Consumed(run, codec, Start(cursor), "", 0, blocks)
            == Closed(HandleAll(run, codec, Start(cursor), Split(Normalize(Joined(blocks))).0))
  {
    var m, c, text := ClientReader(run, codec), Start(cursor), Joined(blocks);
    ConsumedIsDecode(run, codec, c, "", 0, blocks);
    TextsAreJoined(blocks);
    ReaderIsLawful(run, codec);
    RoomyIsSteady(m, c, text);
    hide Split, Normalize, Plain, Steady, Lawful, Consumed, Decode;
    LimitIsExact(m, c, text);
    ReadHandlesAll(run, codec, c, text);
  }

  lemma WholeFrame(run: string, codec: Codec, c: Client, f: string, text: string)
    requires Units(f) <= MAX_FRAME && c.outcome.Open? && Bytes(text, 0, |text|) <= MAX_BYTES
    requires Normalize(text) == f + "\n\n" && Find(f + "\n\n") == |f|
    ensures Consumed(run, codec, c, "", 0, [Sized(text)]) == Closed(HandleFields(run, codec, c, ReadFrame(f)))
  {
    var m, whole := ClientReader(run, codec), f + "\n\n";
    var d := HandleFields(run, codec, c, ReadFrame(f));
    assert whole[..|f|] == f && whole[|f| + 2..] == "";
    ConsumeStep(run, codec, c, "", 0, [Sized(text)]);
    assert "" + text == text && [Sized(text)][1..] == [];
    hide HandleFields, ReadFrame, Normalize, Bytes;
    assert Absorb(m, d, "") == (d, "") && Units("") == 0;
    assert Absorb(m, c, whole) == (d, "");
  }

  lemma CutFrame(run: string, codec: Codec, c: Client, first: string, later: seq<Block>)
    requires Find(Normalize(first)) < 0 && Units(Normalize(first)) > MAX_FRAME && c.outcome.Open? && Bytes(first, 0, |first|) <= MAX_BYTES
    ensures Consumed(run, codec, c, "", 0, [Sized(first)] + later).outcome == TOO_LARGE
  {
    ConsumeStep(run, codec, c, "", 0, [Sized(first)] + later);
    assert "" + first == first;
    hide Normalize, HandleFields, Units, Bytes;
  }

  /** A frame and its blank line, well within the byte limit. */
  lemma FrameBytes(f: string, end: string)
    requires Units(f) <= MAX_FRAME && |end| <= 4
    ensures Units(f + end) == Units(f) + Units(end) && Bytes(f + end, 0, |f + end|) <= MAX_BYTES
  {
    UnitsOfSum(f, end);
    UnitsBounds(end);
    UnitsBounds(f + end);
  }

  lemma LineEndUnits()
    ensures Units("\n") == 1 && Units("\n\r") == 2
  {
    assert "\n"[..0] == "" && "\n\r"[..1] == "\n";
  }

  /** A frame of exactly the permitted size is accepted when it arrives whole and refused when a
      block ends inside its blank line. */
  lemma LimitDependsOnTheCut(run: string, codec: Codec, c: Client, f: string)
    requires Units(f) == MAX_FRAME && Tight(f) && c.outcome.Open?
    ensures Consumed(run, codec, c, "", 0, [Sized(f + "\n\n")]) == Closed(HandleFields(run, codec, c, ReadFrame(f)))
    ensures Consumed(run, codec, c, "", 0, [Sized(f + "\n")] + [Sized("\n")]).outcome == TOO_LARGE
  {
    TightFrame(f);
    FrameBytes(f, "\n\n");
    FrameBytes(f, "\n");
    LineEndUnits();
    hide HandleFields, ReadFrame, Normalize, Find, Tight, Units, Bytes, Consumed;
    WholeFrame(run, codec, c, f, f + "\n\n");
    CutFrame(run, codec, c, f + "\n", [Sized("\n")]);
  }

  /** With CR LF line ends the same happens to a frame that is one unit smaller. */
  lemma LimitDependsOnTheCutAtCr(run: string, codec: Codec, c: Client, f: string)
    requires Units(f) == MAX_FRAME - 1 && Tight(f) && c.outcome.Open?
    ensures Consumed(run, codec, c, "", 0, [Sized(f + "\r\n\r\n")]) == Closed(HandleFields(run, codec, c, ReadFrame(f)))
    ensures Consumed(run, codec, c, "", 0, [Sized(f + "\r\n\r")] + [Sized("\n")]).outcome == TOO_LARGE
  {
    TightFrameAtCr(f);
    FrameBytes(f, "\r\n\r\n");
    FrameBytes(f, "\r\n\r");
    FrameBytes(f, "\n\r");
    LineEndUnits();
    hide HandleFields, ReadFrame, Normalize, Find, Tight, Units, Bytes, Consumed;
    WholeFrame(run, codec, c, f, f + "\r\n\r\n");
    CutFrame(run, codec, c, f + "\r\n\r", [Sized("\n")]);
  }

  lemma CommentChangesNothing(run: string, codec: Codec, c: Client, f: string)
    requires OneLine(f) && f != "" && f[0] == ':' && c.outcome.Open?
    ensures HandleFields(run, codec, c, ReadFrame(f)) == c
  {
    LastLine(f);
    assert ReadLines(Fields("", "", []), [f]) == ReadLine(Fields("", "", []), f) by { assert [f][1..] == []; }
  }

  /** A frame of the permitted size is harmless only where it does not matter: a comment of that
      size in front of a frame that is too large. */
  lemma SilentFrameIsHarmless(run: string, codec: Codec, cursor: nat, f: string, g: string)
    requires Units(f) == MAX_FRAME && OneLine(f) && f != "" && f[0] == ':' && Tight(g) && Units(g) > MAX_FRAME
    ensures var m, text := ClientReader(run, codec), f + "\n\n" + (g + "\n\n");
            FrameEnd(text) >= 0 && Critical(m, text) && Steady(m, Start(cursor), text)
  {
    var m, text, c := ClientReader(run, codec), f + "\n\n" + (g + "\n\n"), Start(cursor);
    TightLine(f);
    TightFirst(f, g + "\n\n");
    TightFirst(g, "");
    assert g + "\n\n" + "" == g + "\n\n";
    CommentChangesNothing(run, codec, c, f);
    hide FrameEnd, FirstFrame, HandleFields, ReadFrame, Tight;
    assert Mute(m, c, g + "\n\n");
    assert Mute(m, c, text);
  }

  // ---- The client understands what the server sends

  /** The data of an error frame; the server writes the code between the quotes as it is. */
  function ErrorData(code: string): string { "{\"code\":\"" + code + "\"}" }

  /** JSON carries the run's events and previews over, within the bounds of the schemas, on one
      line, and the client finds the code in either of the two error frames. */
  ghost predicate Faithful(run: string, codec: Codec) {
    && (forall e: RunEvent | e.run == run && EventSchema(e) :: OneLine(codec.showEvent(e)) && codec.readEvent(codec.showEvent(e)) == Some(e))
    && (forall p: AnswerPreview | p.run == run && PreviewSchema(p) :: OneLine(codec.showPreview(p)) && codec.readPreview(codec.showPreview(p)) == Some(p))
    && (forall http :: codec.readCode(ErrorData(ErrorCode(http))) == Some(ErrorCode(http)))
  }

  /** A signal that the client's schemas accept. */
  predicate Presentable(x: Signal) {
    match x
    case Update(n, _) => 1 <= n <= 3
    case Preview(revision, text) => revision <= 256 && Units(text) <= 16000
    case StreamError(code) => code == "unauthenticated" || code == "stream_unavailable"
    case _ => true
  }

  /** The server's frame for a signal. */
  function Render(run: string, codec: Codec, x: Signal): Frame {
    match x
    case Update(n, status) => Event(Digits(n), "run.status", codec.showEvent(RunEvent(run, n, status)))
    case Preview(revision, text) => Event("", "answer.preview", codec.showPreview(AnswerPreview(run, revision, text)))
    case StreamEnd => Event("", "stream.end", "{}")
    case Reconnect => Event("", "stream.reconnect", "{}")
    case StreamError(code) => Event("", "stream.error", ErrorData(code))
    case KeepAlive => Comment("keep-alive")
  }

  function RenderAll(run: string, codec: Codec, xs: seq<Signal>): seq<Frame> {
    seq(|xs|, i requires 0 <= i < |xs| => Render(run, codec, xs[i]))
  }

  /** The client's reaction in terms of signals. */
  function React(run: string, c: Client, x: Signal): Client {
    match x
    case Update(n, status) =>
      if n <= c.cursor then c
      else if n != c.cursor + 1 then c.(outcome := Fault("Event sequence gap"))
      else c.(cursor := n, calls := c.calls + [TimelineView.OnEvent(TimelineView.Entry(n, status))])
    case Preview(revision, text) =>
      if revision >= c.revision then c.(calls := c.calls + [TimelineView.OnPreview(revision, text)], revision := revision) else c
    case StreamEnd => c.(outcome := Done)
    case Reconnect => c.(outcome := Again)
    case StreamError(code) => c.(outcome := Fault(if code == "unauthenticated" then "401" else "503"))
    case KeepAlive => c
  }

  function ReactAll(run: string, c: Client, xs: seq<Signal>): Client
    decreases |xs|
  {
    if xs == [] || !c.outcome.Open? then c else ReactAll(run, React(run, c, xs[0]), xs[1..])
  }

  lemma CodesAreKnown(code: string)
    requires code == "unauthenticated" || code == "stream_unavailable"
    ensures exists http :: code == ErrorCode(http)
    ensures OneLine(ErrorData(code))
  {
    assert code == ErrorCode(if code == "unauthenticated" then Some(401) else None);
    assert OneLine("{\"code\":\"") && OneLine("\"}") && OneLine("unauthenticated") && OneLine("stream_unavailable");
  }

  lemma RenderSendable(run: string, codec: Codec, x: Signal)
    requires Faithful(run, codec) && Presentable(x)
    ensures Sendable(Render(run, codec, x))
  {
    hide Digits;
    match x
    case Update(n, status) =>
      assert EventSchema(RunEvent(run, n, status));
      assert OneLine("run.status");
    case Preview(revision, text) =>
      assert PreviewSchema(AnswerPreview(run, revision, text));
      assert OneLine("answer.preview");
    case StreamEnd => assert OneLine("stream.end") && OneLine("{}");
    case Reconnect => assert OneLine("stream.reconnect") && OneLine("{}");
    case StreamError(code) =>
      CodesAreKnown(code);
      assert OneLine("stream.error");
    case KeepAlive => assert OneLine("keep-alive");
  }

  /** Encoding, decoding and interpreting a signal is the same as reacting to it. */
  lemma ReactionIsFaithful(run: string, codec: Codec, c: Client, x: Signal)
    requires Faithful(run, codec) && Presentable(x)
    ensures HandleFields(run, codec, c, ReadFrame(Body(Render(run, codec, x)))) == React(run, c, x)
  {
    RenderSendable(run, codec, x);
    FrameRoundTrip(Render(run, codec, x));
    hide ReadFrame, Body, Sendable, Digits, ErrorData, Units;
    match x
    case Update(n, status) => assert EventSchema(RunEvent(run, n, status));
    case Preview(revision, text) => assert PreviewSchema(AnswerPreview(run, revision, text));
    case StreamError(code) => CodesAreKnown(code);
    case _ =>
  }

  lemma {:induction false} ReactionsAreFaithful(run: string, codec: Codec, c: Client, xs: seq<Signal>)
    requires Faithful(run, codec) && forall x | x in xs :: Presentable(x)
    ensures HandleAll(run, codec, c, Bodies(RenderAll(run, codec, xs))) == ReactAll(run, c, xs)
    decreases |xs|
  {
    var bodies := Bodies(RenderAll(run, codec, xs));
    if xs != [] && c.outcome.Open? {
      ReactionIsFaithful(run, codec, c, xs[0]);
      assert bodies[0] == Body(Render(run, codec, xs[0]));
      assert bodies[1..] == Bodies(RenderAll(run, codec, xs[1..]));
      hide HandleFields, ReadFrame, Body, React, Faithful, Presentable, Render;
      ReactionsAreFaithful(run, codec, React(run, c, xs[0]), xs[1..]);
    }
  }

  /** End to end: the server sends signals on a connection; the bytes arrive in any blocks and
      the connection may break anywhere. If every frame is smaller than the limit, the client
      behaves exactly as if it had been handed a prefix of the signals, and all of them if all the
      text arrived. */
  lemma ConnectionDeliversPrefix(run: string, codec: Codec, cursor: nat, xs: seq<Signal>, blocks: seq<Block>) returns (k: nat)
    requires Faithful(run, codec) && (forall x | x in xs :: Presentable(x)) && TotalBytes(blocks) <= MAX_BYTES
    requires Joined(blocks) <= Encode(RenderAll(run, codec, xs))
    requires forall x | x in xs :: Units(Body(Render(run, codec, x))) < MAX_FRAME
    ensures k <= |xs| && (Joined(blocks) == Encode(RenderAll(run, codec, xs)) ==> k == |xs|)
    ensures Consumed(run, codec, Start(cursor), "", 0, blocks) == Closed(ReactAll(run, Start(cursor), xs[..k]))
  {
    var fs, text := RenderAll(run, codec, xs), Joined(blocks);
    AllSendable(run, codec, xs);
    PrefixDecodes(fs, text);
    var frames := Split(Normalize(text)).0;
    k := |frames|;
    TextIsSmall(run, codec, xs, text);
    assert frames == Bodies(RenderAll(run, codec, xs[..k]));
    hide Split, Normalize, Encode, Body, Plain, Consumed, HandleAll, Presentable, Faithful;
    ConsumeIgnoresFragmentation(run, codec, cursor, blocks);
    ReactionsAreFaithful(run, codec, Start(cursor), xs[..k]);
  }

  lemma AllSendable(run: string, codec: Codec, xs: seq<Signal>)
    requires Faithful(run, codec) && forall x | x in xs :: Presentable(x)
    ensures forall f | f in RenderAll(run, codec, xs) :: Sendable(f)
  {
    var fs := RenderAll(run, codec, xs);
    forall f | f in fs ensures Sendable(f) {
      var i :| 0 <= i < |fs| && fs[i] == f;
      RenderSendable(run, codec, xs[i]);
    }
  }

  /** What was received of the signals has no CR, small frames and a small leftover. */
  lemma TextIsSmall(run: string, codec: Codec, xs: seq<Signal>, text: string)
    requires Faithful(run, codec) && (forall x | x in xs :: Presentable(x)) && text <= Encode(RenderAll(run, codec, xs))
    requires forall x | x in xs :: Units(Body(Render(run, codec, x))) < MAX_FRAME
    ensures '\r' !in text
    ensures var (frames, rest) := Split(Normalize(text)); Units(rest) <= MAX_FRAME && forall f | f in frames :: Units(f) <= MAX_FRAME - 1
  {
    var fs := RenderAll(run, codec, xs);
    AllSendable(run, codec, xs);
    SmallBodies(run, codec, xs);
    hide RenderAll, Sendable, Bodies, Encode, Plain, Normalize, Split, Body, Render, Units, Faithful, Presentable;
    EncodedHasNoCr(fs);
    SplitEncoded(fs);
    NormalizeWithoutCr(text);
    var later := Encode(fs)[|text|..];
    assert Encode(fs) == text + later;
    PrefixParts(text, later, MAX_FRAME - 1);
  }

  lemma SmallBodies(run: string, codec: Codec, xs: seq<Signal>)
    requires forall x | x in xs :: Units(Body(Render(run, codec, x))) < MAX_FRAME
    ensures forall f | f in Bodies(RenderAll(run, codec, xs)) :: Units(f) <= MAX_FRAME - 1
  {
    var fs := RenderAll(run, codec, xs);
    forall f | f in Bodies(fs) ensures Units(f) <= MAX_FRAME - 1 {
      var i :| 0 <= i < |fs| && Bodies(fs)[i] == f;
      assert xs[i] in xs && f == Body(Render(run, codec, xs[i]));
    }
  }

  lemma SplitBehind(text: string, later: string)
    ensures var (frames, rest) := Split(text);
            Split(text + later) == (frames + Split(rest + later).0, Split(rest + later).1)
  {
    var (frames, rest) := Split(text);
    SplitResumes(text, rest + later);
    hide Split, Unsplit;
    Regroup(Unsplit(frames), rest, later);
  }

  /** A beginning of a text made of frames leaves at most one unit more than the largest. */
  lemma PrefixParts(text: string, later: string, size: nat)
    requires Split(text + later).1 == "" && forall f | f in Split(text + later).0 :: Units(f) <= size
    ensures var (frames, rest) := Split(text); Units(rest) <= size + 1 && forall f | f in frames :: Units(f) <= size
  {
    var (frames, rest) := Split(text);
    RestHasNoBlank(text);
    SplitBehind(text, later);
    hide Split, Find;
    PartsSmall(frames, Split(rest + later).0, size);
    RestIsSmall(rest, later, size);
  }

  lemma PartsSmall(a: seq<string>, b: seq<string>, size: nat)
    requires forall f | f in a + b :: Units(f) <= size
    ensures (forall f | f in a :: Units(f) <= size) && forall f | f in b :: Units(f) <= size
  {
    forall f | f in a ensures Units(f) <= size { assert f in a + b; }
    forall f | f in b ensures Units(f) <= size { assert f in a + b; }
  }

  lemma {:induction false} RestHasNoBlank(x: string)
    ensures Find(Split(x).1) < 0
    decreases |x|
  {
    SplitOnce(x);
    if Find(x) >= 0 { RestHasNoBlank(x[Find(x) + 2..]); }
  }

  lemma {:induction false} FindLater(r: string, y: string)
    requires Find(r) < 0 && Find(r + y) >= 0
    ensures Find(r + y) >= |r| - 1
    decreases |r|
  {
    if |r| >= 2 {
      assert (r + y)[1..] == r[1..] + y;
      FindLater(r[1..], y);
    }
  }

  lemma RestIsSmall(rest: string, later: string, size: nat)
    requires Find(rest) < 0 && Split(rest + later).1 == "" && forall f | f in Split(rest + later).0 :: Units(f) <= size
    ensures Units(rest) <= size + 1
  {
    var x := rest + later;
    SplitOnce(x);
    if Find(x) >= 0 {
      FindLater(rest, later);
      var f := x[..Find(x)];
      assert f in Split(x).0;
      if |rest| <= |f| {
        assert f == rest + f[|rest|..];
        UnitsOfSum(rest, f[|rest|..]);
      } else {
        FindEnds(x);
        assert x[..|f| + 1] == f + "\n" && rest == x[..|f| + 1];
        UnitsOfSum(f, "\n");
        LineEndUnits();
      }
    } else {
      assert rest == "";
    }
  }
}
