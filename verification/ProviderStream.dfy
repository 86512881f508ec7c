/** The model provider's event stream (`frames` and `consume_stream`): a bounded decoder and the
    state machine that decides whether a streamed answer is accepted. */
module ProviderStream {
  import opened Options
  import opened EventFraming
  import opened EventWire
  import opened Sequences
  import opened SourceLines

  const MAX_TOTAL := 2 * 1024 * 1024
  const MAX_EVENT := 256 * 1024
  const MAX_TEXT := 64 * 1024
  const MAX_EVENTS := 12000

  // ---- Payloads, as the schemas read them (`None` is a missing or ill-typed field)

  datatype Content = Content(kind: string, text: Option<string>)

  datatype Item = Item(id: Option<string>, kind: string, role: Option<string>, status: Option<string>, content: seq<Content>)

  datatype Usage = Usage(input: nat, output: nat, total: nat)

  datatype Response =
    | NoObject
    | Response(status: Option<string>, model: Option<string>, output: Option<seq<Item>>, usage: Option<Usage>)

  /** One decoded event. `Trouble` stands for the four error types; `BadEnvelope` and `BadDelta`
      for events whose fields fail validation, the former with the response attached to it. */
  datatype Value =
    | Trouble(attached: Option<Response>)
    | BadEnvelope(attached: Option<Response>)
    | BadDelta(sequence: nat)
    | Delta(sequence: nat, identity: Identity, delta: string)
    | Completed(sequence: nat, response: Response)
    | Metadata(sequence: nat)

  datatype Identity = Identity(item: string, output: nat, content: nat)

  /** A draft is what the answer schema makes of the model's text. */
  type Draft = nat

  datatype Generated = Generated(draft: Option<Draft>, input: nat, output: nat) {
    predicate Refused() { draft.None? }
  }

  /** `Charged` is ProviderUsageError: a failure whose tokens are known. */
  datatype Error = Invalid | Incomplete | Charged(cause: Error, input: nat, output: nat)

  datatype Result<T> = Return(value: T) | Raise(error: Error)

  // ---- Decoding

  datatype Block = Block(text: string, size: nat)

  /** How the decoder stopped yielding: the stream ended, a budget was exceeded, or an event was
      no JSON object. */
  datatype Stop = EndOfStream | OverBudget | NotAnObject

  predicate IsData(line: string) {
    |line| >= 5 && line[..5] == "data:"
  }

  function DataLines(lines: seq<string>): seq<string> {
    if lines == [] then []
    else (if IsData(lines[0]) then [EventWire.Value(lines[0][5..])] else []) + DataLines(lines[1..])
  }

  /** The payload of a frame: its data lines, joined. */
  function DataOf(frame: string): string {
    Join(DataLines(Lines(frame)), "\n")
  }

  /** Cut off and decode the complete frames of the buffer. */
  function CutFrames(json: string -> Option<Value>, buffer: string): (seq<Value>, string, Option<Stop>)
    decreases |buffer|
  {
    var end := Find(buffer);
    if end < 0 then ([], buffer, None)
    else if Bytes(buffer, 0, end) > MAX_EVENT then ([], buffer, Some(OverBudget))
    else
      var data := DataOf(buffer[..end]);
      if data != "" && json(data).None? then ([], buffer, Some(NotAnObject))
      else
        var (values, rest, stop) := CutFrames(json, buffer[end + 2..]);
        (if data == "" then values else [json(data).value] + values, rest, stop)
  }

  function FramesFrom(json: string -> Option<Value>, buffer: string, total: nat, blocks: seq<Block>): (seq<Value>, Stop)
    decreases |blocks|
  {
    if blocks == [] then ([], EndOfStream)
    else if total + blocks[0].size > MAX_TOTAL then ([], OverBudget)
    else
      var (values, rest, stop) := CutFrames(json, Normalize(buffer + blocks[0].text));
      if stop.Some? then (values, stop.value)
      else if Bytes(rest, 0, |rest|) > MAX_EVENT then (values, OverBudget)
      else
        var (more, end) := FramesFrom(json, rest, total + blocks[0].size, blocks[1..]);
        (values + more, end)
  }

  /** `frames`: everything the generator yields, and how it stops. */
  method Frames(json: string -> Option<Value>, blocks: seq<Block>) returns (values: seq<Value>, stop: Stop)
    ensures values == FramesFrom(json, "", 0, blocks).0 && stop == FramesFrom(json, "", 0, blocks).1
  {
    values := [];
    var buffer: string, total: nat := "", 0;
    for next := 0 to |blocks|
      invariant values + FramesFrom(json, buffer, total, blocks[next..]).0 == FramesFrom(json, "", 0, blocks).0
      invariant FramesFrom(json, buffer, total, blocks[next..]).1 == FramesFrom(json, "", 0, blocks).1
    {
      var block := blocks[next];
      assert blocks[next..][0] == block && blocks[next..][1..] == blocks[next + 1..];
      total := total + block.size;
      if total > MAX_TOTAL { return values, OverBudget; }
      buffer := Normalize(buffer + block.text);
      var more, rest, trouble := CutBuffer(json, buffer);
      ghost var later := FramesFrom(json, rest, total, blocks[next + 1..]).0;
      Regroup(values, more, later);
      values, buffer := values + more, rest;
      if trouble.Some? { return values, trouble.value; }
      if Bytes(buffer, 0, |buffer|) > MAX_EVENT { return values, OverBudget; }
    }
    stop := EndOfStream;
  }

  /** The inner loop, over the complete frames of the buffer. */
  method CutBuffer(json: string -> Option<Value>, whole: string) returns (values: seq<Value>, buffer: string, stop: Option<Stop>)
    ensures values == CutFrames(json, whole).0 && buffer == CutFrames(json, whole).1 && stop == CutFrames(json, whole).2
  {
    values, buffer := [], whole;
    var end := Find(buffer);
    while end >= 0
      invariant end == Find(buffer)
      invariant values + CutFrames(json, buffer).0 == CutFrames(json, whole).0
      invariant CutFrames(json, buffer).1 == CutFrames(json, whole).1 && CutFrames(json, buffer).2 == CutFrames(json, whole).2
      decreases |buffer|
    {
      if Bytes(buffer, 0, end) > MAX_EVENT { return values, buffer, Some(OverBudget); }
      var data := DataOf(buffer[..end]);
      if data != "" {
        if json(data).None? { return values, buffer, Some(NotAnObject); }
        Regroup(values, [json(data).value], CutFrames(json, buffer[end + 2..]).0);
        values := values + [json(data).value];
      }
      buffer := buffer[end + 2..];
      end := Find(buffer);
    }
    stop := None;
  }

  // ---- Validating the final response

  /** Usage that can be trusted even when the answer cannot. */
  function Credible(r: Response, model: string, cap: nat): Option<Usage> {
    if r.Response? && r.model == Some(model) && r.usage.Some?
       && r.usage.value.total == r.usage.value.input + r.usage.value.output && r.usage.value.output <= cap then r.usage
    else None
  }

  function Messages(items: seq<Item>): seq<Item> {
    if items == [] then [] else (if items[0].kind == "message" then [items[0]] else []) + Messages(items[1..])
  }

  /** `_validate_response`. */
  function CheckResponse(draft: string -> Option<Draft>, r: Response, model: string, cap: nat): Result<Generated> {
    if r.NoObject? || r.status.None? || r.model.None? || r.output.None? || r.usage.None? then Raise(Invalid)
    else if r.status != Some("completed") then Raise(Incomplete)
    else if r.model != Some(model) then Raise(Invalid)
    else if r.usage.value.total != r.usage.value.input + r.usage.value.output || r.usage.value.output > cap then Raise(Invalid)
    else
      var messages := Messages(r.output.value);
      if |messages| != 1 || messages[0].role != Some("assistant") || messages[0].status != Some("completed") then Raise(Invalid)
      else if |messages[0].content| != 1 then Raise(Invalid)
      else
        var content := messages[0].content[0];
        if content.kind == "refusal" then Return(Generated(None, r.usage.value.input, r.usage.value.output))
        else if content.kind != "output_text" || draft(content.text.GetOr("")).None? then Raise(Invalid)
        else Return(Generated(draft(content.text.GetOr("")), r.usage.value.input, r.usage.value.output))
  }

  /** `validate_response`: a rejection still carries credible usage. */
  function Validate(draft: string -> Option<Draft>, r: Response, model: string, cap: nat): Result<Generated> {
    match CheckResponse(draft, r, model, cap)
    case Return(g) => Return(g)
    case Raise(e) =>
      match Credible(r, model, cap)
      case None => Raise(e)
      case Some(u) => Raise(Charged(e, u.input, u.output))
  }

  /** The token counts that an outcome reports. */
  function Reported(result: Result<Generated>): Option<(nat, nat)> {
    match result
    case Return(g) => Some((g.input, g.output))
    case Raise(Charged(_, input, output)) => Some((input, output))
    case Raise(_) => None
  }

  /** A valid usage report survives: whatever else is wrong with a response, its tokens are
      accounted for, on acceptance and on rejection alike; and no others ever are. */
  lemma UsageSurvives(draft: string -> Option<Draft>, r: Response, model: string, cap: nat)
    ensures Reported(Validate(draft, r, model, cap)) ==
            match Credible(r, model, cap)
            case None => None
            case Some(u) => Some((u.input, u.output))
  {
    assert Validate(draft, r, model, cap).Return? ==> Credible(r, model, cap).Some?;
  }

  /** Only a response with credible usage is ever accepted. */
  lemma AcceptedIsCredible(draft: string -> Option<Draft>, r: Response, model: string, cap: nat)
    requires Validate(draft, r, model, cap).Return?
    ensures Credible(r, model, cap) == Some(Usage(Validate(draft, r, model, cap).value.input, Validate(draft, r, model, cap).value.output,
                                                  Validate(draft, r, model, cap).value.input + Validate(draft, r, model, cap).value.output))
  {
  }

  // ---- The acceptance state machine

  /** `sequence` is -1 before the first event; `deltas` is what the sink has been given. */
  datatype Progress = Progress(sequence: int, identity: Option<Identity>, accumulated: string, count: nat, deltas: seq<string>)

  const Fresh := Progress(-1, None, "", 0, [])

  /** The streamed text is the completed text of the same output. */
  predicate Matches(p: Progress, r: Response) {
    && p.identity.Some? && r.Response? && r.output.Some?
    && var id := p.identity.value;
       && id.output < |r.output.value| && r.output.value[id.output].id == Some(id.item)
       && id.content < |r.output.value[id.output].content|
       && r.output.value[id.output].content[id.content].text == Some(p.accumulated)
  }

  /** The result of a completion event. */
  function Complete(draft: string -> Option<Draft>, p: Progress, r: Response, model: string, cap: nat): Result<Generated> {
    match Validate(draft, r, model, cap)
    case Raise(e) => Raise(e)
    case Return(g) => if g.Refused() || Matches(p, r) then Return(g) else Raise(Charged(Invalid, g.input, g.output))
  }

  /** One event: on with new progress, or the end with a result. */
  datatype Taken = On(p: Progress) | End(result: Result<Generated>)

  function Take(draft: string -> Option<Draft>, p: Progress, v: Value, model: string, cap: nat): Taken {
    if p.count + 1 > MAX_EVENTS then End(Raise(Invalid))
    else
      var q := p.(count := p.count + 1);
      match v
      case Trouble(r) =>
        if r.Some? && Validate(draft, r.value, model, cap).Raise? then End(Validate(draft, r.value, model, cap)) else End(Raise(Incomplete))
      case BadEnvelope(_) => End(Raise(Invalid))
      case BadDelta(_) => End(Raise(Invalid))
      case Delta(s, id, text) =>
        if s <= p.sequence || (p.identity.Some? && p.identity.value != id) then End(Raise(Invalid))
        else if Bytes(p.accumulated + text, 0, |p.accumulated + text|) > MAX_TEXT then End(Raise(Invalid))
        else On(q.(sequence := s, identity := Some(id), accumulated := p.accumulated + text, deltas := p.deltas + [text]))
      case Completed(s, r) => if s <= p.sequence then End(Raise(Invalid)) else End(Complete(draft, p, r, model, cap))
      case Metadata(s) => if s <= p.sequence then End(Raise(Invalid)) else On(q.(sequence := s))
  }

  /** What `consume_stream` returns or raises on everything the decoder yields, and the
      progress at that point. */
  function Consumed(draft: string -> Option<Draft>, p: Progress, values: seq<Value>, stop: Stop, model: string, cap: nat): (Result<Generated>, Progress)
    decreases |values|
  {
    if values == [] then (Raise(if stop == EndOfStream then Incomplete else Invalid), p)
    else
      match Take(draft, p, values[0], model, cap)
      case On(q) => Consumed(draft, q, values[1..], stop, model, cap)
      case End(r) => (r, p)
  }

  /** The body of the loop: check one event against what came before. */
  method TakeEvent(draft: string -> Option<Draft>, p: Progress, value: Value, model: string, cap: nat) returns (taken: Taken)
    ensures taken == Take(draft, p, value, model, cap)
  {
    var count := p.count + 1;
    if count > MAX_EVENTS { return End(Raise(Invalid)); }
    match value
    case Trouble(response) =>
      if response.Some? {
        var checked := Validate(draft, response.value, model, cap);
        if checked.Raise? { return End(checked); }
      }
      return End(Raise(Incomplete));
    case BadEnvelope(_) => return End(Raise(Invalid));
    case BadDelta(_) => return End(Raise(Invalid));
    case Delta(sequence, current, delta) =>
      if sequence <= p.sequence { return End(Raise(Invalid)); }
      if p.identity.Some? && current != p.identity.value { return End(Raise(Invalid)); }
      var accumulated := p.accumulated + delta;
      if Bytes(accumulated, 0, |accumulated|) > MAX_TEXT { return End(Raise(Invalid)); }
      return On(Progress(sequence, Some(current), accumulated, count, p.deltas + [delta]));
    case Completed(sequence, response) =>
      if sequence <= p.sequence { return End(Raise(Invalid)); }
      var checked := Validate(draft, response, model, cap);
      if checked.Return? && !checked.value.Refused() && !Matches(p, response) {
        return End(Raise(Charged(Invalid, checked.value.input, checked.value.output)));
      }
      return End(checked);
    case Metadata(sequence) =>
      if sequence <= p.sequence { return End(Raise(Invalid)); }
      return On(p.(sequence := sequence, count := count));
  }

  /** `consume_stream`, over everything the decoder yields. */
  method ConsumeStream(json: string -> Option<Value>, draft: string -> Option<Draft>, blocks: seq<Block>, model: string, cap: nat)
    returns (result: Result<Generated>, deltas: seq<string>)
    ensures var (values, stop) := FramesFrom(json, "", 0, blocks);
            var (r, p) := Consumed(draft, Fresh, values, stop, model, cap);
            result == r && deltas == p.deltas
  {
    var values, stop := Frames(json, blocks);
    var p := Fresh;
    for i := 0 to |values|
      invariant Consumed(draft, p, values[i..], stop, model, cap) == Consumed(draft, Fresh, values, stop, model, cap)
    {
      assert values[i..][0] == values[i] && values[i..][1..] == values[i + 1..];
      var taken := TakeEvent(draft, p, values[i], model, cap);
      if taken.End? { return taken.result, p.deltas; }
      p := taken.p;
    }
    return Raise(if stop == EndOfStream then Incomplete else Invalid), p.deltas;
  }
}
