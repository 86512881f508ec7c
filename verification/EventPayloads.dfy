/** The JSON that the server writes for events and previews: one line, readable back, and small
    enough that no session of a run exceeds the client's limits. */
module EventPayloads {
  import opened Options
  import opened AnswerRuns
  import opened EventClient
  import opened EventServer
  import opened EventWire

  // ---- JSON strings

  function Hex(n: nat): char
    requires n < 16
  {
    "0123456789abcdef"[n]
  }

  /** A character inside a JSON string. */
  function Escaped(c: char): string {
    var n := c as int;
    if c == '"' then "\\\""
    else if c == '\\' then "\\\\"
    else if n == 8 then "\\b"
    else if n == 9 then "\\t"
    else if n == 10 then "\\n"
    else if n == 12 then "\\f"
    else if n == 13 then "\\r"
    else if n < 32 then "\\u00" + [Hex(n / 16), Hex(n % 16)]
    else [c]
  }

  function EscapedAll(s: string): string {
    if s == "" then "" else Escaped(s[0]) + EscapedAll(s[1..])
  }

  function Quoted(s: string): string { "\"" + (EscapedAll(s) + "\"") }

  function StatusName(s: Status): string {
    match s
    case Queued => "queued"
    case Running => "running"
    case Completed => "completed"
    case Failed => "failed"
    case Cancelled => "cancelled"
  }

  /** `times` are the moments that the events are stamped with, as text. */
  function EventJson(times: nat -> string, e: RunEvent): string {
    "{\"run_id\":" + (Quoted(e.run) + (",\"sequence\":" + (Digits(e.sequence) + (",\"status\":" + (Quoted(StatusName(e.status))
    + (",\"occurred_at\":" + (Quoted(times(e.sequence)) + "}")))))))
  }

  function PreviewJson(p: AnswerPreview): string {
    "{\"run_id\":" + (Quoted(p.run) + (",\"revision\":" + (Digits(p.revision) + (",\"text\":" + (Quoted(p.text) + "}")))))
  }

  /** The server's side of the codec. */
  ghost predicate WritesJson(codec: Codec, times: nat -> string) {
    && (forall e :: codec.showEvent(e) == EventJson(times, e))
    && (forall p :: codec.showPreview(p) == PreviewJson(p))
  }

  // ---- The text determines what was written

  lemma Peel(p: string, x: string, y: string)
    requires p + x == p + y
    ensures x == y
  {
    assert (p + x)[|p|..] == x && (p + y)[|p|..] == y;
  }

  lemma HexIsExact(m: nat, n: nat)
    requires m < 16 && n < 16 && Hex(m) == Hex(n)
    ensures m == n
  {
  }

  lemma EscapeStarts(c: char, x: string)
    ensures var t := Escaped(c) + x;
            && |t| >= 1 && t[0] != '"'
            && (t[0] == '\\' ==> |Escaped(c)| > 1) && (|Escaped(c)| == 1 ==> t[0] == c)
            && (|Escaped(c)| > 1 ==> t[1] == Escaped(c)[1])
            && (|Escaped(c)| > 2 ==> t[4] == Escaped(c)[4] && t[5] == Escaped(c)[5])
  {
  }

  lemma LettersDiffer(c: char, d: char)
    requires |Escaped(c)| > 1 && |Escaped(d)| > 1 && Escaped(c)[1] == Escaped(d)[1]
    requires |Escaped(c)| > 2 && |Escaped(d)| > 2 ==> Escaped(c)[4] == Escaped(d)[4] && Escaped(c)[5] == Escaped(d)[5]
    ensures c == d
  {
    if c as int < 32 && |Escaped(c)| > 2 {
      HexIsExact(c as int / 16, d as int / 16);
      HexIsExact(c as int % 16, d as int % 16);
    }
  }

  lemma EscapesDiffer(c: char, x: string, d: char, y: string)
    requires Escaped(c) + x == Escaped(d) + y
    ensures c == d && x == y
  {
    EscapeStarts(c, x);
    EscapeStarts(d, y);
    if |Escaped(c)| > 1 && |Escaped(d)| > 1 {
      hide Escaped;
      LettersDiffer(c, d);
    }
    Peel(Escaped(c), x, y);
  }

  lemma {:induction false} StringsEnd(a: string, x: string, b: string, y: string)
    requires EscapedAll(a) + ("\"" + x) == EscapedAll(b) + ("\"" + y)
    ensures a == b && x == y
    decreases |a|
  {
    if a != "" { EscapeStarts(a[0], EscapedAll(a[1..]) + ("\"" + x)); }
    if b != "" { EscapeStarts(b[0], EscapedAll(b[1..]) + ("\"" + y)); }
    hide Escaped;
    if a == "" || b == "" {
      Front(a, x);
      Front(b, y);
      Peel("\"", x, y);
    } else {
      Front(a, x);
      Front(b, y);
      EscapesDiffer(a[0], EscapedAll(a[1..]) + ("\"" + x), b[0], EscapedAll(b[1..]) + ("\"" + y));
      StringsEnd(a[1..], x, b[1..], y);
    }
  }

  lemma Front(a: string, x: string)
    ensures var t := EscapedAll(a) + ("\"" + x);
            if a == "" then t == "\"" + x else t == Escaped(a[0]) + (EscapedAll(a[1..]) + ("\"" + x))
  {
    hide Escaped;
  }

  lemma QuotedEnds(a: string, x: string, b: string, y: string)
    requires Quoted(a) + x == Quoted(b) + y
    ensures a == b && x == y
  {
    hide EscapedAll;
    Behind(a, x);
    Behind(b, y);
    Peel("\"", EscapedAll(a) + ("\"" + x), EscapedAll(b) + ("\"" + y));
    StringsEnd(a, x, b, y);
  }

  lemma Behind(a: string, x: string)
    ensures Quoted(a) + x == "\"" + (EscapedAll(a) + ("\"" + x))
  {
    hide EscapedAll;
  }

  lemma {:induction false} DigitsAreDigits(n: nat)
    ensures forall i | 0 <= i < |Digits(n)| :: '0' <= Digits(n)[i] <= '9'
  {
    if n >= 10 { DigitsAreDigits(n / 10); }
  }

  lemma {:induction false} DigitsDiffer(m: nat, n: nat)
    requires Digits(m) == Digits(n)
    ensures m == n
  {
    if m >= 10 && n >= 10 {
      var a, b := Digits(m / 10), Digits(n / 10);
      assert Digits(m)[..|a|] == a && Digits(n)[..|b|] == b && |a| == |b|;
      assert Digits(m)[|a|] == Digits(n)[|b|];
      DigitsDiffer(m / 10, n / 10);
    }
  }

  lemma NumbersEnd(m: nat, x: string, n: nat, y: string)
    requires Digits(m) + x == Digits(n) + y && x != "" && y != "" && x[0] == ',' && y[0] == ','
    ensures m == n && x == y
  {
    DigitsAreDigits(m);
    DigitsAreDigits(n);
    var a, b, t := Digits(m), Digits(n), Digits(m) + x;
    hide Digits;
    assert t[|a|] == ',' && t[|b|] == ',';
    assert t[..|a|] == a && t[..|b|] == b;
    Peel(a, x, y);
    DigitsDiffer(m, n);
  }

  lemma StatusesDiffer(a: Status, b: Status)
    requires StatusName(a) == StatusName(b)
    ensures a == b
  {
    assert |StatusName(a)| == |StatusName(b)| && StatusName(a)[0] == StatusName(b)[0] && StatusName(a)[1] == StatusName(b)[1];
  }

  lemma EventsDiffer(times: nat -> string, d: RunEvent, e: RunEvent)
    requires EventJson(times, d) == EventJson(times, e)
    ensures d == e
  {
    hide Quoted, Digits, StatusName;
    var x4, y4 := ",\"occurred_at\":" + (Quoted(times(d.sequence)) + "}"), ",\"occurred_at\":" + (Quoted(times(e.sequence)) + "}");
    var x3, y3 := Quoted(StatusName(d.status)) + x4, Quoted(StatusName(e.status)) + y4;
    var x2, y2 := ",\"status\":" + x3, ",\"status\":" + y3;
    var x1, y1 := Digits(d.sequence) + x2, Digits(e.sequence) + y2;
    Peel("{\"run_id\":", Quoted(d.run) + (",\"sequence\":" + x1), Quoted(e.run) + (",\"sequence\":" + y1));
    QuotedEnds(d.run, ",\"sequence\":" + x1, e.run, ",\"sequence\":" + y1);
    Peel(",\"sequence\":", x1, y1);
    NumbersEnd(d.sequence, x2, e.sequence, y2);
    Peel(",\"status\":", x3, y3);
    QuotedEnds(StatusName(d.status), x4, StatusName(e.status), y4);
    StatusesDiffer(d.status, e.status);
  }

  lemma PreviewsDiffer(p: AnswerPreview, q: AnswerPreview)
    requires PreviewJson(p) == PreviewJson(q)
    ensures p == q
  {
    hide Quoted, Digits;
    var x3, y3 := Quoted(p.text) + "}", Quoted(q.text) + "}";
    var x2, y2 := ",\"text\":" + x3, ",\"text\":" + y3;
    var x1, y1 := Digits(p.revision) + x2, Digits(q.revision) + y2;
    Peel("{\"run_id\":", Quoted(p.run) + (",\"revision\":" + x1), Quoted(q.run) + (",\"revision\":" + y1));
    QuotedEnds(p.run, ",\"revision\":" + x1, q.run, ",\"revision\":" + y1);
    Peel(",\"revision\":", x1, y1);
    NumbersEnd(p.revision, x2, q.revision, y2);
    Peel(",\"text\":", x3, y3);
    QuotedEnds(p.text, "}", q.text, "}");
  }

  // ---- One line

  lemma {:induction false} EscapedOneLine(s: string)
    ensures OneLine(EscapedAll(s))
  {
    if s != "" {
      assert OneLine(Escaped(s[0]));
      EscapedOneLine(s[1..]);
      hide Escaped;
    }
  }

  lemma QuotedOneLine(s: string)
    ensures OneLine(Quoted(s))
  {
    EscapedOneLine(s);
    hide EscapedAll;
  }

  lemma OneLines(a: string, b: string)
    requires OneLine(a) && OneLine(b)
    ensures OneLine(a + b)
  {
  }

  lemma EventOneLine(times: nat -> string, e: RunEvent)
    ensures OneLine(EventJson(times, e))
  {
    QuotedOneLine(e.run);
    QuotedOneLine(StatusName(e.status));
    QuotedOneLine(times(e.sequence));
    hide Quoted, StatusName, Digits;
    assert OneLine("{\"run_id\":") && OneLine(",\"sequence\":") && OneLine(",\"status\":") && OneLine(",\"occurred_at\":");
  }

  lemma PreviewOneLine(p: AnswerPreview)
    ensures OneLine(PreviewJson(p))
  {
    QuotedOneLine(p.run);
    QuotedOneLine(p.text);
    hide Quoted, Digits;
    assert OneLine("{\"run_id\":") && OneLine(",\"revision\":") && OneLine(",\"text\":");
  }

  // ---- The client can read it

  ghost function ReadEventJson(times: nat -> string): string -> Option<RunEvent> {
    s => if exists e :: EventJson(times, e) == s then var e :| EventJson(times, e) == s; Some(e) else None
  }

  ghost function ReadPreviewJson(): string -> Option<AnswerPreview> {
    s => if exists p :: PreviewJson(p) == s then var p :| PreviewJson(p) == s; Some(p) else None
  }

  /** The JSON written is on one line and determines the event or preview, whatever characters are
      in it, so a client can read it back. */
  lemma JsonIsFaithful(times: nat -> string) returns (codec: Codec)
    ensures WritesJson(codec, times) && forall run :: Faithful(run, codec)
  {
    codec := Codec((e: RunEvent) => EventJson(times, e), ReadEventJson(times), (p: AnswerPreview) => PreviewJson(p), ReadPreviewJson(),
                   (s: string) => Some(if s == ErrorData("unauthenticated") then "unauthenticated" else "stream_unavailable"));
    assert |"unauthenticated"| != |"stream_unavailable"|;
    assert |ErrorData("unauthenticated")| != |ErrorData("stream_unavailable")|;
    hide EventJson, PreviewJson;
    forall e: RunEvent ensures OneLine(codec.showEvent(e)) && codec.readEvent(codec.showEvent(e)) == Some(e) {
      EventOneLine(times, e);
      var d := ReadEventJson(times)(EventJson(times, e)).value;
      EventsDiffer(times, d, e);
    }
    forall p: AnswerPreview ensures OneLine(codec.showPreview(p)) && codec.readPreview(codec.showPreview(p)) == Some(p) {
      PreviewOneLine(p);
      var q := ReadPreviewJson()(PreviewJson(p)).value;
      PreviewsDiffer(q, p);
    }
  }
}
