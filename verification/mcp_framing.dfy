/**
 Content-Length framing of the MCP stdio transport (forgepilot_sdk/mcp/client.py): what `_send`
 writes, and the loop `_reader_loop` that takes the stream apart and answers pending requests.
 A byte is modelled by a char. JSON decoding is the oracle `decode`.
 */
module McpFraming {
  import opened Options

  const CR: char := '\r'
  const LF: char := '\n'

  // ---------------------------------------------------------------- decimal numbers

  predicate IsDigit(c: char) { '0' <= c <= '9' }

  function DigitOf(d: int): char
    requires 0 <= d < 10
  {
    ('0' as int + d) as char
  }

  /** str() of a length. */
  function Digits(n: nat): string {
    if n < 10 then [DigitOf(n)] else Digits(n / 10) + [DigitOf(n % 10)]
  }

  /** int() on unsigned text: digits, with single underscores between them. */
  function ParseNat(s: string): Option<nat> {
    if s == "" || !IsDigit(s[|s| - 1]) then None
    else
      var d := s[|s| - 1] as int - '0' as int;
      var front := s[..|s| - 1];
      if front == "" then Some(d)
      else
        var more := if front[|front| - 1] == '_' then front[..|front| - 1] else front;
        match ParseNat(more)
        case None => None
        case Some(n) => Some(10 * n + d)
  }

  /** int() on stripped text; None is the ValueError. */
  function ParseInt(s: string): Option<int> {
    if s != "" && (s[0] == '-' || s[0] == '+') then
      match ParseNat(s[1..])
      case None => None
      case Some(n) =>
        var value: int := if s[0] == '-' then 0 - (n as int) else n as int;
        Some(value)
    else
      match ParseNat(s)
      case None => None
      case Some(n) => Some(n as int)
  }

  lemma {:induction false} DigitsShape(n: nat)
    ensures Digits(n) != "" && forall i :: 0 <= i < |Digits(n)| ==> IsDigit(Digits(n)[i])
  {
    if n >= 10 {
      DigitsShape(n / 10);
    }
  }

  lemma {:induction false} ParseUndoesDigits(n: nat)
    ensures ParseNat(Digits(n)) == Some(n)
  {
    if n >= 10 {
      ParseUndoesDigits(n / 10);
      DigitsShape(n / 10);
      assert Digits(n)[..|Digits(n)| - 1] == Digits(n / 10);
    }
  }

  lemma {:induction false} LengthReadsBack(n: nat)
    ensures ParseInt(Digits(n)) == Some(n)
  {
    ParseUndoesDigits(n);
    DigitsShape(n);
    assert IsDigit(Digits(n)[0]);
  }

  // ---------------------------------------------------------------- lines and headers

  predicate IsSpace(c: char) { c == ' ' || ('\t' <= c <= CR) || ('\U{1c}' <= c <= '\U{1f}') }

  function StripLeft(s: string): string {
    if s != "" && IsSpace(s[0]) then StripLeft(s[1..]) else s
  }

  function StripRight(s: string): string {
    if s != "" && IsSpace(s[|s| - 1]) then StripRight(s[..|s| - 1]) else s
  }

  function Strip(s: string): string { StripRight(StripLeft(s)) }

  function LowerChar(c: char): char { if 'A' <= c <= 'Z' then (c as int + 32) as char else c }

  function Lower(s: string): string { seq(|s|, i requires 0 <= i < |s| => LowerChar(s[i])) }

  /** Where `c` first stands in `s`, or the length. */
  function Find(s: string, c: char): (i: nat)
    ensures i <= |s| && (i < |s| ==> s[i] == c)
    ensures forall j :: 0 <= j < i ==> s[j] != c
  {
    if s == "" || s[0] == c then 0
    else
      var i := Find(s[1..], c);
      assert forall j :: 0 < j < i + 1 ==> s[j] == s[1..][j - 1];
      i + 1
  }

  /** How much of the stream readline() takes: up to and including the next newline, or all of it. */
  function LineEnd(s: string): (n: nat)
    ensures n <= |s| && (s != "" ==> n > 0)
  {
    if Find(s, LF) < |s| then Find(s, LF) + 1 else |s|
  }

  type Headers = map<string, string>

  function AddHeader(h: Headers, text: string): Headers {
    var colon := Find(text, ':');
    if colon < |text| then h[Lower(Strip(text[..colon])) := Strip(text[colon + 1..])] else h
  }

  /** The header block ends with a blank line, or the stream ends first. */
  datatype HeaderBlock = Ended | Read(headers: Headers, rest: string)

  function ReadHeaders(s: string, h: Headers): (r: HeaderBlock)
    ensures r.Read? ==> |r.rest| < |s|
    decreases |s|
  {
    if s == "" then Ended
    else
      var n := LineEnd(s);
      var text := Strip(s[..n]);
      if text == "" then Read(h, s[n..]) else ReadHeaders(s[n..], AddHeader(h, text))
  }

  const LENGTH_KEY := "content-length"

  function ContentLength(h: Headers): Option<int> {
    if LENGTH_KEY in h && h[LENGTH_KEY] != "" then ParseInt(h[LENGTH_KEY]) else Some(0)
  }

  // ---------------------------------------------------------------- the whole stream

  /** What decoding a body yields: an exception, a message without an id or that is no dict, or the id. */
  datatype Decoded = Broken | NoId | Id(id: int)

  datatype Exit = Closed | Failed

  /** The bodies read and decoded, in order, and how the loop ended. */
  datatype Intake = Intake(bodies: seq<string>, exit: Exit)

  function ReadFrames(s: string, decode: string -> Decoded): Intake
    decreases |s|
  {
    match ReadHeaders(s, map[])
    case Ended => Intake([], Closed)
    case Read(h, rest) =>
      match ContentLength(h)
      case None => Intake([], Failed)
      case Some(n) =>
        if n <= 0 then ReadFrames(rest, decode)
        else if |rest| < n || decode(rest[..n]).Broken? then Intake([], Failed)
        else
          Prepend([rest[..n]], ReadFrames(rest[n..], decode))
  }

  // ---------------------------------------------------------------- the pending table

  /** Requests still waiting and those answered; a body answers its id if that id is waiting. */
  datatype Table = Table(pending: set<int>, answered: map<int, string>)

  function Deliver(t: Table, body: string, decode: string -> Decoded): Table {
    if decode(body).Id? && decode(body).id in t.pending then
      Table(t.pending - {decode(body).id}, t.answered[decode(body).id := body])
    else t
  }

  function DeliverAll(t: Table, bodies: seq<string>, decode: string -> Decoded): Table
    decreases |bodies|
  {
    if bodies == [] then t else DeliverAll(Deliver(t, bodies[0], decode), bodies[1..], decode)
  }

  class StdioRpcClient {
    var requestId: int
    var pending: set<int>
    var answered: map<int, string>
    /** Requests whose future got the loop's exception. */
    var failed: set<int>

    constructor ()
      ensures requestId == 0 && pending == {} && answered == map[] && failed == {}
    {
      requestId, pending, answered, failed := 0, {}, map[], {};
    }

    ghost function Futures(): Table
      reads this
    {
      Table(pending, answered)
    }

    /** Every id handed out is at most the counter. */
    ghost predicate Numbered()
      reads this
    {
      forall i :: i in pending || i in answered || i in failed ==> i <= requestId
    }

    /** A new request never reuses the id of an earlier one. */
    method OpenRequest() returns (id: int)
      requires Numbered()
      modifies this
      ensures Numbered()
      ensures id !in old(pending) && id !in old(answered) && id !in old(failed)
      ensures pending == old(pending) + {id} && answered == old(answered) && failed == old(failed)
    {
      requestId := requestId + 1;
      id := requestId;
      pending := pending + {id};
    }

    /** Reads until the stream ends or something raises; on an exception everything pending fails. */
    method ReaderLoop(stream: string, decode: string -> Decoded)
      modifies this
      ensures var intake := ReadFrames(stream, decode);
              var t := DeliverAll(old(Futures()), intake.bodies, decode);
              && answered == t.answered
              && pending == (if intake.exit == Closed then t.pending else {})
              && failed == old(failed) + (if intake.exit == Closed then {} else t.pending)
      ensures requestId == old(requestId)
    {
      var rest := stream;
      ghost var bodies: seq<string> := [];
      ghost var t0 := Futures();
      while true
        invariant Futures() == DeliverAll(t0, bodies, decode)
        invariant failed == old(failed) && requestId == old(requestId)
        invariant ReadFrames(stream, decode) == Prepend(bodies, ReadFrames(rest, decode))
        decreases |rest|
      {
        var block := TakeHeaders(rest);
        if block.Ended? {
          assert Prepend(bodies, Intake([], Closed)).bodies == bodies;
          return;
        }
        var length := ContentLength(block.headers);
        if length.Some? && length.value <= 0 {
          rest := block.rest;
          continue;
        }
        if length.None? || |block.rest| < length.value || decode(block.rest[..length.value]).Broken? {
          assert Prepend(bodies, Intake([], Failed)).bodies == bodies;
          failed := failed + pending;
          pending := {};
          return;
        }
        var body := block.rest[..length.value];
        rest := block.rest[length.value..];
        DeliverSnoc(t0, bodies, body, decode);
        PrependMore(bodies, body, ReadFrames(rest, decode));
        bodies := bodies + [body];
        Settle(body, decode);
      }
    }

    /** Sets the result of the future whose id the message carries, if it is still waiting. */
    method Settle(body: string, decode: string -> Decoded)
      modifies this`pending, this`answered
      ensures Futures() == Deliver(old(Futures()), body, decode)
    {
      var message := decode(body);
      if message.Id? && message.id in pending {
        pending := pending - {message.id};
        answered := answered[message.id := body];
      }
    }
  }

  /** The inner loop: lines up to a blank one. */
  method TakeHeaders(stream: string) returns (block: HeaderBlock)
    ensures block == ReadHeaders(stream, map[])
  {
    var rest := stream;
    var headers: Headers := map[];
    while rest != ""
      invariant ReadHeaders(stream, map[]) == ReadHeaders(rest, headers)
      decreases |rest|
    {
      var n := LineEnd(rest);
      var text := Strip(rest[..n]);
      if text == "" {
        return Read(headers, rest[n..]);
      }
      headers := AddHeader(headers, text);
      rest := rest[n..];
    }
    block := Ended;
  }

  function Prepend(bodies: seq<string>, intake: Intake): Intake {
    Intake(bodies + intake.bodies, intake.exit)
  }

  lemma PrependMore(bodies: seq<string>, body: string, intake: Intake)
    ensures Prepend(bodies, Prepend([body], intake)) == Prepend(bodies + [body], intake)
  {
    assert bodies + ([body] + intake.bodies) == bodies + [body] + intake.bodies;
  }

  lemma {:induction false} DeliverSnoc(t: Table, bodies: seq<string>, body: string, decode: string -> Decoded)
    ensures DeliverAll(t, bodies + [body], decode) == Deliver(DeliverAll(t, bodies, decode), body, decode)
    decreases |bodies|
  {
    if bodies == [] {
      assert [] + [body] == [body] && [body][1..] == [];
    } else {
      assert (bodies + [body])[1..] == bodies[1..] + [body];
      DeliverSnoc(Deliver(t, bodies[0], decode), bodies[1..], body, decode);
    }
  }

  /** The first body that carries `id`. */
  function FirstFor(bodies: seq<string>, id: int, decode: string -> Decoded): Option<string> {
    if bodies == [] then None
    else if decode(bodies[0]) == Id(id) then Some(bodies[0])
    else FirstFor(bodies[1..], id, decode)
  }

  /** A waiting request gets the first body with its id and nothing else ever; an id nobody waits for
      changes nothing; without a body the request keeps waiting. */
  lemma {:induction false} FirstAnswerWins(t: Table, bodies: seq<string>, id: int, decode: string -> Decoded)
    ensures var r, first := DeliverAll(t, bodies, decode), FirstFor(bodies, id, decode);
            && (id in t.pending && first.Some? ==> id !in r.pending && id in r.answered && r.answered[id] == first.value)
            && (id in t.pending && first.None? ==> id in r.pending)
            && (id !in t.pending ==> id !in r.pending)
            && (id !in t.pending || first.None? ==>
                  (id in r.answered <==> id in t.answered) && (id in t.answered ==> r.answered[id] == t.answered[id]))
    decreases |bodies|
  {
    if bodies != [] {
      FirstAnswerWins(Deliver(t, bodies[0], decode), bodies[1..], id, decode);
    }
  }

  // ---------------------------------------------------------------- writing and reading back

  const PREFIX := "Content-Length: "

  function Frame(body: string): string {
    PREFIX + Digits(|body|) + [CR, LF, CR, LF] + body
  }

  function Frames(bodies: seq<string>): string {
    if bodies == [] then "" else Frame(bodies[0]) + Frames(bodies[1..])
  }

  lemma FindAt(a: string, c: char, rest: string)
    requires c !in a
    ensures Find(a + [c] + rest, c) == |a|
  {
    var s := a + [c] + rest;
    assert s[|a|] == c;
    assert forall i :: 0 <= i < |a| ==> s[i] == a[i] && a[i] in a;
  }

  lemma {:induction false} StripRightTail(a: string, tail: string)
    requires a != "" && !IsSpace(a[|a| - 1])
    requires forall i :: 0 <= i < |tail| ==> IsSpace(tail[i])
    ensures StripRight(a + tail) == a
  {
    if tail != "" {
      var n := |tail| - 1;
      StripRightTail(a, tail[..n]);
      assert (a + tail)[..|a + tail| - 1] == a + tail[..n];
    } else {
      assert a + tail == a;
    }
  }

  const NAME := "Content-Length"

  lemma HeaderName()
    ensures Lower(NAME) == LENGTH_KEY && Strip(NAME) == NAME && ':' !in NAME
  {
    var l := Lower(NAME);
    assert l[0] == 'c' && l[8] == 'l';
    assert l[1..8] == LENGTH_KEY[1..8];
    assert l[9..] == LENGTH_KEY[9..];
    assert l == l[..1] + l[1..8] + l[8..9] + l[9..];
  }

  lemma HeaderLineStripped(n: nat)
    ensures Strip(PREFIX + Digits(n) + [CR, LF]) == PREFIX + Digits(n)
  {
    DigitsShape(n);
    StripRightTail(PREFIX + Digits(n), [CR, LF]);
  }

  lemma HeaderValue(n: nat)
    ensures Strip([' '] + Digits(n)) == Digits(n)
  {
    DigitsShape(n);
    assert ([' '] + Digits(n))[1..] == Digits(n);
    assert StripLeft([' '] + Digits(n)) == StripLeft(Digits(n)) == Digits(n);
    StripRightTail(Digits(n), "");
    assert Digits(n) + "" == Digits(n);
  }

  /** The header line, stripped, splits into the name and the length. */
  lemma HeaderLineRead(n: nat)
    ensures AddHeader(map[], PREFIX + Digits(n)) == map[LENGTH_KEY := Digits(n)]
  {
    DigitsShape(n);
    var text := PREFIX + Digits(n);
    var name := NAME;
    HeaderName();
    assert text == name + [':'] + ([' '] + Digits(n));
    FindAt(name, ':', [' '] + Digits(n));
    assert text[..|name|] == name;
    assert text[|name| + 1..] == [' '] + Digits(n);
    HeaderValue(n);
  }

  lemma LineTaken(line: string, after: string)
    requires LF !in line
    ensures var s := line + [LF] + after; s[..LineEnd(s)] == line + [LF] && s[LineEnd(s)..] == after
  {
    FindAt(line, LF, after);
  }

  /** The header block of a frame is taken off exactly. */
  lemma FrameHeaders(body: string, tail: string)
    ensures ReadHeaders(Frame(body) + tail, map[]) == Read(map[LENGTH_KEY := Digits(|body|)], body + tail)
  {
    var n := |body|;
    var line := PREFIX + Digits(n) + [CR];
    assert Frame(body) + tail == line + [LF] + ([CR, LF] + (body + tail));
    DigitsShape(n);
    HeaderLineStripped(n);
    assert line + [LF] == PREFIX + Digits(n) + [CR, LF];
    HeaderTaken(line, PREFIX + Digits(n), [CR, LF] + (body + tail), map[]);
    HeaderLineRead(n);
    BlankLineEnds(body + tail, map[LENGTH_KEY := Digits(n)]);
  }

  lemma HeaderTaken(line: string, text: string, after: string, h: Headers)
    requires LF !in line && Strip(line + [LF]) == text != ""
    ensures ReadHeaders(line + [LF] + after, h) == ReadHeaders(after, AddHeader(h, text))
  {
    LineTaken(line, after);
  }

  lemma BlankLineEnds(rest: string, headers: Headers)
    ensures ReadHeaders([CR, LF] + rest, headers) == Read(headers, rest)
  {
    LineTaken([CR], rest);
    assert [CR] + [LF] == [CR, LF];
    BlankLine();
  }

  lemma BlankLine()
    ensures Strip([CR, LF]) == ""
  {
    assert [CR, LF][1..] == [LF] && [LF][1..] == "";
    assert StripLeft([LF]) == StripLeft("") == "";
    assert StripLeft([CR, LF]) == StripLeft([LF]);
  }

  /** A frame with a body is read as that body; a frame without one leaves no trace. */
  lemma {:induction false} FrameRead(body: string, tail: string, decode: string -> Decoded)
    requires body != "" ==> !decode(body).Broken?
    ensures ReadFrames(Frame(body) + tail, decode)
         == if body == "" then ReadFrames(tail, decode)
            else Prepend([body], ReadFrames(tail, decode))
  {
    FrameHeaders(body, tail);
    LengthReadsBack(|body|);
    DigitsShape(|body|);
    var rest := body + tail;
    assert rest[..|body|] == body && rest[|body|..] == tail;
  }

  /** Reading undoes sending: whatever the bodies contain, the same bodies come out in the same order;
      only empty ones are lost. */
  lemma {:induction false} FramesReadBack(bodies: seq<string>, decode: string -> Decoded)
    requires forall i :: 0 <= i < |bodies| && bodies[i] != "" ==> !decode(bodies[i]).Broken?
    ensures ReadFrames(Frames(bodies), decode) == Intake(NonEmptyOf(bodies), Closed)
    ensures (forall i :: 0 <= i < |bodies| ==> bodies[i] != "") ==> NonEmptyOf(bodies) == bodies
  {
    if bodies != [] {
      FramesReadBack(bodies[1..], decode);
      OneFrameMore(bodies[0], bodies[1..], decode);
      assert [bodies[0]] + bodies[1..] == bodies;
    }
  }

  lemma OneFrameMore(body: string, bodies: seq<string>, decode: string -> Decoded)
    requires body != "" ==> !decode(body).Broken?
    requires ReadFrames(Frames(bodies), decode) == Intake(NonEmptyOf(bodies), Closed)
    ensures ReadFrames(Frame(body) + Frames(bodies), decode)
         == Intake((if body == "" then [] else [body]) + NonEmptyOf(bodies), Closed)
  {
    FrameRead(body, Frames(bodies), decode);
  }

  function NonEmptyOf(bodies: seq<string>): seq<string> {
    if bodies == [] then []
    else (if bodies[0] == "" then [] else [bodies[0]]) + NonEmptyOf(bodies[1..])
  }
}
