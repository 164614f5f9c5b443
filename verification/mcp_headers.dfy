/**
 Frames with any headers: what the reader makes of a header block that this client would not write itself.
 */
module McpHeaders {
  import opened Options
  import opened McpFraming

  predicate Spaces(s: string) { forall i :: 0 <= i < |s| ==> IsSpace(s[i]) }

  /** Neither end is white space. */
  predicate Trimmed(s: string) { s == "" || (!IsSpace(s[0]) && !IsSpace(s[|s| - 1])) }

  // ---------------------------------------------------------------- what strip() does

  lemma {:induction false} LeftStripped(s: string) returns (pad: string)
    ensures s == pad + StripLeft(s) && Spaces(pad) && (StripLeft(s) == "" || !IsSpace(StripLeft(s)[0]))
    decreases |s|
  {
    if s != "" && IsSpace(s[0]) {
      var rest := LeftStripped(s[1..]);
      pad := [s[0]] + rest;
    } else {
      pad := "";
    }
  }

  lemma {:induction false} RightStripped(s: string) returns (pad: string)
    ensures s == StripRight(s) + pad && Spaces(pad) && (StripRight(s) == "" || !IsSpace(StripRight(s)[|StripRight(s)| - 1]))
    decreases |s|
  {
    if s != "" && IsSpace(s[|s| - 1]) {
      var rest := RightStripped(s[..|s| - 1]);
      pad := rest + [s[|s| - 1]];
    } else {
      pad := "";
    }
  }

  /** What is stripped is white space at the ends, all of it. */
  lemma StripSays(s: string) returns (left: string, right: string)
    ensures s == left + Strip(s) + right && Spaces(left) && Spaces(right) && Trimmed(Strip(s))
  {
    left := LeftStripped(s);
    var mid := StripLeft(s);
    right := RightStripped(mid);
    assert left + mid == left + Strip(s) + right;
    assert Strip(s) != "" ==> mid[0] == Strip(s)[0];
  }

  lemma {:induction false} LeftPadGone(pad: string, s: string)
    requires Spaces(pad)
    ensures StripLeft(pad + s) == StripLeft(s)
    decreases |pad|
  {
    if pad == "" {
      assert pad + s == s;
    } else {
      LeftPadGone(pad[1..], s);
      assert (pad + s)[1..] == pad[1..] + s;
    }
  }

  lemma {:induction false} RightPadGone(s: string, pad: string)
    requires Spaces(pad)
    ensures StripRight(s + pad) == StripRight(s)
    decreases |pad|
  {
    if pad == "" {
      assert s + pad == s;
    } else {
      var n := |pad| - 1;
      RightPadGone(s, pad[..n]);
      assert (s + pad)[..|s + pad| - 1] == s + pad[..n];
    }
  }

  lemma TrimmedStays(s: string)
    requires Trimmed(s)
    ensures Strip(s) == s
  {
  }

  /** Stripping finds a trimmed text between any white space. */
  lemma StripFinds(left: string, s: string, right: string)
    requires Spaces(left) && Spaces(right) && Trimmed(s)
    ensures Strip(left + s + right) == s
  {
    assert left + s + right == left + (s + right);
    LeftPadGone(left, s + right);
    if s == "" {
      assert s + right == right;
      LeftPadGone(right, "");
      assert right + "" == right;
    } else {
      assert (s + right)[0] == s[0];
      RightPadGone(s, right);
    }
  }

  // ---------------------------------------------------------------- one header line

  /** A line that is not blank and ends with the one newline behind it. */
  predicate IsLine(line: string) {
    LF !in line && exists i :: 0 <= i < |line| && !IsSpace(line[i])
  }

  /** What a line says: a name in lower case and a value, or nothing without a colon. */
  function Named(line: string): Option<(string, string)> {
    var p := Find(line, ':');
    if p < |line| then Some((Lower(Strip(line[..p])), Strip(line[p + 1..]))) else None
  }

  function Put(h: Headers, line: string): Headers {
    match Named(line) case None => h case Some(entry) => h[entry.0 := entry.1]
  }

  lemma PadsLeave(left: string, s: string, right: string)
    requires Spaces(left) && Spaces(right)
    ensures Strip(left + s + right) == Strip(s)
  {
    var a, b := StripSays(s);
    assert left + s + right == (left + a) + Strip(s) + (b + right);
    StripFinds(left + a, Strip(s), b + right);
  }

  lemma ColonInside(left: string, s: string, right: string)
    requires Spaces(left) && Spaces(right)
    ensures Find(left + s + right, ':') == if Find(s, ':') < |s| then |left| + Find(s, ':') else |left + s + right|
  {
    var all := left + s + right;
    assert forall i :: 0 <= i < |left| ==> all[i] == left[i] && IsSpace(all[i]);
    assert forall i :: 0 <= i < |s| ==> all[|left| + i] == s[i];
    assert forall i :: 0 <= i < |right| ==> all[|left| + |s| + i] == right[i] && IsSpace(right[i]);
  }

  /** White space around a line makes no difference to what it says. */
  lemma PaddedNamed(left: string, s: string, right: string)
    requires Spaces(left) && Spaces(right)
    ensures Named(left + s + right) == Named(s)
  {
    var all, p := left + s + right, Find(s, ':');
    ColonInside(left, s, right);
    if p < |s| {
      assert all[..|left| + p] == left + s[..p] + "";
      assert all[|left| + p + 1..] == "" + s[p + 1..] + right;
      PadsLeave(left, s[..p], "");
      PadsLeave("", s[p + 1..], right);
    }
  }

  lemma BlankSpaces(line: string)
    requires Strip(line) == ""
    ensures Spaces(line)
  {
    var left, right := StripSays(line);
    assert line == left + right;
  }

  lemma NotBlank(line: string)
    requires IsLine(line)
    ensures Strip(line) != ""
  {
    if Strip(line) == "" {
      BlankSpaces(line);
    }
  }

  lemma LineSays(line: string, after: string, h: Headers)
    requires IsLine(line)
    ensures ReadHeaders(line + [LF] + after, h) == ReadHeaders(after, Put(h, line))
  {
    var left, right := StripSays(line);
    var text := Strip(line);
    assert line == left + text + right;
    PadsLeave("", line, [LF]);
    assert "" + line + [LF] == line + [LF];
    NotBlank(line);
    HeaderTaken(line, text, after, h);
    PaddedNamed(left, text, right);
  }

  // ---------------------------------------------------------------- a whole block

  function Lines(lines: seq<string>): string {
    if lines == [] then "" else lines[0] + [LF] + Lines(lines[1..])
  }

  function Given(h: Headers, lines: seq<string>): Headers
    decreases |lines|
  {
    if lines == [] then h else Given(Put(h, lines[0]), lines[1..])
  }

  lemma BlankEnds(blank: string, rest: string, h: Headers)
    requires Spaces(blank) && LF !in blank
    ensures ReadHeaders(blank + [LF] + rest, h) == Read(h, rest)
  {
    LineTaken(blank, rest);
    StripFinds("", "", blank + [LF]);
    assert "" + "" + (blank + [LF]) == blank + [LF];
  }

  /** A block of header lines up to a blank one is read line by line, later ones over earlier ones. */
  lemma {:induction false} BlockRead(lines: seq<string>, blank: string, rest: string, h: Headers)
    requires (forall i :: 0 <= i < |lines| ==> IsLine(lines[i])) && Spaces(blank) && LF !in blank
    ensures ReadHeaders(Lines(lines) + blank + [LF] + rest, h) == Read(Given(h, lines), rest)
    decreases |lines|
  {
    if lines == [] {
      BlankEnds(blank, rest, h);
      assert Lines(lines) + blank + [LF] + rest == blank + [LF] + rest;
    } else {
      var after := Lines(lines[1..]) + blank + [LF] + rest;
      assert Lines(lines) + blank + [LF] + rest == lines[0] + [LF] + after;
      LineSays(lines[0], after, h);
      BlockRead(lines[1..], blank, rest, Put(h, lines[0]));
    }
  }

  /** The name of the length header, in capitals or small letters. */
  predicate NamesLength(name: string) {
    && |name| == |LENGTH_KEY|
    && forall i :: 0 <= i < |name| ==>
         name[i] == LENGTH_KEY[i] || ('a' <= LENGTH_KEY[i] <= 'z' && name[i] as int + 32 == LENGTH_KEY[i] as int)
  }

  lemma AnyCase(name: string)
    requires NamesLength(name)
    ensures Lower(name) == LENGTH_KEY
  {
    assert forall i :: 0 <= i < |LENGTH_KEY| ==> !('A' <= LENGTH_KEY[i] <= 'Z') by {
      assert LENGTH_KEY == ['c', 'o', 'n', 't', 'e', 'n', 't', '-', 'l', 'e', 'n', 'g', 't', 'h'];
    }
    forall i | 0 <= i < |name| ensures Lower(name)[i] == LENGTH_KEY[i] {
    }
  }

  /** The line gives the length `n`, with any white space and in any case. */
  ghost predicate GivesLength(line: string, n: nat) {
    exists a: string, name: string, b: string, c: string, d: string ::
      && line == LengthLine(a, name, b, c, n, d)
      && Spaces(a) && Spaces(b) && Spaces(c) && Spaces(d) && NamesLength(name)
  }

  function LengthLine(a: string, name: string, b: string, c: string, n: nat, d: string): string {
    (a + name + b) + [':'] + (c + Digits(n) + d)
  }

  lemma LengthNamed(line: string, n: nat)
    requires GivesLength(line, n)
    ensures Named(line) == Some((LENGTH_KEY, Digits(n)))
  {
    var a, name, b, c, d :| line == LengthLine(a, name, b, c, n, d)
      && Spaces(a) && Spaces(b) && Spaces(c) && Spaces(d) && NamesLength(name);
    var before, value := a + name + b, c + Digits(n) + d;
    NoColon(a, name, b);
    FindAt(before, ':', value);
    assert line == before + [':'] + value;
    assert line[..|before|] == before && line[|before| + 1..] == value;
    NameTrimmed(name);
    StripFinds(a, name, b);
    AnyCase(name);
    DigitsShape(n);
    StripFinds(c, Digits(n), d);
  }

  lemma NameTrimmed(name: string)
    requires NamesLength(name)
    ensures Trimmed(name) && ':' !in name
  {
    assert LENGTH_KEY == ['c', 'o', 'n', 't', 'e', 'n', 't', '-', 'l', 'e', 'n', 'g', 't', 'h'];
  }

  lemma NoColon(a: string, name: string, b: string)
    requires Spaces(a) && Spaces(b) && NamesLength(name)
    ensures ':' !in a + name + b
  {
    NameTrimmed(name);
  }

  ghost predicate OtherName(line: string) {
    Named(line).Some? ==> Named(line).value.0 != LENGTH_KEY
  }

  lemma {:induction false} OthersKeep(h: Headers, lines: seq<string>)
    requires forall i :: 0 <= i < |lines| ==> OtherName(lines[i])
    ensures LENGTH_KEY in Given(h, lines) <==> LENGTH_KEY in h
    ensures LENGTH_KEY in h ==> Given(h, lines)[LENGTH_KEY] == h[LENGTH_KEY]
    decreases |lines|
  {
    if lines != [] {
      assert OtherName(lines[0]);
      OthersKeep(Put(h, lines[0]), lines[1..]);
    }
  }

  lemma {:induction false} GivenConcat(h: Headers, a: seq<string>, b: seq<string>)
    ensures Given(h, a + b) == Given(Given(h, a), b)
    decreases |a|
  {
    if a == [] {
      assert a + b == b;
    } else {
      assert (a + b)[0] == a[0] && (a + b)[1..] == a[1..] + b;
      GivenConcat(Put(h, a[0]), a[1..], b);
    }
  }

  lemma LengthGiven(before: seq<string>, line: string, after: seq<string>, n: nat)
    requires GivesLength(line, n) && forall i :: 0 <= i < |after| ==> OtherName(after[i])
    ensures ContentLength(Given(map[], before + [line] + after)) == Some(n)
  {
    var h := Given(map[], before);
    GivenConcat(map[], before + [line], after);
    GivenConcat(map[], before, [line]);
    assert Given(h, [line]) == Put(h, line);
    LengthNamed(line, n);
    OthersKeep(Put(h, line), after);
    LengthReadsBack(n);
    DigitsShape(n);
  }

  /** A frame whose header block gives the length of its body last - under the name in any case, with any
      white space, among any other headers - is read as that body, whatever follows. */
  lemma AnyFrameRead(
    before: seq<string>, line: string, after: seq<string>, blank: string, body: string, tail: string, decode: string -> Decoded)
    requires forall i :: 0 <= i < |before + [line] + after| ==> IsLine((before + [line] + after)[i])
    requires GivesLength(line, |body|) && forall i :: 0 <= i < |after| ==> OtherName(after[i])
    requires Spaces(blank) && LF !in blank && body != "" && !decode(body).Broken?
    ensures ReadFrames(Lines(before + [line] + after) + blank + [LF] + (body + tail), decode)
         == Prepend([body], ReadFrames(tail, decode))
  {
    BlockRead(before + [line] + after, blank, body + tail, map[]);
    LengthGiven(before, line, after, |body|);
    var rest := body + tail;
    assert rest[..|body|] == body && rest[|body|..] == tail;
  }

  /** A frame that announces no bytes is passed over; one whose body is cut off or cannot be decoded ends the
      reading with an exception. */
  lemma FrameFails(
    before: seq<string>, line: string, after: seq<string>, blank: string, n: nat, rest: string, decode: string -> Decoded)
    requires forall i :: 0 <= i < |before + [line] + after| ==> IsLine((before + [line] + after)[i])
    requires GivesLength(line, n) && forall i :: 0 <= i < |after| ==> OtherName(after[i])
    requires Spaces(blank) && LF !in blank
    ensures var intake := ReadFrames(Lines(before + [line] + after) + blank + [LF] + rest, decode);
            && (n == 0 ==> intake == ReadFrames(rest, decode))
            && (n > |rest| ==> intake == Intake([], Failed))
            && (0 < n <= |rest| && decode(rest[..n]).Broken? ==> intake == Intake([], Failed))
  {
    BlockRead(before + [line] + after, blank, rest, map[]);
    LengthGiven(before, line, after, n);
  }

  lemma {:induction false} LinesEnd(lines: seq<string>, h: Headers)
    requires forall i :: 0 <= i < |lines| ==> IsLine(lines[i])
    ensures ReadHeaders(Lines(lines), h) == Ended
    decreases |lines|
  {
    if lines != [] {
      LineSays(lines[0], Lines(lines[1..]), h);
      LinesEnd(lines[1..], Put(h, lines[0]));
    }
  }

  /** A stream that ends between header lines ends cleanly. */
  lemma StreamEnds(lines: seq<string>, decode: string -> Decoded)
    requires forall i :: 0 <= i < |lines| ==> IsLine(lines[i])
    ensures ReadFrames(Lines(lines), decode) == Intake([], Closed)
  {
    LinesEnd(lines, map[]);
  }
}
