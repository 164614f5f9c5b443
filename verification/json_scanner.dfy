/**
 The brace scanner that cuts a JSON object out of a model's text (`_extract_json_object`,
 forgepilot_api/services/agent_service.py), and RFC 8259 object texts as its partner.
 */
module JsonScanner {
  import opened Arithmetic
  import opened Options

  const QUOTE: char := '\"'
  const BACKSLASH: char := '\\'

  /** The loop variables `count`, `in_string` and `escape_next`. */
  datatype Scan = Scan(depth: int, inString: bool, escapeNext: bool)

  const START := Scan(0, false, false)

  function Feed(st: Scan, c: char): Scan {
    if st.escapeNext then st.(escapeNext := false)
    else if c == BACKSLASH && st.inString then st.(escapeNext := true)
    else if c == QUOTE then st.(inString := !st.inString)
    else if st.inString then st
    else if c == '{' then st.(depth := st.depth + 1)
    else if c == '}' then st.(depth := st.depth - 1)
    else st
  }

  function FeedAll(st: Scan, s: string): Scan {
    if s == [] then st else Feed(FeedAll(st, s[..|s| - 1]), s[|s| - 1])
  }

  /** The string-aware brace depth behind a stretch of text. */
  function Depth(s: string): int { FeedAll(START, s).depth }

  /** Where a search from `start` begins: a negative start counts from the end, as in str.find. */
  function From(text: string, start: int): nat {
    if start >= 0 then start else AtLeastZero(|text| + start)
  }

  predicate IsFirstBrace(text: string, start: int, first: nat) {
    From(text, start) <= first < |text| && text[first] == '{' && forall i :: From(text, start) <= i < first ==> text[i] != '{'
  }

  predicate Closes(text: string, first: nat, end: nat) {
    first < end <= |text| && Depth(text[first..end]) == 0
  }

  /** `r` is the shortest non-empty piece from the first brace on whose depth is back at zero. */
  ghost predicate IsExtraction(text: string, start: int, r: Option<string>) {
    match r
    case None => forall first: nat, end: nat :: IsFirstBrace(text, start, first) ==> !Closes(text, first, end)
    case Some(piece) =>
      exists first: nat, end: nat :: IsFirstBrace(text, start, first) && Closes(text, first, end) && piece == text[first..end]
        && forall e: nat :: e < end ==> !Closes(text, first, e)
  }

  /** str.find("{", start). */
  method FindBrace(text: string, start: int) returns (first: int)
    ensures first < 0 <==> forall i :: From(text, start) <= i < |text| ==> text[i] != '{'
    ensures first >= 0 ==> IsFirstBrace(text, start, first)
  {
    first := From(text, start);
    while first < |text| && text[first] != '{'
      invariant From(text, start) <= first
      invariant forall i :: From(text, start) <= i < first && i < |text| ==> text[i] != '{'
    {
      first := first + 1;
    }
    if first >= |text| {
      first := -1;
    }
  }

  method ExtractJsonObject(text: string, start: int) returns (r: Option<string>)
    ensures IsExtraction(text, start, r)
  {
    var first := FindBrace(text, start);
    if first < 0 {
      return None;
    }
    var count, inString, escapeNext := 0, false, false;
    var idx := first;
    while idx < |text|
      invariant first <= idx <= |text|
      invariant FeedAll(START, text[first..idx]) == Scan(count, inString, escapeNext)
      invariant count >= 0 && (idx > first ==> count > 0)
      invariant forall e :: 0 <= e <= idx ==> !Closes(text, first, e)
    {
      var ch := text[idx];
      assert text[first..idx + 1] == text[first..idx] + [ch];
      FeedSnoc(START, text[first..idx], ch);
      idx := idx + 1;
      if escapeNext {
        escapeNext := false;
        continue;
      }
      if ch == BACKSLASH && inString {
        escapeNext := true;
        continue;
      }
      if ch == QUOTE {
        inString := !inString;
        continue;
      }
      if inString {
        continue;
      }
      if ch == '{' {
        count := count + 1;
      } else if ch == '}' {
        count := count - 1;
        if count == 0 {
          assert Closes(text, first, idx);
          return Some(text[first..idx]);
        }
      }
    }
    forall f: nat, e: nat | IsFirstBrace(text, start, f) ensures !Closes(text, f, e) {
      assert f == first;
    }
    r := None;
  }

  lemma FeedSnoc(st: Scan, s: string, c: char)
    ensures FeedAll(st, s + [c]) == Feed(FeedAll(st, s), c)
  {
    assert (s + [c])[..|s|] == s;
  }

  /** The result is determined by the text. */
  lemma ExtractionUnique(text: string, start: int, r1: Option<string>, r2: Option<string>)
    requires IsExtraction(text, start, r1) && IsExtraction(text, start, r2)
    ensures r1 == r2
  {
  }

  // ---------------------------------------------------------------- RFC 8259 texts

  /** One character of a string: unescaped, a two-character escape, or a \u escape (section 7). */
  datatype StrItem = Plain(c: char) | Escape(c: char) | Unicode(hex: string)

  /** Values with every whitespace of section 2 in place. A scalar is a number or a literal name; all
      that matters of it is that it has no quote and no brace. */
  datatype Value =
    | Scalar(text: string)
    | Str(items: seq<StrItem>)
    | Arr(inner: string, elems: Elems)
    | Obj(inner: string, members: Members)

  datatype Elems = NoElems | Elem(before: string, value: Value, after: string, rest: Elems)

  datatype Members =
    | NoMembers
    | Member(before: string, key: seq<StrItem>, beforeColon: string, afterColon: string, value: Value, after: string,
             rest: Members)

  predicate IsHex(c: char) { '0' <= c <= '9' || 'a' <= c <= 'f' || 'A' <= c <= 'F' }

  predicate ItemOk(i: StrItem) {
    match i
    case Plain(c) => c != QUOTE && c != BACKSLASH && c >= ' '
    case Escape(c) => c in "\"\\/bfnrt"
    case Unicode(hex) => |hex| == 4 && forall k :: 0 <= k < 4 ==> IsHex(hex[k])
  }

  predicate ItemsOk(items: seq<StrItem>) { forall k :: 0 <= k < |items| ==> ItemOk(items[k]) }

  predicate Blank(s: string) { forall k :: 0 <= k < |s| ==> s[k] in " \t\n\r" }

  predicate Quiet(s: string) { forall k :: 0 <= k < |s| ==> s[k] != QUOTE && s[k] != '{' && s[k] != '}' }

  predicate ValueOk(v: Value) {
    match v
    case Scalar(t) => Quiet(t)
    case Str(items) => ItemsOk(items)
    case Arr(inner, elems) => Blank(inner) && ElemsOk(elems)
    case Obj(inner, members) => Blank(inner) && MembersOk(members)
  }

  predicate ElemsOk(es: Elems) {
    es.Elem? ==> Blank(es.before) && Blank(es.after) && ValueOk(es.value) && ElemsOk(es.rest)
  }

  predicate MembersOk(ms: Members) {
    ms.Member? ==>
      && Blank(ms.before) && Blank(ms.beforeColon) && Blank(ms.afterColon) && Blank(ms.after)
      && ItemsOk(ms.key) && ValueOk(ms.value) && MembersOk(ms.rest)
  }

  function PrintItem(i: StrItem): string {
    match i
    case Plain(c) => [c]
    case Escape(c) => [BACKSLASH, c]
    case Unicode(hex) => [BACKSLASH, 'u'] + hex
  }

  function PrintItems(items: seq<StrItem>): string {
    if items == [] then [] else PrintItem(items[0]) + PrintItems(items[1..])
  }

  function PrintString(items: seq<StrItem>): string { [QUOTE] + PrintItems(items) + [QUOTE] }

  function Print(v: Value): string {
    match v
    case Scalar(t) => t
    case Str(items) => PrintString(items)
    case Arr(inner, elems) => ['['] + (if elems.NoElems? then inner else PrintElems(elems)) + [']']
    case Obj(inner, members) => ['{'] + (if members.NoMembers? then inner else PrintMembers(members)) + ['}']
  }

  function PrintElems(es: Elems): string {
    if es.NoElems? then []
    else es.before + Print(es.value) + es.after + (if es.rest.NoElems? then [] else [','] + PrintElems(es.rest))
  }

  function PrintMembers(ms: Members): string {
    if ms.NoMembers? then []
    else
      ms.before + PrintString(ms.key) + ms.beforeColon + [':'] + ms.afterColon + Print(ms.value) + ms.after
      + (if ms.rest.NoMembers? then [] else [','] + PrintMembers(ms.rest))
  }

  // ---------------------------------------------------------------- printed text is balanced

  lemma {:induction false} FeedConcat(st: Scan, a: string, b: string)
    ensures FeedAll(st, a + b) == FeedAll(FeedAll(st, a), b)
  {
    if b == [] {
      assert a + b == a;
    } else {
      var n := |b| - 1;
      FeedConcat(st, a, b[..n]);
      FeedSnoc(st, a + b[..n], b[n]);
      assert a + b == a + b[..n] + [b[n]];
    }
  }

  /** Outside strings at depth `d`, the text leads back there and never goes below. */
  ghost predicate Level(d: int, s: string) {
    && FeedAll(Scan(d, false, false), s) == Scan(d, false, false)
    && forall i :: 0 <= i <= |s| ==> FeedAll(Scan(d, false, false), s[..i]).depth >= d
  }

  lemma LevelConcat(d: int, a: string, b: string)
    requires Level(d, a) && Level(d, b)
    ensures Level(d, a + b)
  {
    var st := Scan(d, false, false);
    FeedConcat(st, a, b);
    forall i | 0 <= i <= |a + b| ensures FeedAll(st, (a + b)[..i]).depth >= d {
      if i <= |a| {
        assert (a + b)[..i] == a[..i];
      } else {
        assert (a + b)[..i] == a + b[..i - |a|];
        FeedConcat(st, a, b[..i - |a|]);
      }
    }
  }

  lemma {:induction false} LevelQuiet(d: int, s: string)
    requires Quiet(s)
    ensures Level(d, s)
  {
    if s != [] {
      LevelQuiet(d, s[..|s| - 1]);
      assert s[..|s|] == s;
      forall i | 0 <= i <= |s| ensures FeedAll(Scan(d, false, false), s[..i]).depth >= d {
        if i < |s| { assert s[..i] == s[..|s| - 1][..i]; }
      }
    }
  }

  lemma LevelBlank(d: int, s: string)
    requires Blank(s)
    ensures Level(d, s)
  {
    assert Quiet(s) by {
      forall k | 0 <= k < |s| ensures s[k] != QUOTE && s[k] != '{' && s[k] != '}' {
        assert s[k] in " \t\n\r";
      }
    }
    LevelQuiet(d, s);
  }

  /** Inside a string the depth stands still. */
  ghost predicate Inside(d: int, s: string) {
    && FeedAll(Scan(d, true, false), s) == Scan(d, true, false)
    && forall i :: 0 <= i <= |s| ==> FeedAll(Scan(d, true, false), s[..i]).depth == d
  }

  lemma InsideConcat(d: int, a: string, b: string)
    requires Inside(d, a) && Inside(d, b)
    ensures Inside(d, a + b)
  {
    var st := Scan(d, true, false);
    FeedConcat(st, a, b);
    forall i | 0 <= i <= |a + b| ensures FeedAll(st, (a + b)[..i]).depth == d {
      if i <= |a| {
        assert (a + b)[..i] == a[..i];
      } else {
        assert (a + b)[..i] == a + b[..i - |a|];
        FeedConcat(st, a, b[..i - |a|]);
      }
    }
  }

  lemma InsideOne(d: int, c: char)
    requires c != QUOTE && c != BACKSLASH
    ensures Inside(d, [c])
  {
    assert [c][..0] == [] && [c][..1] == [c];
  }

  lemma InsideEscape(d: int, c: char)
    ensures Inside(d, [BACKSLASH, c])
  {
    var s := [BACKSLASH, c];
    assert s[..0] == [] && s[..1] == [BACKSLASH] && s[..2] == s;
    assert [BACKSLASH][..0] == [];
    FeedSnoc(Scan(d, true, false), [], BACKSLASH);
    FeedSnoc(Scan(d, true, false), [BACKSLASH], c);
    assert [] + [BACKSLASH] == [BACKSLASH] && [BACKSLASH] + [c] == s;
  }

  lemma {:induction false} InsideHex(d: int, s: string)
    requires forall k :: 0 <= k < |s| ==> IsHex(s[k])
    ensures Inside(d, s)
  {
    if s != [] {
      var n := |s| - 1;
      InsideHex(d, s[..n]);
      InsideOne(d, s[n]);
      InsideConcat(d, s[..n], [s[n]]);
      assert s == s[..n] + [s[n]];
    }
  }

  lemma {:induction false} InsideItems(d: int, items: seq<StrItem>)
    requires ItemsOk(items)
    ensures Inside(d, PrintItems(items))
  {
    if items != [] {
      InsideItems(d, items[1..]);
      assert ItemOk(items[0]);
      match items[0] {
        case Plain(c) => InsideOne(d, c);
        case Escape(c) => InsideEscape(d, c);
        case Unicode(hex) =>
          InsideEscape(d, 'u');
          InsideHex(d, hex);
          InsideConcat(d, [BACKSLASH, 'u'], hex);
      }
      InsideConcat(d, PrintItem(items[0]), PrintItems(items[1..]));
    }
  }

  lemma LevelString(d: int, items: seq<StrItem>)
    requires ItemsOk(items)
    ensures Level(d, PrintString(items))
  {
    var body, st := PrintItems(items), Scan(d, false, false);
    InsideItems(d, items);
    OpenString(d, body);
    var s := [QUOTE] + body;
    FeedSnoc(st, s, QUOTE);
    assert PrintString(items) == s + [QUOTE];
    forall i | 0 <= i <= |s| + 1 ensures FeedAll(st, (s + [QUOTE])[..i]).depth >= d {
      if i <= |s| {
        assert (s + [QUOTE])[..i] == s[..i];
      } else {
        assert (s + [QUOTE])[..i] == s + [QUOTE];
      }
    }
  }

  lemma {:induction false} OpenString(d: int, body: string)
    requires Inside(d, body)
    ensures FeedAll(Scan(d, false, false), [QUOTE] + body) == Scan(d, true, false)
    ensures forall i :: 0 <= i <= |body| + 1 ==> FeedAll(Scan(d, false, false), ([QUOTE] + body)[..i]).depth == d
  {
    var st := Scan(d, false, false);
    FeedSnoc(st, [], QUOTE);
    assert [] + [QUOTE] == [QUOTE];
    FeedConcat(st, [QUOTE], body);
    forall i | 0 <= i <= |body| + 1 ensures FeedAll(st, ([QUOTE] + body)[..i]).depth == d {
      if i > 0 {
        assert ([QUOTE] + body)[..i] == [QUOTE] + body[..i - 1];
        FeedConcat(st, [QUOTE], body[..i - 1]);
      }
    }
  }

  /** Between its braces an object lies one level deeper, and strictly so. */
  lemma LevelBraced(d: int, body: string)
    requires Level(d + 1, body)
    ensures Level(d, ['{'] + body + ['}'])
    ensures forall i :: 0 < i <= |body| + 1 ==> FeedAll(Scan(d, false, false), (['{'] + body + ['}'])[..i]).depth >= d + 1
  {
    var st, open, all := Scan(d, false, false), ['{'] + body, ['{'] + body + ['}'];
    FeedSnoc(st, [], '{');
    assert [] + ['{'] == ['{'];
    FeedConcat(st, ['{'], body);
    FeedSnoc(st, open, '}');
    forall i | 0 < i <= |body| + 1 ensures FeedAll(st, all[..i]).depth >= d + 1 {
      assert all[..i] == ['{'] + body[..i - 1];
      FeedConcat(st, ['{'], body[..i - 1]);
    }
    assert all[..|all|] == all;
  }

  lemma {:induction false} LevelValue(d: int, v: Value)
    requires ValueOk(v)
    ensures Level(d, Print(v))
    decreases v
  {
    match v
    case Scalar(t) => LevelQuiet(d, t);
    case Str(items) => LevelString(d, items);
    case Arr(inner, elems) =>
      var body := if elems.NoElems? then inner else PrintElems(elems);
      if elems.NoElems? { LevelBlank(d, inner); } else { LevelElems(d, elems); }
      LevelQuiet(d, ['[']);
      LevelQuiet(d, [']']);
      LevelConcat(d, ['['], body);
      LevelConcat(d, ['['] + body, [']']);
    case Obj(inner, members) =>
      LevelBody(d + 1, inner, members);
      LevelBraced(d, if members.NoMembers? then inner else PrintMembers(members));
  }

  lemma {:induction false} LevelBody(d: int, inner: string, members: Members)
    requires Blank(inner) && MembersOk(members)
    ensures Level(d, if members.NoMembers? then inner else PrintMembers(members))
    decreases members, 1
  {
    if members.NoMembers? { LevelBlank(d, inner); } else { LevelMembers(d, members); }
  }

  lemma {:induction false} LevelElems(d: int, es: Elems)
    requires ElemsOk(es)
    ensures Level(d, PrintElems(es))
    decreases es, 0
  {
    if es.NoElems? {
      LevelQuiet(d, []);
    } else {
      LevelBlank(d, es.before);
      LevelBlank(d, es.after);
      LevelValue(d, es.value);
      LevelElems(d, es.rest);
      LevelQuiet(d, [',']);
      LevelQuiet(d, []);
      LevelConcat(d, [','], PrintElems(es.rest));
      LevelConcat(d, es.before, Print(es.value));
      LevelConcat(d, es.before + Print(es.value), es.after);
      LevelConcat(d, es.before + Print(es.value) + es.after,
                  if es.rest.NoElems? then [] else [','] + PrintElems(es.rest));
    }
  }

  lemma {:induction false} LevelMembers(d: int, ms: Members)
    requires MembersOk(ms)
    ensures Level(d, PrintMembers(ms))
    decreases ms, 0
  {
    if ms.NoMembers? {
      LevelQuiet(d, []);
    } else {
      LevelBlank(d, ms.before);
      LevelString(d, ms.key);
      LevelBlank(d, ms.beforeColon);
      LevelQuiet(d, [':']);
      LevelBlank(d, ms.afterColon);
      LevelValue(d, ms.value);
      LevelBlank(d, ms.after);
      LevelMembers(d, ms.rest);
      LevelQuiet(d, [',']);
      LevelQuiet(d, []);
      LevelConcat(d, [','], PrintMembers(ms.rest));
      var s1 := ms.before + PrintString(ms.key);
      var s2 := s1 + ms.beforeColon;
      var s3 := s2 + [':'];
      var s4 := s3 + ms.afterColon;
      var s5 := s4 + Print(ms.value);
      LevelConcat(d, ms.before, PrintString(ms.key));
      LevelConcat(d, s1, ms.beforeColon);
      LevelConcat(d, s2, [':']);
      LevelConcat(d, s3, ms.afterColon);
      LevelConcat(d, s4, Print(ms.value));
      LevelConcat(d, s5, ms.after);
      LevelConcat(d, s5 + ms.after, if ms.rest.NoMembers? then [] else [','] + PrintMembers(ms.rest));
    }
  }

  // ---------------------------------------------------------------- the round trip

  /** A text that opens with a brace and of whose non-empty prefixes only the whole closes. */
  ghost predicate ClosesAtEnd(s: string) {
    s != [] && s[0] == '{' && Depth(s) == 0 && forall i :: 0 < i < |s| ==> Depth(s[..i]) != 0
  }

  lemma BracedCloses(body: string)
    requires Level(1, body)
    ensures ClosesAtEnd(['{'] + body + ['}'])
  {
    LevelBraced(0, body);
  }

  lemma ObjectCloses(v: Value)
    requires v.Obj? && ValueOk(v)
    ensures ClosesAtEnd(Print(v))
  {
    LevelBody(1, v.inner, v.members);
    BracedCloses(if v.members.NoMembers? then v.inner else PrintMembers(v.members));
  }

  lemma BraceBehind(prefix: string, printed: string, suffix: string, start: int)
    requires printed != [] && printed[0] == '{'
    requires From(prefix + printed + suffix, start) <= |prefix| && forall i :: 0 <= i < |prefix| ==> prefix[i] != '{'
    ensures IsFirstBrace(prefix + printed + suffix, start, |prefix|)
  {
    var text := prefix + printed + suffix;
    assert text[|prefix|] == printed[0];
    assert forall i :: 0 <= i < |prefix| ==> text[i] == prefix[i];
  }

  lemma PieceOf(prefix: string, printed: string, suffix: string, i: nat)
    requires i <= |printed|
    ensures (prefix + printed + suffix)[|prefix|..|prefix| + i] == printed[..i]
  {
  }

  /** A piece that closes at its end and not before is what is extracted. */
  lemma Extracts(prefix: string, printed: string, suffix: string, start: int)
    requires ClosesAtEnd(printed)
    requires IsFirstBrace(prefix + printed + suffix, start, |prefix|)
    ensures IsExtraction(prefix + printed + suffix, start, Some(printed))
  {
    var text, first := prefix + printed + suffix, |prefix|;
    var end := first + |printed|;
    PieceOf(prefix, printed, suffix, |printed|);
    assert printed[..|printed|] == printed;
    assert Closes(text, first, end) && text[first..end] == printed;
    forall e: nat | e < end ensures !Closes(text, first, e) {
      if first < e {
        PieceOf(prefix, printed, suffix, e - first);
      }
    }
  }

  /** Any RFC 8259 object text, however spaced and escaped, is extracted exactly: behind any text
      without an opening brace, and whatever follows it. */
  lemma ExtractUndoesPrint(prefix: string, v: Value, suffix: string, start: int, r: Option<string>)
    requires v.Obj? && ValueOk(v)
    requires From(prefix + Print(v) + suffix, start) <= |prefix| && forall i :: 0 <= i < |prefix| ==> prefix[i] != '{'
    requires IsExtraction(prefix + Print(v) + suffix, start, r)
    ensures r == Some(Print(v))
  {
    ObjectCloses(v);
    BraceBehind(prefix, Print(v), suffix, start);
    Extracts(prefix, Print(v), suffix, start);
    ExtractionUnique(prefix + Print(v) + suffix, start, r, Some(Print(v)));
  }
}
