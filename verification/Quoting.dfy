/** Two quoting functions and the readers that undo them: `shellQuote` of
    packages/runtime/src/agent.ts against a POSIX shell, and `canonicalUri` of
    packages/runtime/src/aws-sigv4.ts against percent-decoding. */
module Quoting {
  import opened Common

  // ------------------------------------------------------------ shell words

  /** Each quote becomes: close, an escaped quote, open. */
  function EscapeQuotes(value: string): string {
    if value == "" then ""
    else (if value[0] == '\'' then "'\\''" else [value[0]]) + EscapeQuotes(value[1..])
  }

  function ShellQuote(value: string): string {
    "'" + EscapeQuotes(value) + "'"
  }

  /** The words read so far, and the word being read, if one has begun. */
  datatype Reader = Reader(words: seq<string>, word: Option<string>, quoted: bool)

  predicate Blank(c: char) {
    c == ' ' || c == '\t'
  }

  /** Characters that mean something to the shell outside quotes (section 2.2 of the POSIX
      Shell Command Language). */
  predicate Special(c: char) {
    c in "|&;<>()$`\"\n*?[#~=%"
  }

  function Push(r: Reader, c: char): Reader {
    r.(word := Some((if r.word.Some? then r.word.value else "") + [c]))
  }

  function Begin(r: Reader, quoted: bool): Reader {
    r.(word := Some(if r.word.Some? then r.word.value else ""), quoted := quoted)
  }

  function EndWord(r: Reader): Reader {
    if r.word.Some? then r.(words := r.words + [r.word.value], word := None) else r
  }

  /** Read words by sections 2.2.1 and 2.2.2: inside single quotes every character stands for
      itself; outside, a backslash keeps the next character. None when a quote is not closed
      or a special character is met. */
  function ReadWords(s: string, r: Reader): Option<seq<string>> {
    if s == "" then if r.quoted then None else Some(EndWord(r).words)
    else if r.quoted then
      if s[0] == '\'' then ReadWords(s[1..], Begin(r, false)) else ReadWords(s[1..], Push(r, s[0]))
    else if s[0] == '\'' then ReadWords(s[1..], Begin(r, true))
    else if s[0] == '\\' then
      if |s| == 1 then None
      else if s[1] == '\n' then ReadWords(s[2..], r)
      else ReadWords(s[2..], Push(r, s[1]))
    else if Blank(s[0]) then ReadWords(s[1..], EndWord(r))
    else if Special(s[0]) then None
    else ReadWords(s[1..], Push(r, s[0]))
  }

  const NOTHING := Reader([], None, false)

  lemma Tail(c: char, rest: string)
    ensures ([c] + rest)[0] == c && ([c] + rest)[1..] == rest
  {}

  /** Close, escaped quote, open: one quote is added to the word. */
  lemma ReadEscapedQuote(rest: string, r: Reader)
    requires r.quoted && r.word.Some?
    ensures ReadWords("'\\''" + rest, r) == ReadWords(rest, Push(r, '\''))
  {
    var open := "'" + rest;
    var escaped := "\\'" + open;
    Tail('\'', rest);
    Tail('\'', escaped);
    assert "'\\''" + rest == "'" + escaped;
    assert escaped[2..] == open && escaped[0] == '\\' && escaped[1] == '\'';
    var closed := Begin(r, false);
    assert ReadWords("'" + escaped, r) == ReadWords(escaped, closed);
    assert ReadWords(escaped, closed) == ReadWords(open, Push(closed, '\''));
    assert ReadWords(open, Push(closed, '\'')) == ReadWords(rest, Begin(Push(closed, '\''), true));
    assert Begin(Push(closed, '\''), true) == Push(r, '\'');
  }

  lemma {:induction false} ReadEscaped(value: string, rest: string, r: Reader)
    requires r.quoted && r.word.Some?
    ensures ReadWords(EscapeQuotes(value) + rest, r) == ReadWords(rest, r.(word := Some(r.word.value + value)))
  {
    if value == "" {
      assert EscapeQuotes(value) + rest == rest && r.word.value + value == r.word.value;
    } else {
      var c, more := value[0], EscapeQuotes(value[1..]) + rest;
      ReadEscaped(value[1..], rest, Push(r, c));
      assert Push(r, c).word.value + value[1..] == r.word.value + value;
      if c == '\'' {
        assert EscapeQuotes(value) + rest == "'\\''" + more;
        ReadEscapedQuote(more, r);
      } else {
        assert EscapeQuotes(value) + rest == [c] + more;
        Tail(c, more);
      }
    }
  }

  /** Reading a quoted value from between words adds exactly that word. */
  lemma ReadQuoted(value: string, r: Reader)
    requires !r.quoted && r.word.None?
    ensures ReadWords(ShellQuote(value), r) == Some(r.words + [value])
  {
    var inner := EscapeQuotes(value) + "'";
    assert ShellQuote(value) == "'" + inner;
    assert ("'" + inner)[1..] == inner;
    ReadEscaped(value, "'", Begin(r, true));
    assert "" + value == value;
    assert "'"[1..] == "";
  }

  /** The shell reads a quoted value back as the single word it came from, whatever it holds. */
  lemma ShellQuoteRoundTrip(value: string)
    ensures ReadWords(ShellQuote(value), NOTHING) == Some([value])
  {
    ReadQuoted(value, NOTHING);
    assert NOTHING.words + [value] == [value];
  }

  lemma {:induction false} ReadPlain(text: string, rest: string, r: Reader)
    requires !r.quoted && forall i :: 0 <= i < |text| ==> Plain(text[i])
    requires text != ""
    ensures ReadWords(text + rest, r) == ReadWords(rest, r.(word := Some((if r.word.Some? then r.word.value else "") + text)))
  {
    var before := if r.word.Some? then r.word.value else "";
    assert (text + rest)[1..] == text[1..] + rest;
    assert Plain(text[0]);
    if |text| == 1 {
      assert text[1..] + rest == rest && text == [text[0]];
    } else {
      assert forall i :: 0 <= i < |text| - 1 ==> text[1..][i] == text[i + 1];
      ReadPlain(text[1..], rest, Push(r, text[0]));
      assert before + [text[0]] + text[1..] == before + text;
    }
  }

  predicate Plain(c: char) {
    !Blank(c) && !Special(c) && c != '\'' && c != '\\'
  }

  /** `script -c` runs the command line through a shell, which hands the command to zsh as
      one argument. */
  lemma CommandIsOneArgument(command: string)
    ensures ReadWords("zsh -lc " + ShellQuote(command), NOTHING) == Some(["zsh", "-lc", command])
  {
    var quoted := ShellQuote(command);
    var flag := "-lc" + " " + quoted;
    assert "zsh -lc " + quoted == "zsh" + " " + flag;
    ReadPlainWord("zsh", flag, NOTHING);
    var r1, r2 := Reader(["zsh"], None, false), Reader(["zsh", "-lc"], None, false);
    assert NOTHING.words + ["zsh"] == r1.words;
    ReadPlainWord("-lc", quoted, r1);
    assert r1.words + ["-lc"] == r2.words;
    ReadQuoted(command, r2);
    assert r2.words + [command] == ["zsh", "-lc", command];
  }

  lemma ReadPlainWord(text: string, rest: string, r: Reader)
    requires !r.quoted && r.word.None? && text != "" && forall i :: 0 <= i < |text| ==> Plain(text[i])
    ensures ReadWords(text + " " + rest, r) == ReadWords(rest, Reader(r.words + [text], None, false))
  {
    assert text + " " + rest == text + (" " + rest);
    assert "" + text == text;
    ReadPlain(text, " " + rest, r);
    Tail(' ', rest);
    assert EndWord(r.(word := Some(text))) == Reader(r.words + [text], None, false);
  }

  // ----------------------------------------------------------- URI encoding

  type Byte = b: int | 0 <= b < 256

  function Utf8Char(c: char): (bytes: seq<Byte>)
    ensures 1 <= |bytes| <= 4
  {
    var n := c as int;
    if n < 0x80 then [n]
    else if n < 0x800 then [0xC0 + n / 64, 0x80 + n % 64]
    else if n < 0x1_0000 then [0xE0 + n / 4096, 0x80 + n / 64 % 64, 0x80 + n % 64]
    else [0xF0 + n / 262144, 0x80 + n / 4096 % 64, 0x80 + n / 64 % 64, 0x80 + n % 64]
  }

  /** Unreserved characters (section 2.3 of RFC 3986). */
  predicate Unreserved(c: char) {
    'A' <= c <= 'Z' || 'a' <= c <= 'z' || '0' <= c <= '9' || c == '-' || c == '.' || c == '_' || c == '~'
  }

  /** The marks that encodeURIComponent leaves alone and section 2.3 does not. */
  predicate Mark(c: char) {
    c == '!' || c == '*' || c == '\'' || c == '(' || c == ')'
  }

  function Hex(d: int): char
    requires 0 <= d < 16
  {
    if d < 10 then (d + 48) as char else (d + 55) as char
  }

  function Escape(b: Byte): string {
    ['%', Hex(b / 16), Hex(b % 16)]
  }

  function EscapeAll(bytes: seq<Byte>): string {
    if bytes == [] then "" else Escape(bytes[0]) + EscapeAll(bytes[1..])
  }

  /** The library's encodeURIComponent. */
  function EncodeUriComponent(s: string): string {
    if s == "" then ""
    else
      (if Unreserved(s[0]) || Mark(s[0]) then [s[0]] else EscapeAll(Utf8Char(s[0])))
      + EncodeUriComponent(s[1..])
  }

  /** The replacement of the remaining marks by their escapes. */
  function EscapeMarks(s: string): string {
    if s == "" then ""
    else (if Mark(s[0]) then Escape(s[0] as int) else [s[0]]) + EscapeMarks(s[1..])
  }

  function Split(s: string): (segments: seq<string>)
    ensures segments != []
  {
    if s == "" then [""]
    else
      var rest := Split(s[1..]);
      if s[0] == '/' then [""] + rest else [[s[0]] + rest[0]] + rest[1..]
  }

  function Join(segments: seq<string>): string
    requires segments != []
  {
    if |segments| == 1 then segments[0] else segments[0] + "/" + Join(segments[1..])
  }

  function EncodeSegment(segment: string): string {
    EscapeMarks(EncodeUriComponent(segment))
  }

  function EncodeSegments(segments: seq<string>): (r: seq<string>)
    ensures |r| == |segments|
  {
    seq(|segments|, i requires 0 <= i < |segments| => EncodeSegment(segments[i]))
  }

  function CanonicalUri(path: string): string {
    Join(EncodeSegments(Split(path)))
  }

  // -------------------------------------------------------- reading it back

  function HexValue(c: char): Option<int> {
    if '0' <= c <= '9' then Some(c as int - 48)
    else if 'A' <= c <= 'F' then Some(c as int - 55)
    else if 'a' <= c <= 'f' then Some(c as int - 87)
    else None
  }

  /** Percent-decoding (section 2.1 of RFC 3986) of an ASCII text. */
  function PercentDecode(s: string): Option<seq<Byte>> {
    if s == "" then Some([])
    else if s[0] == '%' then
      if |s| < 3 || HexValue(s[1]).None? || HexValue(s[2]).None? then None
      else
        var rest := PercentDecode(s[3..]);
        if rest.None? then None else Some([HexValue(s[1]).value * 16 + HexValue(s[2]).value] + rest.value)
    else if s[0] as int >= 0x80 then None
    else
      var rest := PercentDecode(s[1..]);
      if rest.None? then None else Some([s[0] as int] + rest.value)
  }

  predicate ScalarValue(n: int) {
    0 <= n < 0xD800 || 0xE000 <= n < 0x11_0000
  }

  function Cont(b: Byte): int {
    b - 0x80
  }

  /** The first character of a UTF-8 text, and how many bytes it takes. */
  function Utf8Head(bytes: seq<Byte>): Option<(int, nat)> {
    if bytes == [] then None
    else if bytes[0] < 0x80 then Some((bytes[0], 1))
    else if 0xC0 <= bytes[0] < 0xE0 && |bytes| >= 2 then Some(((bytes[0] - 0xC0) * 64 + Cont(bytes[1]), 2))
    else if 0xE0 <= bytes[0] < 0xF0 && |bytes| >= 3 then
      Some(((bytes[0] - 0xE0) * 4096 + Cont(bytes[1]) * 64 + Cont(bytes[2]), 3))
    else if 0xF0 <= bytes[0] && |bytes| >= 4 then
      Some(((bytes[0] - 0xF0) * 262144 + Cont(bytes[1]) * 4096 + Cont(bytes[2]) * 64 + Cont(bytes[3]), 4))
    else None
  }

  function Utf8Decode(bytes: seq<Byte>): Option<string> {
    if bytes == [] then Some("")
    else
      var head := Utf8Head(bytes);
      if head.None? || !ScalarValue(head.value.0) then None
      else
        var rest := Utf8Decode(bytes[head.value.1..]);
        if rest.None? then None else Some([head.value.0 as char] + rest.value)
  }

  function Utf8(s: string): seq<Byte> {
    if s == "" then [] else Utf8Char(s[0]) + Utf8(s[1..])
  }

  lemma Utf8HeadExact(c: char, rest: seq<Byte>)
    ensures Utf8Head(Utf8Char(c) + rest) == Some((c as int, |Utf8Char(c)|))
  {
    var n := c as int;
    assert n / 64 == n / 4096 * 64 + n / 64 % 64;
    assert n / 4096 == n / 262144 * 64 + n / 4096 % 64;
  }

  lemma {:induction false} Utf8RoundTrip(s: string)
    ensures Utf8Decode(Utf8(s)) == Some(s)
  {
    if s != "" {
      Utf8HeadExact(s[0], Utf8(s[1..]));
      assert (Utf8Char(s[0]) + Utf8(s[1..]))[|Utf8Char(s[0])|..] == Utf8(s[1..]);
      Utf8RoundTrip(s[1..]);
      assert [s[0]] + s[1..] == s;
    }
  }

  // --------------------------------------------------------------- encoding

  /** What one character of a segment becomes. */
  function EncodeChar(c: char): string {
    if Unreserved(c) then [c] else EscapeAll(Utf8Char(c))
  }

  lemma EscapeHasNoMarks(b: Byte, rest: string)
    ensures EscapeMarks(Escape(b) + rest) == Escape(b) + EscapeMarks(rest)
  {
    var hi, lo := Hex(b / 16), Hex(b % 16);
    var r1 := [lo] + rest;
    var r2 := [hi] + r1;
    assert Escape(b) + rest == ['%'] + r2;
    EscapeMarksStep(lo, rest);
    EscapeMarksStep(hi, r1);
    EscapeMarksStep('%', r2);
    assert ['%'] + ([hi] + ([lo] + EscapeMarks(rest))) == Escape(b) + EscapeMarks(rest);
  }

  lemma EscapeAllStep(bytes: seq<Byte>, rest: string)
    requires bytes != []
    ensures EscapeAll(bytes) + rest == Escape(bytes[0]) + (EscapeAll(bytes[1..]) + rest)
  {}

  lemma {:induction false} EscapesHaveNoMarks(bytes: seq<Byte>, rest: string)
    ensures EscapeMarks(EscapeAll(bytes) + rest) == EscapeAll(bytes) + EscapeMarks(rest)
  {
    if bytes == [] {
      assert EscapeAll(bytes) + rest == rest;
    } else {
      EscapesHaveNoMarks(bytes[1..], rest);
      EscapeHasNoMarks(bytes[0], EscapeAll(bytes[1..]) + rest);
      EscapeAllStep(bytes, rest);
      EscapeAllStep(bytes, EscapeMarks(rest));
    }
  }

  lemma EscapeMarksStep(c: char, rest: string)
    ensures !Mark(c) ==> EscapeMarks([c] + rest) == [c] + EscapeMarks(rest)
    ensures Mark(c) ==> EscapeMarks([c] + rest) == Escape(c as int) + EscapeMarks(rest)
  {
    assert ([c] + rest)[1..] == rest;
  }

  /** The two passes over a segment amount to encoding each character once. */
  lemma EncodeSegmentStep(c: char, rest: string)
    ensures EncodeSegment([c] + rest) == EncodeChar(c) + EncodeSegment(rest)
  {
    assert ([c] + rest)[1..] == rest;
    var more := EncodeUriComponent(rest);
    if Unreserved(c) || Mark(c) {
      assert EncodeUriComponent([c] + rest) == [c] + more;
      EscapeMarksStep(c, more);
      if Mark(c) {
        assert Utf8Char(c) == [c as int];
        assert EscapeAll(Utf8Char(c)) == Escape(c as int) + EscapeAll([]);
      }
    } else {
      EscapesHaveNoMarks(Utf8Char(c), more);
    }
  }

  function Flat(path: string): string {
    if path == "" then "" else (if path[0] == '/' then "/" else EncodeChar(path[0])) + Flat(path[1..])
  }

  lemma {:induction false} CanonicalIsFlat(path: string)
    ensures CanonicalUri(path) == Flat(path)
  {
    if path == "" {
      assert EncodeSegments(Split(path)) == [EncodeSegment("")];
    } else {
      CanonicalIsFlat(path[1..]);
      var rest := Split(path[1..]);
      var encoded := EncodeSegments(rest);
      if path[0] == '/' {
        assert EncodeSegments(Split(path)) == [""] + encoded;
        assert ([""] + encoded)[1..] == encoded;
        assert "" + "/" == "/";
      } else {
        EncodeSegmentStep(path[0], rest[0]);
        var first := EncodeChar(path[0]) + encoded[0];
        assert EncodeSegments(Split(path)) == [first] + encoded[1..];
        JoinFirst(EncodeChar(path[0]), encoded);
      }
    }
  }

  lemma JoinFirst(head: string, segments: seq<string>)
    requires segments != []
    ensures Join([head + segments[0]] + segments[1..]) == head + Join(segments)
  {
    var all := [head + segments[0]] + segments[1..];
    assert all[1..] == segments[1..];
    if |segments| > 1 { Regroup(head, segments[0], "/", Join(segments[1..])); }
  }

  lemma Regroup(a: string, b: string, c: string, d: string)
    ensures a + b + c + d == a + (b + c + d)
  {}

  lemma HexExact(d: int)
    requires 0 <= d < 16
    ensures HexValue(Hex(d)) == Some(d) && Hex(d) != '/' && Hex(d) != '%'
  {}

  lemma DecodeEscape(b: Byte, rest: string)
    requires PercentDecode(rest).Some?
    ensures PercentDecode(Escape(b) + rest) == Some([b] + PercentDecode(rest).value)
  {
    HexExact(b / 16);
    HexExact(b % 16);
    var all := Escape(b) + rest;
    assert all[0] == '%' && all[1] == Hex(b / 16) && all[2] == Hex(b % 16) && all[3..] == rest;
    assert b / 16 * 16 + b % 16 == b;
  }

  lemma {:induction false} DecodeEscapes(bytes: seq<Byte>, rest: string)
    requires PercentDecode(rest).Some?
    ensures PercentDecode(EscapeAll(bytes) + rest) == Some(bytes + PercentDecode(rest).value)
  {
    if bytes == [] {
      assert EscapeAll(bytes) + rest == rest && bytes + PercentDecode(rest).value == PercentDecode(rest).value;
    } else {
      DecodeEscapes(bytes[1..], rest);
      EscapeAllStep(bytes, rest);
      DecodeEscape(bytes[0], EscapeAll(bytes[1..]) + rest);
      Reattach(bytes, PercentDecode(rest).value);
    }
  }

  lemma Reattach(bytes: seq<Byte>, rest: seq<Byte>)
    requires bytes != []
    ensures [bytes[0]] + (bytes[1..] + rest) == bytes + rest
  {}

  lemma DecodePlain(c: char, rest: string)
    requires (Unreserved(c) || c == '/') && PercentDecode(rest).Some?
    ensures PercentDecode([c] + rest) == Some(Utf8Char(c) + PercentDecode(rest).value)
  {
    assert ([c] + rest)[1..] == rest;
    assert Utf8Char(c) == [c as int];
  }

  lemma {:induction false} DecodeFlat(path: string)
    ensures PercentDecode(Flat(path)) == Some(Utf8(path))
  {
    if path != "" {
      DecodeFlat(path[1..]);
      if path[0] == '/' || Unreserved(path[0]) {
        DecodePlain(path[0], Flat(path[1..]));
      } else {
        DecodeEscapes(Utf8Char(path[0]), Flat(path[1..]));
      }
    }
  }

  function DecodeUri(uri: string): Option<string> {
    if PercentDecode(uri).None? then None else Utf8Decode(PercentDecode(uri).value)
  }

  /** Percent-decoding a canonical URI gives the path back. */
  lemma CanonicalUriRoundTrip(path: string)
    ensures DecodeUri(CanonicalUri(path)) == Some(path)
  {
    CanonicalIsFlat(path);
    DecodeFlat(path);
    Utf8RoundTrip(path);
  }

  predicate NoSlash(s: string) {
    forall i :: 0 <= i < |s| ==> s[i] != '/'
  }

  lemma {:induction false} EscapesNoSlash(bytes: seq<Byte>)
    ensures NoSlash(EscapeAll(bytes))
  {
    if bytes != [] {
      EscapesNoSlash(bytes[1..]);
      HexExact(bytes[0] / 16);
      HexExact(bytes[0] % 16);
    }
  }

  lemma {:induction false} SplitPrefix(head: string, rest: string)
    requires NoSlash(head)
    ensures Split(head + rest) == [head + Split(rest)[0]] + Split(rest)[1..]
  {
    if head == "" {
      assert head + rest == rest && head + Split(rest)[0] == Split(rest)[0];
    } else {
      assert (head + rest)[1..] == head[1..] + rest;
      SplitPrefix(head[1..], rest);
      assert [head[0]] + (head[1..] + Split(rest)[0]) == head + Split(rest)[0];
    }
  }

  lemma SplitSlash(rest: string)
    ensures Split("/" + rest) == [""] + Split(rest)
  {
    Tail('/', rest);
  }

  lemma EncodeFirst(first: string, rest: seq<string>)
    ensures EncodeSegments([first] + rest) == [EncodeSegment(first)] + EncodeSegments(rest)
  {}

  /** One more character in front of a split and encoded path. */
  lemma SegmentsStep(c: char, path: string, encoded: string)
    requires c != '/' && Split(encoded) == EncodeSegments(Split(path))
    ensures Split(EncodeChar(c) + encoded) == EncodeSegments([[c] + Split(path)[0]] + Split(path)[1..])
  {
    var rest := Split(path);
    EscapesNoSlash(Utf8Char(c));
    SplitPrefix(EncodeChar(c), encoded);
    EncodeSegmentStep(c, rest[0]);
    EncodeFirst([c] + rest[0], rest[1..]);
    assert EncodeSegments(rest)[1..] == EncodeSegments(rest[1..]);
  }

  /** The canonical URI has the path's segments, each encoded: no slash is added or lost. */
  lemma SegmentsKept(path: string)
    ensures Split(CanonicalUri(path)) == EncodeSegments(Split(path))
  {
    CanonicalIsFlat(path);
    FlatSegments(path);
  }

  lemma {:induction false} FlatSegments(path: string)
    ensures Split(Flat(path)) == EncodeSegments(Split(path))
  {
    if path == "" {
      assert EncodeSegments([""]) == [EncodeSegment("")];
    } else {
      FlatSegments(path[1..]);
      if path[0] == '/' {
        SplitSlash(Flat(path[1..]));
        EncodeFirst("", Split(path[1..]));
      } else {
        SegmentsStep(path[0], path[1..], Flat(path[1..]));
      }
    }
  }

  predicate UpperHex(c: char) {
    '0' <= c <= '9' || 'A' <= c <= 'F'
  }

  /** Slashes, unreserved characters and uppercase escapes, and nothing else. */
  predicate Canonical(s: string) {
    s == ""
    || ((s[0] == '/' || Unreserved(s[0])) && Canonical(s[1..]))
    || (|s| >= 3 && s[0] == '%' && UpperHex(s[1]) && UpperHex(s[2]) && Canonical(s[3..]))
  }

  lemma {:induction false} EscapesCanonical(bytes: seq<Byte>, rest: string)
    requires Canonical(rest)
    ensures Canonical(EscapeAll(bytes) + rest)
  {
    if bytes == [] {
      assert EscapeAll(bytes) + rest == rest;
    } else {
      EscapesCanonical(bytes[1..], rest);
      var all := EscapeAll(bytes) + rest;
      assert all[3..] == EscapeAll(bytes[1..]) + rest;
    }
  }

  /** Every other character of a canonical URI is unreserved or part of an uppercase escape. */
  lemma {:induction false} OutputIsCanonical(path: string)
    ensures Canonical(CanonicalUri(path))
  {
    CanonicalIsFlat(path);
    if path != "" {
      CanonicalIsFlat(path[1..]);
      OutputIsCanonical(path[1..]);
      var rest := Flat(path[1..]);
      if path[0] == '/' || Unreserved(path[0]) {
        assert ([path[0]] + rest)[1..] == rest;
      } else {
        EscapesCanonical(Utf8Char(path[0]), rest);
      }
    }
  }

  const UPPER := "ABCDEFGHIJKLMNOPQRSTUVWXYZ"
  const LOWER := "abcdefghijklmnopqrstuvwxyz"
  const OTHERS := "0123456789-_.~/"

  lemma UpperLetters(c: char)
    ensures c in UPPER <==> 'A' <= c <= 'Z'
  {
    if 'A' <= c <= 'Z' { assert UPPER[c as int - 'A' as int] == c; }
  }

  lemma LowerLetters(c: char)
    ensures c in LOWER <==> 'a' <= c <= 'z'
  {
    if 'a' <= c <= 'z' { assert LOWER[c as int - 'a' as int] == c; }
  }

  lemma OtherCharacters(c: char)
    ensures c in OTHERS <==> '0' <= c <= '9' || c == '-' || c == '_' || c == '.' || c == '~' || c == '/'
  {
    if '0' <= c <= '9' { assert OTHERS[c as int - '0' as int] == c; }
    assert OTHERS[10] == '-' && OTHERS[11] == '_' && OTHERS[12] == '.' && OTHERS[13] == '~' && OTHERS[14] == '/';
  }

  /** Exactly these characters are left as they are; every other one is escaped. */
  lemma LeftAloneExact(c: char)
    ensures CanonicalUri([c]) == [c] <==> c in UPPER || c in LOWER || c in OTHERS
  {
    UpperLetters(c);
    LowerLetters(c);
    OtherCharacters(c);
    CanonicalIsFlat([c]);
    assert [c][1..] == [] && Flat([]) == [];
  }
}
