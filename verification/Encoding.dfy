/** The byte stage of the dependency-free Base64 decoder, against RFC 4648 section 4. */
module Base64 {
  import opened Wrappers

  type Bytes = seq<nat>

  const TABLE := UPPER + LOWER + DIGITS + "+/"
  const U32 := 0x1_0000_0000

  predicate AreBytes(bs: Bytes) {
    forall i :: 0 <= i < |bs| ==> bs[i] < 256
  }

  /** The symbol of a sextet, by the ranges of the RFC's Table 1. */
  function Symbol(v: nat): char
    requires v < 64
  {
    if v < 26 then 'A' + v as char
    else if v < 52 then 'a' + (v - 26) as char
    else if v < 62 then '0' + (v - 52) as char
    else if v == 62 then '+' else '/'
  }

  function ValueOf(c: char): Option<nat> {
    if 'A' <= c <= 'Z' then Some(c as int - 'A' as int)
    else if 'a' <= c <= 'z' then Some(c as int - 'a' as int + 26)
    else if '0' <= c <= '9' then Some(c as int - '0' as int + 52)
    else if c == '+' then Some(62)
    else if c == '/' then Some(63)
    else None
  }

  /** Scanning the table finds the sextet whose symbol it is. */
  method Position(c: char) returns (value: Option<nat>)
    ensures value == ValueOf(c)
  {
    for i := 0 to 64
      invariant forall v :: 0 <= v < i ==> Symbol(v) != c
    {
      TableSymbol(i);
      if TABLE[i] == c { return Some(i); }
    }
    ValueIsSymbol(c);
    return None;
  }

  lemma ValueIsSymbol(c: char)
    ensures ValueOf(c).Some? ==> ValueOf(c).value < 64 && Symbol(ValueOf(c).value) == c
  {
  }

  const UPPER := "ABCDEFGHIJKLMNOPQRSTUVWXYZ"
  const LOWER := "abcdefghijklmnopqrstuvwxyz"
  const DIGITS := "0123456789"

  lemma TableSymbol(v: nat)
    requires v < 64
    ensures |TABLE| == 64 && TABLE[v] == Symbol(v) && ValueOf(Symbol(v)) == Some(v)
  {
    assert |UPPER| == 26 && |LOWER| == 26 && |DIGITS| == 10;
    if v < 26 { UpperAt(v); } else if v < 52 { LowerAt(v - 26); } else if v < 62 { DigitAt(v - 52); }
  }

  lemma UpperAt(v: nat)
    requires v < 26
    ensures UPPER[v] == 'A' + v as char
  {
  }

  lemma LowerAt(v: nat)
    requires v < 26
    ensures LOWER[v] == 'a' + v as char
  {
  }

  lemma DigitAt(v: nat)
    requires v < 10
    ensures DIGITS[v] == '0' + v as char
  {
  }

  // ---------------------------------------------------------------- the encoding

  /** Groups of three bytes to four symbols, the last one padded. */
  function Encode(bs: Bytes): string
    requires AreBytes(bs)
  {
    if |bs| == 0 then ""
    else if |bs| == 1 then [Symbol(bs[0] / 4), Symbol(bs[0] % 4 * 16), '=', '=']
    else if |bs| == 2 then
      [Symbol(bs[0] / 4), Symbol(bs[0] % 4 * 16 + bs[1] / 16), Symbol(bs[1] % 16 * 4), '=']
    else
      [Symbol(bs[0] / 4), Symbol(bs[0] % 4 * 16 + bs[1] / 16), Symbol(bs[1] % 16 * 4 + bs[2] / 64), Symbol(bs[2] % 64)]
      + Encode(bs[3..])
  }

  predicate Whitespace(c: char) {
    c in {' ', '\t', '\n', '\r', 12 as char}
  }

  function Strip(s: string): string {
    if s == "" then "" else (if Whitespace(s[0]) then "" else [s[0]]) + Strip(s[1..])
  }

  // ---------------------------------------------------------------- the decoder

  /** Two to the number of bits left over after whole bytes: 0, 2, 4 or 6. */
  function Scale(count: nat): nat
    requires count in {0, 2, 4, 6}
  {
    if count == 0 then 1 else if count == 2 then 4 else if count == 4 then 16 else 64
  }

  /** Decoding with unbounded numbers: `pending` holds exactly the `count` bits not yet output. */
  function Feed(s: string, pending: nat, count: nat): Result<Bytes, char>
    requires count in {0, 2, 4, 6} && pending < Scale(count)
  {
    if s == "" || s[0] == '=' then Ok([])
    else if Whitespace(s[0]) then Feed(s[1..], pending, count)
    else
      match ValueOf(s[0])
      case None => Err(s[0])
      case Some(v) =>
        var bits := pending * 64 + v;
        if count == 0 then Feed(s[1..], bits, 6)
        else
          match Feed(s[1..], bits % Scale(count - 2), count - 2)
          case Err(c) => Err(c)
          case Ok(rest) => Ok([bits / Scale(count - 2)] + rest)
  }

  /** Shifting six bits into a 32-bit register and masking a byte out of it is exact: what is lost is never needed. */
  lemma RegisterStep(bits: nat, count: nat, v: nat)
    requires count in {0, 2, 4, 6} && bits < U32 && v < 64
    ensures var shifted := bits * 64 % U32 + v;
            var exact := bits % Scale(count) * 64 + v;
            && shifted < U32
            && (count == 0 ==> shifted % 64 == exact)
            && (count > 0 ==> shifted / Scale(count - 2) % 256 == exact / Scale(count - 2)
                              && shifted % Scale(count - 2) == exact % Scale(count - 2))
  {
    var kept := bits % 0x400_0000;
    assert bits * 64 % U32 == kept * 64 by { Overflow(bits); }
    if count == 6 { KeptAbove(kept, bits, 64); Masked(kept / 64, bits % 64 * 64 + v, 16); }
    else if count == 4 { KeptAbove(kept, bits, 16); Masked(kept / 16, bits % 16 * 64 + v, 4); }
    else if count == 2 { KeptAbove(kept, bits, 4); Masked(kept / 4, bits % 4 * 64 + v, 1); }
  }

  /** The pending bits are the lowest of those kept. */
  lemma KeptAbove(kept: nat, bits: nat, scale: nat)
    requires scale in {4, 16, 64} && kept == bits % 0x400_0000
    ensures kept * 64 == kept / scale * (64 * scale) + bits % scale * 64
  {
    var k := bits / 0x400_0000;
    if scale == 64 { SameLow64(k, kept); } else if scale == 16 { SameLow16(k, kept); } else { SameLow4(k, kept); }
  }

  lemma SameLow64(k: nat, kept: nat)
    ensures (k * 0x400_0000 + kept) % 64 == kept % 64
  {
    assert k * 0x400_0000 + kept == (k * 0x10_0000) * 64 + kept;
  }

  lemma SameLow16(k: nat, kept: nat)
    ensures (k * 0x400_0000 + kept) % 16 == kept % 16
  {
    assert k * 0x400_0000 + kept == (k * 0x40_0000) * 16 + kept;
  }

  lemma SameLow4(k: nat, kept: nat)
    ensures (k * 0x400_0000 + kept) % 4 == kept % 4
  {
    assert k * 0x400_0000 + kept == (k * 0x100_0000) * 4 + kept;
  }

  lemma Overflow(bits: nat)
    requires bits < U32
    ensures bits * 64 % U32 == bits % 0x400_0000 * 64
  {
    var k := bits / 0x400_0000;
    assert bits * 64 == k * U32 + bits % 0x400_0000 * 64;
  }

  /** Above the byte there are only whole multiples of 256. */
  lemma Masked(m: nat, exact: nat, scale: nat)
    requires scale in {1, 4, 16} && exact < 256 * scale
    ensures (m * (256 * scale) + exact) / scale % 256 == exact / scale
    ensures (m * (256 * scale) + exact) % scale == exact % scale
  {
    if scale == 16 { MaskedBy16(m, exact); } else if scale == 4 { MaskedBy4(m, exact); }
  }

  lemma MaskedBy16(m: nat, exact: nat)
    requires exact < 4096
    ensures (m * 4096 + exact) / 16 % 256 == exact / 16 && (m * 4096 + exact) % 16 == exact % 16
  {
    assert (m * 4096 + exact) / 16 == m * 256 + exact / 16;
  }

  lemma MaskedBy4(m: nat, exact: nat)
    requires exact < 1024
    ensures (m * 1024 + exact) / 4 % 256 == exact / 4 && (m * 1024 + exact) % 4 == exact % 4
  {
    assert (m * 1024 + exact) / 4 == m * 256 + exact / 4;
  }

  function Joined(output: Bytes, rest: Result<Bytes, char>): Result<Bytes, char> {
    match rest
    case Err(c) => Err(c)
    case Ok(more) => Ok(output + more)
  }

  lemma JoinedNone(rest: Result<Bytes, char>)
    ensures Joined([], rest) == rest
  {
    if rest.Ok? { assert [] + rest.value == rest.value; }
  }

  lemma JoinedMore(output: Bytes, b: nat, rest: Result<Bytes, char>)
    ensures Joined(output + [b], rest) == Joined(output, Joined([b], rest))
  {
    if rest.Ok? { assert (output + [b]) + rest.value == output + ([b] + rest.value); }
  }

  /** `decode_base64` up to the bytes: a 32-bit register, whitespace skipped, the first `=` ends it. */
  method Decode(encoded: string) returns (r: Result<Bytes, char>)
    ensures r == Feed(encoded, 0, 0)
  {
    var bits, count, i := 0, 0, 0;
    var output: Bytes := [];
    assert encoded[0..] == encoded;
    JoinedNone(Feed(encoded, 0, 0));
    while i < |encoded|
      invariant i <= |encoded| && 0 <= bits < U32 && count in {0, 2, 4, 6}
      invariant Joined(output, Feed(encoded[i..], bits % Scale(count), count)) == Feed(encoded, 0, 0)
    {
      var c := encoded[i];
      assert encoded[i..][0] == c && encoded[i..][1..] == encoded[i + 1..];
      i := i + 1;
      if Whitespace(c) { continue; }
      if c == '=' {
        assert output + [] == output;
        return Ok(output);
      }
      var value := Position(c);
      if value.None? { return Err(c); }
      RegisterStep(bits, count, value.value);
      var shifted := bits * 64 % U32 + value.value;
      if count == 0 {
        bits, count := shifted, 6;
      } else {
        count := count - 2;
        var b := shifted / Scale(count) % 256;
        JoinedMore(output, b, Feed(encoded[i..], shifted % Scale(count), count));
        output := output + [b];
        bits := shifted;
      }
    }
    assert encoded[i..] == "" && output + [] == output;
    return Ok(output);
  }

  // ---------------------------------------------------------------- round trip

  lemma {:induction false} WhitespaceIsSkipped(s: string, pending: nat, count: nat)
    requires count in {0, 2, 4, 6} && pending < Scale(count)
    ensures Feed(s, pending, count) == Feed(Strip(s), pending, count)
    decreases |s|
  {
    if s != "" && s[0] != '=' {
      if Whitespace(s[0]) {
        assert Strip(s) == Strip(s[1..]);
        WhitespaceIsSkipped(s[1..], pending, count);
      } else {
        assert Strip(s) == [s[0]] + Strip(s[1..]) && Strip(s)[1..] == Strip(s[1..]);
        if ValueOf(s[0]).Some? {
          var bits := pending * 64 + ValueOf(s[0]).value;
          if count == 0 { WhitespaceIsSkipped(s[1..], bits, 6); }
          else { WhitespaceIsSkipped(s[1..], bits % Scale(count - 2), count - 2); }
        }
      }
    }
  }

  lemma FeedFirst(v: nat, s: string, pending: nat, count: nat)
    requires v < 64 && count in {0, 2, 4, 6} && pending < Scale(count)
    ensures Feed([Symbol(v)] + s, pending, count)
         == if count == 0 then Feed(s, pending * 64 + v, 6)
            else Joined([(pending * 64 + v) / Scale(count - 2)], Feed(s, (pending * 64 + v) % Scale(count - 2), count - 2))
  {
    TableSymbol(v);
    assert ([Symbol(v)] + s)[1..] == s;
  }

  /** Four symbols give three bytes and leave nothing pending. */
  lemma FeedGroup(a: nat, b: nat, c: nat, s: string)
    requires a < 256 && b < 256 && c < 256
    ensures Feed([Symbol(a / 4), Symbol(a % 4 * 16 + b / 16), Symbol(b % 16 * 4 + c / 64), Symbol(c % 64)] + s, 0, 0)
         == Joined([a, b, c], Feed(s, 0, 0))
  {
    GroupArithmetic(a, b, c);
    var v0, v1 := a / 4, a % 4 * 16 + b / 16;
    var s2 := [Symbol(b % 16 * 4 + c / 64)] + ([Symbol(c % 64)] + s);
    var s1 := [Symbol(v1)] + s2;
    assert [Symbol(v0), Symbol(v1), Symbol(b % 16 * 4 + c / 64), Symbol(c % 64)] + s == [Symbol(v0)] + s1;
    FeedFirst(v0, s1, 0, 0);
    FeedFirst(v1, s2, v0, 6);
    FeedLastTwo(b, c, s);
    JoinedThrice(a, b, c, Feed(s, 0, 0));
  }

  lemma FeedLastTwo(b: nat, c: nat, s: string)
    requires b < 256 && c < 256
    ensures Feed([Symbol(b % 16 * 4 + c / 64)] + ([Symbol(c % 64)] + s), b / 16, 4)
         == Joined([b], Joined([c], Feed(s, 0, 0)))
  {
    GroupArithmetic(0, b, c);
    FeedFirst(b % 16 * 4 + c / 64, [Symbol(c % 64)] + s, b / 16, 4);
    FeedFirst(c % 64, s, c / 64, 2);
  }

  lemma GroupArithmetic(a: nat, b: nat, c: nat)
    requires a < 256 && b < 256 && c < 256
    ensures var v0, v1, v2, v3 := a / 4, a % 4 * 16 + b / 16, b % 16 * 4 + c / 64, c % 64;
            && v0 < 64 && v1 < 64 && v2 < 64 && v3 < 64
            && (v0 * 64 + v1) / 16 == a && (v0 * 64 + v1) % 16 == b / 16
            && (b / 16 * 64 + v2) / 4 == b && (b / 16 * 64 + v2) % 4 == c / 64
            && c / 64 * 64 + v3 == c
  {
  }

  lemma JoinedThrice(a: nat, b: nat, c: nat, rest: Result<Bytes, char>)
    ensures Joined([a], Joined([b], Joined([c], rest))) == Joined([a, b, c], rest)
  {
    if rest.Ok? { assert [a] + ([b] + ([c] + rest.value)) == [a, b, c] + rest.value; }
  }

  lemma FeedTail(bs: Bytes)
    requires AreBytes(bs) && 1 <= |bs| <= 2
    ensures Feed(Encode(bs), 0, 0) == Ok(bs)
  {
    if |bs| == 1 { FeedOne(bs[0]); } else { FeedTwo(bs[0], bs[1]); }
    assert bs == if |bs| == 1 then [bs[0]] else [bs[0], bs[1]];
  }

  lemma FeedOne(a: nat)
    requires a < 256
    ensures Feed([Symbol(a / 4), Symbol(a % 4 * 16), '=', '='], 0, 0) == Ok([a])
  {
    var v0, v1, end := a / 4, a % 4 * 16, "==";
    GroupArithmetic(a, 0, 0);
    assert [Symbol(v0), Symbol(v1), '=', '='] == [Symbol(v0)] + ([Symbol(v1)] + end);
    FeedFirst(v0, [Symbol(v1)] + end, 0, 0);
    FeedFirst(v1, end, v0, 6);
    assert Feed(end, 0, 4) == Ok([]) && [a] + [] == [a];
  }

  lemma FeedTwo(a: nat, b: nat)
    requires a < 256 && b < 256
    ensures Feed([Symbol(a / 4), Symbol(a % 4 * 16 + b / 16), Symbol(b % 16 * 4), '='], 0, 0) == Ok([a, b])
  {
    var v0, v1, v2, end := a / 4, a % 4 * 16 + b / 16, b % 16 * 4, "=";
    GroupArithmetic(a, b, 0);
    assert [Symbol(v0), Symbol(v1), Symbol(v2), '='] == [Symbol(v0)] + ([Symbol(v1)] + ([Symbol(v2)] + end));
    FeedFirst(v0, [Symbol(v1)] + ([Symbol(v2)] + end), 0, 0);
    FeedFirst(v1, [Symbol(v2)] + end, v0, 6);
    FeedFirst(v2, end, b / 16, 4);
    assert Feed(end, 0, 2) == Ok([]);
    assert [b] + [] == [b] && [a] + [b] == [a, b];
  }

  /** Decoding undoes encoding, for every byte string. */
  lemma {:induction false} DecodeInvertsEncode(bs: Bytes)
    requires AreBytes(bs)
    ensures Feed(Encode(bs), 0, 0) == Ok(bs)
    decreases |bs|
  {
    if |bs| >= 3 {
      DecodeInvertsEncode(bs[3..]);
      FeedGroup(bs[0], bs[1], bs[2], Encode(bs[3..]));
      assert bs == [bs[0], bs[1], bs[2]] + bs[3..];
    } else if |bs| > 0 {
      FeedTail(bs);
    }
  }

  /** Also when whitespace was inserted anywhere, as line wrapping does. */
  lemma DecodeIgnoresWhitespace(bs: Bytes, wrapped: string)
    requires AreBytes(bs) && Strip(wrapped) == Encode(bs)
    ensures Feed(wrapped, 0, 0) == Ok(bs)
  {
    WhitespaceIsSkipped(wrapped, 0, 0);
    DecodeInvertsEncode(bs);
  }

  /** The symbols before the padding. */
  predicate Foreign(s: string, i: nat)
    requires i < |s|
  {
    ValueOf(s[i]).None? && !Whitespace(s[i]) && forall j :: 0 <= j <= i ==> s[j] != '='
  }

  /** It fails exactly on a character outside the alphabet before the first `=`, and its output is always bytes. */
  lemma {:induction false} FailsOnlyOnForeignSymbols(s: string, pending: nat, count: nat)
    requires count in {0, 2, 4, 6} && pending < Scale(count)
    ensures Feed(s, pending, count).Err? <==> exists i :: 0 <= i < |s| && Foreign(s, i)
    ensures Feed(s, pending, count).Ok? ==> AreBytes(Feed(s, pending, count).value)
    decreases |s|
  {
    if s != "" && s[0] != '=' {
      var rest := s[1..];
      forall i | 0 <= i < |rest| ensures Foreign(rest, i) <==> Foreign(s, i + 1) {
        assert forall j :: 0 <= j <= i ==> rest[j] == s[j + 1];
        assert forall j :: 0 < j <= i + 1 ==> s[j] == rest[j - 1];
      }
      assert (exists i :: 0 < i < |s| && Foreign(s, i)) <==> (exists i :: 0 <= i < |rest| && Foreign(rest, i)) by {
        if i :| 0 < i < |s| && Foreign(s, i) { assert Foreign(rest, i - 1); }
      }
      if Whitespace(s[0]) {
        FailsOnlyOnForeignSymbols(rest, pending, count);
      } else if ValueOf(s[0]).None? {
        assert Foreign(s, 0);
      } else {
        var bits := pending * 64 + ValueOf(s[0]).value;
        if count == 0 { FailsOnlyOnForeignSymbols(rest, bits, 6); }
        else { FailsOnlyOnForeignSymbols(rest, bits % Scale(count - 2), count - 2); }
      }
    }
  }
}

/** Quoting for the shell, undone by the quote removal of Shell Command Language section 2.2. */
module ShellQuoting {
  import opened Wrappers

  datatype Mode = Unquoted | Single | Double

  /** Characters that end a word or start an expansion when they are not quoted. */
  predicate Special(c: char) {
    c in {' ', '\t', '\n', '|', '&', ';', '<', '>', '(', ')', '$', '`', '*', '?', '[', '#', '~', '=', '%'}
  }

  function Prepend(c: string, rest: Option<string>): Option<string> {
    match rest
    case None => None
    case Some(s) => Some(c + s)
  }

  /** The rest of a literal word that has begun; None if it is more than one, unfinished, or expands. */
  function Word(s: string, mode: Mode): Option<string> {
    if s == "" then (if mode.Unquoted? then Some("") else None)
    else
      match mode
      case Single => if s[0] == '\'' then Word(s[1..], Unquoted) else Prepend([s[0]], Word(s[1..], Single))
      case Double =>
        if s[0] == '"' then Word(s[1..], Unquoted)
        else if s[0] == '$' || s[0] == '`' then None
        else if s[0] == '\\' && |s| > 1 && s[1] == '\n' then Word(s[2..], Double)
        else if s[0] == '\\' && |s| > 1 && s[1] in {'$', '`', '"', '\\'} then Prepend([s[1]], Word(s[2..], Double))
        else Prepend([s[0]], Word(s[1..], Double))
      case Unquoted =>
        if s[0] == '\'' then Word(s[1..], Single)
        else if s[0] == '"' then Word(s[1..], Double)
        else if s[0] == '\\' then
          (if |s| == 1 then None else if s[1] == '\n' then Word(s[2..], Unquoted) else Prepend([s[1]], Word(s[2..], Unquoted)))
        else if Special(s[0]) then None
        else Prepend([s[0]], Word(s[1..], Unquoted))
  }

  /** The one word a text stands for; empty text, and continued lines of it, are no word. */
  function OneWord(s: string): Option<string> {
    if s == "" then None
    else if |s| > 1 && s[0] == '\\' && s[1] == '\n' then OneWord(s[2..])
    else Word(s, Unquoted)
  }

  function Replace(s: string, into: string): string {
    if s == "" then "" else (if s[0] == '\'' then into else [s[0]]) + Replace(s[1..], into)
  }

  const BACKSLASHED := "'\\''"
  const DOUBLE_QUOTED := "'\"'\"'"

  /** `quote` of the native sessions. */
  function Quote(value: string): string {
    "'" + Replace(value, BACKSLASHED) + "'"
  }

  /** `shell_quote` of the installer; paths with line breaks are refused. */
  function ShellQuote(path: string): Option<string> {
    if '\n' in path || '\r' in path then None else Some("'" + Replace(path, DOUBLE_QUOTED) + "'")
  }

  /** Either replacement leaves the quotes, adds one literal quote, and enters them again. */
  lemma ReplacementIsAQuote(into: string, rest: string)
    requires into == BACKSLASHED || into == DOUBLE_QUOTED
    ensures Word(into + rest, Single) == Prepend("'", Word(rest, Single))
  {
    var s := into + rest;
    if into == BACKSLASHED {
      assert s[0] == '\'' && s[1] == '\\' && s[2] == '\'' && s[3] == '\'';
      assert s[1..][2..] == s[3..] && s[3..][1..] == rest;
      assert Word(s[3..], Unquoted) == Word(rest, Single);
      assert Word(s[1..], Unquoted) == Prepend("'", Word(s[3..], Unquoted));
    } else {
      assert s[0] == '\'' && s[1] == '"' && s[2] == '\'' && s[3] == '"' && s[4] == '\'';
      assert s[1..][1..] == s[2..] && s[2..][1..] == s[3..] && s[3..][1..] == s[4..] && s[4..][1..] == rest;
      assert Word(s[4..], Unquoted) == Word(rest, Single);
      assert Word(s[3..], Double) == Word(s[4..], Unquoted);
      assert Word(s[2..], Double) == Prepend("'", Word(s[3..], Double));
    }
  }

  lemma {:induction false} ReplacedReadsBack(value: string, into: string, rest: string)
    requires into == BACKSLASHED || into == DOUBLE_QUOTED
    ensures Word(Replace(value, into) + ("'" + rest), Single) == Prepend(value, Word(rest, Unquoted))
    decreases |value|
  {
    var tail := "'" + rest;
    if value == "" {
      assert Replace(value, into) + tail == tail && tail[1..] == rest;
      if Word(rest, Unquoted).Some? { assert "" + Word(rest, Unquoted).value == Word(rest, Unquoted).value; }
    } else {
      ReplacedReadsBack(value[1..], into, rest);
      var after := Replace(value[1..], into) + tail;
      var first := if value[0] == '\'' then into else [value[0]];
      assert Replace(value, into) + tail == first + after;
      if value[0] == '\'' { ReplacementIsAQuote(into, after); } else { PlainInQuotes(value[0], after); }
      PrependTwice([value[0]], value[1..], Word(rest, Unquoted));
      assert [value[0]] + value[1..] == value;
    }
  }

  lemma PlainInQuotes(c: char, after: string)
    requires c != '\''
    ensures Word([c] + after, Single) == Prepend([c], Word(after, Single))
  {
    assert ([c] + after)[1..] == after;
  }

  lemma PrependTwice(a: string, b: string, rest: Option<string>)
    ensures Prepend(a, Prepend(b, rest)) == Prepend(a + b, rest)
  {
    if rest.Some? { assert a + (b + rest.value) == (a + b) + rest.value; }
  }

  /** Quoted text followed by anything contributes exactly its value to the word. */
  lemma QuotedReadsBack(value: string, into: string, rest: string)
    requires into == BACKSLASHED || into == DOUBLE_QUOTED
    ensures Word("'" + Replace(value, into) + "'" + rest, Unquoted) == Prepend(value, Word(rest, Unquoted))
  {
    var all := "'" + Replace(value, into) + "'" + rest;
    assert all[1..] == Replace(value, into) + ("'" + rest);
    ReplacedReadsBack(value, into, rest);
  }

  /** The shell reads back one word equal to the value, whatever the value contains. */
  lemma QuoteRoundTrip(value: string)
    ensures OneWord(Quote(value)) == Some(value)
  {
    QuotedReadsBack(value, BACKSLASHED, "");
    assert Quote(value) + "" == Quote(value) && value + "" == value && Quote(value)[0] == '\'';
  }

  /** The same for paths, which are refused if and only if they contain a line break. */
  lemma ShellQuoteRoundTrip(path: string)
    ensures ShellQuote(path).None? <==> '\n' in path || '\r' in path
    ensures ShellQuote(path).Some? ==> OneWord(ShellQuote(path).value) == Some(path)
  {
    QuotedReadsBack(path, DOUBLE_QUOTED, "");
    var quoted := "'" + Replace(path, DOUBLE_QUOTED) + "'";
    assert quoted + "" == quoted && path + "" == path && quoted[0] == '\'';
  }
}
