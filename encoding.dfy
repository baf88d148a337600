/**
 * The two ways the client puts a caller's value into a request path:
 * a numeric id is interpolated as its decimal text (`${id}`), and a string
 * identifier is passed through `encodeURIComponent`.
 *
 * Each encoder is paired with a decoder, and the round-trip lemmas show that
 * the path segment determines the value it was built from.
 */
module Encoding {
  import opened Wrappers

  // ---------------------------------------------------------------------------
  // Decimal text of an integer.

  predicate IsDigit(c: char) {
    '0' <= c <= '9'
  }

  function DigitChar(d: nat): (c: char)
    requires d < 10
    ensures IsDigit(c)
  {
    ('0' as int + d) as char
  }

  function DigitValue(c: char): (d: nat)
    requires IsDigit(c)
    ensures d < 10 && DigitChar(d) == c
  {
    c as int - '0' as int
  }

  predicate AllDigits(s: string) {
    forall i :: 0 <= i < |s| ==> IsDigit(s[i])
  }

  /** The decimal digits of `n`, most significant first, with no leading zero. */
  function NatToDecimal(n: nat): (r: string)
    ensures |r| >= 1 && AllDigits(r)
    ensures r[0] == '0' ==> r == "0"
  {
    if n < 10 then [DigitChar(n)] else NatToDecimal(n / 10) + [DigitChar(n % 10)]
  }

  /** JavaScript's text for an integer-valued number: an optional minus sign, then its digits. */
  function IntToDecimal(i: int): (r: string)
    ensures |r| >= 1 && forall k :: 0 <= k < |r| ==> IsDigit(r[k]) || (k == 0 && r[k] == '-')
    ensures i >= 0 ==> AllDigits(r)
  {
    if i < 0 then "-" + NatToDecimal(-i) else NatToDecimal(i)
  }

  /** The value of a string of decimal digits. */
  function DecimalValue(s: string): nat
    requires AllDigits(s)
  {
    if s == [] then 0 else DecimalValue(s[..|s| - 1]) * 10 + DigitValue(s[|s| - 1])
  }

  /** Reads an integer written as an optional minus sign followed by at least one digit. */
  function ParseInteger(s: string): Option<int> {
    if |s| >= 2 && s[0] == '-' && AllDigits(s[1..]) then Some(0 - DecimalValue(s[1..]))
    else if |s| >= 1 && AllDigits(s) then Some(DecimalValue(s))
    else None
  }

  lemma {:induction false} NatDecimalRoundTrip(n: nat)
    ensures DecimalValue(NatToDecimal(n)) == n
  {
    if n >= 10 {
      var r := NatToDecimal(n);
      NatDecimalRoundTrip(n / 10);
      assert r[..|r| - 1] == NatToDecimal(n / 10);
    }
  }

  /** The decimal text of an integer reads back as that integer. */
  lemma IntDecimalRoundTrip(i: int)
    ensures ParseInteger(IntToDecimal(i)) == Some(i)
  {
    if i < 0 {
      NatDecimalRoundTrip(-i);
      assert IntToDecimal(i)[1..] == NatToDecimal(-i);
    } else {
      NatDecimalRoundTrip(i);
    }
  }

  lemma IntToDecimalInjective(a: int, b: int)
    ensures IntToDecimal(a) == IntToDecimal(b) <==> a == b
  {
    IntDecimalRoundTrip(a);
    IntDecimalRoundTrip(b);
  }

  // ---------------------------------------------------------------------------
  // encodeURIComponent (ECMAScript): unreserved characters stay, every other
  // character becomes the %XX escapes of its UTF-8 bytes, hex digits upper case.

  predicate Unreserved(c: char) {
    || ('A' <= c <= 'Z') || ('a' <= c <= 'z') || ('0' <= c <= '9')
    || c == '-' || c == '_' || c == '.' || c == '!' || c == '~'
    || c == '*' || c == '\'' || c == '(' || c == ')'
  }

  /** The characters an encoded component can contain: none of them separates path segments or starts a query. */
  predicate UriSafe(c: char) {
    Unreserved(c) || c == '%'
  }

  predicate AllSafe(s: string) {
    forall i :: 0 <= i < |s| ==> UriSafe(s[i])
  }

  predicate IsByte(b: nat) {
    b < 256
  }

  /** The UTF-8 encoding of a Unicode scalar value. */
  function Utf8(c: char): (bs: seq<nat>)
    ensures 1 <= |bs| <= 4 && forall i :: 0 <= i < |bs| ==> IsByte(bs[i])
  {
    var cp := c as int;
    if cp < 0x80 then [cp]
    else if cp < 0x800 then [0xC0 + cp / 0x40, 0x80 + cp % 0x40]
    else if cp < 0x10000 then [0xE0 + cp / 0x1000, 0x80 + cp / 0x40 % 0x40, 0x80 + cp % 0x40]
    else [0xF0 + cp / 0x40000, 0x80 + cp / 0x1000 % 0x40, 0x80 + cp / 0x40 % 0x40, 0x80 + cp % 0x40]
  }

  function HexDigit(d: nat): (c: char)
    requires d < 16
    ensures Unreserved(c)
  {
    if d < 10 then ('0' as int + d) as char else ('A' as int + d - 10) as char
  }

  function HexValue(c: char): Option<nat> {
    if '0' <= c <= '9' then Some(c as int - '0' as int)
    else if 'A' <= c <= 'F' then Some(c as int - 'A' as int + 10)
    else if 'a' <= c <= 'f' then Some(c as int - 'a' as int + 10)
    else None
  }

  function Escape(b: nat): (r: string)
    requires IsByte(b)
    ensures |r| == 3 && r[0] == '%' && AllSafe(r)
  {
    ['%', HexDigit(b / 16), HexDigit(b % 16)]
  }

  function EscapeAll(bs: seq<nat>): (r: string)
    requires forall i :: 0 <= i < |bs| ==> IsByte(bs[i])
    ensures |r| == 3 * |bs| && AllSafe(r)
  {
    if bs == [] then "" else Escape(bs[0]) + EscapeAll(bs[1..])
  }

  function EncodeChar(c: char): (r: string)
    ensures 1 <= |r| && AllSafe(r)
    ensures r[0] == '%' <==> !Unreserved(c)
  {
    if Unreserved(c) then [c] else EscapeAll(Utf8(c))
  }

  function EncodeURIComponent(s: string): (r: string)
    ensures AllSafe(r)
    ensures |r| >= |s|
  {
    if s == [] then "" else EncodeChar(s[0]) + EncodeURIComponent(s[1..])
  }

  /** A string made only of unreserved characters is not changed by the encoding. */
  lemma {:induction false} EncodeUnreserved(s: string)
    requires forall i :: 0 <= i < |s| ==> Unreserved(s[i])
    ensures EncodeURIComponent(s) == s
  {
    if s != [] {
      EncodeUnreserved(s[1..]);
      assert [s[0]] + s[1..] == s;
    }
  }

  // ---------------------------------------------------------------------------
  // The inverse: decoding %XX escapes of UTF-8 sequences.

  /** The byte escaped as "%XY" at position `i` of `s`. */
  function ByteAt(s: string, i: nat): (r: Option<nat>)
    ensures r.Some? ==> i + 3 <= |s| && IsByte(r.value)
  {
    if i + 3 <= |s| && s[i] == '%' then
      var hi :- HexValue(s[i + 1]);
      var lo :- HexValue(s[i + 2]);
      Some(hi * 16 + lo)
    else None
  }

  /** The six payload bits of a continuation byte escaped at position `i`. */
  function ContinuationAt(s: string, i: nat): (r: Option<nat>)
    ensures r.Some? ==> i + 3 <= |s| && r.value < 0x40
  {
    var b :- ByteAt(s, i);
    if 0x80 <= b < 0xC0 then Some(b - 0x80) else None
  }

  function Scalar(cp: int): Option<char> {
    if 0 <= cp < 0xD800 || 0xE000 <= cp < 0x11_0000 then Some(cp as char) else None
  }

  /** Decodes the escaped UTF-8 sequence that starts `s`: the character and how many characters of `s` it used. */
  function DecodeSequence(s: string): (r: Option<(char, nat)>)
    ensures r.Some? ==> 3 <= r.value.1 <= |s|
  {
    var b0 :- ByteAt(s, 0);
    if b0 < 0x80 then
      var c :- Scalar(b0);
      Some((c, 3))
    else if 0xC0 <= b0 < 0xE0 then
      var b1 :- ContinuationAt(s, 3);
      var c :- Scalar((b0 - 0xC0) * 0x40 + b1);
      Some((c, 6))
    else if 0xE0 <= b0 < 0xF0 then
      var b1 :- ContinuationAt(s, 3);
      var b2 :- ContinuationAt(s, 6);
      var c :- Scalar((b0 - 0xE0) * 0x1000 + b1 * 0x40 + b2);
      Some((c, 9))
    else if 0xF0 <= b0 < 0xF8 then
      var b1 :- ContinuationAt(s, 3);
      var b2 :- ContinuationAt(s, 6);
      var b3 :- ContinuationAt(s, 9);
      var c :- Scalar((b0 - 0xF0) * 0x40000 + b1 * 0x1000 + b2 * 0x40 + b3);
      Some((c, 12))
    else None
  }

  function DecodeURIComponent(s: string): Option<string>
    decreases |s|
  {
    if s == [] then Some("")
    else if s[0] != '%' then
      var rest :- DecodeURIComponent(s[1..]);
      Some([s[0]] + rest)
    else
      var p :- DecodeSequence(s);
      var rest :- DecodeURIComponent(s[p.1..]);
      Some([p.0] + rest)
  }

  lemma EscapeDecodes(b: nat, s: string, i: nat)
    requires IsByte(b) && i + 3 <= |s| && s[i..i + 3] == Escape(b)
    ensures ByteAt(s, i) == Some(b)
  {
    assert s[i] == Escape(b)[0] && s[i + 1] == Escape(b)[1] && s[i + 2] == Escape(b)[2];
  }

  /** Past one leading escape, a string's triples are those of the rest. */
  lemma SkipEscape(e: string, u: string, k: nat)
    requires |e| == 3 && 3 * k + 3 <= |u|
    ensures (e + u)[3 * k + 3..3 * k + 6] == u[3 * k..3 * k + 3]
  {
  }

  /** The `j`-th escape of `EscapeAll(bs)` spells out `bs[j]`. */
  lemma {:induction false} EscapeAllAt(bs: seq<nat>, t: string, j: nat)
    requires forall i :: 0 <= i < |bs| ==> IsByte(bs[i])
    requires j < |bs|
    ensures (EscapeAll(bs) + t)[3 * j..3 * j + 3] == Escape(bs[j])
  {
    if j > 0 {
      var u := EscapeAll(bs[1..]) + t;
      EscapeAllAt(bs[1..], t, j - 1);
      assert EscapeAll(bs) + t == Escape(bs[0]) + u;
      SkipEscape(Escape(bs[0]), u, j - 1);
    }
  }

  lemma ByteOfEscapes(bs: seq<nat>, t: string, j: nat)
    requires forall i :: 0 <= i < |bs| ==> IsByte(bs[i])
    requires j < |bs|
    ensures ByteAt(EscapeAll(bs) + t, 3 * j) == Some(bs[j])
  {
    EscapeAllAt(bs, t, j);
    EscapeDecodes(bs[j], EscapeAll(bs) + t, 3 * j);
  }

  lemma ThreeByteSplit(cp: int)
    requires 0 <= cp
    ensures cp / 0x1000 * 0x1000 + cp / 0x40 % 0x40 * 0x40 + cp % 0x40 == cp
  {
    var q := cp / 0x40;
    assert cp == q * 0x40 + cp % 0x40;
    assert q == q / 0x40 * 0x40 + q % 0x40;
    assert q / 0x40 == cp / 0x1000;
  }

  lemma FourByteSplit(cp: int)
    requires 0 <= cp
    ensures cp / 0x40000 * 0x40000 + cp / 0x1000 % 0x40 * 0x1000 + cp / 0x40 % 0x40 * 0x40 + cp % 0x40 == cp
  {
    var q := cp / 0x1000;
    assert q == q / 0x40 * 0x40 + q % 0x40;
    assert q / 0x40 == cp / 0x40000;
    ThreeByteSplit(cp);
  }

  lemma OneByteRoundTrip(c: char, t: string)
    requires c as int < 0x80
    ensures DecodeSequence(EscapeAll(Utf8(c)) + t) == Some((c, 3))
  {
    ByteOfEscapes(Utf8(c), t, 0);
  }

  /** How a two-byte escaped sequence decodes, for any string that starts with one. */
  lemma DecodeTwo(s: string, b0: nat, b1: nat)
    requires ByteAt(s, 0) == Some(b0) && ByteAt(s, 3) == Some(b1)
    requires 0xC0 <= b0 < 0xE0 && 0x80 <= b1 < 0xC0
    ensures var v := Scalar((b0 - 0xC0) * 0x40 + (b1 - 0x80));
      DecodeSequence(s) == if v.Some? then Some((v.value, 6)) else None
  {
  }

  lemma DecodeThree(s: string, b0: nat, b1: nat, b2: nat)
    requires ByteAt(s, 0) == Some(b0) && ByteAt(s, 3) == Some(b1) && ByteAt(s, 6) == Some(b2)
    requires 0xE0 <= b0 < 0xF0 && 0x80 <= b1 < 0xC0 && 0x80 <= b2 < 0xC0
    ensures var v := Scalar((b0 - 0xE0) * 0x1000 + (b1 - 0x80) * 0x40 + (b2 - 0x80));
      DecodeSequence(s) == if v.Some? then Some((v.value, 9)) else None
  {
  }

  lemma DecodeFour(s: string, b0: nat, b1: nat, b2: nat, b3: nat)
    requires ByteAt(s, 0) == Some(b0) && ByteAt(s, 3) == Some(b1) && ByteAt(s, 6) == Some(b2) && ByteAt(s, 9) == Some(b3)
    requires 0xF0 <= b0 < 0xF8 && 0x80 <= b1 < 0xC0 && 0x80 <= b2 < 0xC0 && 0x80 <= b3 < 0xC0
    ensures var v := Scalar((b0 - 0xF0) * 0x40000 + (b1 - 0x80) * 0x1000 + (b2 - 0x80) * 0x40 + (b3 - 0x80));
      DecodeSequence(s) == if v.Some? then Some((v.value, 12)) else None
  {
  }

  lemma TwoByteRoundTrip(c: char, t: string)
    requires 0x80 <= c as int < 0x800
    ensures DecodeSequence(EscapeAll(Utf8(c)) + t) == Some((c, 6))
  {
    var bs, cp := Utf8(c), c as int;
    ByteOfEscapes(bs, t, 0);
    ByteOfEscapes(bs, t, 1);
    assert (bs[0] - 0xC0) * 0x40 + (bs[1] - 0x80) == cp;
    DecodeTwo(EscapeAll(bs) + t, bs[0], bs[1]);
  }

  lemma ThreeByteRoundTrip(c: char, t: string)
    requires 0x800 <= c as int < 0x10000
    ensures DecodeSequence(EscapeAll(Utf8(c)) + t) == Some((c, 9))
  {
    var bs, cp := Utf8(c), c as int;
    ByteOfEscapes(bs, t, 0);
    ByteOfEscapes(bs, t, 1);
    ByteOfEscapes(bs, t, 2);
    ThreeByteSplit(cp);
    assert (bs[0] - 0xE0) * 0x1000 + (bs[1] - 0x80) * 0x40 + (bs[2] - 0x80) == cp;
    DecodeThree(EscapeAll(bs) + t, bs[0], bs[1], bs[2]);
  }

  /** The four bytes of a supplementary code point are in range and recombine to it. */
  lemma FourByteValues(cp: int, b0: int, b1: int, b2: int, b3: int)
    requires 0x10000 <= cp < 0x110000
    requires b0 == 0xF0 + cp / 0x40000 && b1 == 0x80 + cp / 0x1000 % 0x40
    requires b2 == 0x80 + cp / 0x40 % 0x40 && b3 == 0x80 + cp % 0x40
    ensures 0xF0 <= b0 < 0xF8 && 0x80 <= b1 < 0xC0 && 0x80 <= b2 < 0xC0 && 0x80 <= b3 < 0xC0
    ensures (b0 - 0xF0) * 0x40000 + (b1 - 0x80) * 0x1000 + (b2 - 0x80) * 0x40 + (b3 - 0x80) == cp
  {
    FourByteSplit(cp);
  }

  lemma FourByteRoundTrip(c: char, t: string)
    requires 0x10000 <= c as int
    ensures DecodeSequence(EscapeAll(Utf8(c)) + t) == Some((c, 12))
  {
    var bs, cp := Utf8(c), c as int;
    ByteOfEscapes(bs, t, 0);
    ByteOfEscapes(bs, t, 1);
    ByteOfEscapes(bs, t, 2);
    ByteOfEscapes(bs, t, 3);
    FourByteValues(cp, bs[0], bs[1], bs[2], bs[3]);
    DecodeFour(EscapeAll(bs) + t, bs[0], bs[1], bs[2], bs[3]);
  }

  /** The escapes of a character's UTF-8 bytes decode back to that character. */
  lemma SequenceRoundTrip(c: char, t: string)
    ensures DecodeSequence(EscapeAll(Utf8(c)) + t) == Some((c, 3 * |Utf8(c)|))
  {
    var cp := c as int;
    if cp < 0x80 {
      OneByteRoundTrip(c, t);
    } else if cp < 0x800 {
      TwoByteRoundTrip(c, t);
    } else if cp < 0x10000 {
      ThreeByteRoundTrip(c, t);
    } else {
      FourByteRoundTrip(c, t);
    }
  }

  lemma CharRoundTrip(c: char, t: string)
    ensures DecodeURIComponent(EncodeChar(c) + t) ==
      (if DecodeURIComponent(t).Some? then Some([c] + DecodeURIComponent(t).value) else None)
  {
    var s := EncodeChar(c) + t;
    if Unreserved(c) {
      assert s[1..] == t;
    } else {
      SequenceRoundTrip(c, t);
      assert s[3 * |Utf8(c)|..] == t;
    }
  }

  /** Decoding undoes the encoding, so the encoded segment determines the identifier. */
  lemma {:induction false} UriComponentRoundTrip(s: string)
    ensures DecodeURIComponent(EncodeURIComponent(s)) == Some(s)
  {
    if s != [] {
      UriComponentRoundTrip(s[1..]);
      CharRoundTrip(s[0], EncodeURIComponent(s[1..]));
      assert [s[0]] + s[1..] == s;
    }
  }

  lemma EncodeURIComponentInjective(a: string, b: string)
    ensures EncodeURIComponent(a) == EncodeURIComponent(b) <==> a == b
  {
    UriComponentRoundTrip(a);
    UriComponentRoundTrip(b);
  }
}
