/**
 * JavaScript's `encodeURIComponent`, used to put the shop into the query of
 * the post-OAuth redirect, and its inverse `decodeURIComponent`.
 *
 * A character outside the unescaped set is written as the percent-encoded
 * octets of its UTF-8 form (section 2.1 of RFC 3986: `%` followed by two
 * upper-case hexadecimal digits; UTF-8 as in section 3 of RFC 3629).
 * Dafny's `char` is a Unicode scalar value, so the lone-surrogate case in
 * which `encodeURIComponent` throws cannot arise.
 */
module UriComponent {
  import opened Wrappers

  type Byte = b: int | 0 <= b < 256

  /**
   * The characters `encodeURIComponent` leaves as they are: ASCII letters
   * and digits and `- _ . ! ~ * ' ( )`.
   */
  predicate IsUnescaped(ch: char) {
    || ('A' <= ch <= 'Z') || ('a' <= ch <= 'z') || ('0' <= ch <= '9')
    || ch == '-' || ch == '_' || ch == '.' || ch == '!' || ch == '~'
    || ch == '*' || ch == '\'' || ch == '(' || ch == ')'
  }

  predicate IsUpperHexDigit(ch: char) {
    ('0' <= ch <= '9') || ('A' <= ch <= 'F')
  }

  predicate IsHexDigit(ch: char) {
    ('0' <= ch <= '9') || ('A' <= ch <= 'F') || ('a' <= ch <= 'f')
  }

  function HexDigit(n: int): (ch: char)
    requires 0 <= n < 16
    ensures IsUpperHexDigit(ch)
  {
    if n < 10 then ('0' as int + n) as char else ('A' as int + n - 10) as char
  }

  function HexValue(ch: char): (n: int)
    requires IsHexDigit(ch)
    ensures 0 <= n < 16
  {
    if '0' <= ch <= '9' then ch as int - '0' as int
    else if 'A' <= ch <= 'F' then ch as int - 'A' as int + 10
    else ch as int - 'a' as int + 10
  }

  // ---------------------------------------------------------------------
  // Encoding
  // ---------------------------------------------------------------------

  /** The UTF-8 octets of a Unicode scalar value. */
  function Utf8(ch: char): (bytes: seq<Byte>)
    ensures 1 <= |bytes| <= 4
  {
    var cp := ch as int;
    if cp < 0x80 then [cp]
    else if cp < 0x800 then [0xC0 + cp / 64, 0x80 + cp % 64]
    else if cp < 0x10000 then [0xE0 + cp / 64 / 64, 0x80 + cp / 64 % 64, 0x80 + cp % 64]
    else [0xF0 + cp / 64 / 64 / 64, 0x80 + cp / 64 / 64 % 64, 0x80 + cp / 64 % 64, 0x80 + cp % 64]
  }

  /** One octet as `%XY`. */
  function EscapeByte(b: Byte): string {
    ['%', HexDigit(b / 16), HexDigit(b % 16)]
  }

  function EscapeBytes(bytes: seq<Byte>): (s: string)
    ensures |s| == 3 * |bytes|
    decreases |bytes|
  {
    if bytes == [] then [] else EscapeByte(bytes[0]) + EscapeBytes(bytes[1..])
  }

  function EncodeChar(ch: char): string {
    if IsUnescaped(ch) then [ch] else EscapeBytes(Utf8(ch))
  }

  /** JavaScript's `encodeURIComponent(s)`. */
  function Encode(s: string): string
    decreases |s|
  {
    if s == [] then [] else EncodeChar(s[0]) + Encode(s[1..])
  }

  // ---------------------------------------------------------------------
  // Decoding
  // ---------------------------------------------------------------------

  /** The octet written as `%XY` at position `i` of `s`, if there is one. */
  function ByteAt(s: string, i: nat): Option<Byte> {
    if i + 3 <= |s| && s[i] == '%' && IsHexDigit(s[i + 1]) && IsHexDigit(s[i + 2]) then
      Some(HexValue(s[i + 1]) * 16 + HexValue(s[i + 2]))
    else
      None
  }

  /** The length of the UTF-8 sequence a lead octet starts; 0 for an octet that cannot lead. */
  function LeadLength(b: Byte): nat {
    if b < 0x80 then 1
    else if 0xC0 <= b < 0xE0 then 2
    else if 0xE0 <= b < 0xF0 then 3
    else if 0xF0 <= b < 0xF8 then 4
    else 0
  }

  /** The payload bits of a lead octet of a sequence of length `n`. */
  function LeadBits(b: Byte, n: nat): int {
    if n == 1 then b else if n == 2 then b - 0xC0 else if n == 3 then b - 0xE0 else b - 0xF0
  }

  /** Reads `count` escaped continuation octets from position `i`, folding their payloads into `acc`. */
  function Continuation(s: string, i: nat, count: nat, acc: int): (r: Option<int>)
    ensures r.Some? && count > 0 ==> i + 3 * count <= |s|
    decreases count
  {
    if count == 0 then Some(acc)
    else match ByteAt(s, i)
      case Some(b) =>
        if 0x80 <= b < 0xC0 then Continuation(s, i + 3, count - 1, acc * 64 + (b - 0x80)) else None
      case None => None
  }

  /** Whether `cp` is a Unicode scalar value whose shortest UTF-8 form has `n` octets. */
  predicate IsShortestFor(cp: int, n: nat) {
    && ((0 <= cp < 0xD800) || (0xE000 <= cp < 0x110000))
    && (if n == 1 then cp < 0x80
        else if n == 2 then 0x80 <= cp < 0x800
        else if n == 3 then 0x800 <= cp < 0x10000
        else n == 4 && 0x10000 <= cp)
  }

  /** The character an escape sequence at the start of `s` stands for, and how many characters it takes. */
  function DecodeEscape(s: string): (r: Option<(char, nat)>)
    ensures r.Some? ==> 3 <= r.value.1 <= |s|
  {
    match ByteAt(s, 0)
    case None => None
    case Some(b) =>
      var n := LeadLength(b);
      if n == 0 then None
      else match Continuation(s, 3, n - 1, LeadBits(b, n))
        case None => None
        case Some(cp) => if IsShortestFor(cp, n) then Some((cp as char, 3 * n)) else None
  }

  /** JavaScript's `decodeURIComponent(s)`; `None` where it throws `URIError`. */
  function Decode(s: string): Option<string>
    decreases |s|
  {
    if s == [] then Some([])
    else if s[0] != '%' then
      match Decode(s[1..])
      case Some(t) => Some([s[0]] + t)
      case None => None
    else
      match DecodeEscape(s)
      case None => None
      case Some((ch, used)) =>
        match Decode(s[used..])
        case Some(t) => Some([ch] + t)
        case None => None
  }

  // ---------------------------------------------------------------------
  // Properties
  // ---------------------------------------------------------------------

  lemma HexRoundTrip(b: Byte)
    ensures HexValue(HexDigit(b / 16)) * 16 + HexValue(HexDigit(b % 16)) == b
  {
  }

  /** `ByteAt` only looks at the three characters at its position. */
  lemma ByteAtShift(p: string, s: string, i: nat)
    ensures ByteAt(p + s, |p| + i) == ByteAt(s, i)
  {
    var t := p + s;
    if i + 3 <= |s| {
      assert t[|p| + i] == s[i] && t[|p| + i + 1] == s[i + 1] && t[|p| + i + 2] == s[i + 2];
    }
  }

  /** The `j`-th escape of `EscapeBytes(bytes)` reads back as `bytes[j]`. */
  lemma {:induction false} EscapedByteAt(bytes: seq<Byte>, rest: string, j: nat)
    requires j < |bytes|
    ensures ByteAt(EscapeBytes(bytes) + rest, 3 * j) == Some(bytes[j])
    decreases |bytes|
  {
    var head := EscapeByte(bytes[0]);
    var tail := EscapeBytes(bytes[1..]) + rest;
    assert EscapeBytes(bytes) + rest == head + tail;
    if j == 0 {
      HexRoundTrip(bytes[0]);
      var t := head + tail;
      assert t[0] == '%' && t[1] == HexDigit(bytes[0] / 16) && t[2] == HexDigit(bytes[0] % 16);
    } else {
      ByteAtShift(head, tail, 3 * (j - 1));
      EscapedByteAt(bytes[1..], rest, j - 1);
    }
  }

  /** The escaped UTF-8 form of a character decodes back to that character. */
  lemma DecodeEscapedChar(ch: char, rest: string)
    ensures DecodeEscape(EscapeBytes(Utf8(ch)) + rest) == Some((ch, 3 * |Utf8(ch)|))
  {
    var bytes := Utf8(ch);
    var s := EscapeBytes(bytes) + rest;
    forall j | 0 <= j < |bytes| ensures ByteAt(s, 3 * j) == Some(bytes[j]) {
      EscapedByteAt(bytes, rest, j);
    }
    var cp := ch as int;
    if cp < 0x80 {
      assert LeadLength(bytes[0]) == 1;
    } else if cp < 0x800 {
      DecodeTwoOctets(s, cp);
    } else if cp < 0x10000 {
      DecodeThreeOctets(s, cp);
    } else {
      DecodeFourOctets(s, cp);
    }
  }

  lemma DecodeTwoOctets(s: string, cp: int)
    requires 0x80 <= cp < 0x800
    requires ByteAt(s, 0) == Some(0xC0 + cp / 64) && ByteAt(s, 3) == Some(0x80 + cp % 64)
    ensures DecodeEscape(s) == Some((cp as char, 6))
  {
    assert LeadLength(0xC0 + cp / 64) == 2;
    assert Continuation(s, 3, 1, cp / 64) == Continuation(s, 6, 0, cp);
  }

  lemma DecodeThreeOctets(s: string, cp: int)
    requires 0x800 <= cp < 0x10000 && (cp < 0xD800 || 0xE000 <= cp)
    requires ByteAt(s, 0) == Some(0xE0 + cp / 64 / 64)
    requires ByteAt(s, 3) == Some(0x80 + cp / 64 % 64) && ByteAt(s, 6) == Some(0x80 + cp % 64)
    ensures DecodeEscape(s) == Some((cp as char, 9))
  {
    var q := cp / 64;
    assert LeadLength(0xE0 + q / 64) == 3;
    assert Continuation(s, 3, 2, q / 64) == Continuation(s, 6, 1, q);
    assert Continuation(s, 6, 1, q) == Continuation(s, 9, 0, cp);
  }

  lemma DecodeFourOctets(s: string, cp: int)
    requires 0x10000 <= cp < 0x110000
    requires ByteAt(s, 0) == Some(0xF0 + cp / 64 / 64 / 64)
    requires ByteAt(s, 3) == Some(0x80 + cp / 64 / 64 % 64)
    requires ByteAt(s, 6) == Some(0x80 + cp / 64 % 64) && ByteAt(s, 9) == Some(0x80 + cp % 64)
    ensures DecodeEscape(s) == Some((cp as char, 12))
  {
    var q := cp / 64;
    var qq := q / 64;
    assert LeadLength(0xF0 + qq / 64) == 4;
    assert Continuation(s, 3, 3, qq / 64) == Continuation(s, 6, 2, qq);
    assert Continuation(s, 6, 2, qq) == Continuation(s, 9, 1, q);
    assert Continuation(s, 9, 1, q) == Continuation(s, 12, 0, cp);
  }

  /** `decodeURIComponent(encodeURIComponent(s)) == s`. */
  lemma {:induction false} DecodeEncode(s: string)
    ensures Decode(Encode(s)) == Some(s)
    decreases |s|
  {
    if s != [] {
      var e := EncodeChar(s[0]);
      var tail := Encode(s[1..]);
      var t := e + tail;
      assert Encode(s) == t;
      DecodeEncode(s[1..]);
      if IsUnescaped(s[0]) {
        assert t[0] == s[0] && t[1..] == tail;
      } else {
        DecodeEscapedChar(s[0], tail);
        assert t[0] == '%';
        assert t[|e|..] == tail;
      }
      assert [s[0]] + s[1..] == s;
    }
  }

  /** Different strings have different encodings. */
  lemma EncodeInjective(a: string, b: string)
    requires Encode(a) == Encode(b)
    ensures a == b
  {
    DecodeEncode(a);
    DecodeEncode(b);
  }

  /**
   * An encoding consists of unescaped characters, `%` and upper-case hex
   * digits only, so it never contains a query delimiter such as `&`, `=`,
   * `#` or `?`.
   */
  lemma {:induction false} EncodeAlphabet(s: string)
    ensures forall k :: 0 <= k < |Encode(s)| ==>
              IsUnescaped(Encode(s)[k]) || Encode(s)[k] == '%' || IsUpperHexDigit(Encode(s)[k])
    decreases |s|
  {
    if s != [] {
      EncodeAlphabet(s[1..]);
      var e := EncodeChar(s[0]);
      if !IsUnescaped(s[0]) {
        EscapeBytesAlphabet(Utf8(s[0]));
      }
      assert Encode(s) == e + Encode(s[1..]);
    }
  }

  lemma {:induction false} EscapeBytesAlphabet(bytes: seq<Byte>)
    ensures forall k :: 0 <= k < |EscapeBytes(bytes)| ==>
              EscapeBytes(bytes)[k] == '%' || IsUpperHexDigit(EscapeBytes(bytes)[k])
    decreases |bytes|
  {
    if bytes != [] {
      EscapeBytesAlphabet(bytes[1..]);
      assert EscapeBytes(bytes) == EscapeByte(bytes[0]) + EscapeBytes(bytes[1..]);
    }
  }
}
