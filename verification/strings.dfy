/**
 * String operations the gateway and the dashboard rely on, written as the
 * JavaScript built-ins and the WHATWG Infra algorithms they stand for:
 * `includes`, `join`, `trim`, strict splitting, splitting on ASCII
 * whitespace, ASCII lower-casing and `String(n)` for a natural number.
 */
module Strings {

  // ---------------------------------------------------------------------
  // Prefixes and substrings
  // ---------------------------------------------------------------------

  predicate StartsWith(s: string, prefix: string) {
    |prefix| <= |s| && s[..|prefix|] == prefix
  }

  predicate EndsWith(s: string, suffix: string) {
    |suffix| <= |s| && s[|s| - |suffix|..] == suffix
  }

  /** JavaScript's `s.includes(sub)`. */
  predicate Contains(s: string, sub: string)
    decreases |s|
  {
    StartsWith(s, sub) || (|s| > 0 && Contains(s[1..], sub))
  }

  /** `Contains` holds exactly when `sub` occurs at some position of `s`. */
  lemma {:induction false} ContainsIffOccurs(s: string, sub: string)
    ensures Contains(s, sub) <==> exists i :: 0 <= i <= |s| && StartsWith(s[i..], sub)
    decreases |s|
  {
    assert s[0..] == s;
    if |s| > 0 {
      ContainsIffOccurs(s[1..], sub);
      if Contains(s[1..], sub) {
        var i :| 0 <= i <= |s| - 1 && StartsWith(s[1..][i..], sub);
        assert s[1..][i..] == s[i + 1..];
      }
      if i :| 0 < i <= |s| && StartsWith(s[i..], sub) {
        assert s[1..][i - 1..] == s[i..];
      }
    } else {
      forall i | 0 <= i <= |s| && StartsWith(s[i..], sub) ensures StartsWith(s, sub) {
        assert s[i..] == s;
      }
    }
  }

  // ---------------------------------------------------------------------
  // Array.prototype.join
  // ---------------------------------------------------------------------

  /** JavaScript's `parts.join(sep)`. */
  function Join(parts: seq<string>, sep: string): string
    decreases |parts|
  {
    if |parts| == 0 then ""
    else if |parts| == 1 then parts[0]
    else parts[0] + sep + Join(parts[1..], sep)
  }

  /** Joining a first part in front of at least one more puts the separator between them. */
  lemma JoinCons(first: string, rest: seq<string>, sep: string)
    requires |rest| >= 1
    ensures Join([first] + rest, sep) == first + sep + Join(rest, sep)
  {
    assert ([first] + rest)[1..] == rest;
  }

  /** Every character of a joined string comes from a part or from the separator. */
  lemma {:induction false} JoinChars(parts: seq<string>, sep: string, ch: char)
    requires ch in Join(parts, sep)
    ensures ch in sep || exists k :: 0 <= k < |parts| && ch in parts[k]
    decreases |parts|
  {
    if |parts| == 1 {
      assert ch in parts[0];
    } else if |parts| > 1 {
      var rest := Join(parts[1..], sep);
      assert Join(parts, sep) == parts[0] + sep + rest;
      if ch !in parts[0] && ch !in sep {
        assert ch in rest;
        JoinChars(parts[1..], sep, ch);
        var k :| 0 <= k < |parts[1..]| && ch in parts[1..][k];
        assert ch in parts[k + 1];
      }
    }
  }

  // ---------------------------------------------------------------------
  // Strict splitting (Infra, "strictly split a string")
  // ---------------------------------------------------------------------

  /** The first position of `c` in `s`. */
  function IndexOf(s: string, c: char): (i: nat)
    requires c in s
    ensures i < |s| && s[i] == c && c !in s[..i]
    decreases |s|
  {
    if s[0] == c then 0
    else
      assert c in s[1..] by {
        var k :| 0 <= k < |s| && s[k] == c;
        assert s[1..][k - 1] == c;
      }
      var j := IndexOf(s[1..], c);
      assert s[..j + 1] == [s[0]] + s[1..][..j];
      j + 1
  }

  /**
   * The pieces of `s` between the occurrences of `c`, empty pieces kept:
   * there is always one more piece than there are occurrences of `c`.
   */
  function StrictSplit(s: string, c: char): (pieces: seq<string>)
    ensures |pieces| >= 1
    ensures forall k :: 0 <= k < |pieces| ==> c !in pieces[k]
    decreases |s|
  {
    if c in s then
      var i := IndexOf(s, c);
      [s[..i]] + StrictSplit(s[i + 1..], c)
    else
      [s]
  }

  /** Splitting and re-joining with the same character gives back the string. */
  lemma {:induction false} JoinStrictSplit(s: string, c: char)
    ensures Join(StrictSplit(s, c), [c]) == s
    decreases |s|
  {
    if c in s {
      var i := IndexOf(s, c);
      var rest := StrictSplit(s[i + 1..], c);
      JoinStrictSplit(s[i + 1..], c);
      JoinCons(s[..i], rest, [c]);
      assert s == s[..i] + [c] + s[i + 1..];
    }
  }

  /** The first `c` of `p + [c] + rest` is the one after `p` when `p` has none. */
  lemma IndexAfterPiece(p: string, rest: string, c: char)
    requires c !in p
    ensures c in p + [c] + rest
    ensures IndexOf(p + [c] + rest, c) == |p|
  {
    var s := p + [c] + rest;
    assert s[|p|] == c;
    assert forall k :: 0 <= k < |p| ==> s[k] == p[k];
  }

  /** Joining pieces free of `c` with `c` and splitting again gives back the pieces. */
  lemma {:induction false} StrictSplitJoin(parts: seq<string>, c: char)
    requires |parts| >= 1
    requires forall k :: 0 <= k < |parts| ==> c !in parts[k]
    ensures StrictSplit(Join(parts, [c]), c) == parts
    decreases |parts|
  {
    if |parts| > 1 {
      var rest := Join(parts[1..], [c]);
      var s := parts[0] + [c] + rest;
      assert Join(parts, [c]) == s;
      IndexAfterPiece(parts[0], rest, c);
      assert s[..|parts[0]|] == parts[0];
      assert s[|parts[0]| + 1..] == rest;
      StrictSplitJoin(parts[1..], c);
      assert [parts[0]] + parts[1..] == parts;
    }
  }

  // ---------------------------------------------------------------------
  // Whitespace and trimming
  // ---------------------------------------------------------------------

  /** Infra's ASCII whitespace: TAB, LF, FF, CR and SPACE. */
  predicate IsAsciiWhitespace(ch: char) {
    ch == '\t' || ch == '\n' || ch == '\U{000C}' || ch == '\r' || ch == ' '
  }

  /**
   * The characters `String.prototype.trim` removes: ECMAScript's WhiteSpace
   * (TAB, VT, FF, SPACE, NBSP, ZWNBSP and the Space_Separator category) and
   * LineTerminator (LF, CR, LS, PS).
   */
  predicate IsJsWhitespace(ch: char) {
    || ch == '\t' || ch == '\n' || ch == '\U{000B}' || ch == '\U{000C}' || ch == '\r'
    || ch == ' ' || ch == '\U{00A0}' || ch == '\U{1680}'
    || ('\U{2000}' <= ch <= '\U{200A}')
    || ch == '\U{2028}' || ch == '\U{2029}' || ch == '\U{202F}' || ch == '\U{205F}'
    || ch == '\U{3000}' || ch == '\U{FEFF}'
  }

  /** The length of the leading run of `isWs` characters of `s`. */
  function LeadingCount(s: string, isWs: char -> bool): (n: nat)
    ensures n <= |s|
    ensures forall k :: 0 <= k < n ==> isWs(s[k])
    ensures n == |s| || !isWs(s[n])
    decreases |s|
  {
    if |s| > 0 && isWs(s[0]) then
      var n := LeadingCount(s[1..], isWs);
      assert forall k :: 1 <= k < n + 1 ==> s[1..][k - 1] == s[k];
      n + 1
    else
      0
  }

  /** The length of the trailing run of `isWs` characters of `s`. */
  function TrailingCount(s: string, isWs: char -> bool): (n: nat)
    ensures n <= |s|
    ensures forall k :: |s| - n <= k < |s| ==> isWs(s[k])
    ensures n == |s| || !isWs(s[|s| - n - 1])
    decreases |s|
  {
    if |s| > 0 && isWs(s[|s| - 1]) then
      var n := TrailingCount(s[..|s| - 1], isWs);
      assert forall k :: |s| - 1 - n <= k < |s| - 1 ==> s[..|s| - 1][k] == s[k];
      n + 1
    else
      0
  }

  /**
   * `s` without leading and trailing `isWs` characters: the piece of `s`
   * that starts after the leading whitespace, is followed only by
   * whitespace and ends in a non-whitespace character; it is empty exactly
   * when `s` is all whitespace.
   */
  function Trim(s: string, isWs: char -> bool): (r: string)
    ensures var i := LeadingCount(s, isWs);
            i + |r| <= |s| && r == s[i..i + |r|]
            && forall k :: i + |r| <= k < |s| ==> isWs(s[k])
    ensures r == [] || (!isWs(r[0]) && !isWs(r[|r| - 1]))
    ensures r == [] <==> forall k :: 0 <= k < |s| ==> isWs(s[k])
  {
    var i := LeadingCount(s, isWs);
    var t := s[i..];
    var r := t[..|t| - TrailingCount(t, isWs)];
    assert forall k :: i + |r| <= k < |s| ==> s[k] == t[k - i];
    assert r != [] ==> r[0] == s[i];
    r
  }

  /** Trimming a string with non-whitespace ends between two runs of whitespace gives back that string. */
  lemma TrimPadded(pad: string, t: string, pad2: string, isWs: char -> bool)
    requires forall k :: 0 <= k < |pad| ==> isWs(pad[k])
    requires forall k :: 0 <= k < |pad2| ==> isWs(pad2[k])
    requires |t| > 0 && !isWs(t[0]) && !isWs(t[|t| - 1])
    ensures Trim(pad + t + pad2, isWs) == t
  {
    var s := pad + t + pad2;
    assert s == pad + (t + pad2);
    LeadingOfPadded(pad, t + pad2, isWs);
    assert s[|pad|..] == t + pad2;
    TrailingOfPadded(t, pad2, isWs);
    assert (t + pad2)[..|t|] == t;
  }

  /** The leading whitespace of `pad + t` is `pad` when `t` starts with something else. */
  lemma LeadingOfPadded(pad: string, t: string, isWs: char -> bool)
    requires forall k :: 0 <= k < |pad| ==> isWs(pad[k])
    requires |t| > 0 && !isWs(t[0])
    ensures LeadingCount(pad + t, isWs) == |pad|
  {
    var s := pad + t;
    assert forall k :: 0 <= k < |pad| ==> s[k] == pad[k];
    assert s[|pad|] == t[0];
  }

  /** The trailing whitespace of `t + pad` is `pad` when `t` ends with something else. */
  lemma TrailingOfPadded(t: string, pad: string, isWs: char -> bool)
    requires forall k :: 0 <= k < |pad| ==> isWs(pad[k])
    requires |t| > 0 && !isWs(t[|t| - 1])
    ensures TrailingCount(t + pad, isWs) == |pad|
  {
    var s := t + pad;
    assert forall k :: |t| <= k < |s| ==> s[k] == pad[k - |t|];
    assert s[|t| - 1] == t[|t| - 1];
  }

  /** JavaScript's `s.trim()`. */
  function JsTrim(s: string): string {
    Trim(s, IsJsWhitespace)
  }

  /** Infra's "strip leading and trailing ASCII whitespace". */
  function StripAsciiWhitespace(s: string): string {
    Trim(s, IsAsciiWhitespace)
  }

  // ---------------------------------------------------------------------
  // Splitting on ASCII whitespace (Infra, "split a string on ASCII whitespace")
  // ---------------------------------------------------------------------

  /** A non-empty run of characters none of which is ASCII whitespace. */
  predicate IsWord(w: string) {
    |w| > 0 && forall k :: 0 <= k < |w| ==> !IsAsciiWhitespace(w[k])
  }

  /** The longest prefix of `s` without ASCII whitespace. */
  function TakeWord(s: string): (w: string)
    ensures |w| <= |s| && w == s[..|w|]
    ensures forall k :: 0 <= k < |w| ==> !IsAsciiWhitespace(w[k])
    ensures |w| == |s| || IsAsciiWhitespace(s[|w|])
    decreases |s|
  {
    if |s| == 0 || IsAsciiWhitespace(s[0]) then []
    else
      var w := TakeWord(s[1..]);
      assert s[..|w| + 1] == [s[0]] + s[1..][..|w|];
      [s[0]] + w
  }

  /** The words of `s`: maximal runs of non-whitespace, in order, none empty. */
  function SplitOnAsciiWhitespace(s: string): (words: seq<string>)
    ensures forall k :: 0 <= k < |words| ==> IsWord(words[k])
    decreases |s|
  {
    if |s| == 0 then []
    else if IsAsciiWhitespace(s[0]) then SplitOnAsciiWhitespace(s[1..])
    else
      var w := TakeWord(s);
      [w] + SplitOnAsciiWhitespace(s[|w|..])
  }

  /** `TakeWord` stops exactly at the end of a word followed by whitespace or the end. */
  lemma {:induction false} TakeWordOf(w: string, rest: string)
    requires forall k :: 0 <= k < |w| ==> !IsAsciiWhitespace(w[k])
    requires rest == [] || IsAsciiWhitespace(rest[0])
    ensures TakeWord(w + rest) == w
    decreases |w|
  {
    if |w| > 0 {
      assert (w + rest)[1..] == w[1..] + rest;
      TakeWordOf(w[1..], rest);
      assert [w[0]] + w[1..] == w;
    } else {
      assert w + rest == rest;
    }
  }

  /** Words joined by single spaces split back into the same words. */
  lemma {:induction false} SplitJoinWords(words: seq<string>)
    requires forall k :: 0 <= k < |words| ==> IsWord(words[k])
    ensures SplitOnAsciiWhitespace(Join(words, " ")) == words
    decreases |words|
  {
    if |words| == 1 {
      TakeWordOf(words[0], []);
      assert words[0] + [] == words[0];
      assert words[0][|words[0]|..] == [];
    } else if |words| > 1 {
      var rest := Join(words[1..], " ");
      var s := words[0] + " " + rest;
      assert Join(words, " ") == s;
      TakeWordOf(words[0], " " + rest);
      assert s == words[0] + (" " + rest);
      assert s[|words[0]|..] == " " + rest;
      assert (" " + rest)[1..] == rest;
      SplitJoinWords(words[1..]);
      assert [words[0]] + words[1..] == words;
    }
  }

  // ---------------------------------------------------------------------
  // ASCII
  // ---------------------------------------------------------------------

  predicate IsAsciiString(s: string) {
    forall k :: 0 <= k < |s| ==> s[k] as int < 128
  }

  predicate HasNoAsciiUpper(s: string) {
    forall k :: 0 <= k < |s| ==> !('A' <= s[k] <= 'Z')
  }

  function AsciiLowerChar(ch: char): char {
    if 'A' <= ch <= 'Z' then (ch as int + 32) as char else ch
  }

  /** Infra's "ASCII lowercase". */
  function AsciiLower(s: string): string {
    seq(|s|, k requires 0 <= k < |s| => AsciiLowerChar(s[k]))
  }

  // ---------------------------------------------------------------------
  // String(n) for a natural number
  // ---------------------------------------------------------------------

  predicate IsDigit(ch: char) {
    '0' <= ch <= '9'
  }

  function DigitChar(d: nat): (ch: char)
    requires d < 10
  {
    ('0' as int + d) as char
  }

  /** JavaScript's `String(n)`: the shortest decimal numeral of `n`. */
  function NatToDecimal(n: nat): (s: string)
    ensures |s| >= 1 && forall k :: 0 <= k < |s| ==> IsDigit(s[k])
    ensures s[0] == '0' ==> n == 0
    decreases n
  {
    if n < 10 then [DigitChar(n)] else NatToDecimal(n / 10) + [DigitChar(n % 10)]
  }

  /** The number a string of decimal digits denotes. */
  function DecimalValue(s: string): nat
    requires forall k :: 0 <= k < |s| ==> IsDigit(s[k])
    decreases |s|
  {
    if s == [] then 0
    else
      assert IsDigit(s[|s| - 1]);
      10 * DecimalValue(s[..|s| - 1]) + (s[|s| - 1] as int - '0' as int)
  }

  /** Reading back the numeral `String(n)` gives `n`. */
  lemma {:induction false} DecimalRoundTrip(n: nat)
    ensures DecimalValue(NatToDecimal(n)) == n
    decreases n
  {
    if n >= 10 {
      var s := NatToDecimal(n);
      DecimalRoundTrip(n / 10);
      assert s[..|s| - 1] == NatToDecimal(n / 10);
    }
  }
}
