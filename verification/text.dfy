/** The string formatting the disassembler borrows from Qt: fixed-width zero-padded
    lower-case hexadecimal (`QString::arg(val, width, 16, '0')`), decimal numbers
    (`QString::number`) and upper-casing (`QString::toUpper`), each with the parser
    that reads it back. */
module Text {
  import opened Common

  /** The lower-case hexadecimal digit for 0 <= d < 16. */
  function HexDigit(d: int): (c: char)
    requires 0 <= d < 16
    ensures '0' <= c <= '9' || 'a' <= c <= 'f'
    ensures HexValue(c) == d
  {
    if d < 10 then '0' + d as char else 'a' + (d - 10) as char
  }

  /** The value of a hexadecimal digit of either case, -1 for any other character. */
  function HexValue(c: char): (v: int)
    ensures -1 <= v < 16
    ensures v >= 0 <==> '0' <= c <= '9' || 'a' <= c <= 'f' || 'A' <= c <= 'F'
  {
    if '0' <= c <= '9' then (c - '0') as int
    else if 'a' <= c <= 'f' then (c - 'a') as int + 10
    else if 'A' <= c <= 'F' then (c - 'A') as int + 10
    else -1
  }

  /** The value of a string of hexadecimal digits of either case; `None` when a
      character is not a digit. The empty string reads as 0. */
  function ParseHex(s: string): Option<nat> {
    if |s| == 0 then Some(0)
    else
      match ParseHex(s[..|s| - 1])
      case None => None
      case Some(high) =>
        var d := HexValue(s[|s| - 1]);
        if d < 0 then None else Some(16 * high + d)
  }

  predicate IsLower(c: char) {
    'a' <= c <= 'z'
  }

  /** The upper-case form of one character; only the letters a-z change. */
  function UpperChar(c: char): (u: char)
    ensures !IsLower(u)
    ensures !IsLower(c) ==> u == c
    ensures IsLower(c) ==> 'A' <= u <= 'Z' && u - 'A' == c - 'a'
  {
    if IsLower(c) then c - 'a' + 'A' else c
  }

  /** `QString::toUpper` on text without accents: every a-z letter replaced by its
      capital, nothing else changed. */
  function Upper(s: string): (u: string)
    ensures |u| == |s|
    ensures forall i :: 0 <= i < |s| ==> u[i] == UpperChar(s[i])
  {
    seq(|s|, i requires 0 <= i < |s| => UpperChar(s[i]))
  }

  lemma UpperConcat(s: string, t: string)
    ensures Upper(s + t) == Upper(s) + Upper(t)
  {
  }

  lemma UpperSlice(s: string, i: nat, j: nat)
    requires i <= j <= |s|
    ensures Upper(s)[i..j] == Upper(s[i..j])
  {
  }

  /** Upper-casing leaves no lower-case letter behind, and doing it twice changes
      nothing more. */
  lemma UpperIdempotent(s: string)
    ensures forall i :: 0 <= i < |s| ==> !IsLower(Upper(s)[i])
    ensures Upper(Upper(s)) == Upper(s)
  {
  }

  /** Text that has no lower-case letter is its own upper-case form. */
  lemma UpperUnchanged(s: string)
    requires forall i :: 0 <= i < |s| ==> !IsLower(s[i])
    ensures Upper(s) == s
  {
  }

  /** Upper-casing does not change the value of hexadecimal text. */
  lemma {:induction false} ParseHexUpper(s: string)
    ensures ParseHex(Upper(s)) == ParseHex(s)
  {
    if |s| > 0 {
      var u := Upper(s);
      assert u[..|u| - 1] == Upper(s[..|s| - 1]);
      ParseHexUpper(s[..|s| - 1]);
      assert HexValue(UpperChar(s[|s| - 1])) == HexValue(s[|s| - 1]);
    }
  }

  /** `QString::number(n)` for a natural number: its decimal digits, without leading
      zeros. */
  function Decimal(n: nat): (s: string)
    ensures 1 <= |s|
    ensures forall i :: 0 <= i < |s| ==> '0' <= s[i] <= '9'
    ensures |s| > 1 ==> s[0] != '0'
  {
    if n < 10 then ['0' + n as char] else Decimal(n / 10) + ['0' + (n % 10) as char]
  }

  /** The value of a string of decimal digits; `None` when a character is not a digit. */
  function ParseDecimal(s: string): Option<nat> {
    if |s| == 0 then Some(0)
    else
      match ParseDecimal(s[..|s| - 1])
      case None => None
      case Some(high) =>
        var c := s[|s| - 1];
        if '0' <= c <= '9' then Some(10 * high + (c - '0') as int) else None
  }

  lemma {:induction false} DecimalRoundTrip(n: nat)
    ensures ParseDecimal(Decimal(n)) == Some(n)
  {
    if n >= 10 {
      var s := Decimal(n);
      assert s[..|s| - 1] == Decimal(n / 10);
      DecimalRoundTrip(n / 10);
    }
  }

  /** `QString::number(d)` for a signed integer: a minus sign before the digits of a
      negative number. */
  function SignedDecimal(d: int): (s: string)
    ensures |s| >= 1 && (s[0] == '-' <==> d < 0)
    ensures forall i :: 0 <= i < |s| ==> !IsLower(s[i])
  {
    if d < 0 then "-" + Decimal(-d) else Decimal(d)
  }

  /** Reads an optional sign, `+` or `-`, followed by decimal digits. */
  function ParseSigned(s: string): (r: Option<int>) {
    if |s| == 0 then None
    else if s[0] == '-' || s[0] == '+' then
      if |s| == 1 then None
      else
        match ParseDecimal(s[1..])
        case None => None
        case Some(n) => if s[0] == '-' then Some(-(n as int)) else Some(n as int)
    else ParseDecimal(s)
  }

  /** Reading back a number formatted with `QString::number`, and with an explicit
      `+` before a positive one. */
  lemma SignedRoundTrip(d: int)
    ensures ParseSigned(SignedDecimal(d)) == Some(d)
    ensures d > 0 ==> ParseSigned("+" + SignedDecimal(d)) == Some(d)
  {
    if d < 0 {
      NegativeRoundTrip(d);
    } else {
      DecimalRoundTrip(d);
      var s := Decimal(d);
      assert s[0] != '-' && s[0] != '+';
      if d > 0 {
        var t := "+" + s;
        assert t[0] == '+' && |t| > 1 && t[1..] == s;
      }
    }
  }

  lemma NegativeRoundTrip(d: int)
    requires d < 0
    ensures ParseSigned(SignedDecimal(d)) == Some(d)
  {
    var t := Decimal(-d);
    DecimalRoundTrip(-d);
    var s := "-" + t;
    assert s[1..] == t;
    assert ParseDecimal(s[1..]) == Some(-d);
    assert s[0] == '-' && |s| != 1;
  }

  /** The concatenation of a sequence of strings, in order. */
  function Join(parts: seq<string>): string {
    if |parts| == 0 then "" else Join(parts[..|parts| - 1]) + parts[|parts| - 1]
  }

  lemma JoinAppend(parts: seq<string>, e: string)
    ensures Join(parts + [e]) == Join(parts) + e
  {
    assert (parts + [e])[..|parts|] == parts;
  }

  /** Joined strings of one width `w` take `w` characters each, and the `k`th of them
      sits at `w k`. */
  lemma {:induction false} JoinEntry(parts: seq<string>, w: nat, k: nat)
    requires k < |parts|
    requires forall i :: 0 <= i < |parts| ==> |parts[i]| == w
    ensures |Join(parts)| == w * |parts|
    ensures Join(parts)[w * k .. w * k + w] == parts[k]
  {
    var n := |parts|;
    var prefix, last := Join(parts[..n - 1]), parts[n - 1];
    assert Join(parts) == prefix + last;
    Distribute(w, n - 1);
    if k < n - 1 {
      JoinEntry(parts[..n - 1], w, k);
      Distribute(w, k);
      Monotone(w, k + 1, n - 1);
      PrefixSlice(prefix, last, w * k, w * k + w);
    } else {
      JoinLength(parts[..n - 1], w);
      SuffixSlice(prefix, last, w);
    }
  }

  lemma {:induction false} JoinLength(parts: seq<string>, w: nat)
    requires forall i :: 0 <= i < |parts| ==> |parts[i]| == w
    ensures |Join(parts)| == w * |parts|
  {
    if |parts| > 0 {
      JoinLength(parts[..|parts| - 1], w);
      Distribute(w, |parts| - 1);
    }
  }

  lemma Distribute(w: nat, k: nat)
    ensures w * (k + 1) == w * k + w
  {
  }

  lemma Monotone(w: nat, a: nat, b: nat)
    requires a <= b
    ensures w * a <= w * b
  {
  }

  lemma PrefixSlice(p: string, e: string, i: nat, j: nat)
    requires i <= j <= |p|
    ensures (p + e)[i..j] == p[i..j]
  {
  }

  lemma SuffixSlice(p: string, e: string, m: nat)
    requires m <= |e|
    ensures (p + e)[|p|..|p| + m] == e[..m]
  {
  }
}
