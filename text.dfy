/**
 The few string operations the recommendation engine relies on, stated the way
 JavaScript's built-ins behave: `String.prototype.includes`,
 `String.prototype.trim`, string concatenation and the decimal rendering of an
 integer inside a template literal.
 */
module Text {

  /** True when `s` starts with `prefix`. */
  predicate IsPrefix(prefix: string, s: string) {
    |prefix| <= |s| && s[..|prefix|] == prefix
  }

  /** `s.includes(sub)`: a case-sensitive substring test. */
  predicate Contains(s: string, sub: string)
    decreases |s|
  {
    IsPrefix(sub, s) || (|s| > 0 && Contains(s[1..], sub))
  }

  /** `sub` occurs in `s` starting at index `i`. */
  ghost predicate OccursAt(s: string, sub: string, i: int) {
    0 <= i && i + |sub| <= |s| && s[i..i + |sub|] == sub
  }

  /** `Contains` is exactly "occurs at some index". */
  lemma {:induction false} ContainsIffOccurs(s: string, sub: string)
    ensures Contains(s, sub) <==> exists i :: OccursAt(s, sub, i)
    decreases |s|
  {
    if |s| > 0 {
      ContainsIffOccurs(s[1..], sub);
      if IsPrefix(sub, s) {
        assert OccursAt(s, sub, 0);
      }
      if Contains(s[1..], sub) {
        var i :| OccursAt(s[1..], sub, i);
        assert s[i + 1..i + 1 + |sub|] == s[1..][i..i + |sub|];
        assert OccursAt(s, sub, i + 1);
      }
      if i :| OccursAt(s, sub, i) {
        if i == 0 {
          assert IsPrefix(sub, s);
        } else {
          assert s[1..][i - 1..i - 1 + |sub|] == s[i..i + |sub|];
          assert OccursAt(s[1..], sub, i - 1);
        }
      }
    } else if sub == [] {
      assert OccursAt(s, sub, 0);
    }
  }

  /**
   The characters `String.prototype.trim` removes: ECMAScript's WhiteSpace and
   LineTerminator code points.
   */
  predicate IsWhiteSpace(c: char) {
    c == '\t' || c == '\n' || c == '\U{000B}' || c == '\U{000C}' || c == '\r'
    || c == ' ' || c == '\U{00A0}' || c == '\U{1680}'
    || ('\U{2000}' <= c <= '\U{200A}')
    || c == '\U{2028}' || c == '\U{2029}' || c == '\U{202F}' || c == '\U{205F}'
    || c == '\U{3000}' || c == '\U{FEFF}'
  }

  /** Removes the longest all-white-space prefix of `s`. */
  function TrimStart(s: string): (r: string)
    ensures |r| <= |s| && r == s[|s| - |r|..]
    ensures |r| > 0 ==> !IsWhiteSpace(r[0])
    ensures forall k :: 0 <= k < |s| - |r| ==> IsWhiteSpace(s[k])
    decreases |s|
  {
    if |s| > 0 && IsWhiteSpace(s[0]) then TrimStart(s[1..]) else s
  }

  /** Removes the longest all-white-space suffix of `s`. */
  function TrimEnd(s: string): (r: string)
    ensures |r| <= |s| && r == s[..|r|]
    ensures |r| > 0 ==> !IsWhiteSpace(r[|r| - 1])
    ensures forall k :: |r| <= k < |s| ==> IsWhiteSpace(s[k])
    decreases |s|
  {
    if |s| > 0 && IsWhiteSpace(s[|s| - 1]) then TrimEnd(s[..|s| - 1]) else s
  }

  /**
   `r` is the slice of `s` starting at `a`, with only white space before it
   and only white space after it.
   */
  predicate SliceBetweenWhiteSpace(s: string, r: string, a: int) {
    && 0 <= a && a + |r| <= |s|
    && r == s[a..a + |r|]
    && (forall k :: 0 <= k < a ==> IsWhiteSpace(s[k]))
    && (forall k :: a + |r| <= k < |s| ==> IsWhiteSpace(s[k]))
  }

  /**
   `s.trim()`: white space removed from both ends. What remains is the slice
   of `s` that starts right after the leading white space (the characters
   `TrimStart` removes) and is followed by white space only.
   */
  function Trim(s: string): (r: string)
    ensures |r| <= |s|
    ensures SliceBetweenWhiteSpace(s, r, |s| - |TrimStart(s)|)
    ensures |r| > 0 ==> !IsWhiteSpace(r[0]) && !IsWhiteSpace(r[|r| - 1])
    ensures (forall k :: 0 <= k < |s| ==> IsWhiteSpace(s[k])) ==> r == ""
  {
    var t := TrimStart(s);
    var r := TrimEnd(t);
    SuffixThenPrefix(s, t, r);
    r
  }

  /**
   Taking a suffix `t` of `s` whose dropped characters are white space, and
   then a prefix `r` of `t` whose dropped characters are white space, leaves
   `r` as a slice of `s` between white space.
   */
  lemma SuffixThenPrefix(s: string, t: string, r: string)
    requires |t| <= |s| && t == s[|s| - |t|..]
    requires forall k :: 0 <= k < |s| - |t| ==> IsWhiteSpace(s[k])
    requires |t| > 0 ==> !IsWhiteSpace(t[0])
    requires |r| <= |t| && r == t[..|r|]
    requires forall k :: |r| <= k < |t| ==> IsWhiteSpace(t[k])
    requires |r| > 0 ==> !IsWhiteSpace(r[|r| - 1])
    ensures |r| <= |s|
    ensures SliceBetweenWhiteSpace(s, r, |s| - |t|)
    ensures |r| > 0 ==> !IsWhiteSpace(r[0]) && !IsWhiteSpace(r[|r| - 1])
    ensures (forall k :: 0 <= k < |s| ==> IsWhiteSpace(s[k])) ==> r == ""
  {
    var a := |s| - |t|;
    forall k | a + |r| <= k < |s|
      ensures IsWhiteSpace(s[k])
    {
      assert s[k] == t[k - a];
    }
    if |r| > 0 {
      assert r[0] == t[0] == s[a];
    }
  }

  /** Concatenation is associative. */
  lemma AppendAssoc<T>(a: seq<T>, b: seq<T>, c: seq<T>)
    ensures (a + b) + c == a + (b + c)
  {
  }

  /** `parts[0] + term + parts[1] + term + ...`: every part followed by `term`. */
  function Terminated(parts: seq<string>, term: string): string {
    if parts == [] then "" else parts[0] + term + Terminated(parts[1..], term)
  }

  /** `parts.join(sep)`: the parts with `sep` between neighbours only. */
  function Join(parts: seq<string>, sep: string): string {
    if parts == [] then ""
    else if |parts| == 1 then parts[0]
    else parts[0] + sep + Join(parts[1..], sep)
  }

  /** Terminating every part is joining them and adding one trailing `term`. */
  lemma {:induction false} TerminatedIsJoinPlusTerm(parts: seq<string>, term: string)
    requires parts != []
    ensures Terminated(parts, term) == Join(parts, term) + term
  {
    if |parts| > 1 {
      TerminatedIsJoinPlusTerm(parts[1..], term);
    }
  }

  /** A join of non-empty parts starts with the first part's first character
      and ends with the last part's last character. */
  lemma {:induction false} JoinEnds(parts: seq<string>, sep: string)
    requires parts != []
    requires forall k :: 0 <= k < |parts| ==> parts[k] != ""
    ensures |Join(parts, sep)| > 0
    ensures Join(parts, sep)[0] == parts[0][0]
    ensures Join(parts, sep)[|Join(parts, sep)| - 1] == parts[|parts| - 1][|parts[|parts| - 1]| - 1]
  {
    if |parts| > 1 {
      var head, rest := parts[0] + sep, Join(parts[1..], sep);
      JoinEnds(parts[1..], sep);
      assert Join(parts, sep) == head + rest;
      assert (head + rest)[0] == head[0] == parts[0][0];
      assert (head + rest)[|head + rest| - 1] == rest[|rest| - 1];
      assert parts[1..][|parts[1..]| - 1] == parts[|parts| - 1];
    }
  }

  /**
   Trimming space-terminated sentences gives the sentences joined by single
   spaces, provided no sentence is empty or starts or ends in white space.
   */
  lemma TrimTerminatedIsJoin(parts: seq<string>)
    requires forall k :: 0 <= k < |parts| ==>
      parts[k] != "" && !IsWhiteSpace(parts[k][0]) && !IsWhiteSpace(parts[k][|parts[k]| - 1])
    ensures Trim(Terminated(parts, " ")) == Join(parts, " ")
  {
    if parts != [] {
      TerminatedIsJoinPlusTerm(parts, " ");
      JoinEnds(parts, " ");
      var j := Join(parts, " ");
      assert TrimStart(j + " ") == j + " ";
      assert (j + " ")[..|j + " "| - 1] == j;
      assert TrimEnd(j + " ") == TrimEnd(j);
    }
  }

  /** The decimal digit character for `d`. */
  function DigitChar(d: nat): (c: char)
    requires d < 10
    ensures '0' <= c <= '9' && c as int - '0' as int == d
  {
    ('0' as int + d) as char
  }

  /** True when every character of `s` is a decimal digit. */
  predicate AllDigits(s: string) {
    forall k :: 0 <= k < |s| ==> '0' <= s[k] <= '9'
  }

  /** The decimal rendering of a natural number, without leading zeros. */
  function NatToDecimal(n: nat): (r: string)
    ensures r != [] && AllDigits(r)
    ensures r[0] == '0' ==> n == 0 && r == "0"
  {
    if n < 10 then [DigitChar(n)] else NatToDecimal(n / 10) + [DigitChar(n % 10)]
  }

  /** How JavaScript prints an integer-valued number below 10^21 in
      magnitude: its decimal digits, preceded by `-` when negative (from
      10^21 on, JavaScript switches to exponent notation, which is not
      modelled). */
  function IntToDecimal(i: int): (r: string)
    ensures r != []
    ensures (r[0] == '-') <==> i < 0
  {
    if i < 0 then "-" + NatToDecimal(-i) else NatToDecimal(i)
  }

  /** The value of a string of decimal digits. */
  function ParseDigits(s: string): nat
    requires AllDigits(s)
  {
    if s == [] then 0
    else 10 * ParseDigits(s[..|s| - 1]) + (s[|s| - 1] as int - '0' as int)
  }

  /** The value of an optionally negative decimal numeral. */
  function ParseDecimal(s: string): int
    requires s != [] && (if s[0] == '-' then AllDigits(s[1..]) else AllDigits(s))
  {
    if s[0] == '-' then -(ParseDigits(s[1..]) as int) else ParseDigits(s)
  }

  lemma {:induction false} NatToDecimalRoundTrip(n: nat)
    ensures ParseDigits(NatToDecimal(n)) == n
  {
    if n >= 10 {
      NatToDecimalRoundTrip(n / 10);
      var r := NatToDecimal(n);
      assert r[..|r| - 1] == NatToDecimal(n / 10);
    }
  }

  /** Reading back a rendered integer gives the integer: the rendering loses nothing. */
  lemma IntToDecimalRoundTrip(i: int)
    ensures var r := IntToDecimal(i);
      (if r[0] == '-' then AllDigits(r[1..]) else AllDigits(r)) && ParseDecimal(r) == i
  {
    if i < 0 {
      NatToDecimalRoundTrip(-i);
      assert IntToDecimal(i)[1..] == NatToDecimal(-i);
    } else {
      NatToDecimalRoundTrip(i);
    }
  }

  /** Different integers are rendered differently. */
  lemma IntToDecimalInjective(i: int, j: int)
    requires IntToDecimal(i) == IntToDecimal(j)
    ensures i == j
  {
    IntToDecimalRoundTrip(i);
    IntToDecimalRoundTrip(j);
  }
}
