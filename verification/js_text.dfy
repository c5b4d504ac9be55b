/** The two string operations the controller performs itself:
    `String.prototype.trim` on the search input and the decimal rendering
    of a count inside a template literal. */
module JsText {

  /** The WhiteSpace and LineTerminator code points of ECMAScript, which
      `trim` removes from both ends of a string. */
  predicate IsTrimmable(c: char) {
    || c == '\t' || c == '\n' || c == '\U{B}' || c == '\U{C}' || c == '\r' || c == ' '
    || c == '\U{A0}' || c == '\U{1680}' || ('\U{2000}' <= c <= '\U{200A}')
    || c == '\U{2028}' || c == '\U{2029}' || c == '\U{202F}' || c == '\U{205F}'
    || c == '\U{3000}' || c == '\U{FEFF}'
  }

  predicate AllTrimmable(s: string) {
    forall k :: 0 <= k < |s| ==> IsTrimmable(s[k])
  }

  /** Drops the leading trimmable characters: the result is a suffix of `s`,
      everything dropped is trimmable, and what is left does not start with one. */
  function TrimStart(s: string): (r: string)
    ensures |r| <= |s| && r == s[|s| - |r|..]
    ensures AllTrimmable(s[..|s| - |r|])
    ensures r != [] ==> !IsTrimmable(r[0])
  {
    if s != [] && IsTrimmable(s[0]) then
      var r := TrimStart(s[1..]);
      assert s[..|s| - |r|] == [s[0]] + s[1..][..|s| - 1 - |r|];
      r
    else
      s
  }

  /** Drops the trailing trimmable characters: the result is a prefix of `s`,
      everything dropped is trimmable, and what is left does not end with one. */
  function TrimEnd(s: string): (r: string)
    ensures |r| <= |s| && r == s[..|r|]
    ensures AllTrimmable(s[|r|..])
    ensures r != [] ==> !IsTrimmable(r[|r| - 1])
  {
    if s != [] && IsTrimmable(s[|s| - 1]) then
      var r := TrimEnd(s[..|s| - 1]);
      assert s[|r|..] == s[..|s| - 1][|r|..] + [s[|s| - 1]];
      r
    else
      s
  }

  /** `s.trim()`: `s` is the result surrounded by trimmable characters only,
      and the result neither starts nor ends with one. */
  function Trim(s: string): (r: string)
    ensures exists lead, trail {:trigger AllTrimmable(lead), AllTrimmable(trail)} ::
      s == lead + r + trail && AllTrimmable(lead) && AllTrimmable(trail)
    ensures r != [] ==> !IsTrimmable(r[0]) && !IsTrimmable(r[|r| - 1])
  {
    var t := TrimStart(s);
    var r := TrimEnd(t);
    var lead, trail := s[..|s| - |t|], t[|r|..];
    assert s == lead + r + trail;
    r
  }

  /** Trimming a trimmed string changes nothing. */
  lemma TrimIdempotent(s: string)
    ensures Trim(Trim(s)) == Trim(s)
  {
  }

  /** A string without trimmable characters at its ends is its own trim,
      so `trim` removes exactly the surrounding whitespace and nothing inside. */
  lemma {:induction false} TrimOfSurrounded(lead: string, core: string, trail: string)
    requires AllTrimmable(lead) && AllTrimmable(trail)
    requires core != [] ==> !IsTrimmable(core[0]) && !IsTrimmable(core[|core| - 1])
    ensures Trim(lead + core + trail) == core
  {
    var s := lead + core + trail;
    if core == [] {
      assert s == (lead + trail) + [];
      assert AllTrimmable(lead + trail) by {
        forall k | 0 <= k < |lead + trail| ensures IsTrimmable((lead + trail)[k]) {
          if k >= |lead| { assert (lead + trail)[k] == trail[k - |lead|]; }
        }
      }
      StartOfSurrounded(lead + trail, []);
      EndOfSurrounded([], []);
    } else {
      StartOfSurrounded(lead, core + trail);
      assert TrimStart(s) == core + trail by {
        assert s == lead + (core + trail);
      }
      EndOfSurrounded(core, trail);
    }
  }

  lemma {:induction false} StartOfSurrounded(lead: string, rest: string)
    requires AllTrimmable(lead)
    requires rest != [] ==> !IsTrimmable(rest[0])
    ensures TrimStart(lead + rest) == rest
  {
    if lead != [] {
      assert (lead + rest)[1..] == lead[1..] + rest;
      StartOfSurrounded(lead[1..], rest);
    }
  }

  lemma {:induction false} EndOfSurrounded(rest: string, trail: string)
    requires AllTrimmable(trail)
    requires rest != [] ==> !IsTrimmable(rest[|rest| - 1])
    ensures TrimEnd(rest + trail) == rest
  {
    if trail != [] {
      assert (rest + trail)[..|rest + trail| - 1] == rest + trail[..|trail| - 1];
      EndOfSurrounded(rest, trail[..|trail| - 1]);
    } else {
      assert rest + trail == rest;
    }
  }

  predicate IsDigit(c: char) {
    '0' <= c <= '9'
  }

  predicate AllDigits(s: string) {
    forall k :: 0 <= k < |s| ==> IsDigit(s[k])
  }

  function DigitChar(d: nat): (c: char)
    requires d < 10
    ensures IsDigit(c) && c as int - '0' as int == d
  {
    ('0' as int + d) as char
  }

  /** The number a string of decimal digits denotes. */
  function DecimalValue(s: string): nat
    requires AllDigits(s)
  {
    if s == [] then 0 else 10 * DecimalValue(s[..|s| - 1]) + (s[|s| - 1] as int - '0' as int)
  }

  /** `${n}` for a non-negative integer: decimal digits without a leading zero. */
  function DecimalString(n: nat): (r: string)
    ensures r != [] && AllDigits(r)
    ensures r[0] == '0' ==> r == "0"
  {
    if n < 10 then [DigitChar(n)] else DecimalString(n / 10) + [DigitChar(n % 10)]
  }

  /** Reading the digits back gives the number that was rendered. */
  lemma {:induction false} DecimalRoundTrip(n: nat)
    ensures DecimalValue(DecimalString(n)) == n
  {
    var s := DecimalString(n);
    if n >= 10 {
      DecimalRoundTrip(n / 10);
      assert s[..|s| - 1] == DecimalString(n / 10);
    }
  }

  /** Digits as `${n}` writes them: at least one, and no leading zero unless
      the number is zero. */
  predicate CanonicalDigits(d: string) {
    d != [] && AllDigits(d) && (d[0] == '0' ==> d == "0")
  }

  /** Digits that start with a non-zero digit denote a positive number. */
  lemma {:induction false} DecimalValuePositive(d: string)
    requires d != [] && AllDigits(d) && d[0] != '0'
    ensures DecimalValue(d) >= 1
  {
    if |d| > 1 {
      DecimalValuePositive(d[..|d| - 1]);
    }
  }

  /** Every canonical digit string is the rendering of the number it denotes,
      so rendering and reading are inverse on canonical digits. */
  lemma {:induction false} CanonicalDecimal(d: string)
    requires CanonicalDigits(d)
    ensures DecimalString(DecimalValue(d)) == d
  {
    if |d| > 1 {
      var front := d[..|d| - 1];
      assert d[0] != '0';
      assert front[0] == d[0];
      DecimalValuePositive(front);
      CanonicalDecimal(front);
      var n := DecimalValue(d);
      assert n / 10 == DecimalValue(front) && n % 10 == d[|d| - 1] as int - '0' as int;
      assert d == front + [d[|d| - 1]];
    }
  }

  /** Distinct numbers are rendered as distinct strings. */
  lemma DecimalInjective(m: nat, n: nat)
    requires DecimalString(m) == DecimalString(n)
    ensures m == n
  {
    DecimalRoundTrip(m);
    DecimalRoundTrip(n);
  }
}
