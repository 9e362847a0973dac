/** The parts of Python's `str` type that the modelled code relies on:
    `find`, `in`, `strip`, `replace` with a one-character pattern, and `str(int)`. */
module PyText {

  /** Python's `c.isspace()` for one character: ASCII blanks and the Unicode spaces. */
  predicate IsSpace(c: char) {
    || c == ' ' || c == '\t' || c == '\n' || c == '\r'
    || c == '\U{000B}' || c == '\U{000C}'
    || ('\U{001C}' <= c <= '\U{001F}')
    || c == '\U{0085}' || c == '\U{00A0}' || c == '\U{1680}'
    || ('\U{2000}' <= c <= '\U{200A}')
    || c == '\U{2028}' || c == '\U{2029}' || c == '\U{202F}' || c == '\U{205F}'
    || c == '\U{3000}'
  }

  /** `sub` occurs in `s` starting at position `i`. */
  predicate MatchAt(s: string, sub: string, i: int) {
    0 <= i && i + |sub| <= |s| && s[i..i + |sub|] == sub
  }

  /** Python's `s.find(sub, from)` for a non-negative `from`: the first position at or
      after `from` where `sub` occurs, or -1 when there is none. */
  function Find(s: string, sub: string, from: nat): (r: int)
    decreases |s| - from
    ensures r == -1 || (from <= r && MatchAt(s, sub, r))
    ensures forall j :: from <= j && (r == -1 || j < r) ==> !MatchAt(s, sub, j)
  {
    if from + |sub| > |s| then -1
    else if s[from..from + |sub|] == sub then from
    else Find(s, sub, from + 1)
  }

  /** Python's `sub in s` for two strings. */
  predicate Contains(s: string, sub: string) {
    Find(s, sub, 0) != -1
  }

  /** Python's `s.lstrip()`. */
  function LStrip(s: string): (r: string)
    ensures |r| <= |s| && r == s[|s| - |r|..]
    ensures forall k :: 0 <= k < |s| - |r| ==> IsSpace(s[k])
    ensures r != [] ==> !IsSpace(r[0])
  {
    if s != [] && IsSpace(s[0]) then LStrip(s[1..]) else s
  }

  /** Python's `s.rstrip()`. */
  function RStrip(s: string): (r: string)
    ensures |r| <= |s| && r == s[..|r|]
    ensures forall k :: |r| <= k < |s| ==> IsSpace(s[k])
    ensures r != [] ==> !IsSpace(r[|r| - 1])
  {
    if s != [] && IsSpace(s[|s| - 1]) then RStrip(s[..|s| - 1]) else s
  }

  /** Python's `s.strip()`: `s` without its leading and trailing whitespace. */
  function Strip(s: string): (r: string)
    ensures |r| <= |s|
    ensures r != [] ==> !IsSpace(r[0]) && !IsSpace(r[|r| - 1])
    ensures r == [] <==> forall k :: 0 <= k < |s| ==> IsSpace(s[k])
  {
    RStrip(LStrip(s))
  }

  /** `lstrip` removes exactly a whitespace prefix in front of a non-blank rest. */
  lemma {:induction false} LStripPadded(left: string, rest: string)
    requires forall k :: 0 <= k < |left| ==> IsSpace(left[k])
    requires rest == [] || !IsSpace(rest[0])
    ensures LStrip(left + rest) == rest
  {
    if left != [] {
      assert (left + rest)[0] == left[0];
      assert (left + rest)[1..] == left[1..] + rest;
      LStripPadded(left[1..], rest);
    }
  }

  /** `rstrip` removes exactly a whitespace suffix behind a non-blank rest. */
  lemma {:induction false} RStripPadded(rest: string, right: string)
    requires forall k :: 0 <= k < |right| ==> IsSpace(right[k])
    requires rest == [] || !IsSpace(rest[|rest| - 1])
    ensures RStrip(rest + right) == rest
  {
    if right != [] {
      var s := rest + right;
      assert s[|s| - 1] == right[|right| - 1];
      assert s[..|s| - 1] == rest + right[..|right| - 1];
      RStripPadded(rest, right[..|right| - 1]);
    }
  }

  /** `core`, with no whitespace at either end, is what `strip` recovers from any
      whitespace padding around it; so `strip` removes exactly the padding. */
  lemma StripPadded(left: string, core: string, right: string)
    requires forall k :: 0 <= k < |left| ==> IsSpace(left[k])
    requires forall k :: 0 <= k < |right| ==> IsSpace(right[k])
    requires core != [] ==> !IsSpace(core[0]) && !IsSpace(core[|core| - 1])
    ensures Strip(left + core + right) == core
  {
    if core == [] {
      assert left + core + right == (left + right) + [];
      LStripPadded(left + right, []);
    } else {
      assert left + core + right == left + (core + right);
      LStripPadded(left, core + right);
      RStripPadded(core, right);
    }
  }

  /** Stripping twice is stripping once. */
  lemma StripIdempotent(s: string)
    ensures Strip(Strip(s)) == Strip(s)
  {
    var r := Strip(s);
    StripPadded([], r, []);
    assert [] + r + [] == r;
  }

  /** Python's `s.replace(c, rep)` for a one-character pattern `c`. */
  function ReplaceChar(s: string, c: char, rep: string): (r: string)
    ensures c !in rep ==> c !in r
    ensures forall d :: d in r ==> (d in s && d != c) || d in rep
    ensures c !in s ==> r == s
    ensures c in s ==> forall d :: d in rep ==> d in r
    ensures forall d :: d in s && d != c ==> d in r
  {
    if s == [] then []
    else (if s[0] == c then rep else [s[0]]) + ReplaceChar(s[1..], c, rep)
  }

  /** The decimal digit for `d`. */
  function DigitChar(d: nat): (c: char)
    requires d < 10
    ensures '0' <= c <= '9'
  {
    "0123456789"[d]
  }

  /** Decimal digits of a natural number, most significant first, without leading zeros. */
  function NatDigits(n: nat): (r: string)
    ensures |r| >= 1 && forall k :: 0 <= k < |r| ==> '0' <= r[k] <= '9'
    ensures n >= 10 ==> |r| >= 2
  {
    if n < 10 then [DigitChar(n)] else NatDigits(n / 10) + [DigitChar(n % 10)]
  }

  /** The number a string of decimal digits stands for. */
  function DigitsValue(s: string): int
  {
    if s == [] then 0 else DigitsValue(s[..|s| - 1]) * 10 + (s[|s| - 1] as int - '0' as int)
  }

  /** Reading the digits back gives the number. */
  lemma {:induction false} DigitsRoundTrip(n: nat)
    ensures DigitsValue(NatDigits(n)) == n
  {
    if n >= 10 {
      var s := NatDigits(n);
      assert s[..|s| - 1] == NatDigits(n / 10);
      DigitsRoundTrip(n / 10);
      assert "0123456789"[n % 10] as int - '0' as int == n % 10;
    } else {
      assert "0123456789"[n] as int - '0' as int == n;
    }
  }

  /** Python's `str(i)` for an integer: an optional minus sign, then digits. */
  function Decimal(i: int): (r: string)
    ensures r != [] && forall k :: 0 <= k < |r| ==> ('0' <= r[k] <= '9' || (k == 0 && r[k] == '-'))
  {
    if i < 0 then "-" + NatDigits(-i) else NatDigits(i)
  }

  /** Different natural numbers have different digits. */
  lemma NatDigitsInjective(m: nat, n: nat)
    requires NatDigits(m) == NatDigits(n)
    ensures m == n
  {
    DigitsRoundTrip(m);
    DigitsRoundTrip(n);
  }

  /** Different integers are written differently. */
  lemma DecimalInjective(i: int, j: int)
    requires Decimal(i) == Decimal(j)
    ensures i == j
  {
    var d := Decimal(i);
    assert (i < 0) == (d[0] == '-');
    assert (j < 0) == (d[0] == '-');
    if i < 0 {
      assert NatDigits(-i) == d[1..] == NatDigits(-j);
      NatDigitsInjective(-i, -j);
    } else {
      NatDigitsInjective(i, j);
    }
  }
}
