/** The few JavaScript string built-ins the core relies on, written out:
    `String.prototype.trim`, `startsWith`/`slice`, `parseInt(s, 10)` and a
    case-insensitive substring test (a regular expression with the `i` flag
    whose alternatives are plain ASCII words). */
module JsText {
  import opened Wrappers

  /** ECMAScript WhiteSpace and LineTerminator code points: the characters
      `trim` removes and `parseInt` skips. */
  predicate IsWhitespace(c: char) {
    || c == '\t' || c == '\n' || c == '\U{B}' || c == '\U{C}' || c == '\r'
    || c == ' ' || c == '\U{A0}' || c == '\U{1680}'
    || ('\U{2000}' <= c <= '\U{200A}')
    || c == '\U{2028}' || c == '\U{2029}' || c == '\U{202F}' || c == '\U{205F}'
    || c == '\U{3000}' || c == '\U{FEFF}'
  }

  /** `s` without its leading whitespace. */
  function TrimStart(s: string): (r: string)
    ensures |r| <= |s| && r == s[|s| - |r|..]
    ensures forall i :: 0 <= i < |s| - |r| ==> IsWhitespace(s[i])
    ensures r == [] || !IsWhitespace(r[0])
  {
    if s != [] && IsWhitespace(s[0]) then TrimStart(s[1..]) else s
  }

  /** `s` without its trailing whitespace. */
  function TrimEnd(s: string): (r: string)
    ensures |r| <= |s| && r == s[..|r|]
    ensures forall i :: |r| <= i < |s| ==> IsWhitespace(s[i])
    ensures r == [] || !IsWhitespace(r[|r| - 1])
  {
    if s != [] && IsWhitespace(s[|s| - 1]) then TrimEnd(s[..|s| - 1]) else s
  }

  /** `String.prototype.trim`: the stretch of `s` left once the whitespace
      at both ends is cut; it neither starts nor ends with whitespace. */
  function Trim(s: string): (r: string)
    ensures r == [] || (!IsWhitespace(r[0]) && !IsWhitespace(r[|r| - 1]))
    ensures exists i :: TrimmedAt(s, r, i)
  {
    var t := TrimStart(s);
    var r := TrimEnd(t);
    TrimmedAtSuffix(s, t, r);
    r
  }

  /** Cutting leading whitespace (leaving the suffix `t`) and then trailing
      whitespace (leaving the prefix `r` of `t`) leaves a slice of `s` with
      only whitespace around it. */
  lemma TrimmedAtSuffix(s: string, t: string, r: string)
    requires |t| <= |s| && t == s[|s| - |t|..]
    requires forall k :: 0 <= k < |s| - |t| ==> IsWhitespace(s[k])
    requires |r| <= |t| && r == t[..|r|]
    requires forall k :: |r| <= k < |t| ==> IsWhitespace(t[k])
    ensures TrimmedAt(s, r, |s| - |t|)
  {
    var i := |s| - |t|;
    assert r == s[i..i + |r|];
    forall k | i + |r| <= k < |s|
      ensures IsWhitespace(s[k])
    {
      assert s[k] == t[k - i];
    }
  }

  /** `r` is the slice of `s` starting at `i`, and only whitespace lies around it. */
  predicate TrimmedAt(s: string, r: string, i: int) {
    && 0 <= i <= |s| - |r| && r == s[i..i + |r|]
    && (forall k :: 0 <= k < i ==> IsWhitespace(s[k]))
    && (forall k :: i + |r| <= k < |s| ==> IsWhitespace(s[k]))
  }

  /** `s.startsWith(prefix)`. */
  predicate StartsWith(s: string, prefix: string) {
    |prefix| <= |s| && s[..|prefix|] == prefix
  }

  predicate IsDigit(c: char) {
    '0' <= c <= '9'
  }

  /** Every character of `s` is a decimal digit. */
  predicate AllDigits(s: string) {
    forall i :: 0 <= i < |s| ==> IsDigit(s[i])
  }

  /** The decimal digit `c` stands for, when it is one. */
  function DigitValue(c: char): (r: Option<nat>)
    ensures r.Some? <==> '0' <= c <= '9'
    ensures r.Some? ==> r.value < 10
  {
    if '0' <= c <= '9' then Some(c as int - '0' as int) else None
  }

  /** The longest prefix of `s` made of decimal digits. */
  function DigitPrefix(s: string): (r: string)
    ensures |r| <= |s| && r == s[..|r|]
    ensures AllDigits(r)
    ensures |r| < |s| ==> !IsDigit(s[|r|])
  {
    if s != [] && IsDigit(s[0]) then [s[0]] + DigitPrefix(s[1..]) else []
  }

  /** The value of a string of decimal digits, most significant first. */
  function DigitsValue(digits: string): (r: nat)
    requires AllDigits(digits)
  {
    if digits == [] then 0
    else 10 * DigitsValue(digits[..|digits| - 1]) + (digits[|digits| - 1] as int - '0' as int)
  }

  /** `parseInt(s, 10)`: leading whitespace is skipped, one sign is read, then
      the longest run of decimal digits; `None` stands for `NaN` (no digit). */
  function ParseInt(s: string): (r: Option<int>)
    ensures TrimStart(s) == [] ==> r.None?
    ensures r.Some? && r.value < 0 ==> TrimStart(s)[0] == '-'
    ensures TrimStart(s) != [] && IsDigit(TrimStart(s)[0]) ==> r.Some? && r.value >= 0
  {
    var t := TrimStart(s);
    Signed(t)
  }

  /** What `parseInt` reads once the whitespace is skipped: one optional
      sign, then the magnitude. */
  function Signed(t: string): Option<int> {
    if t != [] && t[0] == '-' then Negated(Magnitude(t[1..]))
    else if t != [] && t[0] == '+' then Magnitude(t[1..])
    else Magnitude(t)
  }

  /** The value of the leading digits of `body`, `None` when there are none. */
  function Magnitude(body: string): (r: Option<int>)
    ensures r.Some? ==> r.value >= 0
  {
    var digits := DigitPrefix(body);
    if digits == [] then None else Some(DigitsValue(digits) as int)
  }

  function Negated(m: Option<int>): Option<int> {
    if m.Some? then Some(-m.value) else None
  }

  /** The decimal spelling of a natural number, without leading zeros. */
  function NatToString(n: nat): (r: string)
    ensures r != [] && AllDigits(r)
    decreases n
  {
    var last := ['0' + ((n % 10) as char)];
    if n < 10 then last else NatToString(n / 10) + last
  }

  /** `String(n)` for an integer. */
  function IntToString(n: int): (r: string)
    ensures r != [] && (r[0] == '-' <==> n < 0)
    ensures n < 0 ==> AllDigits(r[1..])
    ensures n >= 0 ==> AllDigits(r)
  {
    if n < 0 then ['-'] + NatToString(-n) else NatToString(n)
  }

  lemma {:induction false} DigitsValueOfNatToString(n: nat)
    ensures DigitsValue(NatToString(n)) == n
    decreases n
  {
    var r := NatToString(n);
    if n >= 10 {
      DigitsValueOfNatToString(n / 10);
      assert r[..|r| - 1] == NatToString(n / 10);
    }
  }

  lemma DigitPrefixOfDigits(s: string)
    requires AllDigits(s)
    ensures DigitPrefix(s) == s
  {
  }

  /** A digit or a sign is never whitespace, so `parseInt` skips nothing in front of it. */
  lemma TrimStartOfSignOrDigit(s: string)
    requires s != [] && (s[0] == '-' || s[0] == '+' || IsDigit(s[0]))
    ensures TrimStart(s) == s
  {
    assert !IsWhitespace(s[0]);
  }

  lemma MagnitudeOfDigits(digits: string)
    requires digits != [] && AllDigits(digits)
    ensures Magnitude(digits) == Some(DigitsValue(digits) as int)
  {
    DigitPrefixOfDigits(digits);
  }

  lemma ParseIntOfDigits(digits: string)
    requires digits != [] && AllDigits(digits)
    ensures ParseInt(digits) == Some(DigitsValue(digits) as int)
  {
    MagnitudeOfDigits(digits);
    TrimStartOfSignOrDigit(digits);
    assert digits[0] != '-' && digits[0] != '+';
  }

  lemma ParseIntOfNegatedDigits(digits: string)
    requires digits != [] && AllDigits(digits)
    ensures ParseInt(['-'] + digits) == Some(-(DigitsValue(digits) as int))
  {
    ParseIntOfMinus(digits);
    MagnitudeOfDigits(digits);
    var m := Magnitude(digits);
    assert Negated(m) == Some(-(DigitsValue(digits) as int));
  }

  lemma ParseIntOfMinus(body: string)
    ensures ParseInt(['-'] + body) == Negated(Magnitude(body))
  {
    var s := ['-'] + body;
    TrimStartOfSignOrDigit(s);
    assert s[1..] == body;
  }

  /** Every character of `w` is whitespace. */
  predicate AllWhitespace(w: string) {
    forall i :: 0 <= i < |w| ==> IsWhitespace(w[i])
  }

  lemma {:induction false} TrimStartSkipsWhitespace(w: string, t: string)
    requires AllWhitespace(w) && (t == [] || !IsWhitespace(t[0]))
    ensures TrimStart(w + t) == t
  {
    if w == [] {
      assert w + t == t;
    } else {
      assert (w + t)[1..] == w[1..] + t;
      TrimStartSkipsWhitespace(w[1..], t);
    }
  }

  lemma {:induction false} DigitPrefixOfDigitRun(d: string, s: string)
    requires AllDigits(d) && (s == [] || !IsDigit(s[0]))
    ensures DigitPrefix(d + s) == d
  {
    if d == [] {
      assert d + s == s;
    } else {
      assert (d + s)[1..] == d[1..] + s;
      DigitPrefixOfDigitRun(d[1..], s);
    }
  }

  /** `parseInt` on a non-canonical spelling: leading whitespace, an
      optional sign, a run of digits (leading zeros allowed) and any tail
      that does not start with a digit; the value is that of the run. */
  lemma ParseIntOfDigitRun(w: string, sign: string, d: string, s: string)
    requires AllWhitespace(w) && (sign == [] || sign == ['+'] || sign == ['-'])
    requires d != [] && AllDigits(d) && (s == [] || !IsDigit(s[0]))
    ensures ParseInt(w + sign + d + s) ==
      Some(if sign == ['-'] then -(DigitsValue(d) as int) else DigitsValue(d) as int)
  {
    var t := sign + (d + s);
    assert w + sign + d + s == w + t;
    assert t[0] == if sign == [] then d[0] else sign[0];
    SignedOfDigitRun(sign, d, s);
    ParseIntAfterWhitespace(w, t);
  }

  lemma SignedOfDigitRun(sign: string, d: string, s: string)
    requires sign == [] || sign == ['+'] || sign == ['-']
    requires d != [] && AllDigits(d) && (s == [] || !IsDigit(s[0]))
    ensures Signed(sign + (d + s)) ==
      Some(if sign == ['-'] then -(DigitsValue(d) as int) else DigitsValue(d) as int)
  {
    var body := d + s;
    MagnitudeOfDigitRun(d, s);
    if sign == [] {
      assert sign + body == body;
    } else {
      assert (sign + body)[1..] == body;
      assert (sign + body)[0] == sign[0];
    }
  }

  lemma ParseIntAfterWhitespace(w: string, t: string)
    requires AllWhitespace(w) && (t == [] || !IsWhitespace(t[0]))
    ensures ParseInt(w + t) == Signed(t)
  {
    TrimStartSkipsWhitespace(w, t);
  }

  lemma MagnitudeOfDigitRun(d: string, s: string)
    requires d != [] && AllDigits(d) && (s == [] || !IsDigit(s[0]))
    ensures Magnitude(d + s) == Some(DigitsValue(d) as int)
  {
    DigitPrefixOfDigitRun(d, s);
  }

  /** `parseInt` reads back what `String` writes for every integer. */
  lemma ParseIntOfIntToString(n: int)
    ensures ParseInt(IntToString(n)) == Some(n)
  {
    var m: nat := if n < 0 then -n else n;
    DigitsValueOfNatToString(m);
    if n < 0 {
      ParseIntOfNegatedDigits(NatToString(m));
    } else {
      ParseIntOfDigits(NatToString(m));
    }
  }

  /** ASCII upper-casing: the canonical form a case-insensitive, non-Unicode
      regular expression compares characters under when the pattern is ASCII. */
  function UpperAscii(c: char): (r: char)
  {
    if 'a' <= c <= 'z' then (c as int - 32) as char else c
  }

  /** `pat` occurs in `text` at offset `i`, ignoring ASCII case. */
  predicate MatchesAt(text: string, pat: string, i: nat)
    requires i + |pat| <= |text|
  {
    forall k :: 0 <= k < |pat| ==> UpperAscii(text[i + k]) == UpperAscii(pat[k])
  }

  /** Left-to-right search for `pat` in `text`, ignoring ASCII case. */
  function ContainsIgnoringCase(text: string, pat: string): (b: bool)
    ensures b <==> exists i: nat :: i + |pat| <= |text| && MatchesAt(text, pat, i)
    decreases |text|
  {
    if |text| < |pat| then false
    else if MatchesAt(text, pat, 0) then true
    else
      var rest := ContainsIgnoringCase(text[1..], pat);
      assert rest ==> exists i: nat :: i + |pat| <= |text| && MatchesAt(text, pat, i) by {
        if rest {
          var i: nat :| i + |pat| <= |text[1..]| && MatchesAt(text[1..], pat, i);
          assert MatchesAt(text, pat, i + 1);
        }
      }
      assert (exists i: nat :: i + |pat| <= |text| && MatchesAt(text, pat, i)) ==> rest by {
        if exists i: nat :: i + |pat| <= |text| && MatchesAt(text, pat, i) {
          var i: nat :| i + |pat| <= |text| && MatchesAt(text, pat, i);
          assert i != 0;
          assert MatchesAt(text[1..], pat, i - 1);
        }
      }
      rest
  }
}
