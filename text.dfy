/** The few string operations the driver relies on: ASCII case mapping
    (`str.upper`, `str.lower`), whitespace stripping and decimal parsing as
    Python's `int(str)` does them, and substring search (`sub in s`). */
module Text {
  import opened Wrappers

  function UpperChar(c: char): char {
    if 'a' <= c <= 'z' then (c as int - 32) as char else c
  }

  function LowerChar(c: char): char {
    if 'A' <= c <= 'Z' then (c as int + 32) as char else c
  }

  /** `str.upper` on ASCII: no lower-case letter is left, and the result
      equals `s` up to case. */
  function Upper(s: string): (r: string)
    ensures |r| == |s|
    ensures forall i :: 0 <= i < |s| ==> !('a' <= r[i] <= 'z') && LowerChar(r[i]) == LowerChar(s[i])
  {
    seq(|s|, i requires 0 <= i < |s| => UpperChar(s[i]))
  }

  /** `str.lower` on ASCII: no upper-case letter is left, and the result
      equals `s` up to case. */
  function Lower(s: string): (r: string)
    ensures |r| == |s|
    ensures forall i :: 0 <= i < |s| ==> !('A' <= r[i] <= 'Z') && UpperChar(r[i]) == UpperChar(s[i])
  {
    seq(|s|, i requires 0 <= i < |s| => LowerChar(s[i]))
  }

  /** For ASCII case mapping, `s.upper() == "OFF"` and `s.lower() == "off"`
      accept the same strings, so on ASCII strings the safe controller's
      test for "off" and the base class's validation agree. (Python's full
      Unicode mapping breaks this: the ligature U+FB00 upper-cases to "FF".) */
  lemma UpperOffIffLowerOff(s: string)
    ensures Upper(s) == "OFF" <==> Lower(s) == "off"
  {
    if |s| == 3 {
      if Upper(s) == "OFF" {
        assert Upper(s)[0] == 'O' && Upper(s)[1] == 'F' && Upper(s)[2] == 'F';
        assert Lower(s)[0] == 'o' && Lower(s)[1] == 'f' && Lower(s)[2] == 'f';
      }
      if Lower(s) == "off" {
        assert Lower(s)[0] == 'o' && Lower(s)[1] == 'f' && Lower(s)[2] == 'f';
        assert Upper(s)[0] == 'O' && Upper(s)[1] == 'F' && Upper(s)[2] == 'F';
      }
    }
  }

  /** ASCII whitespace, as stripped by `int(str)`. */
  predicate IsSpace(c: char) {
    c == ' ' || c == '\t' || c == '\n' || c == '\r' || c == '\U{0B}' || c == '\U{0C}'
  }

  predicate AllSpace(s: string) {
    forall i :: 0 <= i < |s| ==> IsSpace(s[i])
  }

  function StripLeft(s: string): (r: string)
    ensures |r| <= |s|
  {
    if |s| > 0 && IsSpace(s[0]) then StripLeft(s[1..]) else s
  }

  function StripRight(s: string): (r: string)
    ensures |r| <= |s|
  {
    if |s| > 0 && IsSpace(s[|s| - 1]) then StripRight(s[..|s| - 1]) else s
  }

  function Strip(s: string): string {
    StripRight(StripLeft(s))
  }

  lemma {:induction false} StripLeftPadded(pre: string, rest: string)
    requires AllSpace(pre)
    requires |rest| > 0 && !IsSpace(rest[0])
    ensures StripLeft(pre + rest) == rest
  {
    if pre != [] {
      assert (pre + rest)[1..] == pre[1..] + rest;
      StripLeftPadded(pre[1..], rest);
    }
  }

  lemma {:induction false} StripRightPadded(rest: string, post: string)
    requires AllSpace(post)
    requires |rest| > 0 && !IsSpace(rest[|rest| - 1])
    ensures StripRight(rest + post) == rest
  {
    if post != [] {
      var shorter := post[..|post| - 1];
      assert (rest + post)[..|rest + post| - 1] == rest + shorter;
      StripRightPadded(rest, shorter);
    } else {
      assert rest + post == rest;
    }
  }

  /** Stripping removes exactly the whitespace padding around a word. */
  lemma StripPadded(pre: string, core: string, post: string)
    requires AllSpace(pre) && AllSpace(post)
    requires |core| > 0 && !IsSpace(core[0]) && !IsSpace(core[|core| - 1])
    ensures Strip(pre + core + post) == core
  {
    assert pre + core + post == pre + (core + post);
    StripLeftPadded(pre, core + post);
    StripRightPadded(core, post);
  }

  predicate IsDigit(c: char) {
    '0' <= c <= '9'
  }

  predicate IsDigits(ds: string) {
    |ds| > 0 && forall i :: 0 <= i < |ds| ==> IsDigit(ds[i])
  }

  /** The value of a string of decimal digits, most significant first. */
  function DigitsValue(ds: string): nat
    requires forall i :: 0 <= i < |ds| ==> IsDigit(ds[i])
  {
    if ds == [] then 0
    else
      assert IsDigit(ds[|ds| - 1]);
      DigitsValue(ds[..|ds| - 1]) * 10 + (ds[|ds| - 1] as int - '0' as int)
  }

  /** Python's `int(s)` for a string: surrounding whitespace, an optional
      sign and at least one decimal digit; anything else fails. */
  function ParseInt(s: string): (r: Option<int>)
    ensures IsDigits(Strip(s)) ==> r == Some(DigitsValue(Strip(s)))
    ensures r.Some? ==> |Strip(s)| > 0 && IsDigit(Strip(s)[|Strip(s)| - 1])
  {
    var t := Strip(s);
    if |t| > 0 && (t[0] == '+' || t[0] == '-') then
      if IsDigits(t[1..]) then
        var n: int := DigitsValue(t[1..]);
        Some(if t[0] == '-' then -n else n)
      else None
    else if IsDigits(t) then Some(DigitsValue(t))
    else None
  }

  function DigitChar(d: nat): (c: char)
    requires d < 10
    ensures IsDigit(c) && c as int - '0' as int == d
  {
    ('0' as int + d) as char
  }

  /** The decimal digits of `n`, most significant first, without leading
      zeros. */
  function NatDigits(n: nat): (ds: string)
    ensures IsDigits(ds)
    decreases n
  {
    if n < 10 then [DigitChar(n)] else NatDigits(n / 10) + [DigitChar(n % 10)]
  }

  lemma {:induction false} NatDigitsValue(n: nat)
    ensures DigitsValue(NatDigits(n)) == n
    decreases n
  {
    var ds := NatDigits(n);
    if n < 10 {
      assert ds[..|ds| - 1] == [];
    } else {
      NatDigitsValue(n / 10);
      assert ds[..|ds| - 1] == NatDigits(n / 10);
    }
  }

  /** How an integer is written in decimal: a minus sign when negative. */
  function IntDecimal(n: int): string {
    if n < 0 then "-" + NatDigits(-n) else NatDigits(n)
  }

  /** `int()` reads back any integer written in decimal, whatever
      whitespace surrounds it. */
  lemma ParseIntRoundTrip(n: int, pre: string, post: string)
    requires AllSpace(pre) && AllSpace(post)
    ensures ParseInt(pre + IntDecimal(n) + post) == Some(n)
  {
    var t := IntDecimal(n);
    var ds := NatDigits(if n < 0 then -n else n);
    assert IsDigit(t[0]) || t[0] == '-';
    assert IsDigit(t[|t| - 1]);
    StripPadded(pre, t, post);
    NatDigitsValue(if n < 0 then -n else n);
    if n < 0 {
      assert t[1..] == ds;
    }
  }

  predicate StartsWith(s: string, prefix: string) {
    |prefix| <= |s| && s[..|prefix|] == prefix
  }

  /** Python's `sub in s`. */
  predicate Contains(s: string, sub: string) {
    StartsWith(s, sub) || (|s| > 0 && Contains(s[1..], sub))
  }

  /** `sub` occurs in `s` starting at index `i`. */
  predicate OccursAt(s: string, sub: string, i: int) {
    0 <= i <= |s| - |sub| && s[i..i + |sub|] == sub
  }

  /** `sub in s` holds exactly when `sub` occurs in `s` at some index. */
  lemma {:induction false} ContainsIffOccurs(s: string, sub: string)
    ensures Contains(s, sub) <==> exists i :: OccursAt(s, sub, i)
  {
    if StartsWith(s, sub) {
      assert OccursAt(s, sub, 0);
    }
    if |s| > 0 {
      ContainsIffOccurs(s[1..], sub);
      if exists i :: OccursAt(s[1..], sub, i) {
        var i :| OccursAt(s[1..], sub, i);
        assert s[1..][i..i + |sub|] == s[i + 1..i + 1 + |sub|];
        assert OccursAt(s, sub, i + 1);
      }
      if exists i :: OccursAt(s, sub, i) {
        var i :| OccursAt(s, sub, i);
        if i > 0 {
          assert s[1..][i - 1..i - 1 + |sub|] == s[i..i + |sub|];
          assert OccursAt(s[1..], sub, i - 1);
        } else {
          assert StartsWith(s, sub);
        }
      }
    } else {
      if exists i :: OccursAt(s, sub, i) {
        var i :| OccursAt(s, sub, i);
        assert StartsWith(s, sub);
      }
    }
  }
}
