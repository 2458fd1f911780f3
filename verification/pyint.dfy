/**
 * Python's `int(text)` in base 10, as `purchase` applies it to the
 * `quantity` argument and as Django's integer primary-key lookup applies it
 * to `product_id`: surrounding whitespace is ignored, one optional sign,
 * then one or more decimal digits (leading zeros allowed).
 */
module PyInt {
  import opened Wrappers

  /** The ASCII whitespace that `int()` strips: space, tab, LF, VT, FF, CR. */
  predicate IsSpace(c: char) {
    c == ' ' || '\t' <= c <= '\r'
  }

  predicate IsDigit(c: char) {
    '0' <= c <= '9'
  }

  /** A non-empty run of decimal digits. */
  predicate IsNumeral(s: string) {
    s != [] && forall i | 0 <= i < |s| :: IsDigit(s[i])
  }

  /** One optional sign followed by a numeral, and nothing else. */
  predicate IsSignedNumeral(t: string) {
    IsNumeral(t) || (t != [] && (t[0] == '+' || t[0] == '-') && IsNumeral(t[1..]))
  }

  /** `s` without its leading whitespace. */
  function StripStart(s: string): (r: string)
    ensures |r| <= |s| && r == s[|s| - |r|..]
    ensures forall i | 0 <= i < |s| - |r| :: IsSpace(s[i])
    ensures r != [] ==> !IsSpace(r[0])
  {
    if s != [] && IsSpace(s[0]) then StripStart(s[1..]) else s
  }

  /** `s` without its trailing whitespace. */
  function StripEnd(s: string): (r: string)
    ensures |r| <= |s| && r == s[..|r|]
    ensures forall i | |r| <= i < |s| :: IsSpace(s[i])
    ensures r != [] ==> !IsSpace(r[|r| - 1])
  {
    if s != [] && IsSpace(s[|s| - 1]) then StripEnd(s[..|s| - 1]) else s
  }

  function Strip(s: string): string {
    StripStart(StripEnd(s))
  }

  /** The value of a string of decimal digits, most significant first. */
  function DigitsValue(s: string): nat
    requires forall i | 0 <= i < |s| :: IsDigit(s[i])
  {
    if s == [] then 0
    else
      assert IsDigit(s[|s| - 1]);
      DigitsValue(s[..|s| - 1]) * 10 + (s[|s| - 1] as int - '0' as int)
  }

  /**
   * `int(s)`: Some(value), or None where Python raises ValueError. The text
   * is accepted exactly when, without its surrounding whitespace, it is a
   * signed numeral; the value is the numeral's, negated after a '-'.
   */
  function Parse(s: string): (r: Option<int>)
    ensures r.Some? <==> IsSignedNumeral(Strip(s))
  {
    ParseSigned(Strip(s))
  }

  /** An optional sign followed by a numeral, with nothing around it. */
  function ParseSigned(t: string): (r: Option<int>)
    ensures r.Some? <==> IsSignedNumeral(t)
    ensures r.Some? ==>
      var digits := if IsDigit(t[0]) then t else t[1..];
      var n: int := DigitsValue(digits);
      r.value == if t[0] == '-' then -n else n
  {
    if t != [] && (t[0] == '+' || t[0] == '-') then
      if IsNumeral(t[1..]) then
        var n: int := DigitsValue(t[1..]);
        Some(if t[0] == '-' then -n else n)
      else None
    else if IsNumeral(t) then Some(DigitsValue(t))
    else None
  }

  /** The decimal digits of `n`, without leading zeros: `str(n)` for n >= 0. */
  function ShowNat(n: nat): string
  {
    var d := [(('0' as int) + n % 10) as char];
    if n < 10 then d else ShowNat(n / 10) + d
  }

  /** `str(n)`. */
  function Show(n: int): string {
    if n < 0 then "-" + ShowNat(-n) else ShowNat(n)
  }

  lemma {:induction false} ShowNatValue(n: nat)
    ensures IsNumeral(ShowNat(n)) && DigitsValue(ShowNat(n)) == n
  {
    var s := ShowNat(n);
    if n >= 10 {
      ShowNatValue(n / 10);
      assert s[..|s| - 1] == ShowNat(n / 10);
    }
  }

  /** `int(str(n)) == n` for every integer. */
  lemma {:induction false} ParseShow(n: int)
    ensures Parse(Show(n)) == Some(n)
  {
    var m := if n < 0 then -n else n;
    ShowNatValue(m);
    if n >= 0 {
      ParseNumeral(ShowNat(m));
    } else {
      var s := Show(n);
      assert s == "-" + ShowNat(m) && s[1..] == ShowNat(m);
      assert !IsSpace(s[0]) && !IsSpace(s[|s| - 1]);
      assert Strip(s) == s;
    }
  }

  /** A bare run of digits parses to its decimal value. */
  lemma {:induction false} ParseNumeral(s: string)
    requires IsNumeral(s)
    ensures Parse(s) == Some(DigitsValue(s))
  {
    assert !IsSpace(s[0]) && !IsSpace(s[|s| - 1]);
    assert StripEnd(s) == s;
    assert StripStart(s) == s;
  }

  /** Text with no decimal digit in it (empty, blank, a lone sign, a word) is refused. */
  lemma {:induction false} ParseNeedsDigit(s: string)
    requires forall i | 0 <= i < |s| :: !IsDigit(s[i])
    ensures Parse(s) == None
  {
    StripKeepsNoDigit(s);
    var t := Strip(s);
    if t != [] {
      assert !IsDigit(t[0]);
      if |t| > 1 {
        assert t[1..][0] == t[1];
      }
    }
  }

  lemma StripKeepsNoDigit(s: string)
    requires forall i | 0 <= i < |s| :: !IsDigit(s[i])
    ensures forall i | 0 <= i < |Strip(s)| :: !IsDigit(Strip(s)[i])
  {
    var e := StripEnd(s);
    assert forall i | 0 <= i < |e| :: e[i] == s[i];
    var t := StripStart(e);
    assert forall i | 0 <= i < |t| :: t[i] == e[|e| - |t| + i];
  }

  /** Whitespace around the text does not change what `int()` returns. */
  lemma ParsePadded(pre: string, s: string, post: string)
    requires forall i | 0 <= i < |pre| :: IsSpace(pre[i])
    requires forall i | 0 <= i < |post| :: IsSpace(post[i])
    requires s != [] && !IsSpace(s[0]) && !IsSpace(s[|s| - 1])
    ensures Parse(pre + s + post) == Parse(s)
  {
    StripEndPadded(pre + s, post);
    StripStartPadded(pre, s);
    assert Strip(pre + s + post) == s;
    assert Strip(s) == s by {
      assert StripEnd(s) == s;
      assert StripStart(s) == s;
    }
  }

  lemma {:induction false} StripEndPadded(x: string, post: string)
    requires forall i | 0 <= i < |post| :: IsSpace(post[i])
    requires x != [] && !IsSpace(x[|x| - 1])
    ensures StripEnd(x + post) == x
    decreases |post|
  {
    if post == [] {
      assert x + post == x;
    } else {
      var q := post[..|post| - 1];
      assert (x + post)[..|x + post| - 1] == x + q;
      StripEndPadded(x, q);
    }
  }

  lemma {:induction false} StripStartPadded(pre: string, x: string)
    requires forall i | 0 <= i < |pre| :: IsSpace(pre[i])
    requires x != [] && !IsSpace(x[0])
    ensures StripStart(pre + x) == x
  {
    if pre == [] {
      assert pre + x == x;
    } else {
      assert (pre + x)[1..] == pre[1..] + x;
      StripStartPadded(pre[1..], x);
    }
  }
}
