/** `int.Parse(string)` as the argument loop uses it: the default number style
    (leading and trailing white space, one leading sign, decimal digits) with the
    result required to fit a 32-bit `int`; and decimal formatting, its inverse. */
module Int32Text {
  import opened Types

  /** The white space the default number style skips: tab through carriage return, and space. */
  predicate IsWhite(c: char)
  {
    c == ' ' || ('\t' <= c <= '\r')
  }

  predicate IsDigit(c: char)
  {
    '0' <= c <= '9'
  }

  predicate AllDigits(s: string)
  {
    forall i | 0 <= i < |s| :: IsDigit(s[i])
  }

  function TrimStart(s: string): (r: string)
    ensures |r| <= |s| && r == s[|s| - |r|..]
    ensures forall i | 0 <= i < |s| - |r| :: IsWhite(s[i])
    ensures r == [] || !IsWhite(r[0])
  {
    if s != [] && IsWhite(s[0]) then TrimStart(s[1..]) else s
  }

  function TrimEnd(s: string): (r: string)
    ensures |r| <= |s| && r == s[..|r|]
    ensures forall i | |r| <= i < |s| :: IsWhite(s[i])
    ensures r == [] || !IsWhite(r[|r| - 1])
  {
    if s != [] && IsWhite(s[|s| - 1]) then TrimEnd(s[..|s| - 1]) else s
  }

  /** The value of a string of decimal digits, most significant first. */
  function DigitsValue(s: string): nat
    requires AllDigits(s)
  {
    if s == [] then 0 else DigitsValue(s[..|s| - 1]) * 10 + (s[|s| - 1] as int - '0' as int)
  }

  /** The integer a token denotes, or None where `int.Parse` throws: a token that is
      not an optionally signed run of digits between optional white space throws a
      format error, one whose value does not fit 32 bits an overflow error. */
  function ParseInt32(s: string): Option<int32>
  {
    ParseTrimmed(TrimEnd(TrimStart(s)))
  }

  /** The number a token without surrounding white space denotes. */
  function ParseTrimmed(t: string): Option<int32>
  {
    var signed := |t| > 0 && (t[0] == '-' || t[0] == '+');
    var digits := if signed then t[1..] else t;
    if digits == [] || !AllDigits(digits) then None
    else
      var v: int := if signed && t[0] == '-' then -(DigitsValue(digits) as int) else DigitsValue(digits);
      if MinInt32 <= v <= MaxInt32 then Some(v as int32) else None
  }

  /** Decimal digits of a natural number, without leading zeros. */
  function NatDigits(n: nat): (s: string)
    ensures s != [] && AllDigits(s) && DigitsValue(s) == n
    ensures n != 0 ==> s[0] != '0'
  {
    var last := [('0' as int + n % 10) as char];
    if n < 10 then last else NatDigits(n / 10) + last
  }

  /** `int.ToString()`: a minus sign for negative values, then the digits. */
  function FormatInt32(n: int32): string
  {
    if n < 0 then "-" + NatDigits(-(n as int)) else NatDigits(n as int)
  }

  /** Every 32-bit integer written out in decimal parses back to itself. */
  lemma ParseFormatRoundTrip(n: int32)
    ensures ParseInt32(FormatInt32(n)) == Some(n)
  {
    var s := FormatInt32(n);
    var d := NatDigits(if n < 0 then -(n as int) else n as int);
    if n < 0 {
      assert s == "-" + d;
      assert s[|s| - 1] == d[|d| - 1];
    }
    assert IsDigit(d[0]) && IsDigit(d[|d| - 1]);
    NoWhiteAtEnds(s);
    ParseSignedDigits(n < 0, d);
  }

  lemma NoWhiteAtEnds(s: string)
    requires s != [] && !IsWhite(s[0]) && !IsWhite(s[|s| - 1])
    ensures TrimEnd(TrimStart(s)) == s
  {
  }

  lemma ParseSignedDigits(negative: bool, d: string)
    requires d != [] && AllDigits(d)
    requires if negative then MinInt32 <= -(DigitsValue(d) as int) else DigitsValue(d) <= MaxInt32
    ensures ParseTrimmed(if negative then "-" + d else d) ==
              Some((if negative then -(DigitsValue(d) as int) else DigitsValue(d)) as int32)
  {
    if negative {
      assert ("-" + d)[1..] == d;
    }
  }

  /** Surrounding white space does not change what a token denotes. */
  lemma {:induction false} ParseIgnoresSurroundingWhite(pre: string, s: string, post: string)
    requires forall i | 0 <= i < |pre| :: IsWhite(pre[i])
    requires forall i | 0 <= i < |post| :: IsWhite(post[i])
    ensures ParseInt32(pre + s + post) == ParseInt32(s)
  {
    assert pre + s + post == pre + (s + post);
    TrimStartWhite(pre, s + post);
    TrimStartAppend(s, post);
    TrimEndWhite(TrimStart(s), post);
  }

  lemma {:induction false} TrimStartWhite(pre: string, s: string)
    requires forall i | 0 <= i < |pre| :: IsWhite(pre[i])
    ensures TrimStart(pre + s) == TrimStart(s)
  {
    if pre != [] {
      assert IsWhite((pre + s)[0]);
      assert (pre + s)[1..] == pre[1..] + s;
      assert TrimStart(pre + s) == TrimStart(pre[1..] + s);
      TrimStartWhite(pre[1..], s);
    } else {
      assert pre + s == s;
    }
  }

  lemma {:induction false} TrimEndWhite(s: string, post: string)
    requires forall i | 0 <= i < |post| :: IsWhite(post[i])
    ensures TrimEnd(s + post) == TrimEnd(s)
  {
    if post != [] {
      var n := |post| - 1;
      assert IsWhite((s + post)[|s + post| - 1]);
      assert (s + post)[..|s + post| - 1] == s + post[..n];
      assert TrimEnd(s + post) == TrimEnd(s + post[..n]);
      TrimEndWhite(s, post[..n]);
    } else {
      assert s + post == s;
    }
  }

  /** Trimming the front of `s + post` trims only inside `s` unless `s` is all white. */
  lemma {:induction false} TrimStartAppend(s: string, post: string)
    requires forall i | 0 <= i < |post| :: IsWhite(post[i])
    ensures TrimEnd(TrimStart(s + post)) == TrimEnd(TrimStart(s) + post)
  {
    if s == [] {
      assert s + post == post && TrimStart(s) + post == post;
      assert TrimStart(post) == [] && TrimEnd(post) == [];
    } else if IsWhite(s[0]) {
      assert (s + post)[0] == s[0] && (s + post)[1..] == s[1..] + post;
      assert TrimStart(s + post) == TrimStart(s[1..] + post);
      assert TrimStart(s) == TrimStart(s[1..]);
      TrimStartAppend(s[1..], post);
    } else {
      assert (s + post)[0] == s[0];
      assert TrimStart(s + post) == s + post;
    }
  }
}
