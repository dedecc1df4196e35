/**
 * The few string and number-formatting routines of Go's standard library
 * that the request layer relies on: strings.HasPrefix, strings.Contains,
 * strings.Trim with a single cut character, the first element of
 * strings.Split, and strconv.Itoa.
 */
module Text {

  predicate HasPrefix(s: string, prefix: string) {
    |prefix| <= |s| && s[..|prefix|] == prefix
  }

  /** strings.Contains: some suffix of `s` starts with `sub`. */
  predicate Contains(s: string, sub: string)
    decreases |s|
  {
    HasPrefix(s, sub) || (s != [] && Contains(s[1..], sub))
  }

  /** Reference definition of substring occurrence, by position. */
  ghost predicate OccursAt(s: string, sub: string, i: int) {
    0 <= i && i + |sub| <= |s| && s[i..i + |sub|] == sub
  }

  /** Contains agrees with the positional definition in both directions. */
  lemma {:induction false} ContainsIff(s: string, sub: string)
    ensures Contains(s, sub) <==> exists i :: OccursAt(s, sub, i)
    decreases |s|
  {
    if HasPrefix(s, sub) {
      assert OccursAt(s, sub, 0);
    } else if s == [] {
      assert sub != [];
    } else {
      ContainsIff(s[1..], sub);
      if Contains(s, sub) {
        var j :| OccursAt(s[1..], sub, j);
        assert s[1..][j..j + |sub|] == s[j + 1..j + 1 + |sub|];
        assert OccursAt(s, sub, j + 1);
      }
      if exists i :: OccursAt(s, sub, i) {
        var i :| OccursAt(s, sub, i);
        assert i != 0;
        assert s[1..][i - 1..i - 1 + |sub|] == s[i..i + |sub|];
        assert OccursAt(s[1..], sub, i - 1);
      }
    }
  }

  /** Contains holds when `sub` starts at a known position of `s`. */
  lemma ContainsAt(pre: string, sub: string, post: string)
    ensures Contains(pre + sub + post, sub)
  {
    var s := pre + sub + post;
    assert s[|pre|..|pre| + |sub|] == sub;
    assert OccursAt(s, sub, |pre|);
    ContainsIff(s, sub);
  }

  /** strings.TrimLeft(s, string(c)): drops every leading `c`. */
  function TrimLeft(s: string, c: char): (r: string)
    ensures |r| <= |s| && r == s[|s| - |r|..]
    ensures r == [] || r[0] != c
    ensures forall i :: 0 <= i < |s| - |r| ==> s[i] == c
  {
    if s != [] && s[0] == c then TrimLeft(s[1..], c) else s
  }

  /** strings.TrimRight(s, string(c)): drops every trailing `c`. */
  function TrimRight(s: string, c: char): (r: string)
    ensures |r| <= |s| && r == s[..|r|]
    ensures r == [] || r[|r| - 1] != c
    ensures forall i :: |r| <= i < |s| ==> s[i] == c
  {
    if s != [] && s[|s| - 1] == c then TrimRight(s[..|s| - 1], c) else s
  }

  /** strings.Trim(s, string(c)): a contiguous piece of `s` with no `c` at either end,
      everything cut off on either side being `c`. */
  function Trim(s: string, c: char): (r: string)
    ensures OccursAt(s, r, |s| - |TrimLeft(s, c)|)
    ensures r == [] || (r[0] != c && r[|r| - 1] != c)
    ensures forall i :: 0 <= i < |s| - |TrimLeft(s, c)| ==> s[i] == c
    ensures forall i :: |s| - |TrimLeft(s, c)| + |r| <= i < |s| ==> s[i] == c
  {
    var left := TrimLeft(s, c);
    var r := TrimRight(left, c);
    SuffixPiece(s, left, r, c);
    r
  }

  /** A prefix `r` of a suffix `left` of `s` is a piece of `s`; if `left` continues after `r`
      with `c` only, so does `s`. */
  lemma SuffixPiece(s: string, left: string, r: string, c: char)
    requires |left| <= |s| && left == s[|s| - |left|..]
    requires |r| <= |left| && r == left[..|r|]
    requires forall i :: |r| <= i < |left| ==> left[i] == c
    ensures OccursAt(s, r, |s| - |left|)
    ensures forall i :: |s| - |left| + |r| <= i < |s| ==> s[i] == c
  {
    var k := |s| - |left|;
    assert s[k..k + |r|] == left[..|r|];
    forall i | k + |r| <= i < |s|
      ensures s[i] == c
    {
      assert s[i] == left[i - k];
    }
  }

  /** strings.Split(s, "/")[0]: everything before the first slash. */
  function FirstSegment(s: string): (r: string)
    ensures HasPrefix(s, r)
    ensures '/' !in r
    ensures |r| < |s| ==> s[|r|] == '/'
  {
    if s == [] || s[0] == '/' then [] else [s[0]] + FirstSegment(s[1..])
  }

  predicate IsDigit(c: char) {
    '0' <= c <= '9'
  }

  function DigitChar(d: nat): (c: char)
    requires d < 10
    ensures IsDigit(c) && c as int - '0' as int == d
  {
    "0123456789"[d]
  }

  /** The decimal numeral of a natural number, most significant digit first. */
  function Decimal(n: nat): (r: string)
    ensures r != []
    ensures forall i :: 0 <= i < |r| ==> IsDigit(r[i])
    // canonical: no leading zero, except the numeral of zero itself
    ensures r[0] == '0' <==> n == 0
    ensures n == 0 ==> r == "0"
  {
    if n < 10 then [DigitChar(n)] else Decimal(n / 10) + [DigitChar(n % 10)]
  }

  /** strconv.Itoa: a minus sign for negative numbers, then the decimal numeral. */
  function Itoa(i: int): string {
    if i < 0 then "-" + Decimal(-i) else Decimal(i)
  }

  function DigitValue(c: char): nat
    requires IsDigit(c)
  {
    c as int - '0' as int
  }

  /** Reads a decimal numeral back (the inverse of Decimal). */
  function ParseDecimal(s: string): nat
    requires forall i :: 0 <= i < |s| ==> IsDigit(s[i])
  {
    if s == [] then 0 else ParseDecimal(s[..|s| - 1]) * 10 + DigitValue(s[|s| - 1])
  }

  lemma {:induction false} ParseDecimalOfDecimal(n: nat)
    ensures ParseDecimal(Decimal(n)) == n
    decreases n
  {
    if n >= 10 {
      var d := Decimal(n);
      assert d[..|d| - 1] == Decimal(n / 10);
      ParseDecimalOfDecimal(n / 10);
    }
  }

  /** Well-formed output of Itoa: an optional minus sign followed by at least one digit. */
  predicate IsNumeral(s: string) {
    if s != [] && s[0] == '-' then AllDigits(s[1..]) else AllDigits(s)
  }

  predicate AllDigits(s: string) {
    s != [] && forall i :: 0 <= i < |s| ==> IsDigit(s[i])
  }

  /** strconv.Atoi on well-formed numerals. */
  function Atoi(s: string): int
    requires IsNumeral(s)
  {
    if s[0] == '-' then 0 - ParseDecimal(s[1..]) as int else ParseDecimal(s)
  }

  /** Atoi undoes Itoa. */
  lemma AtoiOfItoa(i: int)
    ensures IsNumeral(Itoa(i)) && Atoi(Itoa(i)) == i
  {
    var d := Decimal(if i < 0 then -i else i);
    ParseDecimalOfDecimal(if i < 0 then -i else i);
    if i < 0 {
      assert Itoa(i) == "-" + d && Itoa(i)[1..] == d;
    } else {
      assert Itoa(i) == d && IsDigit(d[0]);
    }
  }

  /** Distinct integers are printed as distinct strings, so a status label identifies its status. */
  lemma ItoaInjective(a: int, b: int)
    requires Itoa(a) == Itoa(b)
    ensures a == b
  {
    AtoiOfItoa(a);
    AtoiOfItoa(b);
  }

  lemma ItoaExamples()
    ensures Itoa(0) == "0"
    ensures Itoa(200) == "200"
    ensures Itoa(404) == "404"
  {
    assert Decimal(20) == "20";
    assert Decimal(40) == "40";
  }
}
