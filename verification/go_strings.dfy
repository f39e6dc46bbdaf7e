/** Models of the Go standard-library string helpers: `strings.HasSuffix` and
    `strings.TrimRight`, which the LLM client uses on the endpoint URL, and the decimal
    rendering of an `int` by `fmt`'s `%d` verb, which it uses in an error text. The
    model's own readers (of error texts and of Bearer credentials) also use
    `strings.HasPrefix`, a byte search in the manner of `strings.IndexByte`, and the
    inverse of `%d`. */
module GoStrings {

  /** strings.HasSuffix(s, suffix): s is some head followed by the suffix. */
  predicate HasSuffix(s: string, suffix: string): (b: bool)
    ensures b <==> |suffix| <= |s| && s == s[..|s| - |suffix|] + suffix
  {
    |suffix| <= |s| && s[|s| - |suffix|..] == suffix
  }

  /** strings.HasPrefix(s, prefix) */
  predicate HasPrefix(s: string, prefix: string) {
    prefix <= s
  }

  lemma SuffixOfAppend(s: string, suffix: string)
    ensures HasSuffix(s + suffix, suffix)
  {
    assert (s + suffix)[|s|..] == suffix;
  }

  lemma LastOfSuffix(s: string, suffix: string)
    requires HasSuffix(s, suffix) && suffix != []
    ensures s[|s| - 1] == suffix[|suffix| - 1]
  {
    assert s[|s| - 1] == s[|s| - |suffix|..][|suffix| - 1];
  }

  lemma SuffixOfLongerAppend(s: string, t: string, suffix: string)
    requires HasSuffix(t, suffix)
    ensures HasSuffix(s + t, suffix)
  {
    assert (s + t)[|s + t| - |suffix|..] == t[|t| - |suffix|..];
  }

  /** Where each part of a three-part concatenation lies. */
  lemma Concat3(a: string, b: string, c: string)
    ensures var s := a + b + c;
            && s[..|a|] == a
            && s[|a|..|a| + |b|] == b
            && s[|a| + |b|..] == c
  {
    var s := a + b + c;
    assert s[..|a|] == a;
    assert s[|a|..|a| + |b|] == b;
    assert s[|a| + |b|..] == c;
  }

  /** Where the second and fourth parts of a five-part concatenation lie. */
  lemma PromptParts(a: string, b: string, c: string, d: string, e: string)
    ensures var s := a + b + c + d + e;
            && (a + b + c + d) <= s
            && s[|a|..|a| + |b|] == b
            && s[|a| + |b| + |c|..][..|d|] == d
  {
    var s := a + b + c + d + e;
    assert s == (a + b + c + d) + e;
    assert s[|a|..|a| + |b|] == b;
    assert s[|a| + |b| + |c|..] == d + e;
    assert (d + e)[..|d|] == d;
  }

  /** strings.TrimRight(s, cutset): removes every trailing character of `s` that occurs
      in `cutset`. The result is the longest prefix of `s` that is empty or ends in a
      character outside `cutset` and that leaves only `cutset` characters behind. */
  function TrimRight(s: string, cutset: string): (r: string)
    ensures r <= s
    ensures forall i :: |r| <= i < |s| ==> s[i] in cutset
    ensures r == [] || r[|r| - 1] !in cutset
    decreases |s|
  {
    if |s| > 0 && s[|s| - 1] in cutset then TrimRight(s[..|s| - 1], cutset) else s
  }

  /** The three properties in TrimRight's contract pin its result down: any prefix that
      has them is the trimmed string. */
  lemma TrimRightUnique(s: string, cutset: string, p: string)
    requires p <= s
    requires forall i :: |p| <= i < |s| ==> s[i] in cutset
    requires p == [] || p[|p| - 1] !in cutset
    ensures p == TrimRight(s, cutset)
  {
  }

  lemma TrimRightNoop(s: string, cutset: string)
    requires s == [] || s[|s| - 1] !in cutset
    ensures TrimRight(s, cutset) == s
  {
  }

  /** Trimming is idempotent, and appending cut characters does not change it. */
  lemma {:induction false} TrimRightAppendCut(s: string, cutset: string, tail: string)
    requires forall i :: 0 <= i < |tail| ==> tail[i] in cutset
    ensures TrimRight(s + tail, cutset) == TrimRight(s, cutset)
    ensures TrimRight(TrimRight(s, cutset), cutset) == TrimRight(s, cutset)
  {
    var r := TrimRight(s, cutset);
    assert r <= s + tail;
    forall i | |r| <= i < |s + tail|
      ensures (s + tail)[i] in cutset
    {
      if i >= |s| { assert (s + tail)[i] == tail[i - |s|]; }
    }
    TrimRightUnique(s + tail, cutset, r);
    TrimRightUnique(r, cutset, r);
  }

  /** strings.IndexByte(s, c), with |s| standing for "absent" instead of -1. */
  function IndexOf(s: string, c: char): (r: nat)
    ensures r <= |s|
    ensures r < |s| ==> s[r] == c
    ensures forall j :: 0 <= j < r ==> s[j] != c
  {
    if s == [] then 0
    else if s[0] == c then 0
    else 1 + IndexOf(s[1..], c)
  }

  // ----- fmt's %d verb on an int -----

  predicate IsDigit(c: char) {
    '0' <= c <= '9'
  }

  function DigitChar(d: nat): (c: char)
    requires d < 10
    ensures IsDigit(c)
  {
    "0123456789"[d]
  }

  function DigitValue(c: char): (d: nat)
    requires IsDigit(c)
    ensures d < 10 && DigitChar(d) == c
  {
    (c as int - '0' as int) as nat
  }

  /** Decimal digits of a natural number, most significant first, with no leading zero. */
  function Digits(n: nat): (r: string)
    ensures |r| > 0
    ensures forall i :: 0 <= i < |r| ==> IsDigit(r[i])
    ensures r[0] == '0' ==> n == 0
  {
    if n < 10 then [DigitChar(n)] else Digits(n / 10) + [DigitChar(n % 10)]
  }

  /** The value a string of decimal digits denotes. */
  function ParseDigits(s: string): (n: nat)
    requires forall i :: 0 <= i < |s| ==> IsDigit(s[i])
  {
    if s == [] then 0 else 10 * ParseDigits(s[..|s| - 1]) + DigitValue(s[|s| - 1])
  }

  lemma {:induction false} ParseDigitsOfDigits(n: nat)
    ensures ParseDigits(Digits(n)) == n
  {
    var r := Digits(n);
    if n >= 10 {
      ParseDigitsOfDigits(n / 10);
      assert r[..|r| - 1] == Digits(n / 10);
    }
  }

  /** The text `fmt.Sprintf("%d", n)` produces: a minus sign for negative values, then
      the decimal digits of the magnitude, without leading zeros. */
  function FormatInt(n: int): (r: string)
    ensures |r| > 0 && (r[0] == '-' <==> n < 0)
    ensures forall i :: 0 <= i < |r| ==> r[i] == '-' || IsDigit(r[i])
    ensures forall i :: 0 < i < |r| ==> IsDigit(r[i])
    ensures var d := if n < 0 then r[1..] else r; |d| > 0 && (d[0] == '0' ==> d == "0")
  {
    if n < 0 then "-" + Digits(-n) else Digits(n)
  }

  /** Reading a %d rendering back: the inverse of FormatInt. */
  function ParseInt(s: string): (n: int)
    requires forall i :: 0 <= i < |s| ==> s[i] == '-' || IsDigit(s[i])
  {
    if |s| > 0 && s[0] == '-' && forall i :: 1 <= i < |s| ==> IsDigit(s[i])
    then -(ParseDigits(s[1..]) as int)
    else if forall i :: 0 <= i < |s| ==> IsDigit(s[i]) then ParseDigits(s)
    else 0
  }

  lemma ParseIntOfFormatInt(n: int)
    ensures ParseInt(FormatInt(n)) == n
  {
    if n < 0 {
      ParseDigitsOfDigits(-n);
      assert FormatInt(n)[1..] == Digits(-n);
    } else {
      ParseDigitsOfDigits(n);
    }
  }

  /** Distinct integers are printed differently. */
  lemma FormatIntInjective(m: int, n: int)
    requires FormatInt(m) == FormatInt(n)
    ensures m == n
  {
    ParseIntOfFormatInt(m);
    ParseIntOfFormatInt(n);
  }
}
