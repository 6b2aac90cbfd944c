/** Character-string helpers shared by the naming rules of the model builder and of the upload view:
    decimal rendering of counts, the space-to-underscore rewrite, suffix tests, and the
    ` (k)` duplicate suffix. */
module Text {
  import opened Results

  predicate IsDigit(c: char) {
    '0' <= c <= '9'
  }

  predicate AllDigits(s: string) {
    forall i :: 0 <= i < |s| ==> IsDigit(s[i])
  }

  function DigitChar(d: nat): (c: char)
    requires d < 10
    ensures IsDigit(c) && c as int - '0' as int == d
  {
    ('0' as int + d) as char
  }

  /** Decimal rendering of a count, as Python's `str` (and `'{}'.format`, `'%s' %`) print an int. */
  function NatToString(n: nat): (s: string)
    ensures |s| > 0 && AllDigits(s)
    ensures s[0] == '0' ==> n == 0
    decreases n
  {
    if n < 10 then [DigitChar(n)] else NatToString(n / 10) + [DigitChar(n % 10)]
  }

  /** The number a string of decimal digits denotes. */
  function DigitsValue(s: string): nat
    requires AllDigits(s)
    decreases |s|
  {
    if |s| == 0 then 0
    else DigitsValue(s[..|s| - 1]) * 10 + (s[|s| - 1] as int - '0' as int)
  }

  /** Reads back a non-empty run of decimal digits. */
  function ParseNat(s: string): (r: Option<nat>)
    ensures r.Some? <==> |s| > 0 && AllDigits(s)
  {
    if |s| > 0 && AllDigits(s) then Some(DigitsValue(s)) else None
  }

  /** An optional sign followed by decimal digits (the forms of `int(str)` this model covers). */
  function ParseInt(s: string): Option<int>
  {
    if |s| > 0 && s[0] == '-' then
      match ParseNat(s[1..])
      case Some(n) => Some(-(n as int))
      case None => None
    else if |s| > 0 && s[0] == '+' then
      match ParseNat(s[1..])
      case Some(n) => Some(n)
      case None => None
    else
      match ParseNat(s)
      case Some(n) => Some(n)
      case None => None
  }

  /** Rendering a count and reading it back gives the count again. */
  lemma {:induction false} ParseNatOfNatToString(n: nat)
    ensures ParseNat(NatToString(n)) == Some(n)
  {
    if n >= 10 {
      var s := NatToString(n);
      assert s[..|s| - 1] == NatToString(n / 10);
      ParseNatOfNatToString(n / 10);
      assert DigitsValue(s) == DigitsValue(NatToString(n / 10)) * 10 + n % 10;
    }
  }

  /** Python's `s.replace(' ', '_')`. */
  function ReplaceSpaces(s: string): (r: string)
    ensures |r| == |s|
    ensures forall i :: 0 <= i < |s| ==> r[i] == if s[i] == ' ' then '_' else s[i]
    decreases |s|
  {
    if |s| == 0 then "" else [if s[0] == ' ' then '_' else s[0]] + ReplaceSpaces(s[1..])
  }

  lemma ReplaceSpacesConcat(a: string, b: string)
    ensures ReplaceSpaces(a + b) == ReplaceSpaces(a) + ReplaceSpaces(b)
  {
    var l, r := ReplaceSpaces(a + b), ReplaceSpaces(a) + ReplaceSpaces(b);
    assert |l| == |r|;
    forall i | 0 <= i < |l| ensures l[i] == r[i] {
      if i < |a| {
        assert (a + b)[i] == a[i];
      } else {
        assert (a + b)[i] == b[i - |a|];
      }
    }
  }

  lemma ReplaceSpacesKeepsSpaceFree(s: string)
    requires ' ' !in s
    ensures ReplaceSpaces(s) == s
  {
    var r := ReplaceSpaces(s);
    forall i | 0 <= i < |s| ensures r[i] == s[i] {
      assert s[i] in s;
    }
  }

  lemma ReplaceSpacesRemovesSpaces(s: string)
    ensures ' ' !in ReplaceSpaces(s)
  {
    var r := ReplaceSpaces(s);
    forall i | 0 <= i < |r| ensures r[i] != ' ' { }
  }

  /** The space of the ` (k)` suffix becomes an underscore; the digits are kept. */
  lemma ReplaceSpacesInCountSuffix(base: string, k: nat)
    requires k > 0
    ensures ReplaceSpaces(WithCountSuffix(base, k)) == ReplaceSpaces(base) + "_(" + NatToString(k) + ")"
  {
    var digits := NatToString(k);
    var tail := " (" + digits + ")";
    assert WithCountSuffix(base, k) == base + tail;
    ReplaceSpacesConcat(base, tail);
    var r, e := ReplaceSpaces(tail), "_(" + digits + ")";
    assert |r| == |e|;
    forall i | 0 <= i < |r| ensures r[i] == e[i] {
      if 2 <= i < |tail| - 1 {
        assert tail[i] == digits[i - 2] && e[i] == digits[i - 2];
        assert IsDigit(digits[i - 2]);
      }
    }
    assert r == e;
  }

  /** Python's `s.endswith(suffix)`. */
  predicate EndsWith(s: string, suffix: string) {
    |suffix| <= |s| && s[|s| - |suffix|..] == suffix
  }

  /** Python's `a < b` on two str values: code-point lexicographic order. */
  predicate StrLess(a: string, b: string)
    decreases |a|
  {
    if |a| == 0 then |b| > 0
    else if |b| == 0 then false
    else if a[0] != b[0] then a[0] < b[0]
    else StrLess(a[1..], b[1..])
  }

  /** The duplicate suffix both naming rules use: ` (k)` after the base name when k > 0. */
  function WithCountSuffix(base: string, k: nat): string
  {
    if k > 0 then base + " (" + NatToString(k) + ")" else base
  }

  /** The suffix can be taken apart again: the base name is a prefix, and the digits between
      ` (` and the closing `)` read back as the count. */
  lemma CountSuffixReadsBack(base: string, k: nat)
    requires k > 0
    ensures var r := WithCountSuffix(base, k);
      && |r| > |base| + 2
      && r[..|base|] == base
      && r[|base|..|base| + 2] == " ("
      && r[|r| - 1] == ')'
      && r[|base| + 2..|r| - 1] == NatToString(k)
      && ParseNat(r[|base| + 2..|r| - 1]) == Some(k)
  {
    var r := WithCountSuffix(base, k);
    var digits := NatToString(k);
    assert r == base + " (" + digits + ")";
    assert r[|base| + 2..|r| - 1] == digits;
    ParseNatOfNatToString(k);
  }
}
