/** The progress label the warmer passes to the progress handler:
    'Warming {count} of {total} pages.' with both placeholders written as
    decimal numerals (the message is taken untranslated). */
module Progress {

  predicate IsDigit(c: char)
  {
    '0' <= c <= '9'
  }

  function DigitChar(d: nat): (c: char)
    requires d < 10
    ensures IsDigit(c) && (c - '0') as nat == d
  {
    "0123456789"[d]
  }

  /** The decimal numeral of `n`: digits only, and no leading zero. */
  function NatToString(n: nat): (s: string)
    ensures |s| >= 1
    ensures forall i :: 0 <= i < |s| ==> IsDigit(s[i])
    ensures |s| > 1 ==> s[0] != '0'
  {
    if n < 10 then [DigitChar(n)] else NatToString(n / 10) + [DigitChar(n % 10)]
  }

  /** The value of a string of decimal digits. */
  function ParseNat(s: string): nat
  {
    if s == [] then 0
    else 10 * ParseNat(s[..|s| - 1]) + (if IsDigit(s[|s| - 1]) then (s[|s| - 1] - '0') as nat else 0)
  }

  lemma {:induction false} ParseNatToString(n: nat)
    ensures ParseNat(NatToString(n)) == n
  {
    if n >= 10 {
      ParseNatToString(n / 10);
      var s := NatToString(n);
      assert s[..|s| - 1] == NatToString(n / 10);
    }
  }

  const LabelPrefix: string := "Warming "
  const LabelMiddle: string := " of "
  const LabelSuffix: string := " pages."

  /** The label reported with a progress count: it starts with "Warming ",
      the count is the numeral read right after that, and it ends with " pages.". */
  function ProgressLabel(count: nat, total: nat): (text: string)
    ensures LabelPrefix <= text
    ensures ReadNumber(text[|LabelPrefix|..]).0 == count
    ensures |text| >= |LabelSuffix| && text[|text| - |LabelSuffix|..] == LabelSuffix
  {
    var rest := LabelMiddle + NatToString(total) + LabelSuffix;
    CountAfterPrefix(count, rest);
    LabelPrefix + NatToString(count) + rest
  }

  /** The numeral of `count` is what is read right after the prefix. */
  lemma CountAfterPrefix(count: nat, rest: string)
    requires rest == [] || !IsDigit(rest[0])
    ensures ReadNumber((LabelPrefix + NatToString(count) + rest)[|LabelPrefix|..]).0 == count
  {
    var numeral := NatToString(count);
    ReadNumeral(count, rest);
    assert LabelPrefix + numeral + rest == LabelPrefix + (numeral + rest);
    DropPrefix(LabelPrefix, numeral + rest);
  }

  /** The length of the run of digits at the start of `s`. */
  function LeadingDigits(s: string): (n: nat)
    ensures n <= |s|
  {
    if s != [] && IsDigit(s[0]) then 1 + LeadingDigits(s[1..]) else 0
  }

  lemma {:induction false} LeadingDigitsOf(d: string, t: string)
    requires forall i :: 0 <= i < |d| ==> IsDigit(d[i])
    requires t == [] || !IsDigit(t[0])
    ensures LeadingDigits(d + t) == |d|
  {
    if d != [] {
      assert (d + t)[1..] == d[1..] + t;
      LeadingDigitsOf(d[1..], t);
    }
  }

  /** Reads a decimal numeral off the front of `s`; returns its value and what follows. */
  function ReadNumber(s: string): (nat, string)
  {
    var n := LeadingDigits(s);
    (ParseNat(s[..n]), s[n..])
  }

  lemma ReadNumeral(n: nat, t: string)
    requires t == [] || !IsDigit(t[0])
    ensures ReadNumber(NatToString(n) + t) == (n, t)
  {
    var d := NatToString(n);
    LeadingDigitsOf(d, t);
    assert (d + t)[..|d|] == d;
    assert (d + t)[|d|..] == t;
    ParseNatToString(n);
  }

  function Drop(s: string, k: nat): string
  {
    if |s| <= k then [] else s[k..]
  }

  /** Reads the count and the total back out of a progress label. */
  function ReadLabel(text: string): (nat, nat)
  {
    var (count, afterCount) := ReadNumber(Drop(text, |LabelPrefix|));
    var (total, _) := ReadNumber(Drop(afterCount, |LabelMiddle|));
    (count, total)
  }

  lemma DropPrefix(prefix: string, rest: string)
    ensures Drop(prefix + rest, |prefix|) == rest
  {
    if rest != [] {
      assert (prefix + rest)[|prefix|..] == rest;
    }
  }

  /** A label determines the count and total it was made from. */
  lemma ReadProgressLabel(count: nat, total: nat)
    ensures ReadLabel(ProgressLabel(count, total)) == (count, total)
  {
    var c, t := NatToString(count), NatToString(total);
    var afterTotal := t + LabelSuffix;
    var afterCount := LabelMiddle + afterTotal;
    assert ProgressLabel(count, total) == LabelPrefix + (c + afterCount);
    DropPrefix(LabelPrefix, c + afterCount);
    ReadNumeral(count, afterCount);
    DropPrefix(LabelMiddle, afterTotal);
    ReadNumeral(total, LabelSuffix);
  }

  /** Distinct (count, total) pairs give distinct labels. */
  lemma ProgressLabelInjective(c1: nat, t1: nat, c2: nat, t2: nat)
    requires ProgressLabel(c1, t1) == ProgressLabel(c2, t2)
    ensures c1 == c2 && t1 == t2
  {
    ReadProgressLabel(c1, t1);
    ReadProgressLabel(c2, t2);
  }
}
