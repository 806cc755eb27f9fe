/** Resource labels. The core names resource k (1-based) "R<k>", with k written in
    decimal. Two consumers read a label back: the Python side strips the leading
    "R"s and converts the rest with `int`, the browser side searches the name with
    the regular expression /R(\d+)/i. Both parsers are modelled here, and both are
    proved to recover k from the label of k. */
module Labels {
  import opened Basics

  predicate IsDigit(c: char) { '0' <= c <= '9' }

  predicate AllDigits(s: string) { forall i :: 0 <= i < |s| ==> IsDigit(s[i]) }

  function DigitChar(d: nat): (c: char)
    requires d < 10
    ensures IsDigit(c)
  {
    ('0' as int + d) as char
  }

  function DigitValue(c: char): (d: nat)
    requires IsDigit(c)
    ensures d < 10 && DigitChar(d) == c
  {
    c as int - '0' as int
  }

  /** The decimal numeral of n, as Python's f-string and JavaScript's template
      literal render a non-negative integer: no sign and no leading zeros. */
  function Decimal(n: nat): (s: string)
    ensures |s| > 0 && AllDigits(s)
    ensures |s| > 1 ==> s[0] != '0'
    decreases n
  {
    if n < 10 then [DigitChar(n)] else Decimal(n / 10) + [DigitChar(n % 10)]
  }

  /** The value of a numeral: most significant digit first, leading zeros allowed. */
  function DecimalValue(s: string): nat
    requires AllDigits(s)
  {
    if s == [] then 0 else DecimalValue(s[..|s| - 1]) * 10 + DigitValue(s[|s| - 1])
  }

  lemma {:induction false} DecimalRoundTrip(n: nat)
    ensures DecimalValue(Decimal(n)) == n
    decreases n
  {
    if n >= 10 {
      var s := Decimal(n);
      assert s[..|s| - 1] == Decimal(n / 10);
      DecimalRoundTrip(n / 10);
    }
  }

  /** The name of resource k: "R" followed by the decimal numeral of k. */
  function Label(k: nat): (s: string)
    ensures |s| >= 2 && s[0] == 'R' && AllDigits(s[1..])
  {
    "R" + Decimal(k)
  }

  lemma LabelInjective(j: nat, k: nat)
    requires Label(j) == Label(k)
    ensures j == k
  {
    assert Decimal(j) == Label(j)[1..];
    DecimalRoundTrip(j);
    DecimalRoundTrip(k);
  }

  // ---- the Python reading: int(name.lstrip("R")) ----

  /** Python's `str.lstrip("R")`: drop every leading 'R'. */
  function StripLeadingR(s: string): (r: string)
    ensures r == [] || r[0] != 'R'
    ensures |r| <= |s| && r == s[|s| - |r|..]
    ensures forall i :: 0 <= i < |s| - |r| ==> s[i] == 'R'
  {
    if s != [] && s[0] == 'R' then StripLeadingR(s[1..]) else s
  }

  /** `int(name.lstrip("R"))`, read as a plain decimal numeral; any other text is
      the conversion failure (None). Python's `int` also accepts surrounding
      whitespace, a sign and `_` between digits; the model only reads names of
      the form `Label(k)`, where none of those occur, so it leaves them out.
      A name that reads at all is made of 'R's followed by digits. */
  function PythonIndex(name: string): (idx: Option<nat>)
    ensures idx.Some? ==> forall i :: 0 <= i < |name| ==> name[i] == 'R' || IsDigit(name[i])
  {
    var rest := StripLeadingR(name);
    if rest != [] && AllDigits(rest) then Some(DecimalValue(rest)) else None
  }

  lemma PythonIndexOfLabel(k: nat)
    ensures PythonIndex(Label(k)) == Some(k)
  {
    var d := Decimal(k);
    assert Label(k)[1..] == d;
    assert IsDigit(d[0]);
    assert StripLeadingR(d) == d;
    assert StripLeadingR(Label(k)) == d;
    DecimalRoundTrip(k);
  }

  // ---- the browser reading: name.match(/R(\d+)/i) ----

  /** The longest prefix of s made of digits (what a greedy \d+ consumes). */
  function DigitRun(s: string): (r: string)
    ensures AllDigits(r) && |r| <= |s| && r == s[..|r|]
    ensures |r| < |s| ==> !IsDigit(s[|r|])
  {
    if s != [] && IsDigit(s[0]) then [s[0]] + DigitRun(s[1..]) else []
  }

  /** An 'R' or 'r' at `i` followed by a digit: where /R(\d+)/i can match. */
  predicate MatchAt(name: string, i: nat)
    requires i + 1 < |name|
  {
    (name[i] == 'R' || name[i] == 'r') && IsDigit(name[i + 1])
  }

  /** The number captured by the leftmost match of /R(\d+)/i in name, if any.
      There is a match exactly when some position fits the pattern. */
  function RegexIndex(name: string): (idx: Option<nat>)
    ensures idx.Some? <==> exists i: nat :: i + 1 < |name| && MatchAt(name, i)
    decreases |name|
  {
    if |name| < 2 then None
    else if MatchAt(name, 0) then Some(DecimalValue(DigitRun(name[1..])))
    else
      var later := RegexIndex(name[1..]);
      assert forall i: nat :: i + 1 < |name[1..]| ==> (MatchAt(name[1..], i) <==> MatchAt(name, i + 1));
      assert later.None? ==> forall i: nat :: i + 1 < |name| ==> !MatchAt(name, i) by {
        if later.None? {
          forall i: nat | i + 1 < |name|
            ensures !MatchAt(name, i)
          {
            if i > 0 {
              assert !MatchAt(name[1..], i - 1);
            }
          }
        }
      }
      later
  }

  lemma RegexIndexOfLabel(k: nat)
    ensures RegexIndex(Label(k)) == Some(k)
  {
    var d := Decimal(k);
    assert Label(k)[1..] == d;
    DigitRunAll(d);
    DecimalRoundTrip(k);
  }

  lemma {:induction false} DigitRunAll(s: string)
    requires AllDigits(s)
    ensures DigitRun(s) == s
  {
    if s != [] {
      DigitRunAll(s[1..]);
    }
  }
}
