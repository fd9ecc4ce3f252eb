/** File names the benchmark reads and writes, and the decimal rendering of
    an integer that the per-size input name is built from. */
module Paths {

  /** Directory, relative to the benchmark script, holding every file it touches. */
  const DataDir: string := "../../data/time_calculation/"

  predicate IsDigit(c: char) {
    '0' <= c <= '9'
  }

  function DigitChar(d: nat): (c: char)
    requires d < 10
    ensures IsDigit(c)
  {
    ('0' as int + d) as char
  }

  function DigitValue(c: char): (d: nat)
    ensures d < 10
  {
    if IsDigit(c) then c as int - '0' as int else 0
  }

  /** The digits of `n` in base ten, most significant first. */
  function NatDigits(n: nat): (s: string)
    ensures |s| > 0
    ensures forall i :: 0 <= i < |s| ==> IsDigit(s[i])
    ensures s[0] == '0' ==> n == 0
    decreases n
  {
    if n < 10 then [DigitChar(n)] else NatDigits(n / 10) + [DigitChar(n % 10)]
  }

  /** Python's rendering of an integer inside an f-string: an optional minus
      sign followed by the digits of the magnitude. */
  function Decimal(n: int): (s: string)
    ensures |s| > 0
    ensures IsDigit(s[0]) <==> n >= 0
  {
    if n < 0 then "-" + NatDigits(-n) else NatDigits(n)
  }

  /** Reads a string of decimal digits back as a number. */
  function DigitsValue(s: string): nat
  {
    if s == [] then 0 else DigitsValue(s[..|s| - 1]) * 10 + DigitValue(s[|s| - 1])
  }

  /** Reads a rendering of `Decimal` back as an integer. */
  function ParseDecimal(s: string): int
  {
    if |s| > 0 && s[0] == '-' then -(DigitsValue(s[1..]) as int) else DigitsValue(s)
  }

  lemma {:induction false} NatDigitsRoundTrip(n: nat)
    ensures DigitsValue(NatDigits(n)) == n
    decreases n
  {
    if n >= 10 {
      var s := NatDigits(n / 10);
      NatDigitsRoundTrip(n / 10);
      assert (s + [DigitChar(n % 10)])[..|s|] == s;
    }
  }

  /** Parsing the rendering of any integer gives that integer back. */
  lemma DecimalRoundTrip(n: int)
    ensures ParseDecimal(Decimal(n)) == n
  {
    if n < 0 {
      NatDigitsRoundTrip(-n);
      assert ("-" + NatDigits(-n))[1..] == NatDigits(-n);
    } else {
      NatDigitsRoundTrip(n);
    }
  }

  /** Distinct integers are rendered as distinct strings. */
  lemma DecimalInjective(a: int, b: int)
    requires Decimal(a) == Decimal(b)
    ensures a == b
  {
    DecimalRoundTrip(a);
    DecimalRoundTrip(b);
  }

  /** A fixed prefix and suffix around two strings can be cancelled. */
  lemma Cancel(p: string, a: string, b: string, q: string)
    requires p + a + q == p + b + q
    ensures a == b
  {
    assert |a| == |b|;
    forall i | 0 <= i < |a|
      ensures a[i] == b[i]
    {
      assert (p + a + q)[|p| + i] == a[i];
      assert (p + b + q)[|p| + i] == b[i];
    }
  }

  /** Input FASTA file holding `n` test sequences. */
  function InputPath(n: int): string
  {
    DataDir + "test/test_seqs_" + Decimal(n) + ".fasta"
  }

  /** Where the tool writes its predictions for `mode`; one file per method,
      overwritten by every run. */
  function OutputPath(mode: string): string
  {
    DataDir + "b2f_output_" + mode + ".tsv"
  }

  /** The benchmark's own tab-separated report for `mode`. */
  function ReportPath(mode: string): string
  {
    DataDir + "time_" + mode + ".tsv"
  }

  /** Each sweep size gets its own input file. */
  lemma InputPathInjective(a: int, b: int)
    requires InputPath(a) == InputPath(b)
    ensures a == b
  {
    Cancel(DataDir + "test/test_seqs_", Decimal(a), Decimal(b), ".fasta");
    DecimalInjective(a, b);
  }

  /** Each method gets its own output file. */
  lemma OutputPathInjective(m1: string, m2: string)
    requires OutputPath(m1) == OutputPath(m2)
    ensures m1 == m2
  {
    Cancel(DataDir + "b2f_output_", m1, m2, ".tsv");
  }

  /** Each method gets its own report. */
  lemma ReportPathInjective(m1: string, m2: string)
    requires ReportPath(m1) == ReportPath(m2)
    ensures m1 == m2
  {
    Cancel(DataDir + "time_", m1, m2, ".tsv");
  }

  /** The three kinds of file never coincide: the tool's output, which every
      run overwrites, is never an input file nor a report, and a report is
      never an input file. */
  lemma PathKindsDisjoint(n: int, m1: string, m2: string)
    ensures InputPath(n) != OutputPath(m1)
    ensures OutputPath(m1) != ReportPath(m2)
    ensures ReportPath(m2) != InputPath(n)
  {
    var k := |DataDir|;
    assert InputPath(n)[k + 1] == 'e';
    assert OutputPath(m1)[k + 1] == '2';
    assert ReportPath(m2)[k + 1] == 'i';
  }
}
