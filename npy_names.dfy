/**
 * Output file names of the batch exporter:
 *   output_dir + "/cloud_" + seq (decimal, left-padded with '0' to width 6) + "_" + timestamp + ".npy".
 * The timestamp text (std::fixed, precision 6) is an opaque string here.
 */
module NpyNames {
  import opened LidarTypes

  predicate IsDigit(c: char) {
    '0' <= c <= '9'
  }

  predicate AllDigits(s: string) {
    forall i :: 0 <= i < |s| ==> IsDigit(s[i])
  }

  function DigitChar(d: nat): (c: char)
    requires d < 10
    ensures IsDigit(c)
  {
    ('0' as int + d) as char
  }

  /** Decimal text of n without leading zeros (what `ostream << n` prints). */
  function Decimal(n: nat): (s: string)
    ensures |s| >= 1 && AllDigits(s)
    decreases n
  {
    if n < 10 then [DigitChar(n)] else Decimal(n / 10) + [DigitChar(n % 10)]
  }

  /** The number a string of decimal digits denotes. */
  function DigitsValue(s: string): nat
    requires AllDigits(s)
  {
    if s == [] then 0
    else DigitsValue(s[..|s| - 1]) * 10 + (s[|s| - 1] as int - '0' as int)
  }

  /** Decimal is inverted by DigitsValue. */
  lemma {:induction false} DecimalRoundTrip(n: nat)
    ensures DigitsValue(Decimal(n)) == n
    decreases n
  {
    if n >= 10 {
      DecimalRoundTrip(n / 10);
      var s := Decimal(n);
      assert s[..|s| - 1] == Decimal(n / 10);
    }
  }

  /** Decimal has no leading zero except for 0 itself. */
  lemma DecimalNoLeadingZero(n: nat)
    ensures Decimal(n)[0] == '0' <==> n == 0
    decreases n
  {
    if n >= 10 {
      DecimalNoLeadingZero(n / 10);
      assert Decimal(n)[0] == Decimal(n / 10)[0];
    }
  }

  function Pow10(k: nat): nat {
    if k == 0 then 1 else 10 * Pow10(k - 1)
  }

  /** Below 10^k the decimal text has at most k digits. */
  lemma {:induction false} DecimalLength(n: nat, k: nat)
    requires 1 <= k && n < Pow10(k)
    ensures |Decimal(n)| <= k
    decreases n
  {
    if n >= 10 {
      DecimalLength(n / 10, k - 1);
    }
  }

  function Zeros(k: nat): (s: string)
    ensures |s| == k && forall i :: 0 <= i < k ==> s[i] == '0'
  {
    if k == 0 then [] else Zeros(k - 1) + ['0']
  }

  /** setw(width) with setfill('0'): left-pad to width, never truncate. */
  function ZeroPad(s: string, width: nat): (p: string)
    ensures |p| == if |s| >= width then |s| else width
    ensures p[|p| - |s|..] == s
    ensures forall i :: 0 <= i < |p| - |s| ==> p[i] == '0'
  {
    if |s| >= width then s else Zeros(width - |s|) + s
  }

  /** Leading zeros do not change the value. */
  lemma {:induction false} LeadingZerosValue(k: nat, s: string)
    requires AllDigits(s)
    ensures AllDigits(Zeros(k) + s) && DigitsValue(Zeros(k) + s) == DigitsValue(s)
    decreases |s|
  {
    if s == [] {
      assert Zeros(k) + s == Zeros(k);
      ZerosValue(k);
    } else {
      var init := s[..|s| - 1];
      assert (Zeros(k) + s)[..|Zeros(k) + s| - 1] == Zeros(k) + init;
      LeadingZerosValue(k, init);
    }
  }

  lemma {:induction false} ZerosValue(k: nat)
    ensures AllDigits(Zeros(k)) && DigitsValue(Zeros(k)) == 0
  {
    if k > 0 {
      ZerosValue(k - 1);
      assert Zeros(k)[..k - 1] == Zeros(k - 1);
    }
  }

  /** The sequence-number field of a file name. */
  function SeqField(n: uint32): (f: string)
    ensures AllDigits(f)
  {
    var d := Decimal(n);
    LeadingZerosValue(if |d| >= 6 then 0 else 6 - |d|, d);
    ZeroPad(d, 6)
  }

  /** The field is at least six digits, exactly six below 10^6, and denotes n. */
  lemma SeqFieldShape(n: uint32)
    ensures |SeqField(n)| >= 6
    ensures n < 1000000 ==> |SeqField(n)| == 6
    ensures DigitsValue(SeqField(n)) == n
  {
    var d := Decimal(n);
    DecimalRoundTrip(n);
    LeadingZerosValue(if |d| >= 6 then 0 else 6 - |d|, d);
    if |d| >= 6 {
      assert Zeros(0) + d == d;
    }
    if n < 1000000 {
      assert Pow10(6) == 1000000;
      DecimalLength(n, 6);
    }
  }

  function CloudFileName(outputDir: string, seqNo: uint32, stamp: string): string {
    outputDir + "/cloud_" + SeqField(seqNo) + "_" + stamp + ".npy"
  }

  /** For a fixed directory and timestamp text, distinct sequence numbers give distinct names. */
  lemma CloudFileNameInjective(outputDir: string, a: uint32, b: uint32, stamp: string)
    requires CloudFileName(outputDir, a, stamp) == CloudFileName(outputDir, b, stamp)
    ensures a == b
  {
    var pre := outputDir + "/cloud_";
    var post := "_" + stamp + ".npy";
    var fa, fb := SeqField(a), SeqField(b);
    assert CloudFileName(outputDir, a, stamp) == pre + fa + post;
    assert CloudFileName(outputDir, b, stamp) == pre + fb + post;
    assert |fa| == |fb|;
    assert (pre + fa + post)[|pre|..|pre| + |fa|] == fa;
    assert (pre + fb + post)[|pre|..|pre| + |fb|] == fb;
    SeqFieldShape(a);
    SeqFieldShape(b);
  }
}
