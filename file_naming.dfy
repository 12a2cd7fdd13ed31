/** Recording file names: what `sprintf(wavFileName, "/recording_%03d.wav", n)`
    produces for a non-negative counter, and how such a name reads back. */
module FileNaming {
  import opened Bytes

  const Prefix: string := "/recording_"
  const Suffix: string := ".wav"
  /** The minimum field width of `%03d`. */
  const Width: nat := 3

  predicate IsDigit(c: char)
  {
    '0' <= c <= '9'
  }

  predicate AllDigits(s: string)
  {
    forall i :: 0 <= i < |s| ==> IsDigit(s[i])
  }

  function DigitChar(d: nat): (c: char)
    requires d < 10
    ensures IsDigit(c) && c as int - '0' as int == d
  {
    ('0' as int + d) as char
  }

  /** `%d` of a non-negative value: its decimal digits without leading zeros. */
  function Decimal(n: nat): (r: string)
    ensures |r| >= 1 && AllDigits(r)
  {
    if n < 10 then [DigitChar(n)] else Decimal(n / 10) + [DigitChar(n % 10)]
  }

  function Zeros(k: nat): (r: string)
    ensures |r| == k && forall i :: 0 <= i < k ==> r[i] == '0'
  {
    if k == 0 then [] else "0" + Zeros(k - 1)
  }

  /** The `0` flag with a field width: left-padded with zeros to `width`. */
  function ZeroPad(s: string, width: nat): string
  {
    if |s| >= width then s else Zeros(width - |s|) + s
  }

  /** The name probed for counter value `n`. */
  function Name(n: nat): string
  {
    Prefix + ZeroPad(Decimal(n), Width) + Suffix
  }

  /** The number a string of decimal digits denotes. */
  function Value(s: string): nat
    requires AllDigits(s)
  {
    if s == [] then 0 else Value(s[..|s| - 1]) * 10 + (s[|s| - 1] as int - '0' as int)
  }

  /** Every counter value in [lo, hi) names a file in `names`. */
  ghost predicate AllTaken(lo: nat, hi: nat, names: set<string>)
  {
    forall c :: lo <= c < hi ==> Name(c) in names
  }

  /** Reads a name of the recording form back: prefix, at least three digits
      (more only without a leading zero), suffix. */
  function ParseName(s: string): Option<nat>
  {
    if |s| >= |Prefix| + Width + |Suffix| && s[..|Prefix|] == Prefix &&
       s[|s| - |Suffix|..] == Suffix
    then
      var digits := s[|Prefix|..|s| - |Suffix|];
      if AllDigits(digits) && (|digits| > Width ==> digits[0] != '0')
      then Some(Value(digits)) else None
    else None
  }

  lemma {:induction false} ValueDecimal(n: nat)
    ensures Value(Decimal(n)) == n
    ensures |Decimal(n)| > 1 ==> Decimal(n)[0] != '0'
  {
    if n >= 10 {
      ValueDecimal(n / 10);
      var d := Decimal(n);
      assert d[..|d| - 1] == Decimal(n / 10);
      assert d[0] == Decimal(n / 10)[0];
    }
  }

  lemma {:induction false} ValueLeadingZeros(k: nat, s: string)
    requires AllDigits(s)
    ensures AllDigits(Zeros(k) + s) && Value(Zeros(k) + s) == Value(s)
  {
    var z := Zeros(k) + s;
    if s == [] {
      assert z == Zeros(k);
      ZerosValue(k);
    } else {
      var init := s[..|s| - 1];
      assert z[..|z| - 1] == Zeros(k) + init;
      ValueLeadingZeros(k, init);
    }
  }

  lemma {:induction false} ZerosValue(k: nat)
    ensures Value(Zeros(k)) == 0
  {
    if k > 0 {
      var z := Zeros(k);
      assert z[..k - 1] == Zeros(k - 1);
      ZerosValue(k - 1);
    }
  }

  /** Every probed name has the recording form and reads back as its counter. */
  lemma NameParses(n: nat)
    ensures ParseName(Name(n)) == Some(n)
  {
    var d := Decimal(n);
    var p := ZeroPad(d, Width);
    var s := Name(n);
    ValueDecimal(n);
    if |d| < Width {
      ValueLeadingZeros(Width - |d|, d);
    }
    assert s[..|Prefix|] == Prefix;
    assert s[|s| - |Suffix|..] == Suffix;
    assert s[|Prefix|..|s| - |Suffix|] == p;
  }

  /** The `0` flag pads on the left with zeros up to the width and keeps the
      digits themselves. */
  lemma ZeroPadPads(s: string, width: nat)
    ensures |ZeroPad(s, width)| == if |s| >= width then |s| else width
    ensures ZeroPad(s, width)[|ZeroPad(s, width)| - |s|..] == s
    ensures forall i :: 0 <= i < |ZeroPad(s, width)| - |s| ==> ZeroPad(s, width)[i] == '0'
  {
  }

  /** A probed name is the prefix, at least three decimal digits and the
      suffix. */
  lemma NameForm(n: nat)
    ensures |Name(n)| >= |Prefix| + Width + |Suffix|
    ensures Name(n)[..|Prefix|] == Prefix && Name(n)[|Name(n)| - |Suffix|..] == Suffix
    ensures AllDigits(Name(n)[|Prefix|..|Name(n)| - |Suffix|])
  {
  }

  /** Distinct counter values give distinct names. */
  lemma NameInjective(m: nat, n: nat)
    requires Name(m) == Name(n)
    ensures m == n
  {
    NameParses(m);
    NameParses(n);
  }
}
