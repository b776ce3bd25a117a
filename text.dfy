/** Decimal rendering of the numbers and dates that appear in display names:
    amounts with two decimals ('{:.2f}') and ISO dates ('YYYY-MM-DD'). */
module Text {
  import opened Dates

  predicate IsDigit(ch: char) {
    '0' <= ch <= '9'
  }

  predicate AllDigits(s: string) {
    forall i :: 0 <= i < |s| ==> IsDigit(s[i])
  }

  function DigitChar(d: int): (ch: char)
    requires 0 <= d < 10
    ensures IsDigit(ch) && ch as int - '0' as int == d
  {
    ('0' as int + d) as char
  }

  /** The decimal digits of `n`, without leading zeros. */
  function NatToString(n: nat): (s: string)
    ensures 1 <= |s| && AllDigits(s)
    ensures |s| > 1 ==> s[0] != '0'
    decreases n
  {
    if n < 10 then [DigitChar(n)] else NatToString(n / 10) + [DigitChar(n % 10)]
  }

  /** The value of a string of decimal digits. */
  function ParseDigits(s: string): nat
    requires AllDigits(s)
  {
    if s == [] then 0 else ParseDigits(s[..|s| - 1]) * 10 + (s[|s| - 1] as int - '0' as int)
  }

  lemma {:induction false} ParseNatToString(n: nat)
    ensures ParseDigits(NatToString(n)) == n
    decreases n
  {
    if n >= 10 {
      var s := NatToString(n);
      assert s[..|s| - 1] == NatToString(n / 10);
      ParseNatToString(n / 10);
    }
  }

  /** `s` padded on the left with zeros to at least `width` characters. */
  function PadZeros(s: string, width: nat): (r: string)
    ensures |r| == if |s| >= width then |s| else width
    ensures r[|r| - |s|..] == s
    ensures forall i :: 0 <= i < |r| - |s| ==> r[i] == '0'
    decreases width - |s|
  {
    if |s| >= width then s else PadZeros(['0'] + s, width)
  }

  lemma {:induction false} ParseLeadingZeros(s: string, k: nat)
    requires AllDigits(s) && k <= |s| && forall i :: 0 <= i < k ==> s[i] == '0'
    ensures ParseDigits(s) == ParseDigits(s[k..])
    decreases |s|
  {
    if |s| > k {
      assert s[..|s| - 1][k..] == s[k..][..|s[k..]| - 1];
      ParseLeadingZeros(s[..|s| - 1], k);
    } else {
      ZerosParseToZero(s);
    }
  }

  lemma {:induction false} ZerosParseToZero(s: string)
    requires forall i :: 0 <= i < |s| ==> s[i] == '0'
    ensures AllDigits(s) && ParseDigits(s) == 0
    decreases |s|
  {
    if s != [] {
      ZerosParseToZero(s[..|s| - 1]);
    }
  }

  /** `n` in decimal, zero-padded to `width` digits; reading it back gives `n`. */
  function PaddedNat(n: nat, width: nat): (s: string)
    ensures |s| >= width && AllDigits(s)
    ensures ParseDigits(s) == n
  {
    var digits := NatToString(n);
    var r := PadZeros(digits, width);
    ParseNatToString(n);
    ParseLeadingZeros(r, |r| - |digits|);
    r
  }

  /** Two decimal digits of `n < 100`, with a leading zero below ten. */
  function TwoDigits(n: nat): (s: string)
    requires n < 100
    ensures |s| == 2 && AllDigits(s) && ParseDigits(s) == n
  {
    var s := [DigitChar(n / 10), DigitChar(n % 10)];
    assert s[..1] == [DigitChar(n / 10)] && s[..1][..0] == [];
    assert ParseDigits(s[..1]) == n / 10;
    s
  }

  /** An amount in cents as '{:.2f}' prints it: optional minus sign, the whole
      units, a point and exactly two decimals. */
  function FormatCents(c: int): (s: string)
    ensures |s| >= 4 && s[|s| - 3] == '.'
    ensures (s[0] == '-') <==> c < 0
    ensures AllDigits(s[|s| - 2..])
    ensures ParseDigits(s[|s| - 2..]) == (if c < 0 then -c else c) % 100
    ensures AllDigits(s[(if c < 0 then 1 else 0)..|s| - 3])
    ensures ParseDigits(s[(if c < 0 then 1 else 0)..|s| - 3]) == (if c < 0 then -c else c) / 100
  {
    var a := if c < 0 then -c else c;
    var units := NatToString(a / 100);
    ParseNatToString(a / 100);
    var cents := TwoDigits(a % 100);
    var body := units + "." + cents;
    assert body[|body| - 2..] == cents;
    assert body[0..|body| - 3] == units;
    assert IsDigit(body[0]);
    var neg := "-" + body;
    assert neg[|neg| - 2..] == cents;
    assert neg[1..|neg| - 3] == units;
    if c < 0 then neg else body
  }

  /** A date as the ORM stores it: 'YYYY-MM-DD'. Valid dates have a month and day
      below 100; a negative year does not occur for dates the ORM holds. */
  function FormatDate(d: Date): string
  {
    var y := if d.year >= 0 then PaddedNat(d.year, 4) else "-" + PaddedNat(-d.year, 4);
    var m := if 0 <= d.month < 100 then TwoDigits(d.month) else "00";
    var dd := if 0 <= d.day < 100 then TwoDigits(d.day) else "00";
    y + "-" + m + "-" + dd
  }
}
