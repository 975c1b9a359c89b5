/** Decimal digits, as numbers are printed and parsed. */
module Decimals {
  import opened Wrappers

  function Decimal(n: nat): string {
    if n < 10 then [(n + '0' as int) as char] else Decimal(n / 10) + [(n % 10 + '0' as int) as char]
  }

  function ParseDigits(text: string): Option<nat> {
    if text == [] then Some(0)
    else
      var last := text[|text| - 1];
      match ParseDigits(text[..|text| - 1])
      case Some(high) => if '0' <= last <= '9' then Some(high * 10 + (last as int - '0' as int)) else None
      case None => None
  }

  const U64_LIMIT := 0x1_0000_0000_0000_0000

  function WithoutPlus(text: string): string {
    if text != [] && text[0] == '+' then text[1..] else text
  }

  /** `str::parse::<u64>`: an optional plus sign, then at least one digit, within 64 bits. */
  function ParseU64(text: string): Option<nat> {
    var digits := WithoutPlus(text);
    if digits == [] then None
    else match ParseDigits(digits)
      case Some(n) => if n < U64_LIMIT then Some(n) else None
      case None => None
  }

  lemma {:induction false} DecimalParses(n: nat)
    ensures ParseDigits(Decimal(n)) == Some(n) && Decimal(n) != [] && Decimal(n)[0] != '+'
  {
    var digit := (n % 10 + '0' as int) as char;
    if n < 10 {
      assert Decimal(n)[..0] == [];
    } else {
      DecimalParses(n / 10);
      assert Decimal(n)[..|Decimal(n)| - 1] == Decimal(n / 10);
    }
  }

  /** Printing a number and parsing it gives it back, exactly if it fits into 64 bits. */
  lemma DecimalRoundTrip(n: nat)
    ensures ParseU64(Decimal(n)) == if n < 0x1_0000_0000_0000_0000 then Some(n) else None
  {
    DecimalParses(n);
  }

  function Zeros(k: nat): string {
    if k == 0 then "" else Zeros(k - 1) + "0"
  }

  lemma {:induction false} LeadingZeros(k: nat)
    ensures ParseDigits(Zeros(k)) == Some(0) && |Zeros(k)| == k
  {
    if k > 0 {
      LeadingZeros(k - 1);
      assert Zeros(k)[..k - 1] == Zeros(k - 1);
    }
  }

  lemma {:induction false} ZerosKeepValue(k: nat, n: nat)
    ensures ParseDigits(Zeros(k) + Decimal(n)) == Some(n)
  {
    var text := Zeros(k) + Decimal(n);
    LeadingZeros(k);
    if n < 10 {
      assert text[..|text| - 1] == Zeros(k);
    } else {
      ZerosKeepValue(k, n / 10);
      assert text[..|text| - 1] == Zeros(k) + Decimal(n / 10);
    }
  }

  lemma DecimalAppends(high: nat, digit: nat)
    requires high > 0 && digit < 10
    ensures Decimal(high * 10 + digit) == Decimal(high) + Decimal(digit)
  {
  }

  /** Every text of digits is a number in decimal behind some zeros. */
  lemma {:induction false} DigitsAreDecimal(digits: string) returns (k: nat)
    requires digits != [] && ParseDigits(digits).Some?
    ensures digits == Zeros(k) + Decimal(ParseDigits(digits).value)
  {
    var init, last := digits[..|digits| - 1], digits[|digits| - 1];
    var high, digit := ParseDigits(init).value, last as int - '0' as int;
    assert digits == init + [last] && [last] == Decimal(digit);
    k := 0;
    if init != [] {
      k := DigitsAreDecimal(init);
      if high == 0 {
        k := k + 1;
      } else {
        DecimalAppends(high, digit);
        assert digits == Zeros(k) + (Decimal(high) + Decimal(digit));
      }
    }
  }

  /** `text` is this number in decimal, with leading zeros and a plus sign allowed. */
  ghost predicate Spells(text: string, n: nat) {
    exists k :: text == Zeros(k) + Decimal(n) || text == "+" + (Zeros(k) + Decimal(n))
  }

  lemma NoSignInDigits(k: nat, n: nat)
    ensures var digits := Zeros(k) + Decimal(n); digits != [] && digits[0] != '+'
  {
    DecimalParses(n);
    if k > 0 {
      ZerosStart(k);
    }
  }

  lemma {:induction false} ZerosStart(k: nat)
    requires k > 0
    ensures Zeros(k) != [] && Zeros(k)[0] == '0'
  {
    if k > 1 {
      ZerosStart(k - 1);
    }
  }

  lemma SpelledParses(text: string, n: nat)
    requires Spells(text, n)
    ensures WithoutPlus(text) != [] && ParseDigits(WithoutPlus(text)) == Some(n)
  {
    var k :| text == Zeros(k) + Decimal(n) || text == "+" + (Zeros(k) + Decimal(n));
    NoSignInDigits(k, n);
    ZerosKeepValue(k, n);
    PlusDropped(Zeros(k) + Decimal(n));
  }

  lemma PlusDropped(digits: string)
    requires digits != [] && digits[0] != '+'
    ensures WithoutPlus(digits) == digits && WithoutPlus("+" + digits) == digits
  {
    assert ("+" + digits)[1..] == digits;
  }

  lemma ParsedIsSpelled(text: string)
    requires WithoutPlus(text) != [] && ParseDigits(WithoutPlus(text)).Some?
    ensures Spells(text, ParseDigits(WithoutPlus(text)).value)
  {
    var digits := WithoutPlus(text);
    var k := DigitsAreDecimal(digits);
    assert text == digits || text == "+" + digits;
  }

  /** Parsing accepts exactly the ways to spell a number that fits into 64 bits, and returns that number. */
  lemma ParseU64Meaning(text: string, n: nat)
    ensures ParseU64(text) == Some(n) <==> n < 0x1_0000_0000_0000_0000 && Spells(text, n)
  {
    if ParseU64(text) == Some(n) {
      ParsedIsSpelled(text);
    }
    if Spells(text, n) {
      SpelledParses(text, n);
    }
  }

  lemma DecimalInjective(m: nat, n: nat)
    requires Decimal(m) == Decimal(n)
    ensures m == n
  {
    DecimalParses(m);
    DecimalParses(n);
  }
}
