/**
 * Normalisation of UK mobile numbers for the SMS service (`formatNumberForAWS`):
 * a number written with the domestic trunk prefix "07" gets its leading "0"
 * replaced by the country calling code "+44"; every other string is passed on
 * unchanged.
 */
module Phone {

  const DOMESTIC_MOBILE_PREFIX := "07"
  const COUNTRY_CODE := "+44"

  /** JavaScript's `s.startsWith(prefix)`. */
  predicate StartsWith(s: string, prefix: string) {
    |prefix| <= |s| && s[..|prefix|] == prefix
  }

  /** `formatNumberForAWS(number)`. */
  function FormatNumberForAWS(number: string): (r: string)
    ensures StartsWith(number, DOMESTIC_MOBILE_PREFIX) ==>
              StartsWith(r, COUNTRY_CODE + "7") && |r| == |number| + 2 && r[|COUNTRY_CODE|..] == number[1..]
    ensures !StartsWith(number, DOMESTIC_MOBILE_PREFIX) ==> r == number
    ensures !StartsWith(r, DOMESTIC_MOBILE_PREFIX)
  {
    if StartsWith(number, DOMESTIC_MOBILE_PREFIX) then
      var r := COUNTRY_CODE + number[1..];
      assert r[0] == '+';
      r
    else number
  }

  /** A domestic mobile number is recovered from its normalised form by putting the "0" back. */
  lemma DomesticNumberRecovered(number: string)
    requires StartsWith(number, DOMESTIC_MOBILE_PREFIX)
    ensures "0" + FormatNumberForAWS(number)[|COUNTRY_CODE|..] == number
  {
    assert number == [number[0]] + number[1..];
  }

  /** Normalising twice is normalising once: the output never starts with "07". */
  lemma FormatIdempotent(number: string)
    ensures FormatNumberForAWS(FormatNumberForAWS(number)) == FormatNumberForAWS(number)
  {
  }

  /**
   * Normalisation is many-to-one: the domestic form "07…" and the international
   * form "+447…" of the same subscriber number come out identical.
   */
  lemma DomesticAndInternationalAgree(subscriber: string)
    ensures FormatNumberForAWS("07" + subscriber) == FormatNumberForAWS("+447" + subscriber)
    ensures FormatNumberForAWS("07" + subscriber) == "+447" + subscriber
  {
    var domestic := "07" + subscriber;
    assert StartsWith(domestic, DOMESTIC_MOBILE_PREFIX);
    assert domestic[1..] == "7" + subscriber;
    assert !StartsWith("+447" + subscriber, DOMESTIC_MOBILE_PREFIX) by {
      assert ("+447" + subscriber)[0] == '+';
    }
  }

  /** Three sample inputs: a domestic mobile, an international one and a London landline. */
  lemma FormatExamples()
    ensures FormatNumberForAWS("07123456789") == "+447123456789"
    ensures FormatNumberForAWS("+447123456789") == "+447123456789"
    ensures FormatNumberForAWS("02012345678") == "02012345678"
  {
    DomesticAndInternationalAgree("123456789");
    assert !StartsWith("02012345678", DOMESTIC_MOBILE_PREFIX) by {
      assert "02012345678"[1] == '2';
    }
  }
}
