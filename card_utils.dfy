/** Masking, BIN extraction and format checks on card numbers and CVVs. */
module CardUtils {
  import opened Common

  /** maskCardNumber: twelve stars for blank input, one star per character for
    * anything shorter than 16, else the 6-character BIN, six stars and the last four. */
  function MaskCardNumber(cardNumber: Option<string>): (r: string)
    ensures !HasText(cardNumber) ==> r == Repeat('*', 12)
    ensures HasText(cardNumber) && |cardNumber.value| < 16 ==> r == Repeat('*', |cardNumber.value|)
    ensures HasText(cardNumber) && |cardNumber.value| >= 16 ==>
      var c := cardNumber.value;
      |r| == 16 && r[..6] == c[..6] && r[6..12] == "******" && r[12..] == c[|c| - 4..]
  {
    if !HasText(cardNumber) then Repeat('*', 12)
    else
      var c := cardNumber.value;
      if |c| < 16 then Repeat('*', |c|)
      else c[..6] + "******" + c[|c| - 4..]
  }

  /** The masked form depends only on the BIN and the last four characters. */
  lemma MaskRevealsOnlyEnds(a: string, b: string)
    requires |a| >= 16 && |b| >= 16 && HasText(Some(a)) && HasText(Some(b))
    requires a[..6] == b[..6] && a[|a| - 4..] == b[|b| - 4..]
    ensures MaskCardNumber(Some(a)) == MaskCardNumber(Some(b))
  {
  }

  /** extractBin: the first six characters, or None (null) for blank or short input. */
  function ExtractBin(cardNumber: Option<string>): (r: Option<string>)
    ensures r.Some? <==> HasText(cardNumber) && |cardNumber.value| >= 6
    ensures r.Some? ==> |r.value| == 6 && r.value <= cardNumber.value
  {
    if !HasText(cardNumber) || |cardNumber.value| < 6 then None
    else Some(cardNumber.value[..6])
  }

  /** The BIN of a full-length card number is the visible prefix of its mask. */
  lemma BinIsMaskPrefix(c: string)
    requires |c| >= 16 && HasText(Some(c))
    ensures ExtractBin(Some(c)).Some? && ExtractBin(Some(c)).value <= MaskCardNumber(Some(c))
  {
    var m := MaskCardNumber(Some(c));
    assert m[..6] == c[..6];
  }

  /** maskCvv: three stars for blank input, otherwise one star per character. */
  function MaskCvv(cvv: Option<string>): (r: string)
    ensures !HasText(cvv) ==> r == "***"
    ensures HasText(cvv) ==> r == Repeat('*', |cvv.value|)
  {
    if !HasText(cvv) then "***" else Repeat('*', |cvv.value|)
  }

  /** isValidCardNumberFormat: exactly sixteen ASCII digits (the text check is then implied). */
  function IsValidCardNumberFormat(cardNumber: string): (r: bool)
    ensures r <==> |cardNumber| == 16 && AllAsciiDigits(cardNumber)
  {
    assert |cardNumber| == 16 && AllAsciiDigits(cardNumber) ==> HasText(Some(cardNumber)) by {
      if |cardNumber| == 16 && AllAsciiDigits(cardNumber) { DigitsHaveText(cardNumber); }
    }
    HasText(Some(cardNumber)) && |cardNumber| == 16 && AllAsciiDigits(cardNumber)
  }

  /** isValidCvvFormat: three or four ASCII digits. */
  function IsValidCvvFormat(cvv: Option<string>): (r: bool)
    ensures r <==> cvv.Some? && 3 <= |cvv.value| <= 4 && AllAsciiDigits(cvv.value)
  {
    assert cvv.Some? && 3 <= |cvv.value| <= 4 && AllAsciiDigits(cvv.value) ==> HasText(cvv) by {
      if cvv.Some? && 3 <= |cvv.value| <= 4 && AllAsciiDigits(cvv.value) { DigitsHaveText(cvv.value); }
    }
    HasText(cvv) && 3 <= |cvv.value| <= 4 && AllAsciiDigits(cvv.value)
  }
}
