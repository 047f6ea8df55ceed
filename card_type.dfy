/** Credit, debit and gift cards, as coded in the BIN table. */
module CardTypes {

  datatype CardType = Credit | Debit | Gift
  {
    /** The display name the validation result reports for the type. */
    function KoreanName(): string
    {
      match this
      case Credit => "\U{C2E0}\U{C6A9}"
      case Debit => "\U{CCB4}\U{D06C}"
      case Gift => "\U{AE30}\U{D504}\U{D2B8}"
    }
  }

  /** CardType.fromCode: "Y" is debit, "G" is gift, and every other code, "N" included, is credit. */
  function FromCode(code: string): (r: CardType)
    ensures r == Debit <==> code == "Y"
    ensures r == Gift <==> code == "G"
    ensures r == Credit <==> code != "Y" && code != "G"
  {
    match code
    case "N" => Credit
    case "Y" => Debit
    case "G" => Gift
    case _ => Credit
  }
}
