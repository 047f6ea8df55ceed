/** The card networks a BIN table row can name, with their one-letter codes. */
module CardBrands {

  datatype CardBrand = Visa | Mastercard | Jcb | Amex | Diners | Local | UnionPay | Unknown
  {
    /** The display name the validation result reports for the brand. */
    function KoreanName(): string
    {
      match this
      case Visa => "\U{BE44}\U{C790}"
      case Mastercard => "\U{B9C8}\U{C2A4}\U{D130}"
      case Jcb => "JCB"
      case Amex => "\U{C544}\U{BA55}\U{C2A4}"
      case Diners => "\U{B2E4}\U{C774}\U{B108}\U{C2A4}"
      case Local => "\U{B85C}\U{CEEC}"
      case UnionPay => "\U{C740}\U{B828}"
      case Unknown => "\U{C54C} \U{C218} \U{C5C6}\U{C74C}"
    }

    /** The BIN table codes that denote this brand. */
    function Codes(): set<string>
    {
      match this
      case Visa => {"V"}
      case Mastercard => {"M"}
      case Jcb => {"J"}
      case Amex => {"A"}
      case Diners => {"D"}
      case Local => {"L"}
      case UnionPay => {"C", "U", "G"}
      case Unknown => {}
    }
  }

  /** Every code some brand claims. */
  function KnownCodes(): set<string>
  {
    {"V", "M", "J", "A", "D", "L", "C", "U", "G"}
  }

  /** CardBrand.fromCode: total, with UNKNOWN for every code no brand claims. */
  function FromCode(code: string): (r: CardBrand)
    ensures r != Unknown ==> code in r.Codes()
    ensures r == Unknown <==> code !in KnownCodes()
  {
    match code
    case "V" => Visa
    case "M" => Mastercard
    case "J" => Jcb
    case "A" => Amex
    case "D" => Diners
    case "L" => Local
    case "C" => UnionPay
    case "U" => UnionPay
    case "G" => UnionPay
    case _ => Unknown
  }

  /** Each code of a brand decodes back to that brand. */
  lemma FromCodeOfCodes(b: CardBrand, code: string)
    requires code in b.Codes()
    ensures FromCode(code) == b
  {
  }
}
