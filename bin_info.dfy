/** One row of the BIN table: who issues cards with a given prefix, and whether it is still in use. */
module BinInfos {
  import opened Common
  import opened CardBrands
  import opened CardTypes

  /** "삭제" (deleted) in a row's note marks a retired BIN. */
  const DELETED_MARK: string := "\U{C0AD}\U{C81C}"
  /** "변경" (changed) in a row's note marks a BIN being reassigned. */
  const CHANGED_MARK: string := "\U{BCC0}\U{ACBD}"

  /** The five fields are stored as given: the constructor does no conversion. */
  datatype BinInfo = BinInfo(issuer: string, brand: CardBrand, cardType: CardType,
                             isPersonal: bool, note: Option<string>)
  {
    /** A BIN is usable unless its note mentions deletion or reassignment. */
    function IsValid(): (r: bool)
      ensures note.None? || note == Some("") ==> r
      ensures note.Some? && Contains(note.value, DELETED_MARK) ==> !r
      ensures note.Some? && Contains(note.value, CHANGED_MARK) ==> !r
      ensures note.Some? && !Contains(note.value, DELETED_MARK) && !Contains(note.value, CHANGED_MARK) ==> r
    {
      note.None? || note.value == ""
      || (!Contains(note.value, DELETED_MARK) && !Contains(note.value, CHANGED_MARK))
    }
  }
}
