/** The element-index helpers: an element's category selects which of the four
    8-bit index fields of an Indices record it owns. */
module ElementIndex {

  /** uint8_t. */
  newtype u8 = x: int | 0 <= x < 256

  /** ElementCount::Indices: one index per kind of element. */
  datatype Indices = Indices(paramIdx: u8, lightIdx: u8, inputIdx: u8, outputIdx: u8)

  /** ElementCount::NoElementIndices. Its value is defined with the element counter,
      which is not part of this model, so it is left unspecified here. */
  const NoElementIndices: Indices

  /** The category an element belongs to: the base class its concrete type derives from. */
  datatype Element = Param | Light | JackInput | JackOutput | Base

  /** get_index: the field the element's category owns; 0 for a plain base element. */
  function GetIndex(e: Element, indices: Indices): (r: u8)
    ensures e != Base && OthersUnset(e, indices) ==> SetIndex(e, r) == indices
  {
    match e
    case Param => indices.paramIdx
    case Light => indices.lightIdx
    case JackInput => indices.inputIdx
    case JackOutput => indices.outputIdx
    case Base => 0
  }

  /** set_index (the SetIndex visitor): NoElementIndices with the category's own field
      set to idx; a plain base element gets NoElementIndices unchanged. */
  function SetIndex(e: Element, idx: u8): (r: Indices)
    ensures OthersUnset(e, r)
    ensures e == Base ==> r == NoElementIndices
  {
    match e
    case Param => NoElementIndices.(paramIdx := idx)
    case Light => NoElementIndices.(lightIdx := idx)
    case JackInput => NoElementIndices.(inputIdx := idx)
    case JackOutput => NoElementIndices.(outputIdx := idx)
    case Base => NoElementIndices
  }

  /** Do two records agree on the field that category e owns? */
  predicate SameOwnField(e: Element, a: Indices, b: Indices) {
    (e == Param ==> a.paramIdx == b.paramIdx)
    && (e == Light ==> a.lightIdx == b.lightIdx)
    && (e == JackInput ==> a.inputIdx == b.inputIdx)
    && (e == JackOutput ==> a.outputIdx == b.outputIdx)
  }

  /** Reading back the index just set gives it back, for every category but Base. */
  lemma GetSetRoundTrip(e: Element, idx: u8)
    requires e != Base
    ensures GetIndex(e, SetIndex(e, idx)) == idx
  {
  }

  /** Do the fields that category e does not own hold the values of NoElementIndices? */
  predicate OthersUnset(e: Element, indices: Indices) {
    (e != Param ==> indices.paramIdx == NoElementIndices.paramIdx)
    && (e != Light ==> indices.lightIdx == NoElementIndices.lightIdx)
    && (e != JackInput ==> indices.inputIdx == NoElementIndices.inputIdx)
    && (e != JackOutput ==> indices.outputIdx == NoElementIndices.outputIdx)
  }

  /** Setting an index touches only the category's own field: every other field is the
      one of NoElementIndices. */
  lemma SetIndexOnlyOwnField(e: Element, idx: u8)
    ensures OthersUnset(e, SetIndex(e, idx))
  {
  }

  /** The other round trip: setting the index read from a record rebuilds the record
      exactly when its other fields are those of NoElementIndices. */
  lemma SetGetRoundTrip(e: Element, indices: Indices)
    requires e != Base
    ensures SetIndex(e, GetIndex(e, indices)) == indices <==> OthersUnset(e, indices)
  {
  }

  /** A base element gets NoElementIndices whatever the index. */
  lemma SetIndexBase(idx: u8)
    ensures SetIndex(Base, idx) == NoElementIndices
  {
  }

  /** A base element reads as 0 whatever the record. */
  lemma GetIndexBase(indices: Indices)
    ensures GetIndex(Base, indices) == 0
  {
  }

  /** get_index looks only at the category's own field: records that agree there read alike. */
  lemma GetIndexReadsOwnField(e: Element, a: Indices, b: Indices)
    ensures SameOwnField(e, a, b) ==> GetIndex(e, a) == GetIndex(e, b)
    ensures e != Base && GetIndex(e, a) == GetIndex(e, b) ==> SameOwnField(e, a, b)
  {
  }
}
