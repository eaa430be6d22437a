/**
 * The stock-move side of the external-party extension: which party a
 * move is checked against, and the location types whose moves are checked.
 */
module StockMove {
  import opened ProductionTypes

  /** The exception an attribute read on a record raises. */
  datatype PartyCheckError = AttributeError(attribute: string)

  /** The attribute the output branch reads, spelled as in the source. */
  const MisspelledOutputAttribute := "produciton_output"

  const ProductionLocationType := "production"

  /** The id of the order's stock owner, or None when it has none. */
  function OwnerId(production: ProductionRef): (id: Option<nat>)
    ensures id.Some? <==> production.stockOwner.Some?
    ensures id.Some? ==> id.value == production.stockOwner.value.id
  {
    if production.stockOwner.Some? then Some(production.stockOwner.value.id) else None
  }

  /**
   * get_party_to_check as written: the input production's owner first;
   * for a move that is only a production output, the condition reads the
   * misspelled attribute and raises; otherwise the base result (baseParty,
   * computed by the base module outside the access-check bypass).
   */
  function GetPartyToCheck(m: Move, baseParty: Option<nat>): (r: Result<Option<nat>, PartyCheckError>)
    ensures r.Err? <==> m.productionInput.None? && m.productionOutput.Some?
    ensures r.Err? ==> r.error == AttributeError(MisspelledOutputAttribute)
    ensures m.productionInput.Some? ==> r == Ok(OwnerId(m.productionInput.value))
    ensures m.productionInput.None? && m.productionOutput.None? ==> r == Ok(baseParty)
  {
    if m.productionInput.Some? then
      Ok(OwnerId(m.productionInput.value))
    else if m.productionOutput.Some? then
      Err(AttributeError(MisspelledOutputAttribute))
    else
      Ok(baseParty)
  }

  /**
   * get_party_to_check as evidently intended: an output move is checked
   * against its output production's owner, like an input move.
   */
  function GetPartyToCheckIntended(m: Move, baseParty: Option<nat>): (r: Option<nat>)
    ensures m.productionInput.Some? ==> r == OwnerId(m.productionInput.value)
    ensures m.productionInput.None? && m.productionOutput.Some? ==> r == OwnerId(m.productionOutput.value)
    ensures m.productionInput.None? && m.productionOutput.None? ==> r == baseParty
  {
    if m.productionInput.Some? then OwnerId(m.productionInput.value)
    else if m.productionOutput.Some? then OwnerId(m.productionOutput.value)
    else baseParty
  }

  /** The code as written and the intended one differ exactly on output-only moves. */
  lemma AsWrittenAgreesWithIntended(m: Move, baseParty: Option<nat>)
    ensures GetPartyToCheck(m, baseParty).Ok? ==>
      GetPartyToCheck(m, baseParty).value == GetPartyToCheckIntended(m, baseParty)
    ensures GetPartyToCheck(m, baseParty).Err? <==> m.productionInput.None? && m.productionOutput.Some?
  {
  }

  /**
   * The input that shows the defect: a move produced by an order whose owner
   * is party 7 raises instead of answering 7.
   */
  lemma OutputMoveRaises()
    ensures var owner := Party(7, "Acme");
      var m := Move(Product(1), None, None, Some(ProductionRef(3, Some(owner))));
      && GetPartyToCheck(m, None) == Err(AttributeError(MisspelledOutputAttribute))
      && GetPartyToCheckIntended(m, None) == Some(7)
  {
  }

  /**
   * location_types_to_check_party: the base list with "production" appended
   * when it is not already in it.
   */
  method LocationTypesToCheckParty(baseTypes: seq<string>) returns (res: seq<string>)
    ensures ProductionLocationType in res
    ensures ProductionLocationType in baseTypes ==> res == baseTypes
    ensures ProductionLocationType !in baseTypes ==> res == baseTypes + [ProductionLocationType]
    // existing entries keep their order, stated without the case split
    ensures |res| <= |baseTypes| + 1 && res[..|baseTypes|] == baseTypes
    ensures forall t :: t in res <==> t in baseTypes || t == ProductionLocationType
    ensures multiset(baseTypes)[ProductionLocationType] <= 1 ==> multiset(res)[ProductionLocationType] == 1
  {
    res := baseTypes;
    if ProductionLocationType !in res {
      res := res + [ProductionLocationType];
    }
  }
}
