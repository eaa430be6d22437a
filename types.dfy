/**
 * Values shared by the production-order extension and the stock-move
 * extension: parties, products, bill-of-materials lines, stock moves,
 * sale origins and the field-name -> value maps that change handlers
 * return to the client.
 */
module ProductionTypes {

  datatype Option<T> = None | Some(value: T)

  datatype Result<T, E> = Ok(value: T) | Err(error: E)

  /** A party record: its database id and its display name (rec_name). */
  datatype Party = Party(id: nat, recName: string)

  /** A product record, known by its id. */
  datatype Product = Product(id: nat)

  /** A BOM input or output line: its product and the party_stock flag. */
  datatype BomLine = BomLine(product: Product, partyStock: bool)

  /** A bill of materials: its input lines and its output lines, in order. */
  datatype Bom = Bom(inputs: seq<BomLine>, outputs: seq<BomLine>)

  /**
   * What a stock move's back-reference (production_input or
   * production_output) lets it read of the production order it points to:
   * the order's id, which only identifies the order, and its stock owner.
   */
  datatype ProductionRef = ProductionRef(id: nat, stockOwner: Option<Party>)

  /**
   * A stock move: its product, the party whose stock it uses (party_used)
   * and the two back-references to the production order that consumes it
   * as an input or produces it as an output.
   */
  datatype Move = Move(
    product: Product,
    partyUsed: Option<Party>,
    productionInput: Option<ProductionRef>,
    productionOutput: Option<ProductionRef>)

  /** A sale order; its party may still be unset while it is edited. */
  datatype Sale = Sale(id: nat, party: Option<Party>)

  /** A sale line and the sale it belongs to. */
  datatype SaleLine = SaleLine(id: nat, sale: Sale)

  /** The document a production order was created from (a reference field). */
  datatype Origin =
    | SaleOrigin(sale: Sale)
    | SaleLineOrigin(line: SaleLine)
    | OtherOrigin(model: string, id: nat)

  /**
   * A value in a field-name -> value map sent back to the client:
   * None, a record id, a display string, or any value computed by the
   * base modules that this extension only passes through.
   */
  datatype Value = Null | Id(id: nat) | Text(text: string) | Opaque(token: nat)

  type Values = map<string, Value>

  const StockOwnerKey := "stock_owner"
  const StockOwnerRecNameKey := "stock_owner.rec_name"
  const PartyUsedKey := "party_used"
  const PartyUsedRecNameKey := "party_used.rec_name"
}
