/**
 * The production-order side of the external-party extension: the stock
 * owner of a production order, how it is derived from a sale origin, and
 * how it is stamped as party_used on the moves generated from BOM lines
 * flagged party_stock.
 */
module ProductionOrder {
  import opened ProductionTypes

  /** The line has the given product and is flagged party_stock. */
  predicate OnFlaggedLine(lines: seq<BomLine>, p: Product) {
    exists l :: l in lines && l.partyStock && l.product == p
  }

  /**
   * The products of the party_stock lines, in line order: the list
   * comprehension set_moves builds for the BOM inputs and for the outputs.
   */
  function PartyStockProducts(lines: seq<BomLine>): (todo: seq<Product>)
    ensures forall p :: p in todo <==> OnFlaggedLine(lines, p)
    ensures |todo| <= |lines|
  {
    if lines == [] then []
    else if lines[0].partyStock then [lines[0].product] + PartyStockProducts(lines[1..])
    else PartyStockProducts(lines[1..])
  }

  /** One move after the post-pass: the owner is stamped when its product is to do. */
  function StampMove(m: Move, todo: seq<Product>, owner: Party): (r: Move) {
    if m.product in todo then m.(partyUsed := Some(owner)) else m
  }

  /** The moves after the post-pass of set_moves, move by move. */
  function Stamped(moves: seq<Move>, todo: seq<Product>, owner: Party): (r: seq<Move>) {
    if moves == [] then []
    else [StampMove(moves[0], todo, owner)] + Stamped(moves[1..], todo, owner)
  }

  /** The post-pass keeps the moves in place and treats each one on its own. */
  lemma {:induction false} StampedAt(moves: seq<Move>, todo: seq<Product>, owner: Party)
    ensures |Stamped(moves, todo, owner)| == |moves|
    ensures forall i :: 0 <= i < |moves| ==>
      Stamped(moves, todo, owner)[i] == StampMove(moves[i], todo, owner)
  {
    if moves != [] {
      StampedAt(moves[1..], todo, owner);
      var r := Stamped(moves, todo, owner);
      forall i | 0 <= i < |moves|
        ensures r[i] == StampMove(moves[i], todo, owner)
      {
        if i > 0 {
          assert r[i] == Stamped(moves[1..], todo, owner)[i - 1];
        }
      }
    }
  }

  /**
   * Attribution: after the post-pass a move uses the owner's stock iff its
   * product is on a flagged line; every other move keeps its party_used,
   * and no move changes product or back-references.
   */
  lemma {:induction false} StampedAttribution(moves: seq<Move>, lines: seq<BomLine>, owner: Party, i: nat)
    requires i < |moves|
    ensures |Stamped(moves, PartyStockProducts(lines), owner)| == |moves|
    ensures var m := Stamped(moves, PartyStockProducts(lines), owner)[i];
      && m.product == moves[i].product
      && m.productionInput == moves[i].productionInput
      && m.productionOutput == moves[i].productionOutput
      && (OnFlaggedLine(lines, moves[i].product) ==> m.partyUsed == Some(owner))
      && (!OnFlaggedLine(lines, moves[i].product) ==> m.partyUsed == moves[i].partyUsed)
  {
    StampedAt(moves, PartyStockProducts(lines), owner);
  }

  /** With nothing to do, the post-pass leaves the moves as they are. */
  lemma {:induction false} StampedNothing(moves: seq<Move>, owner: Party)
    ensures Stamped(moves, [], owner) == moves
  {
    if moves != [] {
      StampedNothing(moves[1..], owner);
    }
  }

  /** Running the stamping loop twice gives the same moves as running it once. */
  lemma {:induction false} StampedIdempotent(moves: seq<Move>, todo: seq<Product>, owner: Party)
    ensures Stamped(Stamped(moves, todo, owner), todo, owner) == Stamped(moves, todo, owner)
  {
    if moves != [] {
      StampedIdempotent(moves[1..], todo, owner);
    }
  }

  /**
   * On moves the base step left without a party, the post-pass gives the
   * intended attribution rule: party_used is set iff the product is
   * on a party_stock line, and then it is the owner.
   */
  lemma {:induction false} StampedFromUnset(moves: seq<Move>, lines: seq<BomLine>, owner: Party)
    requires forall i :: 0 <= i < |moves| ==> moves[i].partyUsed.None?
    ensures |Stamped(moves, PartyStockProducts(lines), owner)| == |moves|
    ensures forall i :: 0 <= i < |moves| ==>
      (Stamped(moves, PartyStockProducts(lines), owner)[i].partyUsed.Some? <==> OnFlaggedLine(lines, moves[i].product))
    ensures forall i :: 0 <= i < |moves| ==>
      Stamped(moves, PartyStockProducts(lines), owner)[i].partyUsed.Some? ==>
      Stamped(moves, PartyStockProducts(lines), owner)[i].partyUsed == Some(owner)
  {
    StampedAt(moves, PartyStockProducts(lines), owner);
  }

  /**
   * The post-pass matches by product, not by line: a move of product 1
   * is stamped even when product 1 is also on an unflagged line.
   */
  lemma SharedProductStamped(owner: Party)
    ensures var lines := [BomLine(Product(1), true), BomLine(Product(1), false)];
      Stamped([Move(Product(1), None, None, None)], PartyStockProducts(lines), owner)
        == [Move(Product(1), Some(owner), None, None)]
  {
  }

  /** The candidate owner an origin gives: a sale's party, a sale line's sale's party, else none. */
  function OriginOwner(origin: Option<Origin>): (owner: Option<Party>)
    ensures owner.Some? ==> origin.Some? && !origin.value.OtherOrigin?
    ensures origin.Some? && origin.value.SaleOrigin? ==> owner == origin.value.sale.party
    ensures origin.Some? && origin.value.SaleLineOrigin? ==> owner == origin.value.line.sale.party
  {
    match origin
    case Some(SaleOrigin(sale)) => sale.party
    case Some(SaleLineOrigin(line)) => line.sale.party
    case _ => None
  }

  /** The base on_change_origin result, or the empty map when the base call raised AttributeError. */
  function BaseOrEmpty(base: Option<Values>): (r: Values) {
    if base.Some? then base.value else map[]
  }

  /**
   * A production order as this extension sees it. The base modules'
   * computations (explode_bom, the base set_moves, the base change
   * handlers) are parameters of the methods that call them.
   */
  class Production {
    var stockOwner: Option<Party>
    var bom: Option<Bom>
    var origin: Option<Origin>
    var inputs: seq<Move>
    var outputs: seq<Move>

    constructor (stockOwner: Option<Party>, bom: Option<Bom>, origin: Option<Origin>)
      ensures this.stockOwner == stockOwner && this.bom == bom && this.origin == origin
      ensures inputs == [] && outputs == []
    {
      this.stockOwner := stockOwner;
      this.bom := bom;
      this.origin := origin;
      inputs := [];
      outputs := [];
    }

    /**
     * on_change_stock_owner: re-explodes the BOM with the current owner.
     * It changes no field, so two calls in a row return the same map.
     */
    method OnChangeStockOwner(explodeBom: Option<Party> -> Values) returns (res: Values)
      ensures res == explodeBom(stockOwner)
    {
      res := explodeBom(stockOwner);
    }

    /**
     * on_change_origin. salesInstalled says whether both sale.sale and
     * sale.line are registered, originDefined whether the order has an
     * origin field, baseResult is the base handler's map (None when the
     * base handler is missing or raises AttributeError).
     */
    method OnChangeOrigin(salesInstalled: bool, originDefined: bool, baseResult: Option<Values>,
                          explodeBom: Option<Party> -> Values) returns (res: Values)
      modifies this`stockOwner
      // no sales module, or no origin field: only the base result
      ensures !(salesInstalled && originDefined) ==>
        res == BaseOrEmpty(baseResult) && stockOwner == old(stockOwner)
      // the derived owner is the current one: only the base result
      ensures OriginOwner(origin) == old(stockOwner) ==>
        res == BaseOrEmpty(baseResult) && stockOwner == old(stockOwner)
      // an origin that is no sale document leaves an unset owner unset
      ensures (origin.None? || origin.value.OtherOrigin?) && old(stockOwner).None? ==>
        res == BaseOrEmpty(baseResult) && stockOwner == old(stockOwner)
      // an empty origin clears the owner
      ensures salesInstalled && originDefined && origin.None? ==> stockOwner.None?
      // the derived owner differs: it becomes the owner, is reported, and the explosion is merged in
      ensures salesInstalled && originDefined && OriginOwner(origin) != old(stockOwner) ==>
        var owner, base, exploded := OriginOwner(origin), BaseOrEmpty(baseResult), explodeBom(OriginOwner(origin));
        && stockOwner == owner
        && res.Keys == base.Keys + exploded.Keys + {StockOwnerKey}
                       + (if owner.Some? then {StockOwnerRecNameKey} else {})
        && (forall k :: k in exploded ==> res[k] == exploded[k])
        && (StockOwnerKey !in exploded ==>
              res[StockOwnerKey] == if owner.Some? then Id(owner.value.id) else Null)
        && (owner.Some? && StockOwnerRecNameKey !in exploded ==>
              res[StockOwnerRecNameKey] == Text(owner.value.recName))
        && (forall k ::
              (k in base && k !in exploded && k != StockOwnerKey && (owner.Some? ==> k != StockOwnerRecNameKey))
              ==> res[k] == base[k])
    {
      res := BaseOrEmpty(baseResult);
      if originDefined && salesInstalled {
        var newOwner := OriginOwner(origin);
        if newOwner != stockOwner {
          stockOwner := newOwner;
          if newOwner.Some? {
            res := res[StockOwnerKey := Id(newOwner.value.id)];
            res := res[StockOwnerRecNameKey := Text(newOwner.value.recName)];
          } else {
            res := res[StockOwnerKey := Null];
          }
          res := res + explodeBom(stockOwner);
        }
      }
    }

    /**
     * _explode_move_values: the base values of the move to create, with
     * party_used and its display name set to the owner when the BOM line
     * is party_stock and an owner is set; the other keys are untouched.
     */
    method ExplodeMoveValues(baseValues: Values, bomIo: BomLine) returns (values: Values)
      ensures bomIo.partyStock && stockOwner.Some? ==>
        && values.Keys == baseValues.Keys + {PartyUsedKey, PartyUsedRecNameKey}
        && values[PartyUsedKey] == Id(stockOwner.value.id)
        && values[PartyUsedRecNameKey] == Text(stockOwner.value.recName)
        && forall k :: k in baseValues && k != PartyUsedKey && k != PartyUsedRecNameKey ==>
             values[k] == baseValues[k]
      ensures !(bomIo.partyStock && stockOwner.Some?) ==> values == baseValues
    {
      values := baseValues;
      if bomIo.partyStock && stockOwner.Some? {
        values := values[PartyUsedKey := Id(stockOwner.value.id)];
        values := values[PartyUsedRecNameKey := Text(stockOwner.value.recName)];
      }
    }

    /**
     * set_moves: the base step produces baseInputs and baseOutputs; then,
     * when there is an owner and a BOM, every input move whose product is on
     * a party_stock input line, and every output move whose product is on a
     * party_stock output line, gets the owner as party_used.
     */
    method SetMoves(baseInputs: seq<Move>, baseOutputs: seq<Move>)
      modifies this`inputs, this`outputs
      ensures stockOwner.None? || bom.None? ==> inputs == baseInputs && outputs == baseOutputs
      ensures stockOwner.Some? && bom.Some? ==>
        && inputs == Stamped(baseInputs, PartyStockProducts(bom.value.inputs), stockOwner.value)
        && outputs == Stamped(baseOutputs, PartyStockProducts(bom.value.outputs), stockOwner.value)
    {
      inputs, outputs := baseInputs, baseOutputs;
      if stockOwner.None? || bom.None? {
        return;
      }
      var owner := stockOwner.value;

      var todoInputs := PartyStockProducts(bom.value.inputs);
      if |todoInputs| > 0 {
        var i := 0;
        while i < |inputs|
          invariant 0 <= i <= |inputs| == |baseInputs|
          invariant forall k :: 0 <= k < i ==> inputs[k] == StampMove(baseInputs[k], todoInputs, owner)
          invariant forall k :: i <= k < |inputs| ==> inputs[k] == baseInputs[k]
          invariant outputs == baseOutputs
        {
          if inputs[i].product in todoInputs {
            inputs := inputs[i := inputs[i].(partyUsed := Some(owner))];
          }
          i := i + 1;
        }
      }
      StampedAt(baseInputs, todoInputs, owner);
      if |todoInputs| == 0 {
        StampedNothing(baseInputs, owner);
      }

      var todoOutputs := PartyStockProducts(bom.value.outputs);
      if |todoOutputs| > 0 {
        var i := 0;
        while i < |outputs|
          invariant 0 <= i <= |outputs| == |baseOutputs|
          invariant forall k :: 0 <= k < i ==> outputs[k] == StampMove(baseOutputs[k], todoOutputs, owner)
          invariant forall k :: i <= k < |outputs| ==> outputs[k] == baseOutputs[k]
          invariant inputs == Stamped(baseInputs, todoInputs, owner)
        {
          if outputs[i].product in todoOutputs {
            outputs := outputs[i := outputs[i].(partyUsed := Some(owner))];
          }
          i := i + 1;
        }
      }
      StampedAt(baseOutputs, todoOutputs, owner);
      if |todoOutputs| == 0 {
        StampedNothing(baseOutputs, owner);
      }
    }
  }
}
