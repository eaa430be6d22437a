# Production external party — a Dafny model

This project models the Tryton module `production_external_party`. The
module gives a production order a **stock owner**. The stock owner is an
external party whose stock the order consumes or produces instead of the
company's stock. The module then attributes that party to the stock moves
of the order.

The model covers the two class extensions of `production.py`:

- **`ProductionOrder`** models the `production` extension as a class
  `Production`. Its fields are the stock owner, the BOM, the origin, and the
  input and output moves, which are sequences of move values. It has these
  parts:
  - `on_change_stock_owner`;
  - `on_change_origin`, which derives the owner from a sale or sale-line
    origin, updates the field and reports the change;
  - `_explode_move_values`, which overlays `party_used` on the base values;
  - the `set_moves` post-pass, which stamps the owner as `party_used` on
    every move whose product is on a `party_stock` BOM line.

  The post-pass is specified by the function `Stamped`. Lemmas about
  `Stamped` state attribution, the frame and idempotence.
- **`StockMove`** models the `stock.move` extension:
  - `get_party_to_check` as written, including the failing output branch,
    with its corrected counterpart;
  - `location_types_to_check_party`.
- **`ProductionTypes`** holds the record values: party, product, BOM line,
  BOM, move, sale, sale line, origin, and the field-name → value maps
  returned to the client.

The model takes the base modules' behaviour as parameters. It has no
implementation for any of these:

- the base `set_moves` step, given as the moves it produced;
- `explode_bom`, a function of the stock owner, since it reads the order's
  other fields and those do not change here;
- the base `on_change_origin` result, which is `None` when the base
  handler is missing or raises `AttributeError` (the code catches both);
- the base `_explode_move_values` map;
- the base `get_party_to_check` answer;
- the base list of location types.

Whether the sales module is installed (`Pool().get` succeeds for both
`sale.sale` and `sale.line`) is the boolean `salesInstalled`. Whether the
order has an `origin` field (the `hasattr` test) is the boolean
`originDefined`.

Where the code departs from what its fields and names suggest, the model
follows the code:

- One would expect the output branch of `get_party_to_check` to return the
  output production's owner. The code raises instead (see Findings).
- One would expect the location-type list to hold `production` exactly once.
  The code only appends when the entry is missing. So the result holds it
  exactly once only when the base list held it at most once.
- One would expect a move's `party_used` to be set iff its BOM line is
  `party_stock` and an owner is set. The code departs from this in two ways:
  - The post-pass never clears a `party_used` that the base step set.
  - The post-pass matches moves by product, not by the line they came from.
    So a move from an unflagged line is stamped when its product also
    appears on a flagged line (`SharedProductStamped`).
    `_explode_move_values`, in contrast, tests the flag of each line.

  For moves that the base step left without a party, `StampedFromUnset`
  gives the "iff" in the form the code implements: `party_used` is set iff
  the move's product is on a flagged line.
- When the owner is cleared, `on_change_origin` reports only
  `stock_owner = None`. A `stock_owner.rec_name` entry already in the base
  result stays as it was.

## Model

| member | source | states |
|---|---|---|
| `ProductionOrder.PartyStockProducts` | production.py:85-86 | the to-do product list holds a product iff some BOM line of that product is flagged `party_stock`; it is no longer than the lines |
| `ProductionOrder.StampedAt` | production.py:88-90 | the post-pass keeps the number and order of moves, and each result move is that move stamped on its own |
| `ProductionOrder.StampedAttribution` | production.py:85-97 | after the post-pass a move has `party_used == owner` when its product is on a flagged line and keeps its previous `party_used` otherwise; product and back-references never change |
| `ProductionOrder.StampedNothing` | production.py:87-90 | with an empty to-do list (the skipped `if`) the moves are left exactly as they were |
| `ProductionOrder.StampedIdempotent` | production.py:88-97 | running the stamping loop twice gives the same moves as running it once |
| `ProductionOrder.StampedFromUnset` | production.py:79-97 | on moves the base step left without a party, `party_used` is set iff the product is on a `party_stock` line, and then it is the owner |
| `ProductionOrder.SharedProductStamped` | production.py:85-90 | a move without a party whose product is on one flagged and one unflagged input line is stamped with the owner, because the post-pass matches by product |
| `ProductionOrder.OriginOwner` | production.py:54-58 | only a sale or sale-line origin yields a candidate owner: the sale's party, or the party of the line's sale |
| `ProductionOrder.Production.OnChangeStockOwner` | production.py:36-38 | returns the BOM re-explosion for the current owner and changes no field, so two calls in a row return the same map |
| `ProductionOrder.Production.OnChangeOrigin` | production.py:40-68 | in each of these cases it returns exactly the base result (empty when the base handler is missing or raises `AttributeError`) and keeps the owner: no sales module; no origin field; the derived owner equals the current one. Otherwise the derived owner becomes `stock_owner`. The result then holds its id and display name, or `None` when cleared, with the explosion for the new owner merged over it, and the other base keys are kept |
| `ProductionOrder.Production.ExplodeMoveValues` | production.py:70-77 | `party_used` and its display name are set to the owner iff the BOM line is `party_stock` and an owner is set. Every other key of the base values is unchanged, and without both conditions the values are the base values |
| `ProductionOrder.Production.SetMoves` | production.py:79-97 | without an owner or a BOM the moves are the base step's. Otherwise inputs are stamped against the flagged BOM input products and outputs against the flagged output products, each side independently |
| `StockMove.OwnerId` | production.py:106-107 | the id of the referenced order's owner, present iff the order has an owner |
| `StockMove.GetPartyToCheck` | production.py:103-111 | if an input production is set, it gives that order's owner id or `None`. If only the output production is set, it fails with `AttributeError` on `produciton_output`. If neither is set, it gives the base answer |
| `StockMove.GetPartyToCheckIntended` | production.py:108-110 | corrected definition: an output-only move is checked against its output production's owner, and the other cases are as written |
| `StockMove.AsWrittenAgreesWithIntended` | production.py:103-111 | the code as written and the corrected one give the same answer whenever the code does not fail, and it fails exactly on output-only moves |
| `StockMove.OutputMoveRaises` | production.py:108-110 | a move produced by an order owned by party 7 raises instead of answering 7 |
| `StockMove.LocationTypesToCheckParty` | production.py:113-118 | the result contains `production`. It equals the base list when the list already had it, and otherwise it is the base list with `production` appended. Existing entries keep their order, and `production` occurs exactly once when the base held it at most once |

## Findings

| source | as written | input that shows it | evidently intended | confidence | as-written member | corrected member |
|---|---|---|---|---|---|---|
| production.py:108-110 | the output branch tests `self.produciton_output.stock_owner`, an attribute the move does not have, so it raises `AttributeError` | a move with `production_input` unset and `production_output` set to an order owned by party 7 | return the output production's owner id (7), or `None` when it has no owner | high; not executed | `StockMove.GetPartyToCheck`, `StockMove.OutputMoveRaises` | `StockMove.GetPartyToCheckIntended` |

## Left out

- `__init__.py` only registers the classes with the pool. `bom.py`, which
  defines `BOMInput`/`BOMOutput` and their `party_stock` field, is not part
  of this model. A BOM line is modelled as its product and that flag.
- Field declarations: the `stock_owner` Many2One, its read-only rule
  outside the `request`/`draft` states, and the `@fields.depends`
  metadata. This is ORM and UI metadata that the host framework enforces.
- `on_change_product`, `on_change_bom`, `on_change_uom` and
  `on_change_quantity` only call the base handler. They add nothing but a
  field dependency.
- `explode_bom` and every base (`super`) result are inputs. The base
  modules are not part of this model.
- The `_check_access=False` context around the production read in
  `get_party_to_check` is not modelled, because it is a permission
  mechanism. The base call runs outside that scope.
- Moves are values held in the order's sequences. Stamping reassigns an
  element instead of updating a shared record. Aliasing between records
  (the same move reachable from elsewhere) is not captured. A move's back-reference is the referenced
  order's id and owner at the time of reading, not a live link.
- Record equality is structural on (id, display name). Tryton compares
  records by id, and the two agree whenever a party's display name follows
  from its id.
- `LocationTypesToCheckParty`: appending changes the base's list in place.
  The model returns a new sequence, so any sharing of that list with the
  base module is not modelled.
- Persistence and saving of moves, and the display strings (`rec_name`),
  are opaque values.
