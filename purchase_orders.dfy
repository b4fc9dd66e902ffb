/** The `purchase_orders` table. */
module PurchaseOrders {
  import opened Fields
  import Ids
  import Tables

  /** Lifecycle status; a new row defaults to `Pending`. */
  datatype PoStatus = Pending | BolReceived | Invoiced | Matched | Disputed

  const DefaultStatus: PoStatus := PoStatus.Pending

  /** One row. Every column is NOT NULL; `expected_charges` and `total_amount` are required. */
  datatype PurchaseOrder = PurchaseOrder(
    id: string,
    po_number: string,
    customer_name: string,
    carrier_name: string,
    origin: string,
    destination: string,
    pickup_date: Timestamp,
    delivery_date: Timestamp,
    expected_charges: seq<Charge>,
    total_amount: real,
    status: PoStatus,
    created_at: Timestamp,
    updated_at: Timestamp)

  /** The primary key. */
  function Key(p: PurchaseOrder): string { p.id }

  /** The business key, `po_number`, declared `.unique().notNull()`. */
  function Number(p: PurchaseOrder): string { p.po_number }

  /** The table's constraints: a unique primary key, a unique `po_number`, `po_` identifiers. */
  ghost predicate TableValid(rows: seq<PurchaseOrder>) {
    && Tables.UniqueBy(rows, Key)
    && Tables.UniqueBy(rows, Number)
    && forall p :: p in rows ==> Ids.IsIdOf(Ids.Po, p.id)
  }
}
