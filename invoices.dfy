/** The `invoices` table. */
module Invoices {
  import opened Wrappers
  import opened Fields
  import Ids
  import Tables

  /** Lifecycle status; a new row defaults to `Pending`. */
  datatype InvoiceStatus = Pending | Matched | Flagged | Approved | Disputed | Rejected

  const DefaultStatus: InvoiceStatus := InvoiceStatus.Pending

  /** How the invoice was linked to its purchase order; NULL until a link is recorded. */
  datatype MatchType = Exact | Fuzzy | Manual

  /** `match_confidence` defaults to 0. */
  const DefaultMatchConfidence: real := 0.0

  /**
   * One row. `po_number` (the join key for matching) is required; the BOL
   * number, the purchase-order and BOL links, payment terms, due date, file,
   * match type and approval columns are nullable.
   */
  datatype Invoice = Invoice(
    id: string,
    invoice_number: string,
    carrier_name: string,
    invoice_date: Timestamp,
    po_number: string,
    bol_number: Option<string>,
    po_id: Option<string>,
    bol_id: Option<string>,
    charges: seq<Charge>,
    total_amount: real,
    payment_terms: Option<string>,
    due_date: Option<Timestamp>,
    invoice_file_id: Option<string>,
    match_type: Option<MatchType>,
    match_confidence: real,
    status: InvoiceStatus,
    approved_at: Option<Timestamp>,
    approved_by: Option<string>,
    approval_notes: Option<string>,
    created_at: Timestamp,
    updated_at: Timestamp)

  function Key(i: Invoice): string { i.id }

  /** The business key, `invoice_number`, declared `.unique().notNull()`. */
  function Number(i: Invoice): string { i.invoice_number }

  /**
   * The table's constraints: unique primary key and `invoice_number`, `inv_`
   * identifiers, and `po_id` / `bol_id` referencing existing rows.
   */
  ghost predicate TableValid(rows: seq<Invoice>, poIds: seq<string>, bolIds: seq<string>) {
    && Tables.UniqueBy(rows, Key)
    && Tables.UniqueBy(rows, Number)
    && (forall i :: i in rows ==> Ids.IsIdOf(Ids.Inv, i.id))
    && (forall i :: i in rows && i.po_id.Some? ==> i.po_id.value in poIds)
    && (forall i :: i in rows && i.bol_id.Some? ==> i.bol_id.value in bolIds)
  }
}
