/** The `bills_of_lading` table. */
module BillsOfLading {
  import opened Wrappers
  import opened Fields
  import Ids
  import Tables

  /** Lifecycle status; a new row defaults to `Pending`. */
  datatype BolStatus = Pending | Delivered | Invoiced | Matched

  const DefaultStatus: BolStatus := BolStatus.Pending

  /**
   * One row. `po_number` is required but not unique; weight, item
   * description, actual charges, the purchase-order link and the proof of
   * delivery are nullable.
   */
  datatype BillOfLading = BillOfLading(
    id: string,
    bol_number: string,
    po_number: string,
    po_id: Option<string>,
    carrier_name: string,
    origin: string,
    destination: string,
    pickup_date: Timestamp,
    delivery_date: Timestamp,
    weight_lbs: Option<real>,
    item_description: Option<string>,
    actual_charges: Option<seq<Charge>>,
    file_id: string,
    pod_file_id: Option<string>,
    pod_signed_at: Option<Timestamp>,
    status: BolStatus,
    created_at: Timestamp,
    updated_at: Timestamp)

  function Key(b: BillOfLading): string { b.id }

  /** The business key, `bol_number`, declared `.unique().notNull()`. */
  function Number(b: BillOfLading): string { b.bol_number }

  /**
   * The table's constraints: unique primary key and `bol_number`, `bol_`
   * identifiers, and `po_id` referencing an existing purchase order.
   */
  ghost predicate TableValid(rows: seq<BillOfLading>, poIds: seq<string>) {
    && Tables.UniqueBy(rows, Key)
    && Tables.UniqueBy(rows, Number)
    && (forall b :: b in rows ==> Ids.IsIdOf(Ids.Bol, b.id))
    && (forall b :: b in rows && b.po_id.Some? ==> b.po_id.value in poIds)
  }

  /** Several bills of lading may quote one PO number: `po_number` is not a key. */
  lemma SharedPoNumberAllowed(b1: BillOfLading)
    requires Ids.IsIdOf(Ids.Bol, b1.id) && b1.po_id.None?
    ensures var b2 := b1.(id := b1.id + "x", bol_number := b1.bol_number + "x");
            TableValid([b1, b2], []) && b2.po_number == b1.po_number
  {
    var b2 := b1.(id := b1.id + "x", bol_number := b1.bol_number + "x");
    assert b2.id[..|Ids.Prefix(Ids.Bol)| + 1] == b1.id[..|Ids.Prefix(Ids.Bol)| + 1];
    assert |b2.id| != |b1.id| && |b2.bol_number| != |b1.bol_number|;
  }
}
