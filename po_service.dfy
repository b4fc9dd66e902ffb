/** `POService`: creation, lookup and status updates of purchase orders. */
module POService {
  import opened Wrappers
  import opened Fields
  import opened PurchaseOrders
  import opened Store
  import Ids
  import Tables

  /** The body `createPO` accepts. */
  datatype NewPurchaseOrder = NewPurchaseOrder(
    po_number: string,
    customer_name: string,
    carrier_name: string,
    origin: string,
    destination: string,
    pickup_date: Timestamp,
    delivery_date: Timestamp,
    expected_charges: seq<Charge>,
    total_amount: real,
    fileId: string)

  /**
   * The row `createPO` inserts: status `pending`, both timestamps `now`,
   * every other column copied from the input.
   */
  function NewRow(data: NewPurchaseOrder, id: string, now: Timestamp): (po: PurchaseOrder)
    ensures po.status == DefaultStatus && po.id == id
    ensures po.created_at == now && po.updated_at == now
    ensures && po.po_number == data.po_number && po.customer_name == data.customer_name
            && po.carrier_name == data.carrier_name && po.origin == data.origin
            && po.destination == data.destination && po.pickup_date == data.pickup_date
            && po.delivery_date == data.delivery_date
            && po.expected_charges == data.expected_charges && po.total_amount == data.total_amount
  {
    PurchaseOrder(id, data.po_number, data.customer_name, data.carrier_name, data.origin,
                  data.destination, data.pickup_date, data.delivery_date,
                  data.expected_charges, data.total_amount, DefaultStatus, now, now)
  }

  /** `where(eq(purchaseOrdersTable.id, id))`. */
  function HasId(id: string): PurchaseOrder -> bool {
    (p: PurchaseOrder) => p.id == id
  }

  /** `where(eq(purchaseOrdersTable.po_number, poNumber))`. */
  function HasNumber(poNumber: string): PurchaseOrder -> bool {
    (p: PurchaseOrder) => p.po_number == poNumber
  }

  /** `set({status, updated_at})`. */
  function WithStatus(status: PoStatus, now: Timestamp): PurchaseOrder -> PurchaseOrder {
    (p: PurchaseOrder) => p.(status := status, updated_at := now)
  }

  /**
   * The table after `update purchase_orders set status, updated_at where id`:
   * the row with that id gets the new status and timestamp and nothing else
   * changes, whatever its previous status was.
   */
  function SetStatus(rows: seq<PurchaseOrder>, id: string, status: PoStatus, now: Timestamp): (r: seq<PurchaseOrder>)
    ensures |r| == |rows|
    ensures forall i :: 0 <= i < |rows| ==>
      r[i] == if rows[i].id == id then rows[i].(status := status, updated_at := now) else rows[i]
    ensures Tables.Project(r, Key) == Tables.Project(rows, Key)
    ensures Tables.Project(r, Number) == Tables.Project(rows, Number)
  {
    Tables.UpdateKeepsKeys(rows, HasId(id), WithStatus(status, now), Key);
    Tables.UpdateKeepsKeys(rows, HasId(id), WithStatus(status, now), Number);
    Tables.UpdateWhere(rows, HasId(id), WithStatus(status, now))
  }

  lemma SetStatusKeepsValid(rows: seq<PurchaseOrder>, id: string, status: PoStatus, now: Timestamp)
    requires TableValid(rows)
    ensures TableValid(SetStatus(rows, id, status, now))
  {
    var r := SetStatus(rows, id, status, now);
    forall p | p in r ensures Ids.IsIdOf(Ids.Po, p.id) {
      var i :| 0 <= i < |r| && r[i] == p;
      assert rows[i] in rows;
    }
  }

  /**
   * `createPO`: inserts a `pending` row under a fresh `po_` identifier. The
   * insert is refused when the identifier or the PO number is already taken.
   */
  method CreatePO(db: Database, data: NewPurchaseOrder, suffix: string, now: Timestamp)
    returns (r: Result<PurchaseOrder, DbError>)
    requires db.Valid()
    modifies db
    ensures db.Valid()
    ensures db.bols == old(db.bols) && db.invoices == old(db.invoices) && db.results == old(db.results)
    ensures var id := Ids.GenerateId(Ids.Po, suffix);
      r == if Tables.HasKey(old(db.pos), Key, id) then Err(DuplicateKey("id"))
           else if Tables.HasKey(old(db.pos), Number, data.po_number) then Err(DuplicateKey("po_number"))
           else Ok(NewRow(data, id, now))
    ensures r.Ok? ==> db.pos == old(db.pos) + [r.value]
    ensures r.Err? ==> db.pos == old(db.pos)
  {
    var id := Ids.GenerateId(Ids.Po, suffix);
    if Tables.HasKey(db.pos, Key, id) {
      return Err(DuplicateKey("id"));
    }
    if Tables.HasKey(db.pos, Number, data.po_number) {
      return Err(DuplicateKey("po_number"));
    }
    var row := NewRow(data, id, now);
    Tables.AppendKeepsUnique(db.pos, row, Key);
    Tables.AppendKeepsUnique(db.pos, row, Number);
    Tables.AppendKeepsKeys(db.pos, row, Key);
    db.pos := db.pos + [row];
    r := Ok(row);
  }

  /** `getPOById`: the row with that identifier, or a not-found error. */
  method GetPOById(db: Database, id: string) returns (r: Result<PurchaseOrder, DbError>)
    ensures r.Ok? <==> exists p :: p in db.pos && p.id == id
    ensures r.Ok? ==> r.value in db.pos && r.value.id == id
    ensures r.Err? ==> r.error == NotFound("Purchase order with ID " + id + " not found")
  {
    var po := Tables.FirstWhere(db.pos, HasId(id));
    if po.None? {
      return Err(NotFound("Purchase order with ID " + id + " not found"));
    }
    r := Ok(po.value);
  }

  /** `getPOByNumber`: the row with that PO number, or a not-found error. */
  method GetPOByNumber(db: Database, poNumber: string) returns (r: Result<PurchaseOrder, DbError>)
    ensures r.Ok? <==> exists p :: p in db.pos && p.po_number == poNumber
    ensures r.Ok? ==> r.value in db.pos && r.value.po_number == poNumber
    ensures r.Err? ==> r.error == NotFound("Purchase order with number " + poNumber + " not found")
  {
    var po := Tables.FirstWhere(db.pos, HasNumber(poNumber));
    if po.None? {
      return Err(NotFound("Purchase order with number " + poNumber + " not found"));
    }
    r := Ok(po.value);
  }

  /**
   * `updatePOStatus`: any of the five statuses from any current status. Only
   * `status` and `updated_at` change; an unknown identifier raises.
   */
  method UpdatePOStatus(db: Database, id: string, status: PoStatus, now: Timestamp)
    returns (r: Result<PurchaseOrder, DbError>)
    requires db.Valid()
    modifies db
    ensures db.Valid()
    ensures db.pos == SetStatus(old(db.pos), id, status, now)
    ensures db.bols == old(db.bols) && db.invoices == old(db.invoices) && db.results == old(db.results)
    ensures r == match Tables.FirstWhere(old(db.pos), HasId(id))
                 case Some(p) => Ok(p.(status := status, updated_at := now))
                 case None => Err(NotFound("Purchase order with ID " + id + " not found"))
  {
    SetStatusKeepsValid(db.pos, id, status, now);
    Tables.FirstWhereAfterUpdate(db.pos, HasId(id), WithStatus(status, now));
    db.pos := SetStatus(db.pos, id, status, now);
    var updated := Tables.FirstWhere(db.pos, HasId(id));
    if updated.None? {
      return Err(NotFound("Purchase order with ID " + id + " not found"));
    }
    r := Ok(updated.value);
  }
}
