/** `BOLService`: creation, lookup and in-place updates of bills of lading. */
module BOLService {
  import opened Wrappers
  import opened Fields
  import opened BillsOfLading
  import opened Store
  import Ids
  import Tables

  /** The body `createBOL` accepts; `None` is an omitted optional field. */
  datatype NewBillOfLading = NewBillOfLading(
    bol_number: string,
    po_number: string,
    po_id: Option<string>,
    carrier_name: string,
    origin: string,
    destination: string,
    pickup_date: Timestamp,
    delivery_date: Timestamp,
    weight_lbs: Option<real>,
    item_description: Option<string>,
    actual_charges: Option<seq<Charge>>,
    file_id: string,
    pod_file_id: Option<string>,
    pod_signed_at: Option<string>)

  /**
   * The row `createBOL` inserts: status `pending`; a missing or empty
   * `po_id`, item description, POD file or signature time, and a missing or
   * zero weight, are stored as NULL; a missing charge list is NULL while a
   * given one (even empty) is kept.
   */
  function NewRow(data: NewBillOfLading, id: string, now: Timestamp): (b: BillOfLading)
    ensures b.status == DefaultStatus && b.id == id
    ensures b.created_at == now && b.updated_at == now
    ensures b.po_id.None? <==> data.po_id.None? || data.po_id.value == ""
    ensures b.weight_lbs.None? <==> data.weight_lbs.None? || data.weight_lbs.value == 0.0
    ensures b.item_description.None? <==> data.item_description.None? || data.item_description.value == ""
    ensures b.actual_charges == data.actual_charges
    ensures b.pod_file_id.None? <==> data.pod_file_id.None? || data.pod_file_id.value == ""
    ensures b.pod_signed_at.None? <==> data.pod_signed_at.None? || data.pod_signed_at.value == ""
    ensures b.po_id.Some? ==> b.po_id == data.po_id
    ensures b.weight_lbs.Some? ==> b.weight_lbs == data.weight_lbs
    ensures && b.bol_number == data.bol_number && b.po_number == data.po_number
            && b.carrier_name == data.carrier_name && b.origin == data.origin
            && b.destination == data.destination && b.pickup_date == data.pickup_date
            && b.delivery_date == data.delivery_date && b.file_id == data.file_id
  {
    BillOfLading(id, data.bol_number, data.po_number, StringOrNull(data.po_id),
                 data.carrier_name, data.origin, data.destination,
                 data.pickup_date, data.delivery_date,
                 NumberOrNull(data.weight_lbs), StringOrNull(data.item_description),
                 data.actual_charges, data.file_id,
                 StringOrNull(data.pod_file_id), StringOrNull(data.pod_signed_at),
                 DefaultStatus, now, now)
  }

  /** `where(eq(billsOfLadingTable.id, id))`. */
  function HasId(id: string): BillOfLading -> bool {
    (b: BillOfLading) => b.id == id
  }

  /** `set({status, updated_at})`. */
  function WithStatus(status: BolStatus, now: Timestamp): BillOfLading -> BillOfLading {
    (b: BillOfLading) => b.(status := status, updated_at := now)
  }

  /** `set({pod_file_id, pod_signed_at: signedAt || now, status: 'delivered', updated_at})`. */
  function WithPod(podFileId: string, signedAt: Option<string>, now: Timestamp): BillOfLading -> BillOfLading {
    (b: BillOfLading) => b.(pod_file_id := Some(podFileId), pod_signed_at := Some(StringOr(signedAt, now)),
                            status := BolStatus.Delivered, updated_at := now)
  }

  /** `set({po_id, updated_at})`. */
  function WithPoLink(poId: string, now: Timestamp): BillOfLading -> BillOfLading {
    (b: BillOfLading) => b.(po_id := Some(poId), updated_at := now)
  }

  /** A rewrite that keeps both keys of the table. */
  ghost predicate KeepsKeys(f: BillOfLading -> BillOfLading) {
    forall b :: f(b).id == b.id && f(b).bol_number == b.bol_number
  }

  /**
   * `update ... where id returning *` followed by `const [updated] = ...`:
   * the rewritten row, or `None` when no row has that identifier. A rewrite
   * that sets `po_id` must point it at an existing purchase order.
   */
  method UpdateReturning(db: Database, id: string, f: BillOfLading -> BillOfLading)
    returns (updated: Option<BillOfLading>)
    requires db.Valid() && KeepsKeys(f)
    requires forall b :: f(b).po_id == b.po_id || (f(b).po_id.Some? && f(b).po_id.value in db.PoIds())
    modifies db
    ensures db.Valid()
    ensures db.bols == Tables.UpdateByKey(old(db.bols), Key, id, f)
    ensures db.pos == old(db.pos) && db.invoices == old(db.invoices) && db.results == old(db.results)
    ensures updated == match Tables.FirstWhere(old(db.bols), HasId(id))
                       case Some(b) => Some(f(b))
                       case None => None
  {
    UpdateKeepsValid(db.bols, db.PoIds(), id, f);
    Tables.FirstWhereAfterUpdate(db.bols, HasId(id), f);
    Tables.UpdateByKeyIsUpdateWhere(db.bols, Key, id, HasId(id), f);
    db.bols := Tables.UpdateByKey(db.bols, Key, id, f);
    updated := Tables.FirstWhere(db.bols, HasId(id));
  }

  /** A key-preserving rewrite that links only to existing purchase orders keeps the table valid. */
  lemma UpdateKeepsValid(rows: seq<BillOfLading>, poIds: seq<string>, id: string, f: BillOfLading -> BillOfLading)
    requires TableValid(rows, poIds) && KeepsKeys(f)
    requires forall b :: f(b).po_id == b.po_id || (f(b).po_id.Some? && f(b).po_id.value in poIds)
    ensures TableValid(Tables.UpdateByKey(rows, Key, id, f), poIds)
    ensures Tables.Project(Tables.UpdateByKey(rows, Key, id, f), Key) == Tables.Project(rows, Key)
    ensures Tables.Project(Tables.UpdateByKey(rows, Key, id, f), Number) == Tables.Project(rows, Number)
  {
    Tables.UpdateKeepsKeys(rows, Tables.KeyIs(Key, id), f, Key);
    Tables.UpdateKeepsKeys(rows, Tables.KeyIs(Key, id), f, Number);
    var r := Tables.UpdateByKey(rows, Key, id, f);
    forall b | b in r
      ensures Ids.IsIdOf(Ids.Bol, b.id)
      ensures b.po_id.Some? ==> b.po_id.value in poIds
    {
      var i :| 0 <= i < |r| && r[i] == b;
      assert rows[i] in rows;
    }
  }

  /**
   * `createBOL`: inserts a `pending` row under a fresh `bol_` identifier.
   * The insert is refused when the identifier or the BOL number is taken, or
   * when the given `po_id` names no purchase order.
   */
  method CreateBOL(db: Database, data: NewBillOfLading, suffix: string, now: Timestamp)
    returns (r: Result<BillOfLading, DbError>)
    requires db.Valid()
    modifies db
    ensures db.Valid()
    ensures db.pos == old(db.pos) && db.invoices == old(db.invoices) && db.results == old(db.results)
    ensures var row := NewRow(data, Ids.GenerateId(Ids.Bol, suffix), now);
      r == if Tables.HasKey(old(db.bols), Key, row.id) then Err(DuplicateKey("id"))
           else if Tables.HasKey(old(db.bols), Number, row.bol_number) then Err(DuplicateKey("bol_number"))
           else if row.po_id.Some? && row.po_id.value !in old(db.PoIds()) then Err(MissingReference("po_id"))
           else Ok(row)
    ensures r.Ok? ==> db.bols == old(db.bols) + [r.value]
    ensures r.Err? ==> db.bols == old(db.bols)
  {
    var row := NewRow(data, Ids.GenerateId(Ids.Bol, suffix), now);
    if Tables.HasKey(db.bols, Key, row.id) {
      return Err(DuplicateKey("id"));
    }
    if Tables.HasKey(db.bols, Number, row.bol_number) {
      return Err(DuplicateKey("bol_number"));
    }
    if row.po_id.Some? && row.po_id.value !in db.PoIds() {
      return Err(MissingReference("po_id"));
    }
    Tables.AppendKeepsUnique(db.bols, row, Key);
    Tables.AppendKeepsUnique(db.bols, row, Number);
    Tables.AppendKeepsKeys(db.bols, row, Key);
    db.bols := db.bols + [row];
    r := Ok(row);
  }

  /** `getBOLById`: the row with that identifier, or a not-found error. */
  method GetBOLById(db: Database, id: string) returns (r: Result<BillOfLading, DbError>)
    ensures r.Ok? <==> exists b :: b in db.bols && b.id == id
    ensures r.Ok? ==> r.value in db.bols && r.value.id == id
    ensures r.Err? ==> r.error == NotFound("Bill of lading with ID " + id + " not found")
  {
    var bol := Tables.FirstWhere(db.bols, HasId(id));
    if bol.None? {
      return Err(NotFound("Bill of lading with ID " + id + " not found"));
    }
    r := Ok(bol.value);
  }

  /** `getBOLByNumber`: the row with that BOL number, or a not-found error. */
  method GetBOLByNumber(db: Database, bolNumber: string) returns (r: Result<BillOfLading, DbError>)
    ensures r.Ok? <==> exists b :: b in db.bols && b.bol_number == bolNumber
    ensures r.Ok? ==> r.value in db.bols && r.value.bol_number == bolNumber
    ensures r.Err? ==> r.error == NotFound("Bill of lading with number " + bolNumber + " not found")
  {
    var bol := Tables.FirstWhere(db.bols, (b: BillOfLading) => b.bol_number == bolNumber);
    if bol.None? {
      return Err(NotFound("Bill of lading with number " + bolNumber + " not found"));
    }
    r := Ok(bol.value);
  }

  /** `getBOLsByPOId`: every row linked to that purchase order. */
  method GetBOLsByPOId(db: Database, poId: string) returns (rows: seq<BillOfLading>)
    ensures forall b :: b in rows <==> b in db.bols && b.po_id == Some(poId)
  {
    rows := Tables.Where(db.bols, (b: BillOfLading) => b.po_id == Some(poId));
  }

  /** `getBOLsByPONumber`: every row quoting that PO number; there may be several. */
  method GetBOLsByPONumber(db: Database, poNumber: string) returns (rows: seq<BillOfLading>)
    ensures forall b :: b in rows <==> b in db.bols && b.po_number == poNumber
  {
    rows := Tables.Where(db.bols, (b: BillOfLading) => b.po_number == poNumber);
  }

  /**
   * `updateBOLStatus`: any of the four statuses from any current status;
   * only `status` and `updated_at` change; an unknown identifier raises.
   */
  method UpdateBOLStatus(db: Database, id: string, status: BolStatus, now: Timestamp)
    returns (r: Result<BillOfLading, DbError>)
    requires db.Valid()
    modifies db
    ensures db.Valid()
    ensures db.bols == Tables.UpdateByKey(old(db.bols), Key, id, WithStatus(status, now))
    ensures db.pos == old(db.pos) && db.invoices == old(db.invoices) && db.results == old(db.results)
    ensures r == match Tables.FirstWhere(old(db.bols), HasId(id))
                 case Some(b) => Ok(b.(status := status, updated_at := now))
                 case None => Err(NotFound("Bill of lading with ID " + id + " not found"))
  {
    var updated := UpdateReturning(db, id, WithStatus(status, now));
    if updated.None? {
      return Err(NotFound("Bill of lading with ID " + id + " not found"));
    }
    r := Ok(updated.value);
  }

  /**
   * `attachPOD`: records the proof-of-delivery file, the signature time
   * (`now` when none or an empty one is given) and moves the status to
   * `delivered`; an unknown identifier raises.
   */
  method AttachPOD(db: Database, id: string, podFileId: string, signedAt: Option<string>, now: Timestamp)
    returns (r: Result<BillOfLading, DbError>)
    requires db.Valid()
    modifies db
    ensures db.Valid()
    ensures db.bols == Tables.UpdateByKey(old(db.bols), Key, id, WithPod(podFileId, signedAt, now))
    ensures db.pos == old(db.pos) && db.invoices == old(db.invoices) && db.results == old(db.results)
    ensures r == match Tables.FirstWhere(old(db.bols), HasId(id))
                 case Some(b) => Ok(b.(pod_file_id := Some(podFileId), pod_signed_at := Some(StringOr(signedAt, now)),
                                      status := BolStatus.Delivered, updated_at := now))
                 case None => Err(NotFound("Bill of lading with ID " + id + " not found"))
  {
    var updated := UpdateReturning(db, id, WithPod(podFileId, signedAt, now));
    if updated.None? {
      return Err(NotFound("Bill of lading with ID " + id + " not found"));
    }
    r := Ok(updated.value);
  }

  /**
   * `linkToPO`: sets `po_id` (and `updated_at`) and nothing else; an unknown
   * BOL raises not-found, an unknown purchase order violates the reference.
   */
  method LinkToPO(db: Database, bolId: string, poId: string, now: Timestamp)
    returns (r: Result<BillOfLading, DbError>)
    requires db.Valid()
    modifies db
    ensures db.Valid()
    ensures db.pos == old(db.pos) && db.invoices == old(db.invoices) && db.results == old(db.results)
    ensures var existing := Tables.FirstWhere(old(db.bols), HasId(bolId));
      r == if existing.None? then Err(NotFound("Bill of lading with ID " + bolId + " not found"))
           else if poId !in old(db.PoIds()) then Err(MissingReference("po_id"))
           else Ok(existing.value.(po_id := Some(poId), updated_at := now))
    ensures r.Ok? ==> db.bols == Tables.UpdateByKey(old(db.bols), Key, bolId, WithPoLink(poId, now))
    ensures r.Err? ==> db.bols == old(db.bols)
  {
    var existing := Tables.FirstWhere(db.bols, HasId(bolId));
    if existing.None? {
      return Err(NotFound("Bill of lading with ID " + bolId + " not found"));
    }
    if poId !in db.PoIds() {
      return Err(MissingReference("po_id"));
    }
    var updated := UpdateReturning(db, bolId, WithPoLink(poId, now));
    r := Ok(updated.value);
  }
}
