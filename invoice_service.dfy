/** `InvoiceService`: creation, lookup, linking, matching data and approval of invoices. */
module InvoiceService {
  import opened Wrappers
  import opened Fields
  import opened Invoices
  import opened Store
  import Ids
  import Tables

  /** The body `createInvoice` accepts; `None` is an omitted optional field. */
  datatype NewInvoice = NewInvoice(
    invoice_number: string,
    carrier_name: string,
    invoice_date: Timestamp,
    po_number: string,
    bol_number: Option<string>,
    po_id: Option<string>,
    bol_id: Option<string>,
    charges: seq<Charge>,
    total_amount: real,
    payment_terms: Option<string>,
    due_date: Option<string>,
    invoice_file_id: Option<string>)

  /**
   * The row `createInvoice` inserts: status `pending`, no match type, match
   * confidence 0, no approval; a missing or empty optional text is NULL.
   */
  function NewRow(data: NewInvoice, id: string, now: Timestamp): (inv: Invoice)
    ensures inv.id == id && inv.status == DefaultStatus
    ensures inv.match_type.None? && inv.match_confidence == DefaultMatchConfidence
    ensures inv.approved_at.None? && inv.approved_by.None? && inv.approval_notes.None?
    ensures inv.created_at == now && inv.updated_at == now
    ensures inv.po_id.None? <==> data.po_id.None? || data.po_id.value == ""
    ensures inv.bol_id.None? <==> data.bol_id.None? || data.bol_id.value == ""
    ensures inv.po_id.Some? ==> inv.po_id == data.po_id
    ensures inv.bol_id.Some? ==> inv.bol_id == data.bol_id
    ensures inv.bol_number.None? <==> data.bol_number.None? || data.bol_number.value == ""
    ensures inv.payment_terms.None? <==> data.payment_terms.None? || data.payment_terms.value == ""
    ensures inv.due_date.None? <==> data.due_date.None? || data.due_date.value == ""
    ensures inv.invoice_file_id.None? <==> data.invoice_file_id.None? || data.invoice_file_id.value == ""
    ensures && inv.invoice_number == data.invoice_number && inv.carrier_name == data.carrier_name
            && inv.invoice_date == data.invoice_date && inv.po_number == data.po_number
            && inv.charges == data.charges && inv.total_amount == data.total_amount
  {
    Invoice(id, data.invoice_number, data.carrier_name, data.invoice_date, data.po_number,
            StringOrNull(data.bol_number), StringOrNull(data.po_id), StringOrNull(data.bol_id),
            data.charges, data.total_amount, StringOrNull(data.payment_terms),
            StringOrNull(data.due_date), StringOrNull(data.invoice_file_id),
            None, DefaultMatchConfidence, DefaultStatus, None, None, None, now, now)
  }

  /** `where(eq(invoicesTable.id, id))`. */
  function HasId(id: string): Invoice -> bool {
    (inv: Invoice) => inv.id == id
  }

  /** `set({status, updated_at})`. */
  function WithStatus(status: InvoiceStatus, now: Timestamp): Invoice -> Invoice {
    (inv: Invoice) => inv.(status := status, updated_at := now)
  }

  /** `set({status: 'approved', approved_at, approved_by, approval_notes: notes || null, updated_at})`. */
  function WithApproval(approvedBy: string, notes: Option<string>, now: Timestamp): Invoice -> Invoice {
    (inv: Invoice) => inv.(status := InvoiceStatus.Approved, approved_at := Some(now),
                           approved_by := Some(approvedBy), approval_notes := StringOrNull(notes),
                           updated_at := now)
  }

  /** `set({po_id, updated_at})`. */
  function WithPoLink(poId: string, now: Timestamp): Invoice -> Invoice {
    (inv: Invoice) => inv.(po_id := Some(poId), updated_at := now)
  }

  /** `set({bol_id, updated_at})`. */
  function WithBolLink(bolId: string, now: Timestamp): Invoice -> Invoice {
    (inv: Invoice) => inv.(bol_id := Some(bolId), updated_at := now)
  }

  /** `set({match_type, match_confidence, updated_at})`. */
  function WithMatchInfo(matchType: MatchType, confidence: real, now: Timestamp): Invoice -> Invoice {
    (inv: Invoice) => inv.(match_type := Some(matchType), match_confidence := confidence, updated_at := now)
  }

  /** A rewrite that keeps both keys of the table. */
  ghost predicate KeepsKeys(f: Invoice -> Invoice) {
    forall inv :: f(inv).id == inv.id && f(inv).invoice_number == inv.invoice_number
  }

  /** A rewrite that keeps each link or sets it to an existing row. */
  ghost predicate KeepsReferences(f: Invoice -> Invoice, poIds: seq<string>, bolIds: seq<string>) {
    && (forall inv :: f(inv).po_id == inv.po_id || (f(inv).po_id.Some? && f(inv).po_id.value in poIds))
    && (forall inv :: f(inv).bol_id == inv.bol_id || (f(inv).bol_id.Some? && f(inv).bol_id.value in bolIds))
  }

  /** A key-preserving rewrite that links only to existing rows keeps the table valid. */
  lemma UpdateKeepsValid(rows: seq<Invoice>, poIds: seq<string>, bolIds: seq<string>, id: string, f: Invoice -> Invoice)
    requires TableValid(rows, poIds, bolIds) && KeepsKeys(f) && KeepsReferences(f, poIds, bolIds)
    ensures TableValid(Tables.UpdateByKey(rows, Key, id, f), poIds, bolIds)
    ensures Tables.Project(Tables.UpdateByKey(rows, Key, id, f), Key) == Tables.Project(rows, Key)
    ensures Tables.Project(Tables.UpdateByKey(rows, Key, id, f), Number) == Tables.Project(rows, Number)
  {
    Tables.UpdateKeepsKeys(rows, Tables.KeyIs(Key, id), f, Key);
    Tables.UpdateKeepsKeys(rows, Tables.KeyIs(Key, id), f, Number);
    var r := Tables.UpdateByKey(rows, Key, id, f);
    forall inv | inv in r
      ensures Ids.IsIdOf(Ids.Inv, inv.id)
      ensures inv.po_id.Some? ==> inv.po_id.value in poIds
      ensures inv.bol_id.Some? ==> inv.bol_id.value in bolIds
    {
      var i :| 0 <= i < |r| && r[i] == inv;
      assert rows[i] in rows;
    }
  }

  /**
   * `update ... where id returning *` followed by `const [updated] = ...`:
   * the rewritten row, or `None` when no row has that identifier.
   */
  method UpdateReturning(db: Database, id: string, f: Invoice -> Invoice)
    returns (updated: Option<Invoice>)
    requires db.Valid() && KeepsKeys(f) && KeepsReferences(f, db.PoIds(), db.BolIds())
    modifies db
    ensures db.Valid()
    ensures db.invoices == Tables.UpdateByKey(old(db.invoices), Key, id, f)
    ensures db.pos == old(db.pos) && db.bols == old(db.bols) && db.results == old(db.results)
    ensures updated == match Tables.FirstWhere(old(db.invoices), HasId(id))
                       case Some(inv) => Some(f(inv))
                       case None => None
  {
    UpdateKeepsValid(db.invoices, db.PoIds(), db.BolIds(), id, f);
    Tables.FirstWhereAfterUpdate(db.invoices, HasId(id), f);
    Tables.UpdateByKeyIsUpdateWhere(db.invoices, Key, id, HasId(id), f);
    db.invoices := Tables.UpdateByKey(db.invoices, Key, id, f);
    updated := Tables.FirstWhere(db.invoices, HasId(id));
  }

  /**
   * `createInvoice`: inserts a `pending` row under a fresh `inv_` identifier.
   * The insert is refused when the identifier or the invoice number is taken,
   * or when a given `po_id` / `bol_id` names no existing row.
   */
  method CreateInvoice(db: Database, data: NewInvoice, suffix: string, now: Timestamp)
    returns (r: Result<Invoice, DbError>)
    requires db.Valid()
    modifies db
    ensures db.Valid()
    ensures db.pos == old(db.pos) && db.bols == old(db.bols) && db.results == old(db.results)
    ensures var row := NewRow(data, Ids.GenerateId(Ids.Inv, suffix), now);
      r == if Tables.HasKey(old(db.invoices), Key, row.id) then Err(DuplicateKey("id"))
           else if Tables.HasKey(old(db.invoices), Number, row.invoice_number) then Err(DuplicateKey("invoice_number"))
           else if row.po_id.Some? && row.po_id.value !in old(db.PoIds()) then Err(MissingReference("po_id"))
           else if row.bol_id.Some? && row.bol_id.value !in old(db.BolIds()) then Err(MissingReference("bol_id"))
           else Ok(row)
    ensures r.Ok? ==> db.invoices == old(db.invoices) + [r.value]
    ensures r.Err? ==> db.invoices == old(db.invoices)
  {
    var row := NewRow(data, Ids.GenerateId(Ids.Inv, suffix), now);
    if Tables.HasKey(db.invoices, Key, row.id) {
      return Err(DuplicateKey("id"));
    }
    if Tables.HasKey(db.invoices, Number, row.invoice_number) {
      return Err(DuplicateKey("invoice_number"));
    }
    if row.po_id.Some? && row.po_id.value !in db.PoIds() {
      return Err(MissingReference("po_id"));
    }
    if row.bol_id.Some? && row.bol_id.value !in db.BolIds() {
      return Err(MissingReference("bol_id"));
    }
    Tables.AppendKeepsUnique(db.invoices, row, Key);
    Tables.AppendKeepsUnique(db.invoices, row, Number);
    Tables.AppendKeepsKeys(db.invoices, row, Key);
    db.invoices := db.invoices + [row];
    r := Ok(row);
  }

  /** `getInvoiceById`: the row with that identifier, or a not-found error. */
  method GetInvoiceById(db: Database, id: string) returns (r: Result<Invoice, DbError>)
    ensures r.Ok? <==> exists inv :: inv in db.invoices && inv.id == id
    ensures r.Ok? ==> r.value in db.invoices && r.value.id == id
    ensures r.Err? ==> r.error == NotFound("Invoice with ID " + id + " not found")
  {
    var inv := Tables.FirstWhere(db.invoices, HasId(id));
    if inv.None? {
      return Err(NotFound("Invoice with ID " + id + " not found"));
    }
    r := Ok(inv.value);
  }

  /** `getInvoiceByNumber`: the row with that invoice number, or a not-found error. */
  method GetInvoiceByNumber(db: Database, invoiceNumber: string) returns (r: Result<Invoice, DbError>)
    ensures r.Ok? <==> exists inv :: inv in db.invoices && inv.invoice_number == invoiceNumber
    ensures r.Ok? ==> r.value in db.invoices && r.value.invoice_number == invoiceNumber
    ensures r.Err? ==> r.error == NotFound("Invoice with number " + invoiceNumber + " not found")
  {
    var inv := Tables.FirstWhere(db.invoices, (inv: Invoice) => inv.invoice_number == invoiceNumber);
    if inv.None? {
      return Err(NotFound("Invoice with number " + invoiceNumber + " not found"));
    }
    r := Ok(inv.value);
  }

  /** `getInvoicesByPOId`: every invoice linked to that purchase order. */
  method GetInvoicesByPOId(db: Database, poId: string) returns (rows: seq<Invoice>)
    ensures forall inv :: inv in rows <==> inv in db.invoices && inv.po_id == Some(poId)
  {
    rows := Tables.Where(db.invoices, (inv: Invoice) => inv.po_id == Some(poId));
  }

  /** `getInvoicesByBOLId`: every invoice linked to that bill of lading. */
  method GetInvoicesByBOLId(db: Database, bolId: string) returns (rows: seq<Invoice>)
    ensures forall inv :: inv in rows <==> inv in db.invoices && inv.bol_id == Some(bolId)
  {
    rows := Tables.Where(db.invoices, (inv: Invoice) => inv.bol_id == Some(bolId));
  }

  /**
   * `updateInvoiceStatus`: any of the six statuses from any current status;
   * only `status` and `updated_at` change; an unknown identifier raises.
   */
  method UpdateInvoiceStatus(db: Database, id: string, status: InvoiceStatus, now: Timestamp)
    returns (r: Result<Invoice, DbError>)
    requires db.Valid()
    modifies db
    ensures db.Valid()
    ensures db.invoices == Tables.UpdateByKey(old(db.invoices), Key, id, WithStatus(status, now))
    ensures db.pos == old(db.pos) && db.bols == old(db.bols) && db.results == old(db.results)
    ensures r == match Tables.FirstWhere(old(db.invoices), HasId(id))
                 case Some(inv) => Ok(inv.(status := status, updated_at := now))
                 case None => Err(NotFound("Invoice with ID " + id + " not found"))
  {
    var updated := UpdateReturning(db, id, WithStatus(status, now));
    if updated.None? {
      return Err(NotFound("Invoice with ID " + id + " not found"));
    }
    r := Ok(updated.value);
  }

  /**
   * `approveInvoice`: status `approved`, the approver and time recorded, an
   * empty or missing note stored as NULL; allowed from any status.
   */
  method ApproveInvoice(db: Database, id: string, approvedBy: string, notes: Option<string>, now: Timestamp)
    returns (r: Result<Invoice, DbError>)
    requires db.Valid()
    modifies db
    ensures db.Valid()
    ensures db.invoices == Tables.UpdateByKey(old(db.invoices), Key, id, WithApproval(approvedBy, notes, now))
    ensures db.pos == old(db.pos) && db.bols == old(db.bols) && db.results == old(db.results)
    ensures r == match Tables.FirstWhere(old(db.invoices), HasId(id))
                 case Some(inv) => Ok(inv.(status := InvoiceStatus.Approved, approved_at := Some(now),
                                           approved_by := Some(approvedBy), approval_notes := StringOrNull(notes),
                                           updated_at := now))
                 case None => Err(NotFound("Invoice with ID " + id + " not found"))
  {
    var updated := UpdateReturning(db, id, WithApproval(approvedBy, notes, now));
    if updated.None? {
      return Err(NotFound("Invoice with ID " + id + " not found"));
    }
    r := Ok(updated.value);
  }

  /**
   * `linkToPO`: sets `po_id` (and `updated_at`) and nothing else; an unknown
   * invoice raises not-found, an unknown purchase order violates the reference.
   */
  method LinkToPO(db: Database, invoiceId: string, poId: string, now: Timestamp)
    returns (r: Result<Invoice, DbError>)
    requires db.Valid()
    modifies db
    ensures db.Valid()
    ensures db.pos == old(db.pos) && db.bols == old(db.bols) && db.results == old(db.results)
    ensures var existing := Tables.FirstWhere(old(db.invoices), HasId(invoiceId));
      r == if existing.None? then Err(NotFound("Invoice with ID " + invoiceId + " not found"))
           else if poId !in old(db.PoIds()) then Err(MissingReference("po_id"))
           else Ok(existing.value.(po_id := Some(poId), updated_at := now))
    ensures r.Ok? ==> db.invoices == Tables.UpdateByKey(old(db.invoices), Key, invoiceId, WithPoLink(poId, now))
    ensures r.Err? ==> db.invoices == old(db.invoices)
  {
    var existing := Tables.FirstWhere(db.invoices, HasId(invoiceId));
    if existing.None? {
      return Err(NotFound("Invoice with ID " + invoiceId + " not found"));
    }
    if poId !in db.PoIds() {
      return Err(MissingReference("po_id"));
    }
    var updated := UpdateReturning(db, invoiceId, WithPoLink(poId, now));
    r := Ok(updated.value);
  }

  /**
   * `linkToBOL`: sets `bol_id` (and `updated_at`) and nothing else; an
   * unknown invoice raises not-found, an unknown BOL violates the reference.
   */
  method LinkToBOL(db: Database, invoiceId: string, bolId: string, now: Timestamp)
    returns (r: Result<Invoice, DbError>)
    requires db.Valid()
    modifies db
    ensures db.Valid()
    ensures db.pos == old(db.pos) && db.bols == old(db.bols) && db.results == old(db.results)
    ensures var existing := Tables.FirstWhere(old(db.invoices), HasId(invoiceId));
      r == if existing.None? then Err(NotFound("Invoice with ID " + invoiceId + " not found"))
           else if bolId !in old(db.BolIds()) then Err(MissingReference("bol_id"))
           else Ok(existing.value.(bol_id := Some(bolId), updated_at := now))
    ensures r.Ok? ==> db.invoices == Tables.UpdateByKey(old(db.invoices), Key, invoiceId, WithBolLink(bolId, now))
    ensures r.Err? ==> db.invoices == old(db.invoices)
  {
    var existing := Tables.FirstWhere(db.invoices, HasId(invoiceId));
    if existing.None? {
      return Err(NotFound("Invoice with ID " + invoiceId + " not found"));
    }
    if bolId !in db.BolIds() {
      return Err(MissingReference("bol_id"));
    }
    var updated := UpdateReturning(db, invoiceId, WithBolLink(bolId, now));
    r := Ok(updated.value);
  }

  /**
   * `updateMatchInfo`: records how the invoice was linked and with what
   * confidence; the confidence is stored as given, unchecked.
   */
  method UpdateMatchInfo(db: Database, id: string, matchType: MatchType, confidence: real, now: Timestamp)
    returns (r: Result<Invoice, DbError>)
    requires db.Valid()
    modifies db
    ensures db.Valid()
    ensures db.invoices == Tables.UpdateByKey(old(db.invoices), Key, id, WithMatchInfo(matchType, confidence, now))
    ensures db.pos == old(db.pos) && db.bols == old(db.bols) && db.results == old(db.results)
    ensures r == match Tables.FirstWhere(old(db.invoices), HasId(id))
                 case Some(inv) => Ok(inv.(match_type := Some(matchType), match_confidence := confidence, updated_at := now))
                 case None => Err(NotFound("Invoice with ID " + id + " not found"))
  {
    var updated := UpdateReturning(db, id, WithMatchInfo(matchType, confidence, now));
    if updated.None? {
      return Err(NotFound("Invoice with ID " + id + " not found"));
    }
    r := Ok(updated.value);
  }
}
