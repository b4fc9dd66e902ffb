/**
 * `MatchingService`: three-way matching of an invoice against its purchase
 * order and bill of lading. The documents are linked by PO number, an
 * analyzer (a language model in the system) returns a verdict, the verdict is
 * normalised into a `matching_results` row, and on a match the three
 * documents are marked `matched`.
 */
module MatchingService {
  import opened Wrappers
  import opened Fields
  import opened Store
  import opened MatchingResults
  import PurchaseOrders
  import BillsOfLading
  import Invoices
  import Ids
  import Tables
  import Text
  import POService
  import BOLService
  import InvoiceService

  /** The documents a match is run on; the bill of lading may be missing. */
  datatype MatchingDocuments = MatchingDocuments(
    po: PurchaseOrders.PurchaseOrder,
    bol: Option<BillsOfLading.BillOfLading>,
    invoice: Invoices.Invoice)

  /** A `string | number` value quoted in a discrepancy. */
  datatype FieldValue = Num(n: real) | Str(s: string)

  /** One discrepancy the analyzer reports. */
  datatype Discrepancy = Discrepancy(field: string, po_value: FieldValue, invoice_value: FieldValue, issue: string)

  /** The analyzer's verdict. */
  datatype Analysis = Analysis(
    matched: bool,
    confidence: real,
    variance_amount: real,
    variance_percentage: real,
    reasoning: string,
    discrepancies: seq<Discrepancy>)

  /** The analyzer: the verdict for a set of documents, or the message of the error it raised. */
  type Analyzer = MatchingDocuments -> Result<Analysis, string>

  // ---------------------------------------------------------------- fetching

  /**
   * `fetchRelatedDocuments`: the invoice by identifier (an error when it is
   * missing), then the first purchase order and the first bill of lading
   * carrying the invoice's `po_number`. No purchase order gives `None`; no
   * bill of lading gives documents without one.
   */
  function FetchRelatedDocuments(invoices: seq<Invoices.Invoice>, pos: seq<PurchaseOrders.PurchaseOrder>,
                                 bols: seq<BillsOfLading.BillOfLading>, invoiceId: string)
    : (r: Result<Option<MatchingDocuments>, string>)
    ensures r.Err? <==> forall inv :: inv in invoices ==> inv.id != invoiceId
    ensures r.Err? ==> r.error == "Invoice " + invoiceId + " not found"
    ensures r.Ok? && r.value.None? ==>
      exists inv :: inv in invoices && inv.id == invoiceId && forall p :: p in pos ==> p.po_number != inv.po_number
    ensures r.Ok? && r.value.Some? ==>
      var d := r.value.value;
      && d.invoice in invoices && d.invoice.id == invoiceId
      && d.po in pos && d.po.po_number == d.invoice.po_number
      && (d.bol.Some? ==> d.bol.value in bols && d.bol.value.po_number == d.invoice.po_number)
      && (d.bol.None? <==> forall b :: b in bols ==> b.po_number != d.invoice.po_number)
  {
    match Tables.FirstWhere(invoices, InvoiceService.HasId(invoiceId))
    case None => Err("Invoice " + invoiceId + " not found")
    case Some(invoice) =>
      match Tables.FirstWhere(pos, POService.HasNumber(invoice.po_number))
      case None => Ok(None)
      case Some(po) =>
        Ok(Some(MatchingDocuments(po, Tables.FirstWhere(bols, QuotesPoNumber(invoice.po_number)), invoice)))
  }

  /** `where(eq(billsOfLadingTable.po_number, poNumber))`. */
  function QuotesPoNumber(poNumber: string): BillsOfLading.BillOfLading -> bool {
    (b: BillsOfLading.BillOfLading) => b.po_number == poNumber
  }

  /** With unique identifiers, an invoice with no purchase order is reported as `None` and never as an error. */
  lemma {:induction false} NoPoIsNotAnError(invoices: seq<Invoices.Invoice>, pos: seq<PurchaseOrders.PurchaseOrder>,
                                            bols: seq<BillsOfLading.BillOfLading>, inv: Invoices.Invoice)
    requires Tables.UniqueBy(invoices, Invoices.Key)
    requires inv in invoices && forall p :: p in pos ==> p.po_number != inv.po_number
    ensures FetchRelatedDocuments(invoices, pos, bols, inv.id) == Ok(None)
  {
    var found := Tables.FirstWhere(invoices, InvoiceService.HasId(inv.id));
    var i :| 0 <= i < |invoices| && invoices[i] == inv;
    var j :| 0 <= j < |invoices| && invoices[j] == found.value;
    assert Invoices.Key(invoices[i]) == Invoices.Key(invoices[j]);
  }

  // ------------------------------------------------------ charge comparison

  /** `typeof v === 'number' ? v : null`. */
  function NumericValue(v: FieldValue): (r: Option<real>)
    ensures r.Some? <==> v.Num?
    ensures v.Num? ==> r == Some(v.n)
  {
    match v
    case Num(n) => Some(n)
    case Str(_) => None
  }

  /** The entry for one discrepancy: always `variance`, never a BOL amount. */
  function DiscrepancyEntry(d: Discrepancy): ChargeComparison {
    ChargeComparison(d.field, NumericValue(d.po_value), None, NumericValue(d.invoice_value), ChargeStatus.Variance)
  }

  /** `discrepancies.map(...)`: one entry per discrepancy, in order. */
  function DiscrepancyEntries(ds: seq<Discrepancy>): (es: seq<ChargeComparison>)
    ensures |es| == |ds|
    ensures forall i :: 0 <= i < |ds| ==> es[i] == DiscrepancyEntry(ds[i])
  {
    seq(|ds|, i requires 0 <= i < |ds| => DiscrepancyEntry(ds[i]))
  }

  /** Case-insensitive equality of charge descriptions. */
  function SameDescription(description: string): Charge -> bool {
    (c: Charge) => Text.ToLower(c.description) == Text.ToLower(description)
  }

  /** `invoiceCharges.find(...)`: the first charge whose description matches ignoring case. */
  function FindChargeByDescription(charges: seq<Charge>, description: string): (r: Option<Charge>)
    ensures r.None? <==> forall c :: c in charges ==> Text.ToLower(c.description) != Text.ToLower(description)
    ensures r.Some? ==> r.value in charges && Text.ToLower(r.value.description) == Text.ToLower(description)
  {
    Tables.FirstWhere(charges, SameDescription(description))
  }

  /**
   * A purchase-order charge that is reported as matched: the first invoice
   * charge with its description carries exactly its amount.
   */
  predicate ChargeMatched(invoiceCharges: seq<Charge>, c: Charge) {
    var found := FindChargeByDescription(invoiceCharges, c.description);
    found.Some? && found.value.amount == c.amount
  }

  /** `ChargeMatched` as the condition of a selection. */
  function IsMatchedIn(invoiceCharges: seq<Charge>): Charge -> bool {
    (c: Charge) => ChargeMatched(invoiceCharges, c)
  }

  /** The entry pushed for a matched charge; its status is `variance`, as written. */
  function MatchedEntry(c: Charge): ChargeComparison {
    ChargeComparison(c.description, Some(c.amount), None, Some(c.amount), ChargeStatus.Variance)
  }

  /**
   * The entries the `forEach` pushes for the purchase-order charges, in
   * purchase-order order: one for each charge the invoice carries with the
   * same amount, each under status `variance` with equal PO and invoice
   * amounts.
   */
  function MatchedChargeEntries(poCharges: seq<Charge>, invoiceCharges: seq<Charge>): (es: seq<ChargeComparison>)
    ensures |es| <= |poCharges|
    ensures forall i :: 0 <= i < |es| ==>
      && es[i].status == ChargeStatus.Variance && es[i].bol_amount.None?
      && es[i].po_amount.Some? && es[i].invoice_amount == es[i].po_amount
    decreases |poCharges|
  {
    if poCharges == [] then []
    else
      var c := poCharges[|poCharges| - 1];
      MatchedChargeEntries(poCharges[..|poCharges| - 1], invoiceCharges)
        + (if ChargeMatched(invoiceCharges, c) then [MatchedEntry(c)] else [])
  }

  /** One more purchase-order charge adds its entry at the end when it is matched. */
  lemma MatchedChargeEntriesStep(poCharges: seq<Charge>, invoiceCharges: seq<Charge>, j: nat)
    requires j < |poCharges|
    ensures MatchedChargeEntries(poCharges[..j + 1], invoiceCharges)
         == MatchedChargeEntries(poCharges[..j], invoiceCharges)
            + (if ChargeMatched(invoiceCharges, poCharges[j]) then [MatchedEntry(poCharges[j])] else [])
  {
    assert poCharges[..j + 1][..j] == poCharges[..j];
  }

  /**
   * The pushed entries are exactly the matched charges selected from the
   * purchase order, in order, each turned into its entry.
   */
  lemma {:induction false} MatchedChargeEntriesSelectMatched(poCharges: seq<Charge>, invoiceCharges: seq<Charge>)
    ensures var matched := Tables.Where(poCharges, IsMatchedIn(invoiceCharges));
            var es := MatchedChargeEntries(poCharges, invoiceCharges);
            |es| == |matched| && forall i :: 0 <= i < |es| ==> es[i] == MatchedEntry(matched[i])
    decreases |poCharges|
  {
    if poCharges != [] {
      var init, c := poCharges[..|poCharges| - 1], poCharges[|poCharges| - 1];
      assert poCharges == init + [c];
      Tables.WhereAppend(init, c, IsMatchedIn(invoiceCharges));
      MatchedChargeEntriesSelectMatched(init, invoiceCharges);
    }
  }

  /**
   * Every pushed entry repeats a purchase-order charge that the invoice
   * carries under the same description (ignoring case) with the same amount.
   */
  lemma MatchedEntriesComeFromBothDocuments(poCharges: seq<Charge>, invoiceCharges: seq<Charge>, i: int)
    requires 0 <= i < |MatchedChargeEntries(poCharges, invoiceCharges)|
    ensures var e := MatchedChargeEntries(poCharges, invoiceCharges)[i];
      exists c, ic :: && c in poCharges && ic in invoiceCharges
                      && Text.ToLower(ic.description) == Text.ToLower(c.description)
                      && e == ChargeComparison(c.description, Some(c.amount), None, Some(ic.amount), ChargeStatus.Variance)
  {
    MatchedChargeEntriesSelectMatched(poCharges, invoiceCharges);
    var matched := Tables.Where(poCharges, IsMatchedIn(invoiceCharges));
    var c := matched[i];
    assert c in matched;
    var ic := FindChargeByDescription(invoiceCharges, c.description).value;
    assert ic.amount == c.amount;
  }

  /**
   * The `charge_comparison` list: first one entry per discrepancy, in order,
   * then the entries for the matched purchase-order charges. Every entry has
   * status `variance` and no BOL amount.
   */
  function ChargeComparisonOf(ds: seq<Discrepancy>, poCharges: seq<Charge>, invoiceCharges: seq<Charge>)
    : (cc: seq<ChargeComparison>)
    ensures |ds| <= |cc| <= |ds| + |poCharges|
    ensures forall i :: 0 <= i < |ds| ==> cc[i] == DiscrepancyEntry(ds[i])
    ensures cc[|ds|..] == MatchedChargeEntries(poCharges, invoiceCharges)
    ensures forall i :: 0 <= i < |cc| ==> cc[i].status == ChargeStatus.Variance && cc[i].bol_amount.None?
  {
    var es := DiscrepancyEntries(ds);
    var ms := MatchedChargeEntries(poCharges, invoiceCharges);
    assert (es + ms)[|ds|..] == ms;
    es + ms
  }

  /**
   * `saveMatchingResult`'s list building: the discrepancy entries, then a
   * `forEach` over the purchase-order charges pushing an entry for each one
   * matched on the invoice.
   */
  method BuildChargeComparison(ds: seq<Discrepancy>, poCharges: seq<Charge>, invoiceCharges: seq<Charge>)
    returns (cc: seq<ChargeComparison>)
    ensures cc == ChargeComparisonOf(ds, poCharges, invoiceCharges)
  {
    cc := DiscrepancyEntries(ds);
    var j := 0;
    while j < |poCharges|
      invariant 0 <= j <= |poCharges|
      invariant cc == DiscrepancyEntries(ds) + MatchedChargeEntries(poCharges[..j], invoiceCharges)
    {
      MatchedChargeEntriesStep(poCharges, invoiceCharges, j);
      var pushed := EntryFor(poCharges[j], invoiceCharges);
      cc := cc + pushed;
      j := j + 1;
    }
    assert poCharges[..j] == poCharges;
  }

  /** The body of the `forEach`: the entry a purchase-order charge pushes, if any. */
  method EntryFor(c: Charge, invoiceCharges: seq<Charge>) returns (pushed: seq<ChargeComparison>)
    ensures pushed == if ChargeMatched(invoiceCharges, c) then [MatchedEntry(c)] else []
  {
    var invCharge := FindChargeByDescription(invoiceCharges, c.description);
    if invCharge.Some? && invCharge.value.amount == c.amount {
      pushed := [MatchedEntry(c)];
    } else {
      pushed := [];
    }
  }

  // ---------------------------------------------------------- flags, totals

  /** A high-severity discrepancy: its lower-cased issue mentions "significant". */
  predicate IsSignificant(d: Discrepancy) {
    Text.Contains(Text.ToLower(d.issue), "significant")
  }

  /** Severity does not depend on the case the issue is written in. */
  lemma SignificanceIgnoresCase(d: Discrepancy)
    ensures IsSignificant(d) <==> IsSignificant(d.(issue := Text.ToLower(d.issue)))
  {
    Text.ToLowerIdempotent(d.issue);
  }

  /** `reduce((sum, c) => sum + c.amount, 0)`: a left fold over the amounts. */
  function SumAmounts(charges: seq<Charge>): real
    decreases |charges|
  {
    if charges == [] then 0.0
    else SumAmounts(charges[..|charges| - 1]) + charges[|charges| - 1].amount
  }

  /** The fold is additive over concatenation: the total of two lists is the sum of their totals. */
  lemma {:induction false} SumAmountsConcat(a: seq<Charge>, b: seq<Charge>)
    ensures SumAmounts(a + b) == SumAmounts(a) + SumAmounts(b)
    decreases |b|
  {
    if b != [] {
      assert (a + b)[..|a + b| - 1] == a + b[..|b| - 1];
      SumAmountsConcat(a, b[..|b| - 1]);
    } else {
      assert a + b == a;
    }
  }

  /** `docs.bol?.actual_charges?.reduce(...)`: absent without a BOL or without actual charges. */
  function BolTotal(bol: Option<BillsOfLading.BillOfLading>): (t: Option<real>)
    ensures t.Some? <==> bol.Some? && bol.value.actual_charges.Some?
    ensures t.Some? ==> t.value == SumAmounts(bol.value.actual_charges.value)
  {
    match bol
    case None => None
    case Some(b) =>
      match b.actual_charges
      case None => None
      case Some(cs) => Some(SumAmounts(cs))
  }

  /** `docs.bol?.id || null`. */
  function BolId(bol: Option<BillsOfLading.BillOfLading>): (id: Option<string>)
    ensures id.None? <==> bol.None? || bol.value.id == ""
    ensures id.Some? ==> id.value == bol.value.id
  {
    StringOrNull(if bol.Some? then Some(bol.value.id) else None)
  }

  /**
   * The row `saveMatchingResult` inserts. `match_status` is `perfect_match`
   * for a match and `major_variance` otherwise, never the other two; the
   * verdict's numbers are copied; every discrepancy is a flag and the
   * high-severity flags are among them.
   */
  function NewMatchingResult(docs: MatchingDocuments, a: Analysis, id: string, now: Timestamp): (m: MatchingResult)
    ensures m.id == id && m.created_at == now
    ensures m.po_id == docs.po.id && m.invoice_id == docs.invoice.id && m.bol_id == BolId(docs.bol)
    ensures m.match_status == MatchStatus.PerfectMatch <==> a.matched
    ensures m.match_status == MatchStatus.MajorVariance <==> !a.matched
    ensures m.confidence_score == a.confidence
    ensures m.comparison.Some?
    ensures var c := m.comparison.value;
      && c.po_total == docs.po.total_amount && c.invoice_total == docs.invoice.total_amount
      && c.bol_total == BolTotal(docs.bol)
      && c.variance == a.variance_amount && c.variance_pct == a.variance_percentage
      && c.charge_comparison == ChargeComparisonOf(a.discrepancies, docs.po.expected_charges, docs.invoice.charges)
    ensures m.flags_count == |a.discrepancies|
    ensures m.high_severity_flags == |Tables.Where(a.discrepancies, IsSignificant)| <= m.flags_count
    ensures m.daytona_job_id.None? && m.daytona_logs_url.None?
  {
    MatchingResult(
      id, docs.po.id, BolId(docs.bol), docs.invoice.id,
      if a.matched then MatchStatus.PerfectMatch else MatchStatus.MajorVariance,
      a.confidence,
      Some(Comparison(docs.po.total_amount, BolTotal(docs.bol), docs.invoice.total_amount,
                      a.variance_amount, a.variance_percentage,
                      ChargeComparisonOf(a.discrepancies, docs.po.expected_charges, docs.invoice.charges))),
      |a.discrepancies|,
      |Tables.Where(a.discrepancies, IsSignificant)|,
      None, None, now)
  }

  // ------------------------------------------------------------------ saving

  /**
   * What inserting a result row does under the table's constraints: a taken
   * identifier or a reference to a missing document is refused.
   */
  function SaveOutcome(results: seq<MatchingResult>, poIds: seq<string>, bolIds: seq<string>,
                       invoiceIds: seq<string>, row: MatchingResult): (r: Result<MatchingResult, DbError>)
    ensures r.Ok? ==> r.value == row
    ensures r.Ok? <==> && !Tables.HasKey(results, Key, row.id)
                       && row.po_id in poIds && row.invoice_id in invoiceIds
                       && (row.bol_id.Some? ==> row.bol_id.value in bolIds)
  {
    if Tables.HasKey(results, Key, row.id) then Err(DuplicateKey("id"))
    else if row.po_id !in poIds then Err(MissingReference("po_id"))
    else if row.bol_id.Some? && row.bol_id.value !in bolIds then Err(MissingReference("bol_id"))
    else if row.invoice_id !in invoiceIds then Err(MissingReference("invoice_id"))
    else Ok(row)
  }

  /**
   * `saveMatchingResult`: builds the row for the verdict under a fresh `m_`
   * identifier and inserts it; the document tables are not touched.
   */
  method SaveMatchingResult(db: Database, docs: MatchingDocuments, a: Analysis, suffix: string, now: Timestamp)
    returns (r: Result<MatchingResult, DbError>)
    requires db.Valid()
    modifies db
    ensures db.Valid()
    ensures r == SaveOutcome(old(db.results), old(db.PoIds()), old(db.BolIds()), old(db.InvoiceIds()),
                             NewMatchingResult(docs, a, Ids.GenerateId(Ids.Match, suffix), now))
    ensures r.Ok? ==> db.results == old(db.results) + [r.value]
    ensures r.Err? ==> db.results == old(db.results)
    ensures db.pos == old(db.pos) && db.bols == old(db.bols) && db.invoices == old(db.invoices)
  {
    var row := BuildResultRow(docs, a, Ids.GenerateId(Ids.Match, suffix), now);
    r := InsertResult(db, row);
  }

  /** The row `saveMatchingResult` builds before inserting it. */
  method BuildResultRow(docs: MatchingDocuments, a: Analysis, id: string, now: Timestamp) returns (row: MatchingResult)
    ensures row == NewMatchingResult(docs, a, id, now)
  {
    var cc := BuildChargeComparison(a.discrepancies, docs.po.expected_charges, docs.invoice.charges);
    row := MatchingResult(
      id, docs.po.id, BolId(docs.bol), docs.invoice.id,
      if a.matched then MatchStatus.PerfectMatch else MatchStatus.MajorVariance,
      a.confidence,
      Some(Comparison(docs.po.total_amount, BolTotal(docs.bol), docs.invoice.total_amount,
                      a.variance_amount, a.variance_percentage, cc)),
      |a.discrepancies|,
      |Tables.Where(a.discrepancies, IsSignificant)|,
      None, None, now);
  }

  /** `insert into matching_results ... returning *` under the table's constraints. */
  method InsertResult(db: Database, row: MatchingResult) returns (r: Result<MatchingResult, DbError>)
    requires db.Valid()
    requires Ids.IsIdOf(Ids.Match, row.id)
    modifies db
    ensures db.Valid()
    ensures r == SaveOutcome(old(db.results), old(db.PoIds()), old(db.BolIds()), old(db.InvoiceIds()), row)
    ensures r.Ok? ==> db.results == old(db.results) + [r.value]
    ensures r.Err? ==> db.results == old(db.results)
    ensures db.pos == old(db.pos) && db.bols == old(db.bols) && db.invoices == old(db.invoices)
  {
    r := SaveOutcome(db.results, db.PoIds(), db.BolIds(), db.InvoiceIds(), row);
    if r.Ok? {
      Tables.AppendKeepsUnique(db.results, row, Key);
      db.results := db.results + [row];
    }
  }

  // ---------------------------------------------------------------- statuses

  /**
   * The document tables after `updateDocumentStatuses`: on a match the
   * purchase order, the bill of lading when there is one, and the invoice
   * are set to `matched`; otherwise nothing is written.
   */
  predicate StatusesWritten(oldPos: seq<PurchaseOrders.PurchaseOrder>, oldBols: seq<BillsOfLading.BillOfLading>,
                            oldInvoices: seq<Invoices.Invoice>, pos: seq<PurchaseOrders.PurchaseOrder>,
                            bols: seq<BillsOfLading.BillOfLading>, invoices: seq<Invoices.Invoice>,
                            docs: MatchingDocuments, a: Analysis, now: Timestamp)
  {
    if a.matched then
      && pos == POService.SetStatus(oldPos, docs.po.id, PurchaseOrders.PoStatus.Matched, now)
      && bols == (if docs.bol.Some?
                  then Tables.UpdateByKey(oldBols, BillsOfLading.Key, docs.bol.value.id, BOLService.WithStatus(BillsOfLading.BolStatus.Matched, now))
                  else oldBols)
      && invoices == Tables.UpdateByKey(oldInvoices, Invoices.Key, docs.invoice.id, InvoiceService.WithStatus(Invoices.InvoiceStatus.Matched, now))
    else
      pos == oldPos && bols == oldBols && invoices == oldInvoices
  }

  /** On a match, every row carrying one of the three documents' ids ends `matched`. */
  lemma StatusesWrittenMarksMatched(oldPos: seq<PurchaseOrders.PurchaseOrder>, oldBols: seq<BillsOfLading.BillOfLading>,
                                    oldInvoices: seq<Invoices.Invoice>, pos: seq<PurchaseOrders.PurchaseOrder>,
                                    bols: seq<BillsOfLading.BillOfLading>, invoices: seq<Invoices.Invoice>,
                                    docs: MatchingDocuments, a: Analysis, now: Timestamp)
    requires StatusesWritten(oldPos, oldBols, oldInvoices, pos, bols, invoices, docs, a, now)
    requires a.matched
    ensures forall p :: p in pos && p.id == docs.po.id ==> p.status == PurchaseOrders.PoStatus.Matched
    ensures forall inv :: inv in invoices && inv.id == docs.invoice.id ==> inv.status == Invoices.InvoiceStatus.Matched
    ensures docs.bol.Some? ==> forall b :: b in bols && b.id == docs.bol.value.id ==> b.status == BillsOfLading.BolStatus.Matched
  {
    forall p | p in pos && p.id == docs.po.id ensures p.status == PurchaseOrders.PoStatus.Matched {
      var i :| 0 <= i < |pos| && pos[i] == p;
    }
    forall inv | inv in invoices && inv.id == docs.invoice.id ensures inv.status == Invoices.InvoiceStatus.Matched {
      var i :| 0 <= i < |invoices| && invoices[i] == inv;
    }
    if docs.bol.Some? {
      forall b | b in bols && b.id == docs.bol.value.id ensures b.status == BillsOfLading.BolStatus.Matched {
        var i :| 0 <= i < |bols| && bols[i] == b;
      }
    }
  }

  /** `updateDocumentStatuses`: three unconditional updates on a match, none otherwise. */
  method UpdateDocumentStatuses(db: Database, docs: MatchingDocuments, a: Analysis, now: Timestamp)
    requires db.Valid()
    modifies db
    ensures db.Valid()
    ensures StatusesWritten(old(db.pos), old(db.bols), old(db.invoices), db.pos, db.bols, db.invoices, docs, a, now)
    ensures db.results == old(db.results)
  {
    if a.matched {
      MarkPoMatched(db, docs.po.id, now);
      if docs.bol.Some? {
        MarkBolMatched(db, docs.bol.value.id, now);
      }
      MarkInvoiceMatched(db, docs.invoice.id, now);
    }
  }

  /** `update purchase_orders set status = 'matched' where id = ...`. */
  method MarkPoMatched(db: Database, id: string, now: Timestamp)
    requires db.Valid()
    modifies db
    ensures db.Valid()
    ensures db.pos == POService.SetStatus(old(db.pos), id, PurchaseOrders.PoStatus.Matched, now)
    ensures db.bols == old(db.bols) && db.invoices == old(db.invoices) && db.results == old(db.results)
  {
    POService.SetStatusKeepsValid(db.pos, id, PurchaseOrders.PoStatus.Matched, now);
    db.pos := POService.SetStatus(db.pos, id, PurchaseOrders.PoStatus.Matched, now);
  }

  /** `update bills_of_lading set status = 'matched' where id = ...`. */
  method MarkBolMatched(db: Database, id: string, now: Timestamp)
    requires db.Valid()
    modifies db
    ensures db.Valid()
    ensures db.bols == Tables.UpdateByKey(old(db.bols), BillsOfLading.Key, id, BOLService.WithStatus(BillsOfLading.BolStatus.Matched, now))
    ensures db.pos == old(db.pos) && db.invoices == old(db.invoices) && db.results == old(db.results)
  {
    var f := BOLService.WithStatus(BillsOfLading.BolStatus.Matched, now);
    BOLService.UpdateKeepsValid(db.bols, db.PoIds(), id, f);
    db.bols := Tables.UpdateByKey(db.bols, BillsOfLading.Key, id, f);
  }

  /** `update invoices set status = 'matched' where id = ...`. */
  method MarkInvoiceMatched(db: Database, id: string, now: Timestamp)
    requires db.Valid()
    modifies db
    ensures db.Valid()
    ensures db.invoices == Tables.UpdateByKey(old(db.invoices), Invoices.Key, id, InvoiceService.WithStatus(Invoices.InvoiceStatus.Matched, now))
    ensures db.pos == old(db.pos) && db.bols == old(db.bols) && db.results == old(db.results)
  {
    var g := InvoiceService.WithStatus(Invoices.InvoiceStatus.Matched, now);
    InvoiceService.UpdateKeepsValid(db.invoices, db.PoIds(), db.BolIds(), id, g);
    db.invoices := Tables.UpdateByKey(db.invoices, Invoices.Key, id, g);
  }

  // ----------------------------------------------------------- orchestration

  /** The stages of a run, in the order they execute. */
  datatype Stage = Fetch | Analyze | Save | Update

  const Pipeline: seq<Stage> := [Fetch, Analyze, Save, Update]

  /** The error reported when the invoice's PO number names no purchase order. */
  const NO_PO_ERROR: string := "Could not find related PO for invoice"

  /**
   * How a run over the stored documents ends: an error raised at some stage
   * (with the stages started so far), the early exit for a missing purchase
   * order, or completion with the saved row.
   */
  datatype RunEnd =
    | Raised(message: string, stages: seq<Stage>)
    | NoRelatedPo
    | Completed(docs: MatchingDocuments, analysis: Analysis, row: MatchingResult)

  /** The stages a run has started. */
  function StagesOf(e: RunEnd): seq<Stage> {
    match e
    case Raised(_, stages) => stages
    case NoRelatedPo => [Fetch]
    case Completed(_, _, _) => Pipeline
  }

  /** Rows fetched from the tables satisfy the references a result row makes to them. */
  lemma FetchedRowsAreReferenceable(invoices: seq<Invoices.Invoice>, pos: seq<PurchaseOrders.PurchaseOrder>,
                                    bols: seq<BillsOfLading.BillOfLading>, docs: MatchingDocuments)
    requires docs.po in pos && docs.invoice in invoices && (docs.bol.Some? ==> docs.bol.value in bols)
    ensures docs.po.id in Tables.Project(pos, PurchaseOrders.Key)
    ensures docs.invoice.id in Tables.Project(invoices, Invoices.Key)
    ensures BolId(docs.bol).Some? ==> BolId(docs.bol).value in Tables.Project(bols, BillsOfLading.Key)
  {
    Tables.HasKeyIff(pos, PurchaseOrders.Key, docs.po.id);
    Tables.HasKeyIff(invoices, Invoices.Key, docs.invoice.id);
    if docs.bol.Some? {
      Tables.HasKeyIff(bols, BillsOfLading.Key, docs.bol.value.id);
    }
  }

  /**
   * The stages of a match run over the given tables: fetch, analyze, save,
   * update, stopping at the first error or at a missing purchase order.
   */
  function MatchRun(invoices: seq<Invoices.Invoice>, pos: seq<PurchaseOrders.PurchaseOrder>,
                    bols: seq<BillsOfLading.BillOfLading>, results: seq<MatchingResult>,
                    invoiceId: string, analyze: Analyzer, suffix: string, now: Timestamp): (e: RunEnd)
    ensures StagesOf(e) <= Pipeline
    ensures e.NoRelatedPo? <==> FetchRelatedDocuments(invoices, pos, bols, invoiceId) == Ok(None)
    ensures e.Raised? && e.stages == [Fetch] ==> e.message == "Invoice " + invoiceId + " not found"
    ensures e.Completed? ==> FetchRelatedDocuments(invoices, pos, bols, invoiceId) == Ok(Some(e.docs))
    ensures var fetched := FetchRelatedDocuments(invoices, pos, bols, invoiceId);
      fetched.Ok? && fetched.value.Some? ==> e == RunFrom(fetched.value.value, invoices, pos, bols, results, analyze, suffix, now)
  {
    match FetchRelatedDocuments(invoices, pos, bols, invoiceId)
    case Err(message) => Raised(message, [Fetch])
    case Ok(None) => NoRelatedPo
    case Ok(Some(docs)) => RunFrom(docs, invoices, pos, bols, results, analyze, suffix, now)
  }

  /**
   * The stages after a successful fetch. The save can only fail on an
   * identifier collision, because the documents it references were just
   * read from the tables.
   */
  function RunFrom(docs: MatchingDocuments, invoices: seq<Invoices.Invoice>, pos: seq<PurchaseOrders.PurchaseOrder>,
                   bols: seq<BillsOfLading.BillOfLading>, results: seq<MatchingResult>,
                   analyze: Analyzer, suffix: string, now: Timestamp): (e: RunEnd)
    ensures !e.NoRelatedPo? && |StagesOf(e)| > 1 && StagesOf(e) <= Pipeline
  {
    match analyze(docs)
    case Err(message) => Raised(message, [Fetch, Analyze])
    case Ok(a) => SaveStage(docs, a, invoices, pos, bols, results, suffix, now)
  }

  /** The save and update stages, once the analyzer has returned `a`. */
  function SaveStage(docs: MatchingDocuments, a: Analysis, invoices: seq<Invoices.Invoice>,
                     pos: seq<PurchaseOrders.PurchaseOrder>, bols: seq<BillsOfLading.BillOfLading>,
                     results: seq<MatchingResult>, suffix: string, now: Timestamp): (e: RunEnd)
    ensures e.Raised? ==> e.stages == [Fetch, Analyze, Save]
    ensures e.Completed? ==> e.docs == docs && e.analysis == a
    ensures !e.NoRelatedPo?
  {
    var row := NewMatchingResult(docs, a, Ids.GenerateId(Ids.Match, suffix), now);
    match SaveOutcome(results, Tables.Project(pos, PurchaseOrders.Key), Tables.Project(bols, BillsOfLading.Key),
                      Tables.Project(invoices, Invoices.Key), row)
    case Err(error) => Raised(Message(error), [Fetch, Analyze, Save])
    case Ok(saved) => Completed(docs, a, saved)
  }

  /**
   * After a successful fetch, a failed save can only be an identifier
   * collision, and a completed run saved the row built from the analyzer's
   * verdict under an identifier the table did not have.
   */
  lemma RunFromEnds(docs: MatchingDocuments, invoices: seq<Invoices.Invoice>, pos: seq<PurchaseOrders.PurchaseOrder>,
                    bols: seq<BillsOfLading.BillOfLading>, results: seq<MatchingResult>,
                    analyze: Analyzer, suffix: string, now: Timestamp)
    requires docs.po in pos && docs.invoice in invoices && (docs.bol.Some? ==> docs.bol.value in bols)
    ensures var e := RunFrom(docs, invoices, pos, bols, results, analyze, suffix, now);
      && (e.Raised? && |e.stages| == 2 <==> analyze(docs).Err?)
      && (e.Raised? && |e.stages| == 3 ==> e.message == Message(DuplicateKey("id")))
      && (e.Completed? ==>
            && e.docs == docs && analyze(docs) == Ok(e.analysis)
            && e.row == NewMatchingResult(docs, e.analysis, Ids.GenerateId(Ids.Match, suffix), now)
            && !Tables.HasKey(results, Key, e.row.id))
  {
    FetchedRowsAreReferenceable(invoices, pos, bols, docs);
  }

  /** What `runThreeWayMatch` returns. */
  datatype RunOutcome = RunOutcome(
    success: bool,
    matched: bool,
    result: Option<MatchingResult>,
    llm_analysis: Option<Analysis>,
    error: Option<string>)

  function Failed(message: string): RunOutcome {
    RunOutcome(false, false, None, None, Some(message))
  }

  function Succeeded(a: Analysis, row: MatchingResult): RunOutcome {
    RunOutcome(true, a.matched, Some(row), Some(a), None)
  }

  /**
   * `runThreeWayMatch`'s answer for a run: the early exit and every caught
   * error are failures with no result, and only a completed run succeeds,
   * reporting the analyzer's `matched`.
   */
  function ServiceOutcome(e: RunEnd): (o: RunOutcome)
    ensures o.success <==> e.Completed?
    ensures !o.success ==> !o.matched && o.result.None? && o.error.Some?
    ensures e.NoRelatedPo? ==> o.error == Some(NO_PO_ERROR)
    ensures e.Raised? ==> o.error == Some(e.message)
    ensures e.Completed? ==> o.matched == e.analysis.matched && o.result == Some(e.row) && o.llm_analysis == Some(e.analysis)
  {
    match e
    case Raised(message, _) => Failed(message)
    case NoRelatedPo => Failed(NO_PO_ERROR)
    case Completed(_, a, row) => Succeeded(a, row)
  }

  /**
   * The tables after a run: a completed run appended its result row and
   * wrote the statuses; any other run left every table as it was.
   */
  predicate RunWrote(e: RunEnd, oldPos: seq<PurchaseOrders.PurchaseOrder>, oldBols: seq<BillsOfLading.BillOfLading>,
                     oldInvoices: seq<Invoices.Invoice>, oldResults: seq<MatchingResult>,
                     pos: seq<PurchaseOrders.PurchaseOrder>, bols: seq<BillsOfLading.BillOfLading>,
                     invoices: seq<Invoices.Invoice>, results: seq<MatchingResult>, now: Timestamp)
  {
    if e.Completed? then
      && results == oldResults + [e.row]
      && StatusesWritten(oldPos, oldBols, oldInvoices, pos, bols, invoices, e.docs, e.analysis, now)
    else
      pos == oldPos && bols == oldBols && invoices == oldInvoices && results == oldResults
  }

  /**
   * `runThreeWayMatch`: runs the stages in order and converts any error into
   * a failed outcome. Nothing is written unless the result row is saved, and
   * statuses are only written after it is.
   */
  method RunThreeWayMatch(db: Database, invoiceId: string, analyze: Analyzer, suffix: string, now: Timestamp)
    returns (o: RunOutcome, stages: seq<Stage>)
    requires db.Valid()
    modifies db
    ensures db.Valid()
    ensures var e := MatchRun(old(db.invoices), old(db.pos), old(db.bols), old(db.results), invoiceId, analyze, suffix, now);
      && o == ServiceOutcome(e)
      && stages == StagesOf(e)
      && RunWrote(e, old(db.pos), old(db.bols), old(db.invoices), old(db.results),
                  db.pos, db.bols, db.invoices, db.results, now)
  {
    var fetched := FetchRelatedDocuments(db.invoices, db.pos, db.bols, invoiceId);
    if fetched.Err? {
      o, stages := Failed(fetched.error), [Fetch];
      return;
    }
    if fetched.value.None? {
      o, stages := Failed(NO_PO_ERROR), [Fetch];
      return;
    }
    o, stages := RunFetched(db, fetched.value.value, analyze, suffix, now);
  }

  /** `runThreeWayMatch` from the analysis on, for documents read from the tables. */
  method RunFetched(db: Database, docs: MatchingDocuments, analyze: Analyzer, suffix: string, now: Timestamp)
    returns (o: RunOutcome, stages: seq<Stage>)
    requires db.Valid()
    modifies db
    ensures db.Valid()
    ensures var e := RunFrom(docs, old(db.invoices), old(db.pos), old(db.bols), old(db.results), analyze, suffix, now);
      && o == ServiceOutcome(e)
      && stages == StagesOf(e)
      && RunWrote(e, old(db.pos), old(db.bols), old(db.invoices), old(db.results),
                  db.pos, db.bols, db.invoices, db.results, now)
  {
    stages := [Fetch, Analyze];
    var analysis := analyze(docs);
    if analysis.Err? {
      o := Failed(analysis.error);
      return;
    }
    var a := analysis.value;
    stages := stages + [Save];
    var saved := SaveThenUpdate(db, docs, a, suffix, now);
    if saved.Err? {
      o := Failed(Message(saved.error));
      return;
    }
    stages := stages + [Update];
    o := Succeeded(a, saved.value);
  }

  /**
   * The last two stages of a run: the result row is saved and, only when
   * that succeeded, the statuses are written.
   */
  method SaveThenUpdate(db: Database, docs: MatchingDocuments, a: Analysis, suffix: string, now: Timestamp)
    returns (saved: Result<MatchingResult, DbError>)
    requires db.Valid()
    modifies db
    ensures db.Valid()
    ensures var e := SaveStage(docs, a, old(db.invoices), old(db.pos), old(db.bols), old(db.results), suffix, now);
      && (saved.Ok? ==> e == Completed(docs, a, saved.value))
      && (saved.Err? ==> e == Raised(Message(saved.error), [Fetch, Analyze, Save]))
      && RunWrote(e, old(db.pos), old(db.bols), old(db.invoices), old(db.results),
                  db.pos, db.bols, db.invoices, db.results, now)
  {
    saved := SaveMatchingResult(db, docs, a, suffix, now);
    if saved.Ok? {
      UpdateDocumentStatuses(db, docs, a, now);
    }
  }

  // ------------------------------------------------------------------ lookup

  /** `where(eq(matchingResultsTable.invoice_id, invoiceId))`. */
  function ForInvoice(invoiceId: string): MatchingResult -> bool {
    (m: MatchingResult) => m.invoice_id == invoiceId
  }

  /**
   * `orderBy(created_at).limit(1)`: a row created no later than every other
   * row; among equal timestamps the first in storage order.
   */
  function EarliestOf(rows: seq<MatchingResult>): (r: Option<MatchingResult>)
    ensures r.None? <==> rows == []
    ensures r.Some? ==> r.value in rows && forall m :: m in rows ==> Text.LexLe(r.value.created_at, m.created_at)
  {
    if rows == [] then None
    else
      Text.LexLeReflexive(rows[0].created_at);
      match EarliestOf(rows[1..])
      case None =>
        assert rows == [rows[0]];
        Some(rows[0])
      case Some(e) =>
        Text.LexLeTotal(rows[0].created_at, e.created_at);
        if Text.LexLe(rows[0].created_at, e.created_at) then
          assert forall m :: m in rows[1..] ==> Text.LexLe(rows[0].created_at, m.created_at) by {
            forall m | m in rows[1..] ensures Text.LexLe(rows[0].created_at, m.created_at) {
              Text.LexLeTransitive(rows[0].created_at, e.created_at, m.created_at);
            }
          }
          Some(rows[0])
        else
          Some(e)
  }

  /**
   * Adding a row changes the earliest row only when the new row is strictly
   * earlier than it.
   */
  lemma {:induction false} EarliestOfAppend(rows: seq<MatchingResult>, x: MatchingResult)
    ensures EarliestOf(rows + [x])
         == if rows == [] || !Text.LexLe(EarliestOf(rows).value.created_at, x.created_at) then Some(x)
            else EarliestOf(rows)
  {
    if rows != [] {
      var rest := rows[1..];
      assert (rows + [x])[1..] == rest + [x];
      EarliestOfAppend(rest, x);
      if rest != [] {
        var r0, e1 := rows[0].created_at, EarliestOf(rest).value.created_at;
        Text.LexLeTotal(r0, e1);
        Text.LexLeTotal(e1, x.created_at);
        Text.LexLeTotal(r0, x.created_at);
        if Text.LexLe(e1, x.created_at) && Text.LexLe(r0, e1) {
          Text.LexLeTransitive(r0, e1, x.created_at);
        }
        if !Text.LexLe(e1, x.created_at) && !Text.LexLe(r0, e1) && Text.LexLe(r0, x.created_at) {
          Text.LexLeTransitive(r0, x.created_at, e1);
        }
      }
    }
  }

  /**
   * Re-running the match for an invoice that already has a result inserts a
   * new row stamped no earlier, and the lookup keeps returning the old one.
   */
  lemma RerunKeepsEarliestResult(results: seq<MatchingResult>, m: MatchingResult, invoiceId: string)
    requires EarliestOf(Tables.Where(results, ForInvoice(invoiceId))).Some?
    requires Text.LexLe(EarliestOf(Tables.Where(results, ForInvoice(invoiceId))).value.created_at, m.created_at)
    ensures EarliestOf(Tables.Where(results + [m], ForInvoice(invoiceId)))
         == EarliestOf(Tables.Where(results, ForInvoice(invoiceId)))
  {
    Tables.WhereAppend(results, m, ForInvoice(invoiceId));
    var selected := Tables.Where(results, ForInvoice(invoiceId));
    if m.invoice_id == invoiceId {
      EarliestOfAppend(selected, m);
    } else {
      assert selected + [] == selected;
    }
  }

  /**
   * `getMatchingResultByInvoice`: the earliest-created result recorded for
   * the invoice, or `None` when it has none.
   */
  method GetMatchingResultByInvoice(db: Database, invoiceId: string) returns (r: Option<MatchingResult>)
    ensures r.None? <==> forall m :: m in db.results ==> m.invoice_id != invoiceId
    ensures r.Some? ==> && r.value in db.results && r.value.invoice_id == invoiceId
                        && forall m :: m in db.results && m.invoice_id == invoiceId ==>
                             Text.LexLe(r.value.created_at, m.created_at)
  {
    var selected := Tables.Where(db.results, ForInvoice(invoiceId));
    if selected != [] {
      assert selected[0] in selected;
    }
    r := EarliestOf(selected);
  }
}
