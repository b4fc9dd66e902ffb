/**
 * `FuzzyMatcherService`: proposes a purchase order for an invoice, or a bill
 * of lading for a purchase order and invoice, when exact PO-number linking
 * fails. A language model picks a candidate by index from a status-filtered
 * pool; it is an oracle here. Nothing in the store is written.
 */
module FuzzyMatcher {
  import opened Wrappers
  import PurchaseOrders
  import BillsOfLading
  import Invoices
  import Tables

  /** The object the model returns, before schema validation. */
  datatype LinkVerdict = LinkVerdict(best_match_index: int, confidence: real, reasoning: string)

  /** An accepted proposal: the candidate, with the model's confidence and reasoning. */
  datatype Candidate<T> = Candidate(doc: T, confidence: real, reasoning: string)

  /** The model choosing among purchase orders; `Err` is an error it raised. */
  type PoOracle = (Invoices.Invoice, seq<PurchaseOrders.PurchaseOrder>) -> Result<LinkVerdict, string>

  /** The model choosing among bills of lading; `Err` is an error it raised. */
  type BolOracle = (PurchaseOrders.PurchaseOrder, Invoices.Invoice, seq<BillsOfLading.BillOfLading>) -> Result<LinkVerdict, string>

  /** The least confidence at which a proposed purchase order is accepted. */
  const PO_THRESHOLD: real := 0.7

  /** The least confidence at which a proposed bill of lading is accepted. */
  const BOL_THRESHOLD: real := 0.2

  const SCHEMA_ERROR: string := "confidence outside [0, 1]"
  const NO_PO_MESSAGE: string := "No matching PO found by LLM"
  const NO_BOL_MESSAGE: string := "No matching BOL found by LLM"

  /** Purchase orders not yet matched: status `pending` or `bol_received`. */
  predicate IsUnmatchedPo(p: PurchaseOrders.PurchaseOrder) {
    p.status == PurchaseOrders.PoStatus.Pending || p.status == PurchaseOrders.PoStatus.BolReceived
  }

  /** `getUnmatchedPOs`: exactly the unmatched purchase orders, in storage order. */
  function UnmatchedPOs(pos: seq<PurchaseOrders.PurchaseOrder>): (pool: seq<PurchaseOrders.PurchaseOrder>)
    ensures forall p :: p in pool <==> p in pos && IsUnmatchedPo(p)
    ensures pool == [] <==> forall p :: p in pos ==> !IsUnmatchedPo(p)
  {
    var pool := Tables.Where(pos, (p: PurchaseOrders.PurchaseOrder) => IsUnmatchedPo(p));
    assert pool != [] ==> pool[0] in pool;
    pool
  }

  /** `getUnmatchedBOLs`: exactly the `pending` bills of lading, in storage order. */
  function UnmatchedBOLs(bols: seq<BillsOfLading.BillOfLading>): (pool: seq<BillsOfLading.BillOfLading>)
    ensures forall b :: b in pool <==> b in bols && b.status == BillsOfLading.BolStatus.Pending
    ensures pool == [] <==> forall b :: b in bols ==> b.status != BillsOfLading.BolStatus.Pending
  {
    var pool := Tables.Where(bols, (b: BillsOfLading.BillOfLading) => b.status == BillsOfLading.BolStatus.Pending);
    assert pool != [] ==> pool[0] in pool;
    pool
  }

  /** `candidates[i]`: the element at the index, or `undefined` off either end. */
  function Lookup<T>(pool: seq<T>, i: int): (r: Option<T>)
    ensures r.Some? <==> 0 <= i < |pool|
    ensures r.Some? ==> r.value == pool[i]
  {
    if 0 <= i < |pool| then Some(pool[i]) else None
  }

  /**
   * `analyzePOMatches` / `analyzeBOLMatches` after the model call: a raised
   * error is passed on, a confidence outside [0, 1] fails the schema, index
   * -1 raises `noMatch`, and any other index is looked up unchecked.
   */
  function Analyze<T>(verdict: Result<LinkVerdict, string>, pool: seq<T>, noMatch: string)
    : (r: Result<Candidate<Option<T>>, string>)
    ensures r.Ok? <==> && verdict.Ok? && 0.0 <= verdict.value.confidence <= 1.0
                       && verdict.value.best_match_index != -1
    ensures r.Ok? ==> && r.value.doc == Lookup(pool, verdict.value.best_match_index)
                      && r.value.confidence == verdict.value.confidence
                      && r.value.reasoning == verdict.value.reasoning
    ensures r.Err? && verdict.Ok? && 0.0 <= verdict.value.confidence <= 1.0 ==> r.error == noMatch
  {
    match verdict
    case Err(e) => Err(e)
    case Ok(v) =>
      if !(0.0 <= v.confidence <= 1.0) then Err(SCHEMA_ERROR)
      else if v.best_match_index == -1 then Err(noMatch)
      else Ok(Candidate(Lookup(pool, v.best_match_index), v.confidence, v.reasoning))
  }

  /** The threshold test and the `catch` that turns every error into no match. */
  function Accept<T>(analysis: Result<Candidate<T>, string>, threshold: real): (r: Option<Candidate<T>>)
    ensures r.Some? <==> analysis.Ok? && analysis.value.confidence >= threshold
    ensures r.Some? ==> r.value == analysis.value
  {
    match analysis
    case Err(_) => None
    case Ok(c) => if c.confidence >= threshold then Some(c) else None
  }

  /**
   * `findMatchingPO`, as written: with no unmatched purchase order the model
   * is not consulted; otherwise its pick is accepted at confidence 0.7 or
   * more. The accepted candidate is `None` when the model's index lies
   * outside the pool.
   */
  function FindMatchingPO(invoice: Invoices.Invoice, pos: seq<PurchaseOrders.PurchaseOrder>, oracle: PoOracle)
    : (r: Option<Candidate<Option<PurchaseOrders.PurchaseOrder>>>)
    ensures UnmatchedPOs(pos) == [] ==> r.None?
    ensures r.Some? <==> && UnmatchedPOs(pos) != []
                         && var v := oracle(invoice, UnmatchedPOs(pos));
                            v.Ok? && PO_THRESHOLD <= v.value.confidence <= 1.0 && v.value.best_match_index != -1
    ensures r.Some? ==> var v := oracle(invoice, UnmatchedPOs(pos)).value;
      && r.value.doc == Lookup(UnmatchedPOs(pos), v.best_match_index)
      && r.value.confidence == v.confidence && r.value.reasoning == v.reasoning
    ensures r.Some? && r.value.doc.Some? ==> r.value.doc.value in pos && IsUnmatchedPo(r.value.doc.value)
  {
    var pool := UnmatchedPOs(pos);
    if pool == [] then None
    else Accept(Analyze(oracle(invoice, pool), pool, NO_PO_MESSAGE), PO_THRESHOLD)
  }

  /**
   * `findMatchingBOL`, as written: the pool is the `pending` bills of
   * lading and a pick is accepted at confidence 0.2 or more.
   */
  function FindMatchingBOL(po: PurchaseOrders.PurchaseOrder, invoice: Invoices.Invoice,
                           bols: seq<BillsOfLading.BillOfLading>, oracle: BolOracle)
    : (r: Option<Candidate<Option<BillsOfLading.BillOfLading>>>)
    ensures UnmatchedBOLs(bols) == [] ==> r.None?
    ensures r.Some? <==> && UnmatchedBOLs(bols) != []
                         && var v := oracle(po, invoice, UnmatchedBOLs(bols));
                            v.Ok? && BOL_THRESHOLD <= v.value.confidence <= 1.0 && v.value.best_match_index != -1
    ensures r.Some? ==> var v := oracle(po, invoice, UnmatchedBOLs(bols)).value;
      && r.value.doc == Lookup(UnmatchedBOLs(bols), v.best_match_index)
      && r.value.confidence == v.confidence && r.value.reasoning == v.reasoning
    ensures r.Some? && r.value.doc.Some? ==>
      r.value.doc.value in bols && r.value.doc.value.status == BillsOfLading.BolStatus.Pending
  {
    var pool := UnmatchedBOLs(bols);
    if pool == [] then None
    else Accept(Analyze(oracle(po, invoice, pool), pool, NO_BOL_MESSAGE), BOL_THRESHOLD)
  }

  /**
   * Finding: an index the pool does not have (any value other than -1 that
   * is negative or too large) is accepted as a match on nothing.
   */
  lemma OutOfRangeIndexAccepted(invoice: Invoices.Invoice, p: PurchaseOrders.PurchaseOrder)
    requires IsUnmatchedPo(p)
    ensures var oracle: PoOracle := (i: Invoices.Invoice, c: seq<PurchaseOrders.PurchaseOrder>) => Ok(LinkVerdict(1, 0.9, "r"));
      FindMatchingPO(invoice, [p], oracle) == Some(Candidate(None, 0.9, "r"))
  {
    var oracle: PoOracle := (i: Invoices.Invoice, c: seq<PurchaseOrders.PurchaseOrder>) => Ok(LinkVerdict(1, 0.9, "r"));
    assert UnmatchedPOs([p]) == [p];
  }

  /** The same for bills of lading: index -2 on a one-element pool is accepted. */
  lemma NegativeIndexAcceptedForBol(po: PurchaseOrders.PurchaseOrder, invoice: Invoices.Invoice, b: BillsOfLading.BillOfLading)
    requires b.status == BillsOfLading.BolStatus.Pending
    ensures var oracle: BolOracle :=
        (p: PurchaseOrders.PurchaseOrder, i: Invoices.Invoice, c: seq<BillsOfLading.BillOfLading>) => Ok(LinkVerdict(-2, 0.5, "r"));
      FindMatchingBOL(po, invoice, [b], oracle) == Some(Candidate(None, 0.5, "r"))
  {
    var oracle: BolOracle :=
      (p: PurchaseOrders.PurchaseOrder, i: Invoices.Invoice, c: seq<BillsOfLading.BillOfLading>) => Ok(LinkVerdict(-2, 0.5, "r"));
    assert UnmatchedBOLs([b]) == [b];
  }

  /** The intended lookup: an index outside the pool is treated like -1, as no match. */
  function AnalyzeChecked<T>(verdict: Result<LinkVerdict, string>, pool: seq<T>, noMatch: string)
    : (r: Result<Candidate<T>, string>)
    ensures r.Ok? <==> && verdict.Ok? && 0.0 <= verdict.value.confidence <= 1.0
                       && 0 <= verdict.value.best_match_index < |pool|
    ensures r.Ok? ==> && r.value.doc == pool[verdict.value.best_match_index]
                      && r.value.confidence == verdict.value.confidence
                      && r.value.reasoning == verdict.value.reasoning
  {
    match Analyze(verdict, pool, noMatch)
    case Err(e) => Err(e)
    case Ok(c) =>
      match c.doc
      case None => Err(noMatch)
      case Some(d) => Ok(Candidate(d, c.confidence, c.reasoning))
  }

  /** `findMatchingPO` with the index checked: an accepted candidate is always an unmatched purchase order. */
  function FindMatchingPOChecked(invoice: Invoices.Invoice, pos: seq<PurchaseOrders.PurchaseOrder>, oracle: PoOracle)
    : (r: Option<Candidate<PurchaseOrders.PurchaseOrder>>)
    ensures r.Some? ==> r.value.doc in pos && IsUnmatchedPo(r.value.doc) && r.value.confidence >= PO_THRESHOLD
    ensures r.Some? <==> && UnmatchedPOs(pos) != []
                         && var v := oracle(invoice, UnmatchedPOs(pos));
                            && v.Ok? && PO_THRESHOLD <= v.value.confidence <= 1.0
                            && 0 <= v.value.best_match_index < |UnmatchedPOs(pos)|
  {
    var pool := UnmatchedPOs(pos);
    if pool == [] then None
    else
      var r := Accept(AnalyzeChecked(oracle(invoice, pool), pool, NO_PO_MESSAGE), PO_THRESHOLD);
      assert r.Some? ==> r.value.doc in pool;
      r
  }

  /** `findMatchingBOL` with the index checked: an accepted candidate is always a pending bill of lading. */
  function FindMatchingBOLChecked(po: PurchaseOrders.PurchaseOrder, invoice: Invoices.Invoice,
                                  bols: seq<BillsOfLading.BillOfLading>, oracle: BolOracle)
    : (r: Option<Candidate<BillsOfLading.BillOfLading>>)
    ensures r.Some? ==> && r.value.doc in bols && r.value.doc.status == BillsOfLading.BolStatus.Pending
                        && r.value.confidence >= BOL_THRESHOLD
    ensures r.Some? <==> && UnmatchedBOLs(bols) != []
                         && var v := oracle(po, invoice, UnmatchedBOLs(bols));
                            && v.Ok? && BOL_THRESHOLD <= v.value.confidence <= 1.0
                            && 0 <= v.value.best_match_index < |UnmatchedBOLs(bols)|
  {
    var pool := UnmatchedBOLs(bols);
    if pool == [] then None
    else
      var r := Accept(AnalyzeChecked(oracle(po, invoice, pool), pool, NO_BOL_MESSAGE), BOL_THRESHOLD);
      assert r.Some? ==> r.value.doc in pool;
      r
  }

  /** Where the written lookup finds a candidate, the checked one accepts the same proposal. */
  lemma CheckedAgreesInRange(invoice: Invoices.Invoice, pos: seq<PurchaseOrders.PurchaseOrder>, oracle: PoOracle)
    requires FindMatchingPO(invoice, pos, oracle).Some? && FindMatchingPO(invoice, pos, oracle).value.doc.Some?
    ensures var c := FindMatchingPO(invoice, pos, oracle).value;
      FindMatchingPOChecked(invoice, pos, oracle) == Some(Candidate(c.doc.value, c.confidence, c.reasoning))
  {
  }
}
