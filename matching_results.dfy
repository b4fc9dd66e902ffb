/** The `matching_results` table: one immutable row per matching run. */
module MatchingResults {
  import opened Wrappers
  import opened Fields
  import Ids
  import Tables

  /** The verdict class of a run. */
  datatype MatchStatus = PerfectMatch | MinorVariance | MajorVariance | NoMatch

  /** The status of one line of the charge comparison. */
  datatype ChargeStatus = Match | Variance | Missing | Extra

  /** One line of the charge comparison; any amount may be NULL. */
  datatype ChargeComparison = ChargeComparison(
    description: string,
    po_amount: Option<real>,
    bol_amount: Option<real>,
    invoice_amount: Option<real>,
    status: ChargeStatus)

  /** The JSON `comparison` column; `bol_total` is an optional key. */
  datatype Comparison = Comparison(
    po_total: real,
    bol_total: Option<real>,
    invoice_total: real,
    variance: real,
    variance_pct: real,
    charge_comparison: seq<ChargeComparison>)

  /**
   * One row. `po_id` and `invoice_id` are required, `bol_id` is optional;
   * `invoice_id` is not unique, so an invoice may have many results.
   */
  datatype MatchingResult = MatchingResult(
    id: string,
    po_id: string,
    bol_id: Option<string>,
    invoice_id: string,
    match_status: MatchStatus,
    confidence_score: real,
    comparison: Option<Comparison>,
    flags_count: nat,
    high_severity_flags: nat,
    daytona_job_id: Option<string>,
    daytona_logs_url: Option<string>,
    created_at: Timestamp)

  function Key(m: MatchingResult): string { m.id }

  /**
   * The table's constraints: a unique primary key, `m_` identifiers, and the
   * three document columns referencing existing rows.
   */
  ghost predicate TableValid(rows: seq<MatchingResult>, poIds: seq<string>, bolIds: seq<string>, invoiceIds: seq<string>) {
    && Tables.UniqueBy(rows, Key)
    && (forall m :: m in rows ==> Ids.IsIdOf(Ids.Match, m.id))
    && (forall m :: m in rows ==> m.po_id in poIds && m.invoice_id in invoiceIds)
    && (forall m :: m in rows && m.bol_id.Some? ==> m.bol_id.value in bolIds)
  }

  /** Nothing makes `invoice_id` unique: two results for one invoice satisfy every constraint. */
  lemma ManyResultsPerInvoice(m1: MatchingResult, suffix: string)
    requires Ids.IsIdOf(Ids.Match, m1.id) && m1.bol_id.None?
    ensures var m2 := m1.(id := m1.id + suffix + "x");
            TableValid([m1, m2], [m1.po_id], [], [m1.invoice_id]) && m2.invoice_id == m1.invoice_id
  {
    var m2 := m1.(id := m1.id + suffix + "x");
    assert m2.id[..|Ids.Prefix(Ids.Match)| + 1] == m1.id[..|Ids.Prefix(Ids.Match)| + 1];
    assert |m2.id| != |m1.id|;
  }
}
