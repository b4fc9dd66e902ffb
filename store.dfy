/** The document store: the four tables the services read and write in place. */
module Store {
  import opened Wrappers
  import Tables
  import PurchaseOrders
  import BillsOfLading
  import Invoices
  import MatchingResults

  /** What a failing query or constraint raises. */
  datatype DbError =
    | NotFound(message: string)      // thrown by a service when no row matched
    | DuplicateKey(column: string)   // a primary-key or `.unique()` violation
    | MissingReference(column: string) // a `.references(...)` violation

  /**
   * The message of the error a caller catches. The not-found texts are the
   * services' own; the texts for constraint violations are stand-ins that
   * name only the violated column, not the database driver's wording.
   */
  function Message(e: DbError): string {
    match e
    case NotFound(m) => m
    case DuplicateKey(c) => "duplicate key value on " + c
    case MissingReference(c) => "foreign key violation on " + c
  }

  /** The database: each table is a sequence of rows in storage order. */
  class Database {
    var pos: seq<PurchaseOrders.PurchaseOrder>
    var bols: seq<BillsOfLading.BillOfLading>
    var invoices: seq<Invoices.Invoice>
    var results: seq<MatchingResults.MatchingResult>

    function PoIds(): seq<string> reads this { Tables.Project(pos, PurchaseOrders.Key) }
    function BolIds(): seq<string> reads this { Tables.Project(bols, BillsOfLading.Key) }
    function InvoiceIds(): seq<string> reads this { Tables.Project(invoices, Invoices.Key) }
    function ResultIds(): seq<string> reads this { Tables.Project(results, MatchingResults.Key) }

    /** Every table satisfies its declared constraints. */
    ghost predicate Valid()
      reads this
    {
      && PurchaseOrders.TableValid(pos)
      && BillsOfLading.TableValid(bols, PoIds())
      && Invoices.TableValid(invoices, PoIds(), BolIds())
      && MatchingResults.TableValid(results, PoIds(), BolIds(), InvoiceIds())
    }

    /** An empty database. */
    constructor ()
      ensures Valid()
      ensures pos == [] && bols == [] && invoices == [] && results == []
    {
      pos, bols, invoices, results := [], [], [], [];
    }
  }
}
