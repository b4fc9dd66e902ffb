/**
 * The `run-matching` background job: the same four stages as
 * `runThreeWayMatch`, run as separate job steps. It differs from the service
 * in how a run ends: an error raised by a stage is not caught but thrown out
 * of the job, and only the missing purchase order is reported as a failed
 * outcome.
 */
module MatchingJob {
  import opened Wrappers
  import opened Fields
  import opened Store
  import opened MatchingResults
  import MatchingService

  /** How the job ends: a returned outcome, or an error thrown after the listed stages started. */
  datatype JobOutcome =
    | Returned(outcome: MatchingService.RunOutcome)
    | Threw(message: string, stages: seq<MatchingService.Stage>)

  /**
   * The job's ending for a run: the early exit returns the failed outcome
   * with the fixed message, a completed run returns the successful one, and
   * every error is thrown with the stage it came from.
   */
  function JobOutcomeOf(e: MatchingService.RunEnd): (j: JobOutcome)
    ensures j.Threw? <==> e.Raised?
    ensures j.Threw? ==> j.message == e.message && j.stages == e.stages
    ensures e.NoRelatedPo? ==> j == Returned(MatchingService.Failed(MatchingService.NO_PO_ERROR))
    ensures e.Completed? ==> j.Returned? && j.outcome.success && j.outcome.matched == e.analysis.matched
                             && j.outcome.result == Some(e.row) && j.outcome.llm_analysis == Some(e.analysis)
  {
    match e
    case Raised(message, stages) => Threw(message, stages)
    case NoRelatedPo => Returned(MatchingService.Failed(MatchingService.NO_PO_ERROR))
    case Completed(_, a, row) => Returned(MatchingService.Succeeded(a, row))
  }

  /**
   * The job and `runThreeWayMatch` agree on every run that does not raise;
   * when one raises, the service reports the same message as a failure that
   * the job throws.
   */
  lemma JobAgreesWithService(e: MatchingService.RunEnd)
    ensures JobOutcomeOf(e).Returned? ==> JobOutcomeOf(e).outcome == MatchingService.ServiceOutcome(e)
    ensures JobOutcomeOf(e).Threw? ==>
      && !MatchingService.ServiceOutcome(e).success
      && MatchingService.ServiceOutcome(e).error == Some(JobOutcomeOf(e).message)
  {
  }

  /**
   * `runMatchingJob`: fetch, then return early when no purchase order
   * carries the invoice's PO number, otherwise analyze, save and update.
   * The tables end exactly as they do after `runThreeWayMatch` on the same
   * inputs.
   */
  method RunMatchingJob(db: Database, invoiceId: string, analyze: MatchingService.Analyzer, suffix: string, now: Timestamp)
    returns (j: JobOutcome, stages: seq<MatchingService.Stage>)
    requires db.Valid()
    modifies db
    ensures db.Valid()
    ensures var e := MatchingService.MatchRun(old(db.invoices), old(db.pos), old(db.bols), old(db.results),
                                              invoiceId, analyze, suffix, now);
      && j == JobOutcomeOf(e)
      && stages == MatchingService.StagesOf(e)
      && MatchingService.RunWrote(e, old(db.pos), old(db.bols), old(db.invoices), old(db.results),
                                  db.pos, db.bols, db.invoices, db.results, now)
  {
    stages := [MatchingService.Fetch];
    var fetched := MatchingService.FetchRelatedDocuments(db.invoices, db.pos, db.bols, invoiceId);
    if fetched.Err? {
      j := Threw(fetched.error, stages);
      return;
    }
    if fetched.value.None? {
      j := Returned(MatchingService.Failed(MatchingService.NO_PO_ERROR));
      return;
    }
    j, stages := RunSteps(db, fetched.value.value, analyze, suffix, now);
  }

  /** The job's steps after the fetch, for documents read from the tables. */
  method RunSteps(db: Database, docs: MatchingService.MatchingDocuments, analyze: MatchingService.Analyzer,
                  suffix: string, now: Timestamp)
    returns (j: JobOutcome, stages: seq<MatchingService.Stage>)
    requires db.Valid()
    modifies db
    ensures db.Valid()
    ensures var e := MatchingService.RunFrom(docs, old(db.invoices), old(db.pos), old(db.bols), old(db.results),
                                             analyze, suffix, now);
      && j == JobOutcomeOf(e)
      && stages == MatchingService.StagesOf(e)
      && MatchingService.RunWrote(e, old(db.pos), old(db.bols), old(db.invoices), old(db.results),
                                  db.pos, db.bols, db.invoices, db.results, now)
  {
    stages := [MatchingService.Fetch, MatchingService.Analyze];
    var analysis := analyze(docs);
    if analysis.Err? {
      j := Threw(analysis.error, stages);
      return;
    }
    var a := analysis.value;
    stages := stages + [MatchingService.Save];
    var saved := MatchingService.SaveThenUpdate(db, docs, a, suffix, now);
    if saved.Err? {
      j := Threw(Message(saved.error), stages);
      return;
    }
    stages := stages + [MatchingService.Update];
    j := Returned(MatchingService.Succeeded(a, saved.value));
  }
}
