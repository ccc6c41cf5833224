/** `checkRunStatus`: a placeholder status check that demands both identifiers
    and otherwise reports the run as completed, without asking the API. */
module RunStatus {
  import opened Wrappers
  import opened JsValues

  /** The object `{ status, run_id }` checkRunStatus returns. */
  datatype RunReport = RunReport(status: string, runId: Json)

  /** The message of the error thrown when an identifier is missing. */
  const MissingIds := "Faltante thread_id o run_id"

  /** An argument that passes `!id`: given, and truthy. */
  predicate Present(id: Option<Json>)
  {
    id.Some? && Truthy(id.value)
  }

  /** Fails with `MissingIds` exactly when one of the identifiers is missing or
      falsy; otherwise reports the very run it was given as completed. */
  function CheckRunStatus(threadId: Option<Json>, runId: Option<Json>): (r: Result<RunReport, string>)
    ensures r.Success? <==> Present(threadId) && Present(runId)
    ensures r.Failure? ==> r.error == MissingIds
    ensures r.Success? ==> r.value.status == "completed" && Some(r.value.runId) == runId
  {
    if !Present(threadId) || !Present(runId) then Failure(MissingIds)
    else Success(RunReport("completed", runId.value))
  }

  /** The thread identifier only has to be present: which one it is never
      changes the report. */
  lemma ReportIgnoresThread(t1: Json, t2: Json, runId: Option<Json>)
    requires Truthy(t1) && Truthy(t2)
    ensures CheckRunStatus(Some(t1), runId) == CheckRunStatus(Some(t2), runId)
  {
  }

  /** An empty string counts as missing, like an absent identifier. */
  lemma EmptyIdsFail(id: Option<Json>)
    ensures CheckRunStatus(Some(JString("")), id).Failure?
    ensures CheckRunStatus(id, Some(JString(""))).Failure?
    ensures CheckRunStatus(None, id) == Failure(MissingIds)
    ensures CheckRunStatus(id, None) == Failure(MissingIds)
  {
  }
}
