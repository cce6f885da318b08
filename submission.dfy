/** The steps that the two submission handlers share
    (handlers/unsent_claims.py, handlers/unsent_savings.py): four table
    variables, the partner and the submission run id, and the two-day
    window that ends at the run's latest ingestion. */
module Submission {
  import opened Wrappers
  import opened Json
  import opened Warehouse
  import opened HandlerBase
  import opened Metrics

  /** A table variable and the name its error message gives it. */
  datatype TableVar = TableVar(name: string, shownAs: string)

  /** What the handler works on once every check has passed: the four table
      references in order, the raw partner, the run id as interpolated into
      SQL, and the event time. */
  datatype Inputs = Inputs(refs: seq<string>, partner: Value, runId: string, ts: int)

  const RunIdMissing := "Missing required 'submission_run_id' variable in payload."

  /** Without submitted rows for the run, the window ends 20 minutes before
      the event. */
  const FallbackSeconds := 20 * 60
  const WindowDays := 2

  /** The table variables, checked in order. */
  function RequireTables(variables: Value, vars: seq<TableVar>): (r: Py<seq<Value>>)
    requires variables.Obj?
    ensures r.Ret? ==> |r.value| == |vars| && forall i :: 0 <= i < |vars| ==> r.value[i] == Field(variables, vars[i].name)
    ensures r.Ret? <==> forall i :: 0 <= i < |vars| ==> Truthy(Field(variables, vars[i].name))
    decreases |vars|
  {
    if vars == [] then Ret([])
    else
      var first :- Require(Field(variables, vars[0].name), NotInPayload(vars[0].shownAs));
      var rest :- RequireTables(variables, vars[1..]);
      Ret([first] + rest)
  }

  /** The references of the table variables, qualified with the data
      project. */
  function TableRefs(tables: seq<Value>, project: string): (r: Py<seq<string>>)
    ensures r.Ret? ==> |r.value| == |tables|
    decreases |tables|
  {
    if tables == [] then Ret([])
    else
      var first :- TableRef(tables[0], project);
      var rest :- TableRefs(tables[1..], project);
      Ret([first] + rest)
  }

  /** Payload, variables, the table variables in order, the partner, the run
      id, then the timestamp. */
  function Prepare(msg: Value, vars: seq<TableVar>, projects: Projects, env: Env): (r: Py<Inputs>)
    ensures r.Ret? ==> |r.value.refs| == |vars|
  {
    var payload :- PayloadOf(msg);
    var variables :- VariablesOf(payload);
    if !variables.Obj? then Raise(Internal)
    else
      var tables :- RequireTables(variables, vars);
      var partner :- Require(Field(variables, "partner"), PartnerMissing);
      var runId :- Require(Field(variables, "submission_run_id"), RunIdMissing);
      var refs :- TableRefs(tables, projects.data);
      var ts :- SourceTimestamp(msg, env);
      Ret(Inputs(refs, partner, PyStr(runId, env.repr), ts))
  }

  /** `COALESCE(MAX(ingested_at), fallback)` over the run's submitted rows. */
  function WindowEnd(submitted: seq<Row>, runId: string, ts: int): (e: int)
    ensures forall r :: r in submitted && Holds(r, Equals(SubmissionRunId, runId)) && r.ingestedAt.Some? ==>
              r.ingestedAt.value <= e
    ensures (exists r :: r in submitted && Holds(r, Equals(SubmissionRunId, runId)) && r.ingestedAt.Some?) ||
            e == ts - FallbackSeconds
  {
    var latest := Latest(Select(submitted, Equals(SubmissionRunId, runId)), IngestedAt);
    if latest.Some? then latest.value else ts - FallbackSeconds
  }

  /** `ingested_at BETWEEN end - 2 days AND end`. */
  function Window(end: int): Cond
  {
    Between(IngestedAt, end - WindowDays * SecondsPerDay, end)
  }

  /** A `NULL` status is a `NULL` label. */
  function StatusValue(status: Option<string>): Value
  {
    if status.Some? then Str(status.value) else Null
  }

  /** The labels of these gauges: the partner as given, not converted to a
      string, and the status; so they are strings only for a string partner
      and a status that is not `NULL`. */
  function StatusLabels(partner: Value, status: Option<string>): (l: Labels)
    ensures StrLabels(l) <==> partner.Str? && status.Some?
  {
    var l := map["partner" := partner, "status" := StatusValue(status)];
    assert l["partner"] == partner && l["status"] == StatusValue(status);
    l
  }

  /** The position of the first status whose labels are not all strings, or
      `|statuses|` when there is none. */
  function FirstUnlabelled(partner: Value, statuses: seq<Option<string>>): (k: nat)
    ensures k <= |statuses|
    ensures forall j :: 0 <= j < k ==> StrLabels(StatusLabels(partner, statuses[j]))
    ensures k < |statuses| ==> !StrLabels(StatusLabels(partner, statuses[k]))
    decreases |statuses|
  {
    if statuses == [] then 0
    else
      var n := |statuses| - 1;
      var k := FirstUnlabelled(partner, statuses[..n]);
      assert forall j :: 0 <= j < n ==> statuses[..n][j] == statuses[j];
      if k < n then k
      else if StrLabels(StatusLabels(partner, statuses[n])) then n + 1
      else n
  }

  /** The end of the window is an ingestion time of the run when the run has
      one: the window never reaches back past the run into another run's
      rows. */
  lemma WindowEndIsRunIngestion(submitted: seq<Row>, runId: string, ts: int)
    requires exists r :: r in submitted && Holds(r, Equals(SubmissionRunId, runId)) && r.ingestedAt.Some?
    ensures exists r :: r in submitted && r.submissionRunId == Some(runId) && r.ingestedAt == Some(WindowEnd(submitted, runId, ts))
  {
    var w :| w in submitted && Holds(w, Equals(SubmissionRunId, runId)) && w.ingestedAt.Some?;
    assert w in Select(submitted, Equals(SubmissionRunId, runId));
  }

  /** A row is in the window exactly when it was ingested within two days
      up to the end, both ends included. */
  lemma WindowInclusive(r: Row, end: int)
    ensures Holds(r, Window(end)) <==>
            r.ingestedAt.Some? && end - 2 * 86400 <= r.ingestedAt.value <= end
  {
  }

  /** The checks run in order: each table variable, then the partner, then
      the run id. */
  lemma PrepareCheckOrder(msg: Value, vars: seq<TableVar>, projects: Projects, env: Env, k: nat)
    requires HasVariables(msg) && k < |vars|
    requires forall i :: 0 <= i < k ==> Truthy(Variable(msg, vars[i].name))
    requires !Truthy(Variable(msg, vars[k].name))
    ensures Prepare(msg, vars, projects, env) == Raise(BadRequest(NotInPayload(vars[k].shownAs)))
  {
    var variables := msg.fields["payload"].fields["variables"];
    RequireTablesFirstFailure(variables, vars, k);
  }

  lemma {:induction false} RequireTablesFirstFailure(variables: Value, vars: seq<TableVar>, k: nat)
    requires variables.Obj? && k < |vars|
    requires forall i :: 0 <= i < k ==> Truthy(Field(variables, vars[i].name))
    requires !Truthy(Field(variables, vars[k].name))
    ensures RequireTables(variables, vars) == Raise(BadRequest(NotInPayload(vars[k].shownAs)))
    decreases k
  {
    if k > 0 {
      assert Truthy(Field(variables, vars[0].name));
      RequireTablesFirstFailure(variables, vars[1..], k - 1);
    }
  }

  /** With every table variable present, the partner is checked before the
      run id. */
  lemma PrepareChecksPartnerThenRunId(msg: Value, vars: seq<TableVar>, projects: Projects, env: Env)
    requires HasVariables(msg)
    requires forall i :: 0 <= i < |vars| ==> Truthy(Variable(msg, vars[i].name))
    ensures !Truthy(Variable(msg, "partner")) ==> Prepare(msg, vars, projects, env) == Raise(BadRequest(PartnerMissing))
    ensures Truthy(Variable(msg, "partner")) && !Truthy(Variable(msg, "submission_run_id")) ==>
              Prepare(msg, vars, projects, env) == Raise(BadRequest(RunIdMissing))
  {
  }
}
