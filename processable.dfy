/** Processable-claims metrics (handlers/processable_base.py) and the two
    handlers that configure them (handlers/processable_approval.py,
    handlers/processable_wrangling.py). */
module Processable {
  import opened Wrappers
  import opened Json
  import opened Metrics
  import opened Warehouse
  import opened HandlerBase

  /** The arguments a concrete handler passes to the base handler. */
  datatype Config = Config(pipelineUuid: string, processableVar: string, unprocessableVar: string, approved: string)

  const TotalMetric := "claims/pipeline/processable/vl_pago/total"
  const RelativeMetric := "claims/pipeline/processable/vl_pago/relative"

  const Approval := Config("pipesv2_approval", "processable_claims_input_table", "unprocessable_claims_input_table", "true")
  const Wrangling := Config("pipesv2_wrangling", "refined_processable_claims_output_table",
                            "refined_unprocessable_claims_output_table", "false")

  /** What `_handle_processable_metrics` does with a message. */
  function ProcessableRun(msg: Value, cfg: Config, projects: Projects, db: Db, env: Env): (r: Py<seq<SinkCall>>)
    ensures r.Ret? ==> AllBuildable(r.value)
  {
    var payload :- PayloadOf(msg);
    var variables :- VariablesOf(payload);
    if !ReportsCompletion(payload, cfg.pipelineUuid) then Ret([])
    else if !variables.Obj? then Raise(Internal)
    else
      var processable :- Require(Field(variables, cfg.processableVar), NoVariable(cfg.processableVar));
      var unprocessable :- Require(Field(variables, cfg.unprocessableVar), NoVariable(cfg.unprocessableVar));
      var processableRef :- TableRef(processable, projects.data);
      var unprocessableRef :- TableRef(unprocessable, projects.data);
      var p := ProbedTotal(db, processableRef, VlPago);
      var u := ProbedTotal(db, unprocessableRef, VlPago);
      var partner :- Require(Field(variables, "partner"), PartnerMissing);
      var ts :- SourceTimestamp(msg, env);
      var labels := map["approved" := Str(cfg.approved), "partner" := PartnerText(partner, env)];
      Ret([Gauge(projects.run, TotalMetric, p, labels, ts)] +
          (if p + u > 0.0 then [Gauge(projects.run, RelativeMetric, Share(p, p + u), labels, ts)] else []))
  }

  method HandleProcessableMetrics(msg: Value, cfg: Config, projects: Projects, db: Db, env: Env,
                                  client: MonitoringClient) returns (outcome: Py<()>)
    modifies client
    ensures Performs(outcome, old(client.calls), client.calls, ProcessableRun(msg, cfg, projects, db, env))
  {
    var payload :- PayloadOf(msg);
    var variables :- VariablesOf(payload);
    if !ReportsCompletion(payload, cfg.pipelineUuid) {
      return Ret(());
    }
    if !variables.Obj? {
      return Raise(Internal);
    }
    var processableTable := Field(variables, cfg.processableVar);
    var unprocessableTable := Field(variables, cfg.unprocessableVar);
    var processable :- Require(processableTable, NoVariable(cfg.processableVar));
    var unprocessable :- Require(unprocessableTable, NoVariable(cfg.unprocessableVar));
    var processableRef :- TableRef(processable, projects.data);
    var unprocessableRef :- TableRef(unprocessable, projects.data);

    var totalVlPago := 0.0;
    if processableRef in db {
      totalVlPago := Total(db[processableRef], VlPago);
    }
    var sumUnprocessableVlPago := 0.0;
    if unprocessableRef in db {
      sumUnprocessableVlPago := Total(db[unprocessableRef], VlPago);
    }
    var totalSum := totalVlPago + sumUnprocessableVlPago;
    var relativeVlPago := 0.0;
    if totalSum > 0.0 {
      relativeVlPago := totalVlPago / totalSum;
    }

    var labels: Labels := map["approved" := Str(cfg.approved)];
    var partner :- Require(Field(variables, "partner"), PartnerMissing);
    labels := labels["partner" := PartnerText(partner, env)];
    var ts :- SourceTimestamp(msg, env);

    // Both labels are strings, so neither emission raises.
    var sent := EmitGaugeMetric(client, projects.run, TotalMetric, totalVlPago, labels, ts);
    if totalSum > 0.0 {
      sent := EmitGaugeMetric(client, projects.run, RelativeMetric, relativeVlPago, labels, ts);
    }
    return Ret(());
  }

  /** `ProcessableApprovalHandler.match`. */
  function ApprovalMatch(msg: Value): (r: Py<bool>)
    ensures r == Ret(true) <==> AnnouncesCompletion(msg, "pipesv2_approval")
    ensures msg.Obj? && "payload" !in msg.fields ==> r == Ret(false)
  {
    MatchCompletedOrEmpty(msg, Approval.pipelineUuid)
  }

  /** `ProcessableApprovalHandler.handle`: approved claims, read from the
      approval pipeline's input tables. */
  method ApprovalHandle(msg: Value, projects: Projects, db: Db, env: Env, client: MonitoringClient)
    returns (outcome: Py<()>)
    modifies client
    ensures Performs(outcome, old(client.calls), client.calls, ProcessableRun(msg, Approval, projects, db, env))
  {
    outcome := HandleProcessableMetrics(msg, Approval, projects, db, env, client);
  }

  /** `ProcessableWranglingHandler.match`. */
  function WranglingMatch(msg: Value): (r: Py<bool>)
    ensures r == Ret(true) <==> AnnouncesCompletion(msg, "pipesv2_wrangling")
    ensures msg.Obj? && "payload" in msg.fields && !Truthy(msg.fields["payload"]) ==> r == Ret(false)
  {
    MatchCompleted(msg, Wrangling.pipelineUuid)
  }

  /** `ProcessableWranglingHandler.handle`: unapproved claims, read from the
      wrangling pipeline's refined output tables. */
  method WranglingHandle(msg: Value, projects: Projects, db: Db, env: Env, client: MonitoringClient)
    returns (outcome: Py<()>)
    modifies client
    ensures Performs(outcome, old(client.calls), client.calls, ProcessableRun(msg, Wrangling, projects, db, env))
  {
    outcome := HandleProcessableMetrics(msg, Wrangling, projects, db, env, client);
  }

  /** The message names both tables. */
  predicate NamesTables(msg: Value, cfg: Config, projects: Projects, processableRef: string, unprocessableRef: string)
  {
    NamesTable(msg, cfg.processableVar, projects.data, processableRef) &&
    NamesTable(msg, cfg.unprocessableVar, projects.data, unprocessableRef)
  }

  /** A handled message emits the total of processable `vl_pago` (zero for a
      missing table) and, only when processable plus unprocessable is
      positive, the processable share of it; every metric carries the
      `approved` label and the partner as text, and nothing else, and the
      message's source timestamp. */
  lemma ProcessableMetrics(msg: Value, cfg: Config, projects: Projects, db: Db, env: Env,
                           processableRef: string, unprocessableRef: string)
    requires AnnouncesCompletion(msg, cfg.pipelineUuid)
    requires NamesTables(msg, cfg, projects, processableRef, unprocessableRef)
    requires ProcessableRun(msg, cfg, projects, db, env).Ret?
    ensures var calls := ProcessableRun(msg, cfg, projects, db, env).value;
            var p := ProbedTotal(db, processableRef, VlPago);
            var u := ProbedTotal(db, unprocessableRef, VlPago);
            |calls| == (if p + u > 0.0 then 2 else 1) &&
            MetricOf(calls[0]) == MetricTypePrefix + TotalMetric && ValueOf(calls[0]) == p &&
            (p + u > 0.0 ==> MetricOf(calls[1]) == MetricTypePrefix + RelativeMetric && ValueOf(calls[1]) == p / (p + u)) &&
            (forall c :: c in calls ==> c.name == ProjectPrefix + projects.run &&
                                        LabelsOf(c).Keys == {"approved", "partner"} &&
                                        LabelsOf(c)["approved"] == Str(cfg.approved) &&
                                        LabelsOf(c)["partner"] == PartnerText(Variable(msg, "partner"), env) &&
                                        EndTimeOf(c) == SourceTimestamp(msg, env).value)
  {
    ProcessableRunValue(msg, cfg, projects, db, env, processableRef, unprocessableRef);
    var labels := map["approved" := Str(cfg.approved), "partner" := PartnerText(Variable(msg, "partner"), env)];
    assert labels.Keys == {"approved", "partner"};
  }

  /** The requests of a handled message, built from its two tables, its
      partner and its timestamp. */
  lemma ProcessableRunValue(msg: Value, cfg: Config, projects: Projects, db: Db, env: Env,
                            processableRef: string, unprocessableRef: string)
    requires AnnouncesCompletion(msg, cfg.pipelineUuid)
    requires NamesTables(msg, cfg, projects, processableRef, unprocessableRef)
    requires ProcessableRun(msg, cfg, projects, db, env).Ret?
    ensures SourceTimestamp(msg, env).Ret?
    ensures var p := ProbedTotal(db, processableRef, VlPago);
            var u := ProbedTotal(db, unprocessableRef, VlPago);
            var ts := SourceTimestamp(msg, env).value;
            var labels := map["approved" := Str(cfg.approved), "partner" := PartnerText(Variable(msg, "partner"), env)];
            ProcessableRun(msg, cfg, projects, db, env).value ==
              [Gauge(projects.run, TotalMetric, p, labels, ts)] +
              (if p + u > 0.0 then [Gauge(projects.run, RelativeMetric, Share(p, p + u), labels, ts)] else [])
  {
  }

  /** With non-negative amounts the relative metric is a share in [0, 1],
      and it is exactly 1 when the unprocessable table is missing. */
  lemma ProcessableRelativeIsShare(msg: Value, cfg: Config, projects: Projects, db: Db, env: Env,
                                   processableRef: string, unprocessableRef: string)
    requires AnnouncesCompletion(msg, cfg.pipelineUuid)
    requires NamesTables(msg, cfg, projects, processableRef, unprocessableRef)
    requires ProcessableRun(msg, cfg, projects, db, env).Ret?
    requires NonNegativeDb(db, VlPago)
    requires |ProcessableRun(msg, cfg, projects, db, env).value| == 2
    ensures var calls := ProcessableRun(msg, cfg, projects, db, env).value;
            0.0 <= ValueOf(calls[1]) <= 1.0 &&
            (unprocessableRef !in db ==> ValueOf(calls[1]) == 1.0)
  {
    ProcessableMetrics(msg, cfg, projects, db, env, processableRef, unprocessableRef);
    var p := ProbedTotal(db, processableRef, VlPago);
    var u := ProbedTotal(db, unprocessableRef, VlPago);
    ProbedTotalNonNegative(db, processableRef, VlPago);
    ProbedTotalNonNegative(db, unprocessableRef, VlPago);
    ShareOfSumBounded(p, u);
  }

  /** When neither table exists only the total is emitted, with value 0. */
  lemma ProcessableBothTablesMissing(msg: Value, cfg: Config, projects: Projects, db: Db, env: Env,
                                     processableRef: string, unprocessableRef: string)
    requires AnnouncesCompletion(msg, cfg.pipelineUuid)
    requires NamesTables(msg, cfg, projects, processableRef, unprocessableRef)
    requires processableRef !in db && unprocessableRef !in db
    requires ProcessableRun(msg, cfg, projects, db, env).Ret?
    ensures var calls := ProcessableRun(msg, cfg, projects, db, env).value;
            |calls| == 1 && ValueOf(calls[0]) == 0.0 && MetricOf(calls[0]) == MetricTypePrefix + TotalMetric
  {
    ProcessableMetrics(msg, cfg, projects, db, env, processableRef, unprocessableRef);
  }

  /** A message about another pipeline, or a run that did not complete, is
      accepted without any metric (the defensive check). */
  lemma ProcessableIgnoresOtherRuns(msg: Value, cfg: Config, projects: Projects, db: Db, env: Env)
    requires msg.Obj? && "payload" in msg.fields && msg.fields["payload"].Obj? && Truthy(msg.fields["payload"])
    requires !AnnouncesCompletion(msg, cfg.pipelineUuid)
    ensures ProcessableRun(msg, cfg, projects, db, env) == Ret([])
  {
  }

  /** The table variables are checked first, in order, and the partner only
      after them; an empty payload is reported before anything else. */
  lemma ProcessableCheckOrder(msg: Value, cfg: Config, projects: Projects, db: Db, env: Env)
    requires AnnouncesCompletion(msg, cfg.pipelineUuid)
    requires HasVariables(msg)
    ensures var r := ProcessableRun(msg, cfg, projects, db, env);
            (!Truthy(Variable(msg, cfg.processableVar)) ==> r == Raise(BadRequest(NoVariable(cfg.processableVar)))) &&
            (Truthy(Variable(msg, cfg.processableVar)) && !Truthy(Variable(msg, cfg.unprocessableVar)) ==>
               r == Raise(BadRequest(NoVariable(cfg.unprocessableVar)))) &&
            ((Variable(msg, cfg.processableVar).Str? && Truthy(Variable(msg, cfg.processableVar)) &&
              Variable(msg, cfg.unprocessableVar).Str? && Truthy(Variable(msg, cfg.unprocessableVar)) &&
              !Truthy(Variable(msg, "partner"))) ==> r == Raise(BadRequest(PartnerMissing)))
  {
  }

  /** A message without a payload is a bad request. */
  lemma ProcessableNeedsPayload(msg: Value, cfg: Config, projects: Projects, db: Db, env: Env)
    requires msg.Obj? && ("payload" !in msg.fields || !Truthy(msg.fields["payload"]))
    ensures ProcessableRun(msg, cfg, projects, db, env) == Raise(BadRequest(PayloadMissing))
  {
  }
}
