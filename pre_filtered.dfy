/** Pre-processing filter metrics (handlers/pre_filtered_base.py), the
    wrangling handler that configures them (handlers/pre_filtered_wrangling.py)
    and the approval handler that computes them its own way
    (handlers/pre_filtered_approval.py). */
module PreFiltered {
  import opened Wrappers
  import opened Json
  import opened Metrics
  import opened Warehouse
  import opened HandlerBase

  datatype Config = Config(pipelineUuid: string, unprocessableVar: string, processableVar: string, approved: string)

  const TotalMetric := "claims/pipeline/filtered_pre/vl_pago/total"
  const RelativeMetric := "claims/pipeline/filtered_pre/vl_pago/relative"

  const Wrangling := Config("pipesv2_wrangling", "refined_unprocessable_claims_output_table",
                            "refined_processable_claims_output_table", "false")
  const ApprovalUnprocessableVar := "unprocessable_claims_input_table"
  const ApprovalProcessableVar := "processable_claims_input_table"

  /** What `_handle_pre_filtered_metrics` does: one query over both tables,
      so a missing table is an internal error. */
  function PreFilteredRun(msg: Value, cfg: Config, projects: Projects, db: Db, env: Env): (r: Py<seq<SinkCall>>)
    ensures r.Ret? ==> AllBuildable(r.value)
  {
    var payload :- PayloadOf(msg);
    var variables :- VariablesOf(payload);
    if !ReportsCompletion(payload, cfg.pipelineUuid) then Ret([])
    else if !variables.Obj? then Raise(Internal)
    else
      var unprocessable :- Require(Field(variables, cfg.unprocessableVar), NoVariable(cfg.unprocessableVar));
      var processable :- Require(Field(variables, cfg.processableVar), NoVariable(cfg.processableVar));
      var unprocessableRef :- TableRef(unprocessable, projects.data);
      var processableRef :- TableRef(processable, projects.data);
      var u :- QueriedTotal(db, unprocessableRef, VlPago);
      var p :- QueriedTotal(db, processableRef, VlPago);
      var partner :- Require(Field(variables, "partner"), PartnerMissing);
      var ts :- SourceTimestamp(msg, env);
      var labels := map["approved" := Str(cfg.approved), "partner" := PartnerText(partner, env)];
      Ret([Gauge(projects.run, TotalMetric, u, labels, ts),
           Gauge(projects.run, RelativeMetric, Share(u, u + p), labels, ts)])
  }

  method HandlePreFilteredMetrics(msg: Value, cfg: Config, projects: Projects, db: Db, env: Env,
                                  client: MonitoringClient) returns (outcome: Py<()>)
    modifies client
    ensures Performs(outcome, old(client.calls), client.calls, PreFilteredRun(msg, cfg, projects, db, env))
  {
    var payload :- PayloadOf(msg);
    var variables :- VariablesOf(payload);
    if !ReportsCompletion(payload, cfg.pipelineUuid) {
      return Ret(());
    }
    if !variables.Obj? {
      return Raise(Internal);
    }
    var unprocessableTable := Field(variables, cfg.unprocessableVar);
    var processableTable := Field(variables, cfg.processableVar);
    var unprocessable :- Require(unprocessableTable, NoVariable(cfg.unprocessableVar));
    var processable :- Require(processableTable, NoVariable(cfg.processableVar));
    var unprocessableRef :- TableRef(unprocessable, projects.data);
    var processableRef :- TableRef(processable, projects.data);

    var totalVlPago :- QueriedTotal(db, unprocessableRef, VlPago);
    var sumProcessableVlPago :- QueriedTotal(db, processableRef, VlPago);
    var relativeVlPago := 0.0;
    if totalVlPago + sumProcessableVlPago > 0.0 {
      relativeVlPago := totalVlPago / (totalVlPago + sumProcessableVlPago);
    }

    var labels: Labels := map["approved" := Str(cfg.approved)];
    var partner :- Require(Field(variables, "partner"), PartnerMissing);
    labels := labels["partner" := PartnerText(partner, env)];
    var ts :- SourceTimestamp(msg, env);

    // Both labels are strings, so neither emission raises.
    var sent := EmitGaugeMetric(client, projects.run, TotalMetric, totalVlPago, labels, ts);
    sent := EmitGaugeMetric(client, projects.run, RelativeMetric, relativeVlPago, labels, ts);
    return Ret(());
  }

  /** `PreFilteredWranglingHandler.match`. */
  function WranglingMatch(msg: Value): (r: Py<bool>)
    ensures r == Ret(true) <==> AnnouncesCompletion(msg, "pipesv2_wrangling")
    ensures msg.Obj? && "payload" in msg.fields && !Truthy(msg.fields["payload"]) ==> r == Ret(false)
  {
    MatchCompleted(msg, Wrangling.pipelineUuid)
  }

  /** `PreFilteredWranglingHandler.handle`: unapproved claims, read from the
      wrangling pipeline's refined output tables. */
  method WranglingHandle(msg: Value, projects: Projects, db: Db, env: Env, client: MonitoringClient)
    returns (outcome: Py<()>)
    modifies client
    ensures Performs(outcome, old(client.calls), client.calls, PreFilteredRun(msg, Wrangling, projects, db, env))
  {
    outcome := HandlePreFilteredMetrics(msg, Wrangling, projects, db, env, client);
  }

  /** `PreFilteredApprovalHandler.match`. */
  function ApprovalMatch(msg: Value): (r: Py<bool>)
    ensures r == Ret(true) <==> AnnouncesCompletion(msg, "pipesv2_approval")
    ensures msg.Obj? && "payload" !in msg.fields ==> r == Ret(false)
  {
    MatchCompletedOrEmpty(msg, "pipesv2_approval")
  }

  /** What `PreFilteredApprovalHandler.handle` does: the payload is read by
      indexing, and the relative value is measured against the processable
      total alone. */
  function ApprovalRun(msg: Value, projects: Projects, db: Db, env: Env): (r: Py<seq<SinkCall>>)
    ensures r.Ret? ==> AllBuildable(r.value)
  {
    var payload :- Index(msg, "payload");
    var variables :- VariablesOf(payload);
    if !ReportsCompletion(payload, "pipesv2_approval") then Ret([])
    else if !variables.Obj? then Raise(Internal)
    else
      var unprocessable :- Require(Field(variables, ApprovalUnprocessableVar), NoVariable(ApprovalUnprocessableVar));
      var processable :- Require(Field(variables, ApprovalProcessableVar), NoVariable(ApprovalProcessableVar));
      var unprocessableRef :- TableRef(unprocessable, projects.data);
      var processableRef :- TableRef(processable, projects.data);
      var u :- QueriedTotal(db, unprocessableRef, VlPago);
      var p :- QueriedTotal(db, processableRef, VlPago);
      var partner :- Require(Field(variables, "partner"), PartnerMissing);
      var ts :- SourceTimestamp(msg, env);
      var labels := map["approved" := Str("true"), "partner" := PartnerText(partner, env)];
      Ret([Gauge(projects.run, TotalMetric, u, labels, ts),
           Gauge(projects.run, RelativeMetric, Share(u, p), labels, ts)])
  }

  method ApprovalHandle(msg: Value, projects: Projects, db: Db, env: Env, client: MonitoringClient)
    returns (outcome: Py<()>)
    modifies client
    ensures Performs(outcome, old(client.calls), client.calls, ApprovalRun(msg, projects, db, env))
  {
    var payload :- Index(msg, "payload");
    var variables :- VariablesOf(payload);
    if !ReportsCompletion(payload, "pipesv2_approval") {
      return Ret(());
    }
    if !variables.Obj? {
      return Raise(Internal);
    }
    var unprocessableTable := Field(variables, ApprovalUnprocessableVar);
    var processableTable := Field(variables, ApprovalProcessableVar);
    var unprocessable :- Require(unprocessableTable, NoVariable(ApprovalUnprocessableVar));
    var processable :- Require(processableTable, NoVariable(ApprovalProcessableVar));
    var unprocessableRef :- TableRef(unprocessable, projects.data);
    var processableRef :- TableRef(processable, projects.data);

    var totalVlPago :- QueriedTotal(db, unprocessableRef, VlPago);
    var sumProcessableVlPago :- QueriedTotal(db, processableRef, VlPago);
    var relativeVlPago := 0.0;
    if sumProcessableVlPago > 0.0 {
      relativeVlPago := totalVlPago / sumProcessableVlPago;
    }

    var labels: Labels := map["approved" := Str("true")];
    var partner :- Require(Field(variables, "partner"), PartnerMissing);
    labels := labels["partner" := PartnerText(partner, env)];
    var ts :- SourceTimestamp(msg, env);

    // Both labels are strings, so neither emission raises.
    var sent := EmitGaugeMetric(client, projects.run, TotalMetric, totalVlPago, labels, ts);
    sent := EmitGaugeMetric(client, projects.run, RelativeMetric, relativeVlPago, labels, ts);
    return Ret(());
  }

  /** A handled message emits the filtered (unprocessable) total and its
      share of all claims, with the `approved` label, the partner as text
      and the message's source timestamp. */
  lemma PreFilteredMetrics(msg: Value, cfg: Config, projects: Projects, db: Db, env: Env,
                           unprocessableRef: string, processableRef: string)
    requires AnnouncesCompletion(msg, cfg.pipelineUuid)
    requires NamesTable(msg, cfg.unprocessableVar, projects.data, unprocessableRef)
    requires NamesTable(msg, cfg.processableVar, projects.data, processableRef)
    requires PreFilteredRun(msg, cfg, projects, db, env).Ret?
    ensures unprocessableRef in db && processableRef in db
    ensures var calls := PreFilteredRun(msg, cfg, projects, db, env).value;
            var u := Total(db[unprocessableRef], VlPago);
            var p := Total(db[processableRef], VlPago);
            |calls| == 2 &&
            MetricOf(calls[0]) == MetricTypePrefix + TotalMetric && ValueOf(calls[0]) == u &&
            MetricOf(calls[1]) == MetricTypePrefix + RelativeMetric && ValueOf(calls[1]) == Share(u, u + p) &&
            (forall c :: c in calls ==> c.name == ProjectPrefix + projects.run &&
                                        LabelsOf(c).Keys == {"approved", "partner"} &&
                                        LabelsOf(c)["approved"] == Str(cfg.approved) &&
                                        LabelsOf(c)["partner"] == PartnerText(Variable(msg, "partner"), env) &&
                                        EndTimeOf(c) == SourceTimestamp(msg, env).value)
  {
  }

  /** Neither table is probed: if either is missing the query fails and the
      handler raises an internal error before emitting anything. */
  lemma PreFilteredMissingTableFails(msg: Value, cfg: Config, projects: Projects, db: Db, env: Env,
                                     unprocessableRef: string, processableRef: string)
    requires AnnouncesCompletion(msg, cfg.pipelineUuid)
    requires NamesTable(msg, cfg.unprocessableVar, projects.data, unprocessableRef)
    requires NamesTable(msg, cfg.processableVar, projects.data, processableRef)
    requires unprocessableRef !in db || processableRef !in db
    ensures PreFilteredRun(msg, cfg, projects, db, env) == Raise(Internal)
  {
  }

  /** With non-negative amounts the relative metric lies in [0, 1]. */
  lemma PreFilteredRelativeBounded(msg: Value, cfg: Config, projects: Projects, db: Db, env: Env)
    requires PreFilteredRun(msg, cfg, projects, db, env).Ret?
    requires |PreFilteredRun(msg, cfg, projects, db, env).value| == 2
    requires NonNegativeDb(db, VlPago)
    ensures 0.0 <= ValueOf(PreFilteredRun(msg, cfg, projects, db, env).value[1]) <= 1.0
  {
    var payload := PayloadOf(msg).value;
    var variables := VariablesOf(payload).value;
    var unprocessableRef := TableRef(Field(variables, cfg.unprocessableVar), projects.data).value;
    var processableRef := TableRef(Field(variables, cfg.processableVar), projects.data).value;
    TotalNonNegative(db[unprocessableRef], VlPago);
    TotalNonNegative(db[processableRef], VlPago);
    ShareOfSumBounded(Total(db[unprocessableRef], VlPago), Total(db[processableRef], VlPago));
  }

  /** The unprocessable variable is checked before the processable one, and
      the partner only after both tables were summed. */
  lemma PreFilteredCheckOrder(msg: Value, cfg: Config, projects: Projects, db: Db, env: Env)
    requires AnnouncesCompletion(msg, cfg.pipelineUuid) && HasVariables(msg)
    ensures var r := PreFilteredRun(msg, cfg, projects, db, env);
            (!Truthy(Variable(msg, cfg.unprocessableVar)) ==> r == Raise(BadRequest(NoVariable(cfg.unprocessableVar)))) &&
            (Truthy(Variable(msg, cfg.unprocessableVar)) && !Truthy(Variable(msg, cfg.processableVar)) ==>
               r == Raise(BadRequest(NoVariable(cfg.processableVar))))
  {
  }

  /** The approval handler emits the filtered total and its ratio to the
      processable total, which is not bounded by 1, under the same labels and
      timestamp as the base handler. */
  lemma ApprovalMetrics(msg: Value, projects: Projects, db: Db, env: Env,
                        unprocessableRef: string, processableRef: string)
    requires AnnouncesCompletion(msg, "pipesv2_approval")
    requires NamesTable(msg, ApprovalUnprocessableVar, projects.data, unprocessableRef)
    requires NamesTable(msg, ApprovalProcessableVar, projects.data, processableRef)
    requires ApprovalRun(msg, projects, db, env).Ret?
    ensures unprocessableRef in db && processableRef in db
    ensures var calls := ApprovalRun(msg, projects, db, env).value;
            var u := Total(db[unprocessableRef], VlPago);
            var p := Total(db[processableRef], VlPago);
            |calls| == 2 &&
            ValueOf(calls[0]) == u &&
            ValueOf(calls[1]) == (if p > 0.0 then u / p else 0.0) &&
            (forall c :: c in calls ==> c.name == ProjectPrefix + projects.run &&
                                        LabelsOf(c).Keys == {"approved", "partner"} &&
                                        LabelsOf(c)["approved"] == Str("true") &&
                                        LabelsOf(c)["partner"] == PartnerText(Variable(msg, "partner"), env) &&
                                        EndTimeOf(c) == SourceTimestamp(msg, env).value)
  {
  }

  /** A message without a payload key: the base handler answers a bad
      request, the approval handler fails on the missing key. A `{}` payload
      is accepted by the approval handler without any metric. */
  lemma PayloadHandlingDiffers(msg: Value, cfg: Config, projects: Projects, db: Db, env: Env)
    requires msg.Obj?
    ensures "payload" !in msg.fields ==>
              PreFilteredRun(msg, cfg, projects, db, env) == Raise(BadRequest(PayloadMissing)) &&
              ApprovalRun(msg, projects, db, env) == Raise(Internal)
    ensures "payload" in msg.fields && msg.fields["payload"] == EmptyObject ==>
              PreFilteredRun(msg, cfg, projects, db, env) == Raise(BadRequest(PayloadMissing)) &&
              ApprovalRun(msg, projects, db, env) == Ret([])
  {
  }
}
