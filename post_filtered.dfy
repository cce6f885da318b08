/** Post-processing filter metrics (handlers/post_filtered_base.py) and the
    selection handler that configures them (handlers/post_filtered_selection.py). */
module PostFiltered {
  import opened Wrappers
  import opened Json
  import opened Metrics
  import opened Warehouse
  import opened HandlerBase

  datatype Config = Config(pipelineUuid: string, excludedVar: string, savingsVar: string, approved: string)

  const TotalMetric := "claims/pipeline/filtered_post/vl_glosa_arvo/total"
  const RelativeMetric := "claims/pipeline/filtered_post/vl_glosa_arvo/relative"

  const Selection := Config("pipesv2_selection", "excluded_savings_output_table", "savings_input_table", "false")

  /** What `_handle_post_filtered_metrics` does: the excluded table is probed
      (missing means zero), the savings table must exist. */
  function PostFilteredRun(msg: Value, cfg: Config, projects: Projects, db: Db, env: Env): (r: Py<seq<SinkCall>>)
    ensures r.Ret? ==> AllBuildable(r.value)
  {
    var payload :- PayloadOf(msg);
    var variables :- VariablesOf(payload);
    if !ReportsCompletion(payload, cfg.pipelineUuid) then Ret([])
    else if !variables.Obj? then Raise(Internal)
    else
      var excluded :- Require(Field(variables, cfg.excludedVar), NoVariable(cfg.excludedVar));
      var savings :- Require(Field(variables, cfg.savingsVar), NoVariable(cfg.savingsVar));
      var excludedRef :- TableRef(excluded, projects.data);
      var savingsRef :- TableRef(savings, projects.data);
      var e := ProbedTotal(db, excludedRef, VlGlosaArvo);
      var s :- QueriedTotal(db, savingsRef, VlGlosaArvo);
      var partner :- Require(Field(variables, "partner"), PartnerMissing);
      var ts :- SourceTimestamp(msg, env);
      var labels := map["approved" := Str(cfg.approved), "partner" := PartnerText(partner, env)];
      Ret([Gauge(projects.run, TotalMetric, e, labels, ts),
           Gauge(projects.run, RelativeMetric, Share(e, s), labels, ts)])
  }

  method HandlePostFilteredMetrics(msg: Value, cfg: Config, projects: Projects, db: Db, env: Env,
                                   client: MonitoringClient) returns (outcome: Py<()>)
    modifies client
    ensures Performs(outcome, old(client.calls), client.calls, PostFilteredRun(msg, cfg, projects, db, env))
  {
    var payload :- PayloadOf(msg);
    var variables :- VariablesOf(payload);
    if !ReportsCompletion(payload, cfg.pipelineUuid) {
      return Ret(());
    }
    if !variables.Obj? {
      return Raise(Internal);
    }
    var excludedTable := Field(variables, cfg.excludedVar);
    var savingsTable := Field(variables, cfg.savingsVar);
    var excluded :- Require(excludedTable, NoVariable(cfg.excludedVar));
    var savings :- Require(savingsTable, NoVariable(cfg.savingsVar));
    var excludedRef :- TableRef(excluded, projects.data);
    var savingsRef :- TableRef(savings, projects.data);

    var totalVlGlosaArvo := 0.0;
    if excludedRef in db {
      totalVlGlosaArvo := Total(db[excludedRef], VlGlosaArvo);
    }
    var sumSavingsVlGlosaArvo :- QueriedTotal(db, savingsRef, VlGlosaArvo);
    var relativeVlGlosaArvo := 0.0;
    if sumSavingsVlGlosaArvo > 0.0 {
      relativeVlGlosaArvo := totalVlGlosaArvo / sumSavingsVlGlosaArvo;
    }

    var labels: Labels := map["approved" := Str(cfg.approved)];
    var partner :- Require(Field(variables, "partner"), PartnerMissing);
    labels := labels["partner" := PartnerText(partner, env)];
    var ts :- SourceTimestamp(msg, env);

    // Both labels are strings, so neither emission raises.
    var sent := EmitGaugeMetric(client, projects.run, TotalMetric, totalVlGlosaArvo, labels, ts);
    sent := EmitGaugeMetric(client, projects.run, RelativeMetric, relativeVlGlosaArvo, labels, ts);
    return Ret(());
  }

  /** `PostFilteredSelectionHandler.match`. */
  function SelectionMatch(msg: Value): (r: Py<bool>)
    ensures r == Ret(true) <==> AnnouncesCompletion(msg, "pipesv2_selection")
    ensures msg.Obj? && "payload" in msg.fields && !Truthy(msg.fields["payload"]) ==> r == Ret(false)
  {
    MatchCompleted(msg, Selection.pipelineUuid)
  }

  /** `PostFilteredSelectionHandler.handle`. */
  method SelectionHandle(msg: Value, projects: Projects, db: Db, env: Env, client: MonitoringClient)
    returns (outcome: Py<()>)
    modifies client
    ensures Performs(outcome, old(client.calls), client.calls, PostFilteredRun(msg, Selection, projects, db, env))
  {
    outcome := HandlePostFilteredMetrics(msg, Selection, projects, db, env, client);
  }

  /** A handled message emits the excluded savings total (zero when that
      table is missing) and its ratio to the savings total (zero when that
      total is not positive), both with the `approved` label, the partner as
      text and the message's source timestamp. */
  lemma PostFilteredMetrics(msg: Value, cfg: Config, projects: Projects, db: Db, env: Env,
                            excludedRef: string, savingsRef: string)
    requires AnnouncesCompletion(msg, cfg.pipelineUuid)
    requires NamesTable(msg, cfg.excludedVar, projects.data, excludedRef)
    requires NamesTable(msg, cfg.savingsVar, projects.data, savingsRef)
    requires PostFilteredRun(msg, cfg, projects, db, env).Ret?
    ensures savingsRef in db
    ensures var calls := PostFilteredRun(msg, cfg, projects, db, env).value;
            var e := ProbedTotal(db, excludedRef, VlGlosaArvo);
            var s := Total(db[savingsRef], VlGlosaArvo);
            |calls| == 2 &&
            MetricOf(calls[0]) == MetricTypePrefix + TotalMetric && ValueOf(calls[0]) == e &&
            MetricOf(calls[1]) == MetricTypePrefix + RelativeMetric &&
            ValueOf(calls[1]) == (if s > 0.0 then e / s else 0.0) &&
            (excludedRef !in db ==> ValueOf(calls[0]) == 0.0 && ValueOf(calls[1]) == 0.0) &&
            (forall c :: c in calls ==> c.name == ProjectPrefix + projects.run &&
                                        LabelsOf(c).Keys == {"approved", "partner"} &&
                                        LabelsOf(c)["approved"] == Str(cfg.approved) &&
                                        LabelsOf(c)["partner"] == PartnerText(Variable(msg, "partner"), env) &&
                                        EndTimeOf(c) == SourceTimestamp(msg, env).value)
  {
  }

  /** A missing savings table is an internal error, whatever the excluded
      table holds. */
  lemma PostFilteredNeedsSavingsTable(msg: Value, cfg: Config, projects: Projects, db: Db, env: Env,
                                      excludedRef: string, savingsRef: string)
    requires AnnouncesCompletion(msg, cfg.pipelineUuid)
    requires NamesTable(msg, cfg.excludedVar, projects.data, excludedRef)
    requires NamesTable(msg, cfg.savingsVar, projects.data, savingsRef)
    requires savingsRef !in db
    ensures PostFilteredRun(msg, cfg, projects, db, env) == Raise(Internal)
  {
  }

  /** The excluded variable is checked before the savings variable. */
  lemma PostFilteredCheckOrder(msg: Value, cfg: Config, projects: Projects, db: Db, env: Env)
    requires AnnouncesCompletion(msg, cfg.pipelineUuid) && HasVariables(msg)
    ensures var r := PostFilteredRun(msg, cfg, projects, db, env);
            (!Truthy(Variable(msg, cfg.excludedVar)) ==> r == Raise(BadRequest(NoVariable(cfg.excludedVar)))) &&
            (Truthy(Variable(msg, cfg.excludedVar)) && !Truthy(Variable(msg, cfg.savingsVar)) ==>
               r == Raise(BadRequest(NoVariable(cfg.savingsVar))))
  {
  }
}
