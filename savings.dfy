/** Savings metrics per agent (handlers/savings_base.py) and the evaluation
    handler that configures them (handlers/savings_evaluation.py). */
module Savings {
  import opened Wrappers
  import opened Json
  import opened Metrics
  import opened Warehouse
  import opened HandlerBase

  datatype Config = Config(pipelineUuid: string, savingsVar: string, approved: string)

  const AmountMetric := "claims/pipeline/savings/vl_glosa_arvo"
  const CountMetric := "claims/pipeline/savings/count"

  const Evaluation := Config("pipesv2_evaluation", "savings_output_table", "false")

  function AgentLabels(partner: Value, agent: Option<string>, cfg: Config, env: Env): (l: Labels)
    ensures StrLabels(l)
  {
    map["partner" := PartnerText(partner, env), "agent_id" := Str(KeyText(agent)), "approved" := Str(cfg.approved)]
  }

  /** The two gauges of one result row: the agent's `vl_glosa_arvo` total and
      its row count. */
  function AgentCalls(rows: seq<Row>, agent: Option<string>, partner: Value, cfg: Config,
                      projects: Projects, env: Env, ts: int): (calls: seq<SinkCall>)
    ensures AllBuildable(calls)
  {
    var labels := AgentLabels(partner, agent, cfg, env);
    [Gauge(projects.run, AmountMetric, Total(InGroup(rows, AgentId, agent), VlGlosaArvo), labels, ts),
     Gauge(projects.run, CountMetric, |InGroup(rows, AgentId, agent)| as real, labels, ts)]
  }

  /** The gauges of the result rows `agents`, in result order. */
  function AllAgentCalls(rows: seq<Row>, agents: seq<Option<string>>, partner: Value, cfg: Config,
                         projects: Projects, env: Env, ts: int): (calls: seq<SinkCall>)
    ensures AllBuildable(calls)
    decreases |agents|
  {
    if agents == [] then []
    else
      var init := AllAgentCalls(rows, agents[..|agents| - 1], partner, cfg, projects, env, ts);
      var last := AgentCalls(rows, agents[|agents| - 1], partner, cfg, projects, env, ts);
      AllBuildableConcat(init, last);
      init + last
  }

  /** What `_handle_savings_metrics` does with a message. */
  function SavingsRun(msg: Value, cfg: Config, projects: Projects, db: Db, env: Env): (r: Py<seq<SinkCall>>)
    ensures r.Ret? ==> AllBuildable(r.value)
  {
    var payload :- PayloadOf(msg);
    var variables :- VariablesOf(payload);
    if !ReportsCompletion(payload, cfg.pipelineUuid) then Ret([])
    else if !variables.Obj? then Raise(Internal)
    else
      var savings :- Require(Field(variables, cfg.savingsVar), NoVariable(cfg.savingsVar));
      var partner :- Require(Field(variables, "partner"), PartnerMissing);
      var savingsRef :- TableRef(savings, projects.data);
      var ts :- SourceTimestamp(msg, env);
      if savingsRef !in db then Ret([])
      else
        var rows := db[savingsRef];
        Ret(AllAgentCalls(rows, env.order(GroupKeys(rows, AgentId)), partner, cfg, projects, env, ts))
  }

  method HandleSavingsMetrics(msg: Value, cfg: Config, projects: Projects, db: Db, env: Env,
                              client: MonitoringClient) returns (outcome: Py<()>)
    modifies client
    ensures Performs(outcome, old(client.calls), client.calls, SavingsRun(msg, cfg, projects, db, env))
  {
    var payload :- PayloadOf(msg);
    var variables :- VariablesOf(payload);
    if !ReportsCompletion(payload, cfg.pipelineUuid) {
      return Ret(());
    }
    if !variables.Obj? {
      return Raise(Internal);
    }
    var savingsTable := Field(variables, cfg.savingsVar);
    var savings :- Require(savingsTable, NoVariable(cfg.savingsVar));
    var partner :- Require(Field(variables, "partner"), PartnerMissing);
    var savingsRef :- TableRef(savings, projects.data);
    var ts :- SourceTimestamp(msg, env);

    if savingsRef !in db {
      return Ret(());
    }
    var rows := db[savingsRef];
    var agents := env.order(GroupKeys(rows, AgentId));
    for i := 0 to |agents|
      invariant client.calls == old(client.calls) + AllAgentCalls(rows, agents[..i], partner, cfg, projects, env, ts)
    {
      var agent := agents[i];
      var group := InGroup(rows, AgentId, agent);
      var totalAmount := Total(group, VlGlosaArvo);
      var rowCount := |group|;
      var labels := AgentLabels(partner, agent, cfg, env);
      // Every label is a string, so neither emission raises.
      var sent := EmitGaugeMetric(client, projects.run, AmountMetric, totalAmount, labels, ts);
      sent := EmitGaugeMetric(client, projects.run, CountMetric, rowCount as real, labels, ts);
      assert agents[..i + 1][..i] == agents[..i];
    }
    assert agents[..|agents|] == agents;
    return Ret(());
  }

  /** `SavingsEvaluationHandler.match`. */
  function EvaluationMatch(msg: Value): (r: Py<bool>)
    ensures r == Ret(true) <==> AnnouncesCompletion(msg, "pipesv2_evaluation")
    ensures msg.Obj? && "payload" !in msg.fields ==> r == Ret(false)
  {
    MatchCompletedOrEmpty(msg, Evaluation.pipelineUuid)
  }

  /** `SavingsEvaluationHandler.handle`. */
  method EvaluationHandle(msg: Value, projects: Projects, db: Db, env: Env, client: MonitoringClient)
    returns (outcome: Py<()>)
    modifies client
    ensures Performs(outcome, old(client.calls), client.calls, SavingsRun(msg, Evaluation, projects, db, env))
  {
    outcome := HandleSavingsMetrics(msg, Evaluation, projects, db, env, client);
  }

  /** Result row `i` contributes gauges `2i` (its total) and `2i + 1` (its
      row count), both labelled with its agent. */
  lemma {:induction false} AllAgentCallsAt(rows: seq<Row>, agents: seq<Option<string>>, partner: Value, cfg: Config,
                                           projects: Projects, env: Env, ts: int, i: nat)
    requires i < |agents|
    ensures var calls := AllAgentCalls(rows, agents, partner, cfg, projects, env, ts);
            var group := InGroup(rows, AgentId, agents[i]);
            |calls| == 2 * |agents| &&
            calls[2 * i] == Gauge(projects.run, AmountMetric, Total(group, VlGlosaArvo), AgentLabels(partner, agents[i], cfg, env), ts) &&
            calls[2 * i + 1] == Gauge(projects.run, CountMetric, |group| as real, AgentLabels(partner, agents[i], cfg, env), ts)
    decreases |agents|
  {
    var init := agents[..|agents| - 1];
    AllAgentCallsLength(rows, init, partner, cfg, projects, env, ts);
    if i < |agents| - 1 {
      AllAgentCallsAt(rows, init, partner, cfg, projects, env, ts, i);
    }
  }

  lemma {:induction false} AllAgentCallsLength(rows: seq<Row>, agents: seq<Option<string>>, partner: Value, cfg: Config,
                                               projects: Projects, env: Env, ts: int)
    ensures |AllAgentCalls(rows, agents, partner, cfg, projects, env, ts)| == 2 * |agents|
    decreases |agents|
  {
    if agents != [] {
      AllAgentCallsLength(rows, agents[..|agents| - 1], partner, cfg, projects, env, ts);
    }
  }

  /** The two gauges of one agent carry its total and its count, under the
      same labels. */
  lemma AgentPair(rows: seq<Row>, agent: Option<string>, partner: Value, cfg: Config, projects: Projects,
                  env: Env, ts: int, amount: SinkCall, count: SinkCall)
    requires amount == Gauge(projects.run, AmountMetric, Total(InGroup(rows, AgentId, agent), VlGlosaArvo),
                             AgentLabels(partner, agent, cfg, env), ts)
    requires count == Gauge(projects.run, CountMetric, |InGroup(rows, AgentId, agent)| as real,
                            AgentLabels(partner, agent, cfg, env), ts)
    ensures ValueOf(amount) == Total(InGroup(rows, AgentId, agent), VlGlosaArvo) &&
            ValueOf(count) == |InGroup(rows, AgentId, agent)| as real &&
            LabelsOf(amount) == LabelsOf(count) &&
            LabelsOf(amount).Keys == {"partner", "agent_id", "approved"} &&
            LabelsOf(amount)["agent_id"] == Str(KeyText(agent))
  {
  }

  /** Over the rows of a table, each agent group yields exactly two gauges:
      its total and its count, labelled with partner, agent and `approved`. */
  lemma AgentMetrics(rows: seq<Row>, partner: Value, cfg: Config, projects: Projects, env: Env, ts: int,
                     calls: seq<SinkCall>)
    requires Enumerates(env.order(GroupKeys(rows, AgentId)), GroupKeys(rows, AgentId))
    requires calls == AllAgentCalls(rows, env.order(GroupKeys(rows, AgentId)), partner, cfg, projects, env, ts)
    ensures |calls| == 2 * |GroupKeys(rows, AgentId)| &&
            forall i :: 0 <= i < |calls| / 2 ==>
              exists agent :: agent in GroupKeys(rows, AgentId) &&
                ValueOf(calls[2 * i]) == Total(InGroup(rows, AgentId, agent), VlGlosaArvo) &&
                ValueOf(calls[2 * i + 1]) == |InGroup(rows, AgentId, agent)| as real &&
                LabelsOf(calls[2 * i]) == LabelsOf(calls[2 * i + 1]) &&
                LabelsOf(calls[2 * i]).Keys == {"partner", "agent_id", "approved"} &&
                LabelsOf(calls[2 * i])["agent_id"] == Str(KeyText(agent))
  {
    var agents := env.order(GroupKeys(rows, AgentId));
    EnumeratesSize(agents, GroupKeys(rows, AgentId));
    AllAgentCallsLength(rows, agents, partner, cfg, projects, env, ts);
    assert |calls| / 2 == |agents|;
    forall i | 0 <= i < |calls| / 2
      ensures exists agent :: agent in GroupKeys(rows, AgentId) &&
                ValueOf(calls[2 * i]) == Total(InGroup(rows, AgentId, agent), VlGlosaArvo) &&
                ValueOf(calls[2 * i + 1]) == |InGroup(rows, AgentId, agent)| as real &&
                LabelsOf(calls[2 * i]) == LabelsOf(calls[2 * i + 1]) &&
                LabelsOf(calls[2 * i]).Keys == {"partner", "agent_id", "approved"} &&
                LabelsOf(calls[2 * i])["agent_id"] == Str(KeyText(agent))
    {
      AllAgentCallsAt(rows, agents, partner, cfg, projects, env, ts, i);
      var agent := agents[i];
      assert agent in GroupKeys(rows, AgentId);
      AgentPair(rows, agent, partner, cfg, projects, env, ts, calls[2 * i], calls[2 * i + 1]);
    }
  }

  /** A completed run naming an existing table sends the gauges of its
      rows. */
  lemma RunReadsTable(msg: Value, cfg: Config, projects: Projects, db: Db, env: Env, savingsRef: string)
    requires AnnouncesCompletion(msg, cfg.pipelineUuid)
    requires NamesTable(msg, cfg.savingsVar, projects.data, savingsRef)
    requires SavingsRun(msg, cfg, projects, db, env).Ret? && savingsRef in db
    ensures var rows := db[savingsRef];
            SavingsRun(msg, cfg, projects, db, env).value ==
              AllAgentCalls(rows, env.order(GroupKeys(rows, AgentId)), Variable(msg, "partner"), cfg, projects, env,
                            SourceTimestamp(msg, env).value)
  {
  }

  /** Each agent group of the table yields exactly two gauges: its total and
      its count, labelled with partner, agent and `approved`. */
  lemma SavingsMetrics(msg: Value, cfg: Config, projects: Projects, db: Db, env: Env, savingsRef: string)
    requires AnnouncesCompletion(msg, cfg.pipelineUuid)
    requires NamesTable(msg, cfg.savingsVar, projects.data, savingsRef)
    requires SavingsRun(msg, cfg, projects, db, env).Ret? && savingsRef in db
    requires Enumerates(env.order(GroupKeys(db[savingsRef], AgentId)), GroupKeys(db[savingsRef], AgentId))
    ensures var calls := SavingsRun(msg, cfg, projects, db, env).value;
            var rows := db[savingsRef];
            |calls| == 2 * |GroupKeys(rows, AgentId)| &&
            forall i :: 0 <= i < |calls| / 2 ==>
              exists agent :: agent in GroupKeys(rows, AgentId) &&
                ValueOf(calls[2 * i]) == Total(InGroup(rows, AgentId, agent), VlGlosaArvo) &&
                ValueOf(calls[2 * i + 1]) == |InGroup(rows, AgentId, agent)| as real &&
                LabelsOf(calls[2 * i]) == LabelsOf(calls[2 * i + 1]) &&
                LabelsOf(calls[2 * i]).Keys == {"partner", "agent_id", "approved"} &&
                LabelsOf(calls[2 * i])["agent_id"] == Str(KeyText(agent))
  {
    RunReadsTable(msg, cfg, projects, db, env, savingsRef);
    AgentMetrics(db[savingsRef], Variable(msg, "partner"), cfg, projects, env, SourceTimestamp(msg, env).value,
                 SavingsRun(msg, cfg, projects, db, env).value);
  }

  /** A missing table: the handler returns without any metric. */
  lemma SavingsMissingTableEmitsNothing(msg: Value, cfg: Config, projects: Projects, db: Db, env: Env, savingsRef: string)
    requires AnnouncesCompletion(msg, cfg.pipelineUuid)
    requires NamesTable(msg, cfg.savingsVar, projects.data, savingsRef)
    requires savingsRef !in db
    requires Truthy(Variable(msg, "partner")) && SourceTimestamp(msg, env).Ret?
    ensures SavingsRun(msg, cfg, projects, db, env) == Ret([])
  {
  }

  /** The partner is required before the table is looked at: it is a bad
      request even when the table does not exist. */
  lemma SavingsPartnerBeforeTable(msg: Value, cfg: Config, projects: Projects, db: Db, env: Env)
    requires AnnouncesCompletion(msg, cfg.pipelineUuid) && HasVariables(msg)
    requires Truthy(Variable(msg, cfg.savingsVar)) && !Truthy(Variable(msg, "partner"))
    ensures SavingsRun(msg, cfg, projects, db, env) == Raise(BadRequest(PartnerMissing))
  {
  }
}
