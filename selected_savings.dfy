/** Approved savings per agent (handlers/selected_savings_approval.py). */
module SelectedSavings {
  import opened Wrappers
  import opened Json
  import opened Metrics
  import opened Warehouse
  import opened HandlerBase

  const ApprovedMetric := "claims/glosa/approved/vl_glosa_arvo"
  const SavingsVar := "selected_savings_input_table"

  function ApprovedLabels(partner: Value, agent: Option<string>, env: Env): (l: Labels)
    ensures StrLabels(l)
  {
    map["partner" := PartnerText(partner, env), "agent_id" := Str(KeyText(agent)), "source" := Str("selected_savings")]
  }

  /** One gauge per result row, in result order: the agent's `vl_glosa_arvo`
      total. */
  function ApprovedCalls(rows: seq<Row>, agents: seq<Option<string>>, partner: Value,
                         projects: Projects, env: Env, ts: int): (calls: seq<SinkCall>)
    ensures AllBuildable(calls)
    decreases |agents|
  {
    if agents == [] then []
    else
      var agent := agents[|agents| - 1];
      var init := ApprovedCalls(rows, agents[..|agents| - 1], partner, projects, env, ts);
      var last := [Gauge(projects.run, ApprovedMetric, Total(InGroup(rows, AgentId, agent), VlGlosaArvo),
                         ApprovedLabels(partner, agent, env), ts)];
      AllBuildableConcat(init, last);
      init + last
  }

  /** `SelectedSavingsApprovalHandler.match`. */
  function ApprovalMatch(msg: Value): (r: Py<bool>)
    ensures r == Ret(true) <==> AnnouncesCompletion(msg, "pipesv2_approval")
    ensures msg.Obj? && "payload" !in msg.fields ==> r == Ret(false)
  {
    MatchCompletedOrEmpty(msg, "pipesv2_approval")
  }

  /** What `SelectedSavingsApprovalHandler.handle` does; here the defensive
      check comes before the variables are read. */
  function ApprovalRun(msg: Value, projects: Projects, db: Db, env: Env): (r: Py<seq<SinkCall>>)
    ensures r.Ret? ==> AllBuildable(r.value)
  {
    var payload :- PayloadOf(msg);
    var completed :- IsCompletedRun(payload, "pipesv2_approval");
    if !completed then Ret([])
    else
      var variables := VariablesOf(payload).value;
      if !variables.Obj? then Raise(Internal)
      else
        var table :- Require(Field(variables, SavingsVar), NoVariable(SavingsVar));
        var partner :- Require(Field(variables, "partner"), PartnerMissing);
        var tableRef :- TableRef(table, projects.data);
        var ts :- SourceTimestamp(msg, env);
        if tableRef !in db then Ret([])
        else
          var rows := db[tableRef];
          Ret(ApprovedCalls(rows, env.order(GroupKeys(rows, AgentId)), partner, projects, env, ts))
  }

  method ApprovalHandle(msg: Value, projects: Projects, db: Db, env: Env, client: MonitoringClient)
    returns (outcome: Py<()>)
    modifies client
    ensures Performs(outcome, old(client.calls), client.calls, ApprovalRun(msg, projects, db, env))
  {
    var payload :- PayloadOf(msg);
    var completed :- IsCompletedRun(payload, "pipesv2_approval");
    if !completed {
      return Ret(());
    }
    var variables := VariablesOf(payload).value;
    if !variables.Obj? {
      return Raise(Internal);
    }
    var table :- Require(Field(variables, SavingsVar), NoVariable(SavingsVar));
    var partner :- Require(Field(variables, "partner"), PartnerMissing);
    var fullTable :- TableRef(table, projects.data);
    var ts :- SourceTimestamp(msg, env);

    if fullTable !in db {
      return Ret(());
    }
    var rows := db[fullTable];
    EmitApproved(client, rows, env.order(GroupKeys(rows, AgentId)), partner, projects, env, ts);
    return Ret(());
  }

  /** The loop of `handle` over the result rows: one gauge per agent. */
  method EmitApproved(client: MonitoringClient, rows: seq<Row>, agents: seq<Option<string>>, partner: Value,
                      projects: Projects, env: Env, ts: int)
    modifies client
    ensures client.calls == old(client.calls) + ApprovedCalls(rows, agents, partner, projects, env, ts)
  {
    for i := 0 to |agents|
      invariant client.calls == old(client.calls) + ApprovedCalls(rows, agents[..i], partner, projects, env, ts)
    {
      var agent := agents[i];
      var totalVlGlosaArvo := Total(InGroup(rows, AgentId, agent), VlGlosaArvo);
      var labels := ApprovedLabels(partner, agent, env);
      // Every label is a string, so the emission does not raise.
      var sent := EmitGaugeMetric(client, projects.run, ApprovedMetric, totalVlGlosaArvo, labels, ts);
      assert agents[..i + 1][..i] == agents[..i];
    }
    assert agents[..|agents|] == agents;
  }

  lemma {:induction false} ApprovedCallsAt(rows: seq<Row>, agents: seq<Option<string>>, partner: Value,
                                           projects: Projects, env: Env, ts: int, i: nat)
    requires i < |agents|
    ensures var calls := ApprovedCalls(rows, agents, partner, projects, env, ts);
            |calls| == |agents| &&
            calls[i] == Gauge(projects.run, ApprovedMetric, Total(InGroup(rows, AgentId, agents[i]), VlGlosaArvo),
                              ApprovedLabels(partner, agents[i], env), ts)
    decreases |agents|
  {
    var init := agents[..|agents| - 1];
    ApprovedCallsLength(rows, init, partner, projects, env, ts);
    if i < |agents| - 1 {
      ApprovedCallsAt(rows, init, partner, projects, env, ts, i);
    }
  }

  lemma {:induction false} ApprovedCallsLength(rows: seq<Row>, agents: seq<Option<string>>, partner: Value,
                                               projects: Projects, env: Env, ts: int)
    ensures |ApprovedCalls(rows, agents, partner, projects, env, ts)| == |agents|
    decreases |agents|
  {
    if agents != [] {
      ApprovedCallsLength(rows, agents[..|agents| - 1], partner, projects, env, ts);
    }
  }

  /** One gauge per agent group, valued at the group's total and labelled
      with partner, agent and `source = selected_savings`. */
  lemma ApprovalMetrics(msg: Value, projects: Projects, db: Db, env: Env, tableRef: string)
    requires AnnouncesCompletion(msg, "pipesv2_approval")
    requires NamesTable(msg, SavingsVar, projects.data, tableRef)
    requires ApprovalRun(msg, projects, db, env).Ret? && tableRef in db
    requires Enumerates(env.order(GroupKeys(db[tableRef], AgentId)), GroupKeys(db[tableRef], AgentId))
    ensures var calls := ApprovalRun(msg, projects, db, env).value;
            var rows := db[tableRef];
            |calls| == |GroupKeys(rows, AgentId)| &&
            forall i :: 0 <= i < |calls| ==>
              exists agent :: agent in GroupKeys(rows, AgentId) &&
                MetricOf(calls[i]) == MetricTypePrefix + ApprovedMetric &&
                ValueOf(calls[i]) == Total(InGroup(rows, AgentId, agent), VlGlosaArvo) &&
                LabelsOf(calls[i]) == ApprovedLabels(Variable(msg, "partner"), agent, env)
  {
    var rows := db[tableRef];
    var agents := env.order(GroupKeys(rows, AgentId));
    var partner := Variable(msg, "partner");
    var ts := SourceTimestamp(msg, env).value;
    EnumeratesSize(agents, GroupKeys(rows, AgentId));
    ApprovedCallsLength(rows, agents, partner, projects, env, ts);
    forall i | 0 <= i < |agents|
      ensures var calls := ApprovedCalls(rows, agents, partner, projects, env, ts);
              agents[i] in GroupKeys(rows, AgentId) &&
              MetricOf(calls[i]) == MetricTypePrefix + ApprovedMetric &&
              ValueOf(calls[i]) == Total(InGroup(rows, AgentId, agents[i]), VlGlosaArvo) &&
              LabelsOf(calls[i]) == ApprovedLabels(partner, agents[i], env)
    {
      ApprovedCallsAt(rows, agents, partner, projects, env, ts, i);
    }
  }

  /** A missing table: no metric and a normal return. */
  lemma ApprovalMissingTableEmitsNothing(msg: Value, projects: Projects, db: Db, env: Env, tableRef: string)
    requires AnnouncesCompletion(msg, "pipesv2_approval")
    requires NamesTable(msg, SavingsVar, projects.data, tableRef) && tableRef !in db
    requires Truthy(Variable(msg, "partner")) && SourceTimestamp(msg, env).Ret?
    ensures ApprovalRun(msg, projects, db, env) == Ret([])
  {
  }

  /** The table variable is checked before the partner, and both before the
      table is looked at. */
  lemma ApprovalCheckOrder(msg: Value, projects: Projects, db: Db, env: Env)
    requires AnnouncesCompletion(msg, "pipesv2_approval") && HasVariables(msg)
    ensures var r := ApprovalRun(msg, projects, db, env);
            (!Truthy(Variable(msg, SavingsVar)) ==> r == Raise(BadRequest(NoVariable(SavingsVar)))) &&
            (Truthy(Variable(msg, SavingsVar)) && !Truthy(Variable(msg, "partner")) ==> r == Raise(BadRequest(PartnerMissing)))
  {
  }
}
