/** Value of the claims whose validation expired in the last half hour
    (handlers/expired_validation_claims.py). */
module ExpiredValidation {
  import opened Wrappers
  import opened Json
  import opened Metrics
  import opened Warehouse
  import opened HandlerBase

  const Metric := "claims/pipeline/validation/vl_glosa_arvo/expired/total"
  const InternalVar := "internal_validation_claims_input_table"
  const ManualVar := "manual_validation_claims_input_table"

  /** The `WHERE` of `_query_expired_sum`: ingested in the two days up to the
      event, updated in the 30 minutes up to it, and expired. */
  function ExpiredCond(ts: int): Cond
  {
    All(Between(IngestedAt, ts - 2 * SecondsPerDay, ts), All(Between(UpdatedAt, ts - 30 * 60, ts), Equals(Status, "EXPIRED")))
  }

  /** `_query_expired_sum`: the table is queried without a probe. */
  function ExpiredSum(db: Db, table: string, ts: int): (r: Py<real>)
    ensures r.Ret? <==> table in db
    ensures r.Ret? ==> r.value == Total(Select(db[table], ExpiredCond(ts)), VlGlosaArvo)
  {
    if table in db then Ret(Total(Select(db[table], ExpiredCond(ts)), VlGlosaArvo)) else Raise(Internal)
  }

  /** The two `_query_expired_sum` calls of `handle`, internal table first:
      the expired value of both tables together. */
  function ExpiredTotal(db: Db, inputs: Inputs): (r: Py<real>)
    ensures r.Ret? <==> inputs.internalRef in db && inputs.manualRef in db
    ensures r.Ret? ==> r.value == Total(Select(db[inputs.internalRef], ExpiredCond(inputs.ts)), VlGlosaArvo) +
                                  Total(Select(db[inputs.manualRef], ExpiredCond(inputs.ts)), VlGlosaArvo)
  {
    var internalTotal :- ExpiredSum(db, inputs.internalRef, inputs.ts);
    var manualTotal :- ExpiredSum(db, inputs.manualRef, inputs.ts);
    Ret(internalTotal + manualTotal)
  }

  /** `variables.get(group, {}).get(name)`: raises when the group is not a
      dict. */
  function NestedVariable(variables: Value, group: string, name: string): Py<Value>
    requires variables.Obj?
  {
    var groupValue :- GetOr(variables, group, EmptyObject);
    Get(groupValue, name)
  }

  /** `ExpiredValidationClaimsHandler.match`. */
  function Match(msg: Value): (r: Py<bool>)
    ensures r == Ret(true) <==> AnnouncesCompletion(msg, "pipesv2_release")
    ensures msg.Obj? && "payload" in msg.fields && !Truthy(msg.fields["payload"]) ==> r == Ret(false)
  {
    MatchCompleted(msg, "pipesv2_release")
  }

  /** What `handle` has in hand before its two queries: the partner, both
      table references and the event time. */
  datatype Inputs = Inputs(partner: Value, internalRef: string, manualRef: string, ts: int)

  /** The checks `handle` makes before querying: both nested table variables
      are read before the partner is checked. */
  function Prepare(msg: Value, projects: Projects, env: Env): (r: Py<Inputs>)
    ensures r.Ret? ==> HasVariables(msg) && Truthy(Variable(msg, "partner")) && r.value.partner == Variable(msg, "partner")
    ensures r.Ret? ==> SourceTimestamp(msg, env) == Ret(r.value.ts)
  {
    var payload :- PayloadOf(msg);
    var variables :- VariablesOf(payload);
    if !variables.Obj? then Raise(Internal)
    else
      var partner := Field(variables, "partner");
      var internalTable :- NestedVariable(variables, "internal_validation", InternalVar);
      var manualTable :- NestedVariable(variables, "manual_validation", ManualVar);
      var _ :- Require(partner, PartnerMissing);
      var _ :- Require(internalTable, NotInPayload(InternalVar));
      var _ :- Require(manualTable, NotInPayload(ManualVar));
      var internalRef :- TableRef(internalTable, projects.data);
      var manualRef :- TableRef(manualTable, projects.data);
      var ts :- SourceTimestamp(msg, env);
      Ret(Inputs(partner, internalRef, manualRef, ts))
  }

  /** What `ExpiredValidationClaimsHandler.handle` does with a message. */
  function ExpiredValidationRun(msg: Value, projects: Projects, db: Db, env: Env): (r: Py<seq<SinkCall>>)
    ensures r.Ret? ==> |r.value| == 1 && MetricOf(r.value[0]) == MetricTypePrefix + Metric
  {
    var inputs :- Prepare(msg, projects, env);
    var total :- ExpiredTotal(db, inputs);
    Ret([Gauge(projects.run, Metric, total, map["partner" := inputs.partner], inputs.ts)])
  }

  method Handle(msg: Value, projects: Projects, db: Db, env: Env, client: MonitoringClient)
    returns (outcome: Py<()>)
    modifies client
    ensures Performs(outcome, old(client.calls), client.calls, ExpiredValidationRun(msg, projects, db, env))
  {
    var inputs :- Prepare(msg, projects, env);
    var total :- ExpiredTotal(db, inputs);
    StrLabelsSingle("partner", inputs.partner);
    SendOne(Gauge(projects.run, Metric, total, map["partner" := inputs.partner], inputs.ts));
    outcome := EmitGaugeMetric(client, projects.run, Metric, total, map["partner" := inputs.partner], inputs.ts);
  }

  /** Variable `name` of the nested dict `group` is a non-empty string
      naming table `ref`. */
  predicate NamesNestedTable(msg: Value, group: string, name: string, project: string, ref: string)
  {
    HasVariables(msg) && Variable(msg, group).Obj? && name in Variable(msg, group).fields &&
    Variable(msg, group).fields[name].Str? && Variable(msg, group).fields[name].s != "" &&
    ref == FullTableRef(project, Variable(msg, group).fields[name].s)
  }

  lemma {:induction false} SelectNonNegative(rows: seq<Row>, c: Cond, a: Amount)
    requires NonNegative(rows, a)
    ensures NonNegative(Select(rows, c), a)
  {
    var s := Select(rows, c);
    forall i | 0 <= i < |s| && AmountOf(s[i], a).Some? ensures AmountOf(s[i], a).value >= 0.0 {
      assert s[i] in s;
      var j :| 0 <= j < |rows| && rows[j] == s[i];
    }
  }

  /** The gauge is the expired value of both tables together, labelled with
      the partner as given; it is never negative when no table holds a
      negative value. It is sent exactly when the partner is a string: any
      other truthy partner raises and nothing is sent. */
  lemma ExpiredMetrics(msg: Value, projects: Projects, db: Db, env: Env, internalRef: string, manualRef: string)
    requires NamesNestedTable(msg, "internal_validation", InternalVar, projects.data, internalRef)
    requires NamesNestedTable(msg, "manual_validation", ManualVar, projects.data, manualRef)
    requires Truthy(Variable(msg, "partner")) && SourceTimestamp(msg, env).Ret?
    requires internalRef in db && manualRef in db
    ensures var r := ExpiredValidationRun(msg, projects, db, env);
            var ts := SourceTimestamp(msg, env).value;
            r.Ret? &&
            ValueOf(r.value[0]) == Total(Select(db[internalRef], ExpiredCond(ts)), VlGlosaArvo) +
                                   Total(Select(db[manualRef], ExpiredCond(ts)), VlGlosaArvo) &&
            LabelsOf(r.value[0]) == map["partner" := Variable(msg, "partner")] &&
            EndTimeOf(r.value[0]) == ts &&
            (NonNegativeDb(db, VlGlosaArvo) ==> ValueOf(r.value[0]) >= 0.0)
    ensures var r := ExpiredValidationRun(msg, projects, db, env);
            var e := EffectOf(r);
            (e.outcome.Ret? <==> Variable(msg, "partner").Str?) &&
            (e.outcome.Ret? ==> e.emitted == r.value) &&
            (e.outcome.Raise? ==> e == Effect(Raise(Internal), []))
  {
    var ts := SourceTimestamp(msg, env).value;
    var r := ExpiredValidationRun(msg, projects, db, env);
    assert Buildable(r.value[0]) <==> AllBuildable(r.value);
    StrLabelsSingle("partner", Variable(msg, "partner"));
    if NonNegativeDb(db, VlGlosaArvo) {
      SelectNonNegative(db[internalRef], ExpiredCond(ts), VlGlosaArvo);
      SelectNonNegative(db[manualRef], ExpiredCond(ts), VlGlosaArvo);
      TotalNonNegative(Select(db[internalRef], ExpiredCond(ts)), VlGlosaArvo);
      TotalNonNegative(Select(db[manualRef], ExpiredCond(ts)), VlGlosaArvo);
    }
  }

  /** A nested group that is present but not a dict fails before the
      partner is looked at. */
  lemma NestedGroupReadFirst(msg: Value, projects: Projects, db: Db, env: Env)
    requires HasVariables(msg)
    requires "internal_validation" in msg.fields["payload"].fields["variables"].fields
    requires !Variable(msg, "internal_validation").Obj?
    ensures ExpiredValidationRun(msg, projects, db, env) == Raise(Internal)
  {
  }

  /** Then the partner, the internal table and the manual table are checked
      in that order. */
  lemma ExpiredCheckOrder(msg: Value, projects: Projects, db: Db, env: Env, internalRef: string, manualRef: string)
    requires HasVariables(msg)
    requires Variable(msg, "internal_validation").Obj? && Variable(msg, "manual_validation").Obj?
    ensures var r := ExpiredValidationRun(msg, projects, db, env);
            var inner := Variable(msg, "internal_validation");
            var manual := Variable(msg, "manual_validation");
            (!Truthy(Variable(msg, "partner")) ==> r == Raise(BadRequest(PartnerMissing))) &&
            (Truthy(Variable(msg, "partner")) && !Truthy(Field(inner, InternalVar)) ==>
               r == Raise(BadRequest(NotInPayload(InternalVar)))) &&
            (Truthy(Variable(msg, "partner")) && Truthy(Field(inner, InternalVar)) && !Truthy(Field(manual, ManualVar)) ==>
               r == Raise(BadRequest(NotInPayload(ManualVar))))
  {
  }

  /** A missing table is an internal error and no gauge is sent. */
  lemma ExpiredMissingTableFails(msg: Value, projects: Projects, db: Db, env: Env, internalRef: string, manualRef: string)
    requires NamesNestedTable(msg, "internal_validation", InternalVar, projects.data, internalRef)
    requires NamesNestedTable(msg, "manual_validation", ManualVar, projects.data, manualRef)
    requires Truthy(Variable(msg, "partner")) && SourceTimestamp(msg, env).Ret?
    requires internalRef !in db || manualRef !in db
    ensures ExpiredValidationRun(msg, projects, db, env) == Raise(Internal)
  {
  }
}
