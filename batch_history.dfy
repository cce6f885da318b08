/** The steps that the batch-versus-history handlers share
    (handlers/new_beneficiaries_base.py, handlers/new_providers_base.py,
    handlers/beneficiaries_volume_ratio_base.py and
    handlers/providers_volume_ratio_base.py): four table variables, the
    partner, the timestamp, and the existence probes of the batch and the
    historical tables. */
module BatchHistory {
  import opened Wrappers
  import opened Json
  import opened Warehouse
  import opened HandlerBase
  import opened Metrics

  /** The names of the four table variables a handler reads. */
  datatype Tables = Tables(
    batchProcessableVar: string,
    batchUnprocessableVar: string,
    historicalProcessableVar: string,
    historicalUnprocessableVar: string)

  /** What the handler works on once every check has passed: the rows of
      both batch tables, the rows of both historical tables (`None` when
      either of them does not exist), the partner and the timestamp. */
  datatype Inputs = Inputs(batch: seq<Row>, history: Option<seq<Row>>, partner: Value, ts: int)

  function BatchTablesNotFound(processable: string, unprocessable: string): string
  {
    "Batch tables not found: " + processable + " or " + unprocessable
  }

  /** The `partner` and `approved` labels every gauge of these handlers
      carries. */
  function BaseLabels(partner: Value, approved: string, env: Env): (l: Labels)
    ensures StrLabels(l)
  {
    map["partner" := PartnerText(partner, env), "approved" := Str(approved)]
  }

  /** Everything the handlers do before their query: payload, variables in
      the order batch processable, batch unprocessable, historical
      processable, historical unprocessable, the timestamp, then the
      partner, then the probes. A missing batch table is a bad request that
      names the variables as given; a missing historical table only selects
      the fallback. */
  function Prepare(msg: Value, t: Tables, projects: Projects, db: Db, env: Env): (r: Py<Inputs>)
    ensures r.Ret? ==> HasVariables(msg) && Truthy(Variable(msg, "partner")) && r.value.partner == Variable(msg, "partner")
  {
    var payload :- PayloadOf(msg);
    var variables :- VariablesOf(payload);
    if !variables.Obj? then Raise(Internal)
    else
      var bp :- Require(Field(variables, t.batchProcessableVar), NoVariable(t.batchProcessableVar));
      var bu :- Require(Field(variables, t.batchUnprocessableVar), NoVariable(t.batchUnprocessableVar));
      var hp :- Require(Field(variables, t.historicalProcessableVar), NoVariable(t.historicalProcessableVar));
      var hu :- Require(Field(variables, t.historicalUnprocessableVar), NoVariable(t.historicalUnprocessableVar));
      var bpRef :- TableRef(bp, projects.data);
      var buRef :- TableRef(bu, projects.data);
      var hpRef :- TableRef(hp, projects.data);
      var huRef :- TableRef(hu, projects.data);
      var ts :- SourceTimestamp(msg, env);
      var partner :- Require(Field(variables, "partner"), PartnerMissing);
      if bpRef !in db || buRef !in db then Raise(BadRequest(BatchTablesNotFound(bp.s, bu.s)))
      else
        var history := if hpRef in db && huRef in db then Some(db[hpRef] + db[huRef]) else None;
        Ret(Inputs(db[bpRef] + db[buRef], history, partner, ts))
  }

  /** The four variables name tables `refs` of the data project. */
  predicate NamesTables(msg: Value, t: Tables, projects: Projects, refs: seq<string>)
  {
    |refs| == 4 &&
    NamesTable(msg, t.batchProcessableVar, projects.data, refs[0]) &&
    NamesTable(msg, t.batchUnprocessableVar, projects.data, refs[1]) &&
    NamesTable(msg, t.historicalProcessableVar, projects.data, refs[2]) &&
    NamesTable(msg, t.historicalUnprocessableVar, projects.data, refs[3])
  }

  /** With every check passed, the inputs are the rows of the named tables:
      the batch is both batch tables, and the history is both historical
      tables exactly when both exist. */
  lemma PrepareReadsTables(msg: Value, t: Tables, projects: Projects, db: Db, env: Env, refs: seq<string>)
    requires NamesTables(msg, t, projects, refs)
    requires Truthy(Variable(msg, "partner")) && SourceTimestamp(msg, env).Ret?
    requires refs[0] in db && refs[1] in db
    ensures var r := Prepare(msg, t, projects, db, env);
            r.Ret? && r.value.batch == db[refs[0]] + db[refs[1]] &&
            r.value.ts == SourceTimestamp(msg, env).value &&
            (r.value.history.Some? <==> refs[2] in db && refs[3] in db) &&
            (r.value.history.Some? ==> r.value.history.value == db[refs[2]] + db[refs[3]])
  {
  }

  /** A missing batch table is reported as a bad request naming both batch
      variables' values. */
  lemma PrepareMissingBatch(msg: Value, t: Tables, projects: Projects, db: Db, env: Env, refs: seq<string>)
    requires NamesTables(msg, t, projects, refs)
    requires Truthy(Variable(msg, "partner")) && SourceTimestamp(msg, env).Ret?
    requires refs[0] !in db || refs[1] !in db
    ensures Prepare(msg, t, projects, db, env) ==
            Raise(BadRequest(BatchTablesNotFound(Variable(msg, t.batchProcessableVar).s, Variable(msg, t.batchUnprocessableVar).s)))
  {
  }

  /** The timestamp is read before the partner is checked: a message with
      neither a valid timestamp nor a partner fails with an internal error,
      not with the partner's bad request. */
  lemma PrepareTimestampBeforePartner(msg: Value, t: Tables, projects: Projects, db: Db, env: Env, refs: seq<string>)
    requires NamesTables(msg, t, projects, refs)
    requires SourceTimestamp(msg, env).Raise?
    ensures Prepare(msg, t, projects, db, env) == Raise(Internal)
  {
  }

  /** The variables are checked in order, each before the partner. */
  lemma PrepareCheckOrder(msg: Value, t: Tables, projects: Projects, db: Db, env: Env)
    requires HasVariables(msg)
    ensures var r := Prepare(msg, t, projects, db, env);
            (!Truthy(Variable(msg, t.batchProcessableVar)) ==>
               r == Raise(BadRequest(NoVariable(t.batchProcessableVar)))) &&
            (Truthy(Variable(msg, t.batchProcessableVar)) && !Truthy(Variable(msg, t.batchUnprocessableVar)) ==>
               r == Raise(BadRequest(NoVariable(t.batchUnprocessableVar)))) &&
            (Truthy(Variable(msg, t.batchProcessableVar)) && Truthy(Variable(msg, t.batchUnprocessableVar)) &&
             !Truthy(Variable(msg, t.historicalProcessableVar)) ==>
               r == Raise(BadRequest(NoVariable(t.historicalProcessableVar)))) &&
            (Truthy(Variable(msg, t.batchProcessableVar)) && Truthy(Variable(msg, t.batchUnprocessableVar)) &&
             Truthy(Variable(msg, t.historicalProcessableVar)) && !Truthy(Variable(msg, t.historicalUnprocessableVar)) ==>
               r == Raise(BadRequest(NoVariable(t.historicalUnprocessableVar))))
  {
  }

  /** A missing or falsy payload is a bad request. */
  lemma PrepareNeedsPayload(msg: Value, t: Tables, projects: Projects, db: Db, env: Env)
    requires msg.Obj? && ("payload" !in msg.fields || !Truthy(msg.fields["payload"]))
    ensures Prepare(msg, t, projects, db, env) == Raise(BadRequest(PayloadMissing))
  {
  }
}
