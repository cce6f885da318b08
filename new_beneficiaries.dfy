/** Share of new beneficiaries per category over a 90-day history
    (handlers/new_beneficiaries_base.py) and the approval handler that
    configures it (handlers/new_beneficiaries_approval.py). */
module NewBeneficiaries {
  import opened Wrappers
  import opened Json
  import opened Metrics
  import opened Warehouse
  import opened HandlerBase
  import opened BatchHistory

  datatype Config = Config(tables: Tables, approved: string)

  const NewPctMetric := "claims/beneficiaries/new_pct_3mo"
  const WindowDays := 90

  const Approval := Config(
    Tables("processable_claims_input_table", "unprocessable_claims_input_table",
           "processable_claims_output_table", "unprocessable_claims_output_table"),
    "true")

  /** A historical row that counts as having been seen: created on or after
      the cutoff and not a claim of the batch. A `NULL` `id_arvo` never
      equals a batch id, so such a row always counts. */
  predicate Seen(r: Row, cutoff: int, batchIds: set<string>)
  {
    r.createdAt.Some? && r.createdAt.value >= cutoff && !(r.idArvo.Some? && r.idArvo.value in batchIds)
  }

  /** The distinct beneficiaries (`id_matricula`) of category `c` in `rows`. */
  function Beneficiaries(rows: seq<Row>, c: Option<string>): set<string>
  {
    set r | r in rows && r.categoria.Some? && r.categoria == c && r.idMatricula.Some? :: r.idMatricula.value
  }

  /** The beneficiaries of category `c` that the history has seen. */
  function SeenBeneficiaries(history: seq<Row>, c: Option<string>, cutoff: int, batchIds: set<string>): set<string>
  {
    set r | r in history && Seen(r, cutoff, batchIds) && r.categoria.Some? && r.categoria == c &&
            r.idMatricula.Some? :: r.idMatricula.value
  }

  /** The categories of `batch_counts`: those with at least one beneficiary. */
  function BeneficiaryCategories(batch: seq<Row>): set<Option<string>>
  {
    set r | r in batch && r.categoria.Some? && r.idMatricula.Some? :: r.categoria
  }

  /** The categories of the fallback query: every non-`NULL` category. */
  function BatchCategories(batch: seq<Row>): set<Option<string>>
  {
    set r | r in batch && r.categoria.Some? :: r.categoria
  }

  /** `new_pct` of category `c`: the share of its batch beneficiaries not
      seen in the history, zero for a category without any. */
  function NewPct(batch: seq<Row>, history: seq<Row>, c: Option<string>, cutoff: int): real
  {
    var total := Beneficiaries(batch, c);
    var unseen := total - SeenBeneficiaries(history, c, cutoff, Distinct(batch, IdArvo));
    if |total| > 0 then |unseen| as real / |total| as real else 0.0
  }

  function CategoryLabels(partner: Value, approved: string, c: Option<string>, env: Env): (l: Labels)
    ensures StrLabels(l)
  {
    BaseLabels(partner, approved, env)["category" := Str(KeyText(c))]
  }

  /** The value of category `c`: its `new_pct`, or 1.0 when there is no
      history. */
  function CategoryValue(inputs: Inputs, c: Option<string>): real
  {
    if inputs.history.Some? then NewPct(inputs.batch, inputs.history.value, c, DayCutoff(inputs.ts, WindowDays))
    else 1.0
  }

  /** One gauge per result row, in result order. */
  function CategoryCalls(inputs: Inputs, cats: seq<Option<string>>, approved: string,
                         projects: Projects, env: Env): (calls: seq<SinkCall>)
    ensures AllBuildable(calls)
    decreases |cats|
  {
    if cats == [] then []
    else
      var c := cats[|cats| - 1];
      var init := CategoryCalls(inputs, cats[..|cats| - 1], approved, projects, env);
      var last := [Gauge(projects.run, NewPctMetric, CategoryValue(inputs, c), CategoryLabels(inputs.partner, approved, c, env), inputs.ts)];
      AllBuildableConcat(init, last);
      init + last
  }

  /** The categories the query returns, in result order. */
  function ResultCategories(inputs: Inputs, env: Env): seq<Option<string>>
  {
    if inputs.history.Some? then env.order(BeneficiaryCategories(inputs.batch))
    else env.order(BatchCategories(inputs.batch))
  }

  /** What `_handle_new_beneficiaries_metrics` does with a message. */
  function NewBeneficiariesRun(msg: Value, cfg: Config, projects: Projects, db: Db, env: Env): (r: Py<seq<SinkCall>>)
    ensures r.Ret? ==> AllBuildable(r.value)
  {
    var inputs :- Prepare(msg, cfg.tables, projects, db, env);
    Ret(CategoryCalls(inputs, ResultCategories(inputs, env), cfg.approved, projects, env))
  }

  method HandleNewBeneficiariesMetrics(msg: Value, cfg: Config, projects: Projects, db: Db, env: Env,
                                       client: MonitoringClient) returns (outcome: Py<()>)
    modifies client
    ensures Performs(outcome, old(client.calls), client.calls, NewBeneficiariesRun(msg, cfg, projects, db, env))
  {
    var inputs :- Prepare(msg, cfg.tables, projects, db, env);
    var cats := ResultCategories(inputs, env);
    for i := 0 to |cats|
      invariant client.calls == old(client.calls) + CategoryCalls(inputs, cats[..i], cfg.approved, projects, env)
    {
      var categoria := cats[i];
      var labels := CategoryLabels(inputs.partner, cfg.approved, categoria, env);
      // Every label is a string, so the emission does not raise.
      var sent := EmitGaugeMetric(client, projects.run, NewPctMetric, CategoryValue(inputs, categoria), labels, inputs.ts);
      assert cats[..i + 1][..i] == cats[..i];
    }
    assert cats[..|cats|] == cats;
    return Ret(());
  }

  /** `NewBeneficiariesApprovalHandler.match`. */
  function ApprovalMatch(msg: Value): (r: Py<bool>)
    ensures r == Ret(true) <==> AnnouncesCompletion(msg, "pipesv2_approval")
    ensures msg.Obj? && "payload" !in msg.fields ==> r == Ret(false)
  {
    MatchCompletedOrEmpty(msg, "pipesv2_approval")
  }

  /** `NewBeneficiariesApprovalHandler.handle`. */
  method ApprovalHandle(msg: Value, projects: Projects, db: Db, env: Env, client: MonitoringClient)
    returns (outcome: Py<()>)
    modifies client
    ensures Performs(outcome, old(client.calls), client.calls, NewBeneficiariesRun(msg, Approval, projects, db, env))
  {
    outcome := HandleNewBeneficiariesMetrics(msg, Approval, projects, db, env, client);
  }

  lemma {:induction false} CategoryCallsLength(inputs: Inputs, cats: seq<Option<string>>, approved: string,
                                               projects: Projects, env: Env)
    ensures |CategoryCalls(inputs, cats, approved, projects, env)| == |cats|
    decreases |cats|
  {
    if cats != [] {
      CategoryCallsLength(inputs, cats[..|cats| - 1], approved, projects, env);
    }
  }

  /** Result row `i` becomes gauge `i`. */
  lemma {:induction false} CategoryCallsAt(inputs: Inputs, cats: seq<Option<string>>, approved: string,
                                           projects: Projects, env: Env, i: nat)
    requires i < |cats|
    ensures var calls := CategoryCalls(inputs, cats, approved, projects, env);
            |calls| == |cats| &&
            calls[i] == Gauge(projects.run, NewPctMetric, CategoryValue(inputs, cats[i]),
                              CategoryLabels(inputs.partner, approved, cats[i], env), inputs.ts)
    decreases |cats|
  {
    CategoryCallsLength(inputs, cats[..|cats| - 1], approved, projects, env);
    if i < |cats| - 1 {
      CategoryCallsAt(inputs, cats[..|cats| - 1], approved, projects, env, i);
    }
  }

  /** `new_pct` is a share: between zero and one. */
  lemma NewPctBounded(batch: seq<Row>, history: seq<Row>, c: Option<string>, cutoff: int)
    ensures 0.0 <= NewPct(batch, history, c, cutoff) <= 1.0
  {
    var total := Beneficiaries(batch, c);
    var unseen := total - SeenBeneficiaries(history, c, cutoff, Distinct(batch, IdArvo));
    SubsetSize(unseen, total);
    if |total| > 0 {
      ShareOfSumBounded(|unseen| as real, (|total| - |unseen|) as real);
    }
  }

  /** The history's claims that belong to the batch do not make a
      beneficiary old: if every historical row carries an `id_arvo` of the
      batch, every beneficiary is new. */
  lemma BatchClaimsNotHistory(batch: seq<Row>, history: seq<Row>, c: Option<string>, cutoff: int)
    requires forall r :: r in history ==> r.idArvo.Some? && r.idArvo.value in Distinct(batch, IdArvo)
    requires Beneficiaries(batch, c) != {}
    ensures NewPct(batch, history, c, cutoff) == 1.0
  {
    var seen := SeenBeneficiaries(history, c, cutoff, Distinct(batch, IdArvo));
    assert seen == {};
    assert Beneficiaries(batch, c) - seen == Beneficiaries(batch, c);
  }

  /** A beneficiary seen in a historical claim of the window that is not a
      batch claim is not new; so a category whose every beneficiary was
      seen scores zero. */
  lemma SeenBeneficiaryNotNew(batch: seq<Row>, history: seq<Row>, c: Option<string>, cutoff: int)
    requires Beneficiaries(batch, c) != {}
    requires forall m :: m in Beneficiaries(batch, c) ==>
               exists r :: r in history && Seen(r, cutoff, Distinct(batch, IdArvo)) && r.categoria == c && r.idMatricula == Some(m)
    ensures NewPct(batch, history, c, cutoff) == 0.0
  {
    var total := Beneficiaries(batch, c);
    var seen := SeenBeneficiaries(history, c, cutoff, Distinct(batch, IdArvo));
    assert total - seen == {} by {
      forall m | m in total ensures m in seen {
        var r :| r in history && Seen(r, cutoff, Distinct(batch, IdArvo)) && r.categoria == c && r.idMatricula == Some(m);
        var w :| w in batch && w.categoria.Some? && w.categoria == c && w.idMatricula.Some? && w.idMatricula.value == m;
        assert r.categoria.Some?;
      }
    }
  }

  /** The gauges of the result rows, when the rows list each category of
      `cats` once: one per category, valued at `CategoryValue`. */
  lemma CategoryCallsDescribe(inputs: Inputs, cats: set<Option<string>>, approved: string, projects: Projects, env: Env)
    requires Enumerates(ResultCategories(inputs, env), cats)
    ensures var calls := CategoryCalls(inputs, ResultCategories(inputs, env), approved, projects, env);
            |calls| == |cats| &&
            forall i :: 0 <= i < |calls| ==>
              exists c :: c in cats &&
                MetricOf(calls[i]) == MetricTypePrefix + NewPctMetric &&
                LabelsOf(calls[i]) == CategoryLabels(inputs.partner, approved, c, env) &&
                ValueOf(calls[i]) == CategoryValue(inputs, c)
  {
    var order := ResultCategories(inputs, env);
    EnumeratesSize(order, cats);
    CategoryCallsLength(inputs, order, approved, projects, env);
    forall i | 0 <= i < |order|
      ensures var calls := CategoryCalls(inputs, order, approved, projects, env);
              order[i] in cats &&
              MetricOf(calls[i]) == MetricTypePrefix + NewPctMetric &&
              LabelsOf(calls[i]) == CategoryLabels(inputs.partner, approved, order[i], env) &&
              ValueOf(calls[i]) == CategoryValue(inputs, order[i])
    {
      CategoryCallsAt(inputs, order, approved, projects, env, i);
    }
  }

  /** What `handle` has in hand once both batch tables are found: the batch
      is both batch tables, and the history both historical tables when
      both exist. */
  function TablesInputs(db: Db, refs: seq<string>, partner: Value, ts: int): Inputs
    requires |refs| == 4 && refs[0] in db && refs[1] in db
  {
    Inputs(db[refs[0]] + db[refs[1]], if refs[2] in db && refs[3] in db then Some(db[refs[2]] + db[refs[3]]) else None,
           partner, ts)
  }

  /** The gauges over those inputs: one per category, valued at its
      `new_pct` against the history when there is one, and 1.0 otherwise. */
  lemma TablesMetrics(db: Db, refs: seq<string>, partner: Value, ts: int, approved: string, projects: Projects, env: Env,
                      calls: seq<SinkCall>)
    requires |refs| == 4 && refs[0] in db && refs[1] in db
    requires var batch := db[refs[0]] + db[refs[1]];
             var cats := if refs[2] in db && refs[3] in db then BeneficiaryCategories(batch) else BatchCategories(batch);
             Enumerates(env.order(cats), cats)
    requires var inputs := TablesInputs(db, refs, partner, ts);
             calls == CategoryCalls(inputs, ResultCategories(inputs, env), approved, projects, env)
    ensures var batch := db[refs[0]] + db[refs[1]];
            var known := refs[2] in db && refs[3] in db;
            var cats := if known then BeneficiaryCategories(batch) else BatchCategories(batch);
            var cutoff := DayCutoff(ts, WindowDays);
            |calls| == |cats| &&
            forall i :: 0 <= i < |calls| ==>
              exists c :: c in cats &&
                MetricOf(calls[i]) == MetricTypePrefix + NewPctMetric &&
                LabelsOf(calls[i]) == CategoryLabels(partner, approved, c, env) &&
                ValueOf(calls[i]) == (if known then NewPct(batch, db[refs[2]] + db[refs[3]], c, cutoff) else 1.0)
  {
    var inputs := TablesInputs(db, refs, partner, ts);
    var known := refs[2] in db && refs[3] in db;
    var cats := if known then BeneficiaryCategories(inputs.batch) else BatchCategories(inputs.batch);
    CategoryCallsDescribe(inputs, cats, approved, projects, env);
    forall i | 0 <= i < |calls|
      ensures exists c :: c in cats &&
                MetricOf(calls[i]) == MetricTypePrefix + NewPctMetric &&
                LabelsOf(calls[i]) == CategoryLabels(partner, approved, c, env) &&
                ValueOf(calls[i]) == (if known then NewPct(inputs.batch, db[refs[2]] + db[refs[3]], c, DayCutoff(ts, WindowDays)) else 1.0)
    {
      var c :| c in cats &&
               MetricOf(calls[i]) == MetricTypePrefix + NewPctMetric &&
               LabelsOf(calls[i]) == CategoryLabels(partner, approved, c, env) &&
               ValueOf(calls[i]) == CategoryValue(inputs, c);
    }
  }

  /** With both historical tables present, one gauge per category that has a
      beneficiary in the batch, valued at its `new_pct`; without them, one
      gauge of 1.0 per category of the batch. */
  lemma NewBeneficiariesMetrics(msg: Value, cfg: Config, projects: Projects, db: Db, env: Env, refs: seq<string>)
    requires NamesTables(msg, cfg.tables, projects, refs)
    requires Truthy(Variable(msg, "partner")) && SourceTimestamp(msg, env).Ret?
    requires refs[0] in db && refs[1] in db
    requires var batch := db[refs[0]] + db[refs[1]];
             var cats := if refs[2] in db && refs[3] in db then BeneficiaryCategories(batch) else BatchCategories(batch);
             Enumerates(env.order(cats), cats)
    ensures var r := NewBeneficiariesRun(msg, cfg, projects, db, env);
            var batch := db[refs[0]] + db[refs[1]];
            var known := refs[2] in db && refs[3] in db;
            var cats := if known then BeneficiaryCategories(batch) else BatchCategories(batch);
            var cutoff := DayCutoff(SourceTimestamp(msg, env).value, WindowDays);
            r.Ret? && |r.value| == |cats| &&
            forall i :: 0 <= i < |r.value| ==>
              exists c :: c in cats &&
                MetricOf(r.value[i]) == MetricTypePrefix + NewPctMetric &&
                LabelsOf(r.value[i]) == CategoryLabels(Variable(msg, "partner"), cfg.approved, c, env) &&
                ValueOf(r.value[i]) == (if known then NewPct(batch, db[refs[2]] + db[refs[3]], c, cutoff) else 1.0)
  {
    RunReadsTables(msg, cfg, projects, db, env, refs);
    TablesMetrics(db, refs, Variable(msg, "partner"), SourceTimestamp(msg, env).value, cfg.approved, projects, env,
                  NewBeneficiariesRun(msg, cfg, projects, db, env).value);
  }

  /** With the batch tables present, the run is the category gauges over the
      rows of the named tables. */
  lemma RunReadsTables(msg: Value, cfg: Config, projects: Projects, db: Db, env: Env, refs: seq<string>)
    requires NamesTables(msg, cfg.tables, projects, refs)
    requires Truthy(Variable(msg, "partner")) && SourceTimestamp(msg, env).Ret?
    requires refs[0] in db && refs[1] in db
    ensures var inputs := TablesInputs(db, refs, Variable(msg, "partner"), SourceTimestamp(msg, env).value);
            NewBeneficiariesRun(msg, cfg, projects, db, env) ==
              Ret(CategoryCalls(inputs, ResultCategories(inputs, env), cfg.approved, projects, env))
  {
    PrepareReadsTables(msg, cfg.tables, projects, db, env, refs);
  }

  /** Every gauge is a share between zero and one. */
  lemma NewBeneficiariesValuesBounded(msg: Value, cfg: Config, projects: Projects, db: Db, env: Env)
    requires NewBeneficiariesRun(msg, cfg, projects, db, env).Ret?
    ensures var calls := NewBeneficiariesRun(msg, cfg, projects, db, env).value;
            forall i :: 0 <= i < |calls| ==> 0.0 <= ValueOf(calls[i]) <= 1.0
  {
    var inputs := Prepare(msg, cfg.tables, projects, db, env).value;
    var cats := ResultCategories(inputs, env);
    var calls := CategoryCalls(inputs, cats, cfg.approved, projects, env);
    forall i | 0 <= i < |calls| ensures 0.0 <= ValueOf(calls[i]) <= 1.0 {
      CategoryCallsLength(inputs, cats, cfg.approved, projects, env);
      CategoryCallsAt(inputs, cats, cfg.approved, projects, env, i);
      if inputs.history.Some? {
        NewPctBounded(inputs.batch, inputs.history.value, cats[i], DayCutoff(inputs.ts, WindowDays));
      }
    }
  }
}
