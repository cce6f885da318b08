/** Share of new providers over a 90-day history
    (handlers/new_providers_base.py). */
module NewProviders {
  import opened Wrappers
  import opened Json
  import opened Metrics
  import opened Warehouse
  import opened HandlerBase
  import opened BatchHistory

  datatype Config = Config(tables: Tables, approved: string)

  const NewPctMetric := "claims/providers/new_pct_3mo"
  const WindowDays := 90

  /** A historical row that counts as having been seen: created on or after
      the cutoff and not a claim of the batch (a `NULL` `id_arvo` never
      equals a batch id). */
  predicate Seen(r: Row, cutoff: int, batchIds: set<string>)
  {
    r.createdAt.Some? && r.createdAt.value >= cutoff && !(r.idArvo.Some? && r.idArvo.value in batchIds)
  }

  /** The providers the history has seen. */
  function SeenProviders(history: seq<Row>, cutoff: int, batchIds: set<string>): set<string>
  {
    set r | r in history && Seen(r, cutoff, batchIds) && r.idPrestador.Some? :: r.idPrestador.value
  }

  /** `new_pct`: the share of the batch's distinct providers that the history
      has not seen, zero for a batch without providers. */
  function NewPct(batch: seq<Row>, history: seq<Row>, cutoff: int): real
  {
    var total := Distinct(batch, IdPrestador);
    var unseen := total - SeenProviders(history, cutoff, Distinct(batch, IdArvo));
    if |total| > 0 then |unseen| as real / |total| as real else 0.0
  }

  /** The single gauge's value: `new_pct`, or 1.0 without history. */
  function ProviderValue(inputs: Inputs): real
  {
    if inputs.history.Some? then NewPct(inputs.batch, inputs.history.value, DayCutoff(inputs.ts, WindowDays))
    else 1.0
  }

  /** What `_handle_new_providers_metrics` does with a message: the query
      returns exactly one row, so exactly one gauge. */
  function NewProvidersRun(msg: Value, cfg: Config, projects: Projects, db: Db, env: Env): (r: Py<seq<SinkCall>>)
    ensures r.Ret? ==> |r.value| == 1 && MetricOf(r.value[0]) == MetricTypePrefix + NewPctMetric
    ensures r.Ret? ==> AllBuildable(r.value)
  {
    var inputs :- Prepare(msg, cfg.tables, projects, db, env);
    Ret([Gauge(projects.run, NewPctMetric, ProviderValue(inputs), BaseLabels(inputs.partner, cfg.approved, env), inputs.ts)])
  }

  method HandleNewProvidersMetrics(msg: Value, cfg: Config, projects: Projects, db: Db, env: Env,
                                   client: MonitoringClient) returns (outcome: Py<()>)
    modifies client
    ensures Performs(outcome, old(client.calls), client.calls, NewProvidersRun(msg, cfg, projects, db, env))
  {
    var inputs :- Prepare(msg, cfg.tables, projects, db, env);
    var newPct := ProviderValue(inputs);
    outcome := EmitGaugeMetric(client, projects.run, NewPctMetric, newPct, BaseLabels(inputs.partner, cfg.approved, env), inputs.ts);
  }

  /** `new_pct` is a share: between zero and one. */
  lemma NewPctBounded(batch: seq<Row>, history: seq<Row>, cutoff: int)
    ensures 0.0 <= NewPct(batch, history, cutoff) <= 1.0
  {
    var total := Distinct(batch, IdPrestador);
    var unseen := total - SeenProviders(history, cutoff, Distinct(batch, IdArvo));
    SubsetSize(unseen, total);
    if |total| > 0 {
      ShareOfSumBounded(|unseen| as real, (|total| - |unseen|) as real);
    }
  }

  /** The gauge reports the batch's unseen providers over its providers, with
      the partner and approved labels, or 1.0 when either historical table
      is missing. */
  lemma NewProvidersMetrics(msg: Value, cfg: Config, projects: Projects, db: Db, env: Env, refs: seq<string>)
    requires NamesTables(msg, cfg.tables, projects, refs)
    requires Truthy(Variable(msg, "partner")) && SourceTimestamp(msg, env).Ret?
    requires refs[0] in db && refs[1] in db
    ensures var r := NewProvidersRun(msg, cfg, projects, db, env);
            var batch := db[refs[0]] + db[refs[1]];
            var cutoff := DayCutoff(SourceTimestamp(msg, env).value, WindowDays);
            r.Ret? &&
            LabelsOf(r.value[0]) == BaseLabels(Variable(msg, "partner"), cfg.approved, env) &&
            ValueOf(r.value[0]) == (if refs[2] in db && refs[3] in db then NewPct(batch, db[refs[2]] + db[refs[3]], cutoff) else 1.0) &&
            0.0 <= ValueOf(r.value[0]) <= 1.0
  {
    PrepareReadsTables(msg, cfg.tables, projects, db, env, refs);
    var inputs := Prepare(msg, cfg.tables, projects, db, env).value;
    if inputs.history.Some? {
      NewPctBounded(inputs.batch, inputs.history.value, DayCutoff(inputs.ts, WindowDays));
    }
  }

  /** Claims of the batch found again in the history do not count as seen:
      when every historical row carries a batch `id_arvo`, every provider of
      a non-empty batch is new. */
  lemma BatchClaimsNotHistory(batch: seq<Row>, history: seq<Row>, cutoff: int)
    requires forall r :: r in history ==> r.idArvo.Some? && r.idArvo.value in Distinct(batch, IdArvo)
    requires Distinct(batch, IdPrestador) != {}
    ensures NewPct(batch, history, cutoff) == 1.0
  {
    assert SeenProviders(history, cutoff, Distinct(batch, IdArvo)) == {};
    assert Distinct(batch, IdPrestador) - {} == Distinct(batch, IdPrestador);
  }

  /** A batch whose every provider appears in an unrelated recent historical
      claim scores zero. */
  lemma KnownProvidersScoreZero(batch: seq<Row>, history: seq<Row>, cutoff: int)
    requires Distinct(batch, IdPrestador) != {}
    requires forall p :: p in Distinct(batch, IdPrestador) ==>
               exists r :: r in history && Seen(r, cutoff, Distinct(batch, IdArvo)) && r.idPrestador == Some(p)
    ensures NewPct(batch, history, cutoff) == 0.0
  {
    var total := Distinct(batch, IdPrestador);
    var seen := SeenProviders(history, cutoff, Distinct(batch, IdArvo));
    assert total - seen == {} by {
      forall p | p in total ensures p in seen {
        var r :| r in history && Seen(r, cutoff, Distinct(batch, IdArvo)) && r.idPrestador == Some(p);
      }
    }
  }
}
