/** Month-over-month volume of distinct beneficiaries or providers
    (handlers/beneficiaries_volume_ratio_base.py,
    handlers/providers_volume_ratio_base.py) and the wrangling handler for
    providers (handlers/providers_volume_ratio_wrangling.py). The two base
    handlers differ only in the key column and the metric name. */
module VolumeRatio {
  import opened Wrappers
  import opened Json
  import opened Metrics
  import opened Warehouse
  import opened HandlerBase
  import opened BatchHistory

  datatype Config = Config(tables: Tables, key: Key, metric: string, approved: string)

  const BeneficiariesMetric := "claims/pipeline/beneficiaries/volume_ratio_last_1_mo"
  const ProvidersMetric := "claims/pipeline/providers/volume_ratio_last_1_mo"

  /** `BeneficiariesVolumeRatioBaseHandler`: counts `id_matricula`. */
  function Beneficiaries(tables: Tables, approved: string): Config
  {
    Config(tables, IdMatricula, BeneficiariesMetric, approved)
  }

  /** `ProvidersVolumeRatioBaseHandler`: counts `id_prestador`. */
  function Providers(tables: Tables, approved: string): Config
  {
    Config(tables, IdPrestador, ProvidersMetric, approved)
  }

  const ProvidersWrangling := Providers(
    Tables("refined_processable_claims_output_table", "refined_unprocessable_claims_output_table",
           "refined_processable_claims_historical_table", "refined_unprocessable_claims_historical_table"),
    "false")

  /** Midnight of the day 30 days, and 60 days, before the event. */
  function MonthAgo(ts: int): int { DayCutoff(ts, 30) }
  function TwoMonthsAgo(ts: int): int { DayCutoff(ts, 60) }

  /** Historical row created in the last month. */
  predicate InLatestMonth(r: Row, ts: int)
  {
    r.createdAt.Some? && r.createdAt.value >= MonthAgo(ts)
  }

  /** Historical row created in the month before that. */
  predicate InPreviousMonth(r: Row, ts: int)
  {
    r.createdAt.Some? && TwoMonthsAgo(ts) <= r.createdAt.value < MonthAgo(ts)
  }

  /** `latest_*`: every key of the batch, whatever its date, and the keys of
      the history's last month. */
  function LatestKeys(batch: seq<Row>, history: seq<Row>, key: Key, ts: int): set<string>
  {
    Distinct(batch, key) + set r | r in history && InLatestMonth(r, ts) && KeyOf(r, key).Some? :: KeyOf(r, key).value
  }

  /** `previous_*`: the keys of the history's previous month. */
  function PreviousKeys(history: seq<Row>, key: Key, ts: int): set<string>
  {
    set r | r in history && InPreviousMonth(r, ts) && KeyOf(r, key).Some? :: KeyOf(r, key).value
  }

  /** The `CASE` of the final `SELECT`, on the two counts. */
  function RatioCase(latestCount: nat, previousCount: nat): real
  {
    if previousCount > 0 && latestCount > 0 then latestCount as real / previousCount as real
    else if previousCount == 0 then 1.0
    else 0.0
  }

  /** The counts as the query takes them: `COUNT(DISTINCT …)` over
      `latest CROSS JOIN previous`, which has no row when either side is
      empty. */
  function CrossJoinCounts(latest: set<string>, previous: set<string>): (nat, nat)
  {
    if latest == {} || previous == {} then (0, 0) else (|latest|, |previous|)
  }

  /** The ratio the query computes as written. */
  function RatioAsWritten(latest: set<string>, previous: set<string>): real
  {
    var counts := CrossJoinCounts(latest, previous);
    RatioCase(counts.0, counts.1)
  }

  /** The ratio the `CASE` evidently intends: the counts of both sides. */
  function Ratio(latest: set<string>, previous: set<string>): real
  {
    RatioCase(|latest|, |previous|)
  }

  /** The intended ratio is the latest count over the previous count, and
      1.0 when there was nothing the month before. */
  lemma RatioMeaning(latest: set<string>, previous: set<string>)
    ensures previous != {} ==> Ratio(latest, previous) == |latest| as real / |previous| as real
    ensures previous == {} ==> Ratio(latest, previous) == 1.0
    ensures Ratio(latest, previous) >= 0.0
  {
    if previous != {} {
      if latest == {} {
        assert |latest| == 0;
      }
    }
  }

  /** A month with keys followed by an empty one: the query as written
      reports an unchanged volume, the intended ratio is zero. */
  lemma RatioAsWrittenOnEmptyLatest()
    ensures RatioAsWritten({}, {"p1"}) == 1.0
    ensures Ratio({}, {"p1"}) == 0.0
  {
    assert |{"p1"}| == 1;
  }

  /** Apart from that case the two agree. */
  lemma RatioAsWrittenAgreesOtherwise(latest: set<string>, previous: set<string>)
    requires latest != {} || previous == {}
    ensures RatioAsWritten(latest, previous) == Ratio(latest, previous)
  {
    if latest == {} {
      assert |latest| == 0;
    }
    if previous == {} {
      assert |previous| == 0;
    }
  }

  /** The single gauge's value: the ratio, or 1.0 without history. */
  function VolumeValue(inputs: Inputs, key: Key): real
  {
    if inputs.history.Some? then
      Ratio(LatestKeys(inputs.batch, inputs.history.value, key, inputs.ts), PreviousKeys(inputs.history.value, key, inputs.ts))
    else 1.0
  }

  /** What `_handle_*_volume_ratio_metrics` does with a message: the query
      returns one row, so one gauge. */
  function VolumeRatioRun(msg: Value, cfg: Config, projects: Projects, db: Db, env: Env): (r: Py<seq<SinkCall>>)
    ensures r.Ret? ==> |r.value| == 1 && MetricOf(r.value[0]) == MetricTypePrefix + cfg.metric
    ensures r.Ret? ==> AllBuildable(r.value)
  {
    var inputs :- Prepare(msg, cfg.tables, projects, db, env);
    Ret([Gauge(projects.run, cfg.metric, VolumeValue(inputs, cfg.key), BaseLabels(inputs.partner, cfg.approved, env), inputs.ts)])
  }

  method HandleVolumeRatioMetrics(msg: Value, cfg: Config, projects: Projects, db: Db, env: Env,
                                  client: MonitoringClient) returns (outcome: Py<()>)
    modifies client
    ensures Performs(outcome, old(client.calls), client.calls, VolumeRatioRun(msg, cfg, projects, db, env))
  {
    var inputs :- Prepare(msg, cfg.tables, projects, db, env);
    var ratio := VolumeValue(inputs, cfg.key);
    outcome := EmitGaugeMetric(client, projects.run, cfg.metric, ratio, BaseLabels(inputs.partner, cfg.approved, env), inputs.ts);
  }

  /** `ProvidersVolumeRatioWranglingHandler.match`. */
  function ProvidersWranglingMatch(msg: Value): (r: Py<bool>)
    ensures r == Ret(true) <==> AnnouncesCompletion(msg, "pipesv2_wrangling")
    ensures msg.Obj? && "payload" in msg.fields && !Truthy(msg.fields["payload"]) ==> r == Ret(false)
  {
    MatchCompleted(msg, "pipesv2_wrangling")
  }

  /** `ProvidersVolumeRatioWranglingHandler.handle`. */
  method ProvidersWranglingHandle(msg: Value, projects: Projects, db: Db, env: Env, client: MonitoringClient)
    returns (outcome: Py<()>)
    modifies client
    ensures Performs(outcome, old(client.calls), client.calls, VolumeRatioRun(msg, ProvidersWrangling, projects, db, env))
  {
    outcome := HandleVolumeRatioMetrics(msg, ProvidersWrangling, projects, db, env, client);
  }

  /** The gauge reports the ratio of the two months' distinct keys, with the
      partner and approved labels, or 1.0 when either historical table is
      missing. */
  lemma VolumeRatioMetrics(msg: Value, cfg: Config, projects: Projects, db: Db, env: Env, refs: seq<string>)
    requires NamesTables(msg, cfg.tables, projects, refs)
    requires Truthy(Variable(msg, "partner")) && SourceTimestamp(msg, env).Ret?
    requires refs[0] in db && refs[1] in db
    ensures var r := VolumeRatioRun(msg, cfg, projects, db, env);
            var batch := db[refs[0]] + db[refs[1]];
            var ts := SourceTimestamp(msg, env).value;
            r.Ret? &&
            LabelsOf(r.value[0]) == BaseLabels(Variable(msg, "partner"), cfg.approved, env) &&
            ValueOf(r.value[0]) ==
              (if refs[2] in db && refs[3] in db
               then Ratio(LatestKeys(batch, db[refs[2]] + db[refs[3]], cfg.key, ts), PreviousKeys(db[refs[2]] + db[refs[3]], cfg.key, ts))
               else 1.0) &&
            ValueOf(r.value[0]) >= 0.0
  {
    PrepareReadsTables(msg, cfg.tables, projects, db, env, refs);
    var inputs := Prepare(msg, cfg.tables, projects, db, env).value;
    if inputs.history.Some? {
      RatioMeaning(LatestKeys(inputs.batch, inputs.history.value, cfg.key, inputs.ts),
                   PreviousKeys(inputs.history.value, cfg.key, inputs.ts));
    }
  }

  /** The previous month ends where the last month begins, and a
      historical row falls in at most one of them. */
  lemma MonthsAdjacent(r: Row, ts: int)
    ensures TwoMonthsAgo(ts) <= MonthAgo(ts)
    ensures !(InLatestMonth(r, ts) && InPreviousMonth(r, ts))
  {
    DayCutoffIsMidnight(ts, 30);
    DayCutoffIsMidnight(ts, 60);
  }

  /** Every key of the batch is counted in the last month, whatever the
      batch row's date. */
  lemma BatchKeysAreLatest(batch: seq<Row>, history: seq<Row>, key: Key, ts: int, r: Row)
    requires r in batch && KeyOf(r, key).Some?
    ensures KeyOf(r, key).value in LatestKeys(batch, history, key, ts)
  {
  }
}
