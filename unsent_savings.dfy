/** Share of the accepted savings that a submission run sent, per
    submission status (handlers/unsent_savings.py). */
module UnsentSavings {
  import opened Wrappers
  import opened Json
  import opened Metrics
  import opened Warehouse
  import opened HandlerBase
  import opened Submission

  const Metric := "claims/pipeline/savings/vl_glosa_arvo/sent_over_accepted_last_2_days"
  const SubmissionSuccess := "SUBMISSION_SUCCESS"
  /** Validation statuses whose savings count as accepted. */
  const AcceptedStatuses: set<string> := {"SUBMITTED_SUCCESS", "APPROVED"}

  /** The selected savings history, the internal and manual validation
      tables and the submitted table. */
  const Vars := [
    TableVar("selected_savings_historical_table", "selected_savings_historical_table"),
    TableVar("internal_validation_output_table", "internal_validation_output_table"),
    TableVar("manual_validation_output_table", "manual_validation_output_table"),
    TableVar("claims_submitted_output_table", "claims_submitted_output_table")]

  /** One row of the per-status query. */
  datatype StatusTotal = StatusTotal(status: Option<string>, total: real)

  /** The validation rows of the window whose decision accepts the saving. */
  function AcceptedIn(validation: seq<Row>, end: int): seq<Row>
  {
    Select(validation, All(Window(end), OneOf(Status, AcceptedStatuses)))
  }

  /** `total_accepted`: `COALESCE(SUM(vl_glosa_arvo), 0)` over the selected
      savings of the window and the accepted validations of the window. */
  function TotalAccepted(selected: seq<Row>, internal: seq<Row>, manual: seq<Row>, end: int): real
  {
    Total(Select(selected, Window(end)) + AcceptedIn(internal, end) + AcceptedIn(manual, end), VlGlosaArvo)
  }

  /** The submitted rows of the run ingested in the window. */
  function RunRows(submitted: seq<Row>, runId: string, end: int): seq<Row>
  {
    Select(submitted, All(Equals(SubmissionRunId, runId), Window(end)))
  }

  /** The rows of `GROUP BY status`, in result order `groups`. */
  function StatusTotals(rows: seq<Row>, groups: seq<Option<string>>): (r: seq<StatusTotal>)
    ensures |r| == |groups|
    ensures forall i :: 0 <= i < |groups| ==> r[i] == StatusTotal(groups[i], Total(InGroup(rows, Status, groups[i]), VlGlosaArvo))
  {
    if groups == [] then []
    else [StatusTotal(groups[0], Total(InGroup(rows, Status, groups[0]), VlGlosaArvo))] + StatusTotals(rows, groups[1..])
  }

  /** The inner search: the total of the first row with that status, zero
      when there is none. */
  function TotalFor(results: seq<StatusTotal>, status: Option<string>): real
  {
    if results == [] then 0.0
    else if results[0].status == status then results[0].total
    else TotalFor(results[1..], status)
  }

  method FindTotal(results: seq<StatusTotal>, status: Option<string>) returns (total: real)
    ensures total == TotalFor(results, status)
  {
    total := 0.0;
    var i := 0;
    while i < |results|
      invariant 0 <= i <= |results|
      invariant forall j :: 0 <= j < i ==> results[j].status != status
      invariant TotalFor(results, status) == TotalFor(results[i..], status)
    {
      if results[i].status == status {
        total := results[i].total;
        break;
      }
      assert results[i..][1..] == results[i + 1..];
      i := i + 1;
    }
    if i == |results| {
      assert results[i..] == [];
    }
  }

  /** `statuses_seen`, with `SUBMISSION_SUCCESS` added. */
  function SeenStatuses(results: seq<StatusTotal>): set<Option<string>>
  {
    (set x | x in results :: x.status) + {Some(SubmissionSuccess)}
  }

  function StatusCalls(results: seq<StatusTotal>, accepted: real, statuses: seq<Option<string>>, partner: Value,
                       projects: Projects, ts: int): seq<SinkCall>
    decreases |statuses|
  {
    if statuses == [] then []
    else
      var s := statuses[|statuses| - 1];
      StatusCalls(results, accepted, statuses[..|statuses| - 1], partner, projects, ts) +
      [Gauge(projects.run, Metric, Share(TotalFor(results, s), accepted), StatusLabels(partner, s), ts)]
  }

  /** `UnsentSavingsHandler.match`. */
  function Match(msg: Value): (r: Py<bool>)
    ensures r == Ret(true) <==> AnnouncesCompletion(msg, "pipesv2_submission")
    ensures msg.Obj? && "payload" in msg.fields && !Truthy(msg.fields["payload"]) ==> r == Ret(false)
  {
    MatchCompleted(msg, "pipesv2_submission")
  }

  /** A gauge of this handler: sent to the run project under this metric,
      labelled with the partner as given, at the event time. */
  predicate RunGauge(c: SinkCall, partner: Value, projects: Projects, ts: int)
  {
    c.name == ProjectPrefix + projects.run && MetricOf(c) == MetricTypePrefix + Metric &&
    "partner" in LabelsOf(c) && LabelsOf(c)["partner"] == partner && EndTimeOf(c) == ts
  }

  /** What `UnsentSavingsHandler.handle` does with a message. The three
      queries read every table without a probe, so a missing one raises
      before any gauge. */
  function UnsentSavingsRun(msg: Value, projects: Projects, db: Db, env: Env): (r: Py<seq<SinkCall>>)
    ensures r.Ret? <==> var p := Prepare(msg, Vars, projects, env);
                        p.Ret? && p.value.refs[0] in db && p.value.refs[1] in db && p.value.refs[2] in db &&
                        p.value.refs[3] in db
    ensures r.Ret? ==> var p := Prepare(msg, Vars, projects, env).value;
                       forall c :: c in r.value ==> RunGauge(c, p.partner, projects, p.ts)
  {
    var inputs :- Prepare(msg, Vars, projects, env);
    var refs := inputs.refs;
    if !(refs[0] in db && refs[1] in db && refs[2] in db && refs[3] in db) then Raise(Internal)
    else Ret(Report(inputs, projects, db, env))
  }

  /** The gauges `handle` sends once all four tables are found. */
  function Report(inputs: Inputs, projects: Projects, db: Db, env: Env): (r: seq<SinkCall>)
    requires |inputs.refs| == 4
    requires inputs.refs[0] in db && inputs.refs[1] in db && inputs.refs[2] in db && inputs.refs[3] in db
    ensures forall c :: c in r ==> RunGauge(c, inputs.partner, projects, inputs.ts)
  {
    var refs := inputs.refs;
    var end := WindowEnd(db[refs[3]], inputs.runId, inputs.ts);
    var accepted := TotalAccepted(db[refs[0]], db[refs[1]], db[refs[2]], end);
    var rows := RunRows(db[refs[3]], inputs.runId, end);
    var results := StatusTotals(rows, env.order(GroupKeys(rows, Status)));
    if accepted == 0.0 then
      [Gauge(projects.run, Metric, 1.0, StatusLabels(inputs.partner, Some(SubmissionSuccess)), inputs.ts)]
    else
      var statuses := env.order(SeenStatuses(results));
      StatusCallsUniform(results, accepted, statuses, inputs.partner, projects, inputs.ts);
      StatusCalls(results, accepted, statuses, inputs.partner, projects, inputs.ts)
  }

  method Handle(msg: Value, projects: Projects, db: Db, env: Env, client: MonitoringClient)
    returns (outcome: Py<()>)
    modifies client
    ensures Performs(outcome, old(client.calls), client.calls, UnsentSavingsRun(msg, projects, db, env))
  {
    var inputs :- Prepare(msg, Vars, projects, env);
    var refs := inputs.refs;
    if !(refs[0] in db && refs[1] in db && refs[2] in db && refs[3] in db) {
      return Raise(Internal);
    }
    var end := WindowEnd(db[refs[3]], inputs.runId, inputs.ts);
    var totalAccepted := TotalAccepted(db[refs[0]], db[refs[1]], db[refs[2]], end);
    var rows := RunRows(db[refs[3]], inputs.runId, end);
    var results := StatusTotals(rows, env.order(GroupKeys(rows, Status)));

    if totalAccepted == 0.0 {
      outcome := EmitGaugeMetric(client, projects.run, Metric, 1.0, StatusLabels(inputs.partner, Some(SubmissionSuccess)), inputs.ts);
      return;
    }

    outcome := EmitStatusGauges(results, totalAccepted, env.order(SeenStatuses(results)), inputs.partner, projects, inputs.ts, client);
  }

  /** The loop over the seen statuses: one gauge each, its found total over
      the accepted total, until a status whose labels are not strings
      raises. */
  method EmitStatusGauges(results: seq<StatusTotal>, totalAccepted: real, statuses: seq<Option<string>>, partner: Value,
                          projects: Projects, ts: int, client: MonitoringClient) returns (outcome: Py<()>)
    modifies client
    ensures var e := SendAll(StatusCalls(results, totalAccepted, statuses, partner, projects, ts));
            outcome == e.outcome && client.calls == old(client.calls) + e.emitted
  {
    outcome := Ret(());
    for i := 0 to |statuses|
      invariant outcome == Ret(())
      invariant forall j :: 0 <= j < i ==> StrLabels(StatusLabels(partner, statuses[j]))
      invariant client.calls == old(client.calls) + StatusCalls(results, totalAccepted, statuses[..i], partner, projects, ts)
    {
      var status := statuses[i];
      var totalForStatus := FindTotal(results, status);
      var perc := if totalAccepted > 0.0 then totalForStatus / totalAccepted else 0.0;
      outcome := EmitGaugeMetric(client, projects.run, Metric, perc, StatusLabels(partner, status), ts);
      if outcome.Raise? {
        StatusGaugesSent(results, totalAccepted, statuses, partner, projects, ts);
        assert FirstUnlabelled(partner, statuses) == i;
        return;
      }
      assert statuses[..i + 1][..i] == statuses[..i];
    }
    StatusGaugesSent(results, totalAccepted, statuses, partner, projects, ts);
    assert statuses[..|statuses|] == statuses;
  }

  /** Sending the gauges of `statuses` returns after sending them all when
      every status has string labels; otherwise it raises `Internal` after
      sending the gauges of the statuses before the first one that has not. */
  lemma {:induction false} StatusGaugesSent(results: seq<StatusTotal>, accepted: real, statuses: seq<Option<string>>,
                                            partner: Value, projects: Projects, ts: int)
    ensures var k := FirstUnlabelled(partner, statuses);
            SendAll(StatusCalls(results, accepted, statuses, partner, projects, ts)) ==
            if k == |statuses| then Effect(Ret(()), StatusCalls(results, accepted, statuses, partner, projects, ts))
            else Effect(Raise(Internal), StatusCalls(results, accepted, statuses[..k], partner, projects, ts))
    decreases |statuses|
  {
    if statuses != [] {
      var n := |statuses| - 1;
      var init := statuses[..n];
      var s := statuses[n];
      var prefix := StatusCalls(results, accepted, init, partner, projects, ts);
      var last := [Gauge(projects.run, Metric, Share(TotalFor(results, s), accepted), StatusLabels(partner, s), ts)];
      assert StatusCalls(results, accepted, statuses, partner, projects, ts) == prefix + last;
      StatusGaugesSent(results, accepted, init, partner, projects, ts);
      SendAllConcat(prefix, last);
      var k := FirstUnlabelled(partner, init);
      if k < n {
        assert init[..k] == statuses[..k];
      } else if StrLabels(StatusLabels(partner, s)) {
        SendAllDescribe(last);
      } else {
        assert SendAll(last) == Effect(Raise(Internal), []);
      }
    }
  }

  /** With at least one status: a partner that is not a string raises
      before any gauge is sent; a string partner sends every gauge unless a
      status is `NULL`, and then raises after the gauges of the statuses
      before the first `NULL` one. */
  lemma StatusGaugesOutcome(results: seq<StatusTotal>, accepted: real, statuses: seq<Option<string>>,
                            partner: Value, projects: Projects, ts: int)
    requires |statuses| > 0
    ensures var e := SendAll(StatusCalls(results, accepted, statuses, partner, projects, ts));
            (e.outcome.Ret? <==> partner.Str? && None !in statuses) &&
            (e.outcome.Ret? ==> e.emitted == StatusCalls(results, accepted, statuses, partner, projects, ts)) &&
            (e.outcome.Raise? ==> e.outcome == Raise(Internal)) &&
            (!partner.Str? ==> e.emitted == []) &&
            (partner.Str? && None in statuses ==>
               exists k :: 0 <= k < |statuses| && statuses[k] == None && None !in statuses[..k] &&
                 e.emitted == StatusCalls(results, accepted, statuses[..k], partner, projects, ts))
  {
    StatusGaugesSent(results, accepted, statuses, partner, projects, ts);
    var k := FirstUnlabelled(partner, statuses);
    if partner.Str? {
      if None in statuses {
        var j :| 0 <= j < |statuses| && statuses[j] == None;
        assert k <= j;
        assert statuses[k] == None;
        assert None !in statuses[..k];
      }
    } else {
      assert k == 0;
      assert statuses[..0] == [];
    }
  }

  /** The accepted total is the sum of its three sources. */
  lemma TotalAcceptedSplits(selected: seq<Row>, internal: seq<Row>, manual: seq<Row>, end: int)
    ensures TotalAccepted(selected, internal, manual, end) ==
            Total(Select(selected, Window(end)), VlGlosaArvo) + Total(AcceptedIn(internal, end), VlGlosaArvo) +
            Total(AcceptedIn(manual, end), VlGlosaArvo)
  {
    var a := Select(selected, Window(end));
    TotalAppend(a + AcceptedIn(internal, end), AcceptedIn(manual, end), VlGlosaArvo);
    TotalAppend(a, AcceptedIn(internal, end), VlGlosaArvo);
  }

  /** The search finds the only row of a status when the result lists each
      status once, and zero for a status it does not list. */
  lemma {:induction false} TotalForFinds(results: seq<StatusTotal>, k: nat)
    requires k < |results|
    requires forall i, j :: 0 <= i < j < |results| ==> results[i].status != results[j].status
    ensures TotalFor(results, results[k].status) == results[k].total
    decreases k
  {
    if k > 0 {
      assert results[1..][k - 1] == results[k];
      TotalForFinds(results[1..], k - 1);
    }
  }

  lemma {:induction false} TotalForAbsent(results: seq<StatusTotal>, status: Option<string>)
    requires forall x :: x in results ==> x.status != status
    ensures TotalFor(results, status) == 0.0
    decreases |results|
  {
    if results != [] {
      assert results[0] in results;
      TotalForAbsent(results[1..], status);
    }
  }

  /** Looked up by status, the query result gives each status the
      `vl_glosa_arvo` total of the run's rows with that status, and zero for
      a status none of them has. */
  lemma TotalForIsGroupTotal(rows: seq<Row>, groups: seq<Option<string>>, status: Option<string>)
    requires Enumerates(groups, GroupKeys(rows, Status))
    ensures TotalFor(StatusTotals(rows, groups), status) == Total(InGroup(rows, Status, status), VlGlosaArvo)
  {
    var results := StatusTotals(rows, groups);
    if status in groups {
      var k :| 0 <= k < |groups| && groups[k] == status;
      TotalForFinds(results, k);
    } else {
      TotalForAbsent(results, status);
      InGroupOfNoGroup(rows, Status, status);
    }
  }

  lemma {:induction false} StatusCallsLength(results: seq<StatusTotal>, accepted: real, statuses: seq<Option<string>>,
                                             partner: Value, projects: Projects, ts: int)
    ensures |StatusCalls(results, accepted, statuses, partner, projects, ts)| == |statuses|
    decreases |statuses|
  {
    if statuses != [] {
      StatusCallsLength(results, accepted, statuses[..|statuses| - 1], partner, projects, ts);
    }
  }

  /** Every status gauge goes to the run project under this metric, with
      the raw partner and the event time. */
  lemma {:induction false} StatusCallsUniform(results: seq<StatusTotal>, accepted: real, statuses: seq<Option<string>>,
                                              partner: Value, projects: Projects, ts: int)
    ensures forall c :: c in StatusCalls(results, accepted, statuses, partner, projects, ts) ==>
              RunGauge(c, partner, projects, ts)
    decreases |statuses|
  {
    if statuses != [] {
      StatusCallsUniform(results, accepted, statuses[..|statuses| - 1], partner, projects, ts);
    }
  }

  lemma {:induction false} StatusCallsAt(results: seq<StatusTotal>, accepted: real, statuses: seq<Option<string>>,
                                         partner: Value, projects: Projects, ts: int, i: nat)
    requires i < |statuses|
    ensures var calls := StatusCalls(results, accepted, statuses, partner, projects, ts);
            |calls| == |statuses| &&
            calls[i] == Gauge(projects.run, Metric, Share(TotalFor(results, statuses[i]), accepted),
                              StatusLabels(partner, statuses[i]), ts)
    decreases |statuses|
  {
    StatusCallsLength(results, accepted, statuses[..|statuses| - 1], partner, projects, ts);
    if i < |statuses| - 1 {
      StatusCallsAt(results, accepted, statuses[..|statuses| - 1], partner, projects, ts, i);
    }
  }

  /** With accepted savings, one gauge per seen status, `SUBMISSION_SUCCESS`
      among them, each the status's submitted total over the accepted
      total. */
  lemma StatusCallsDescribe(rows: seq<Row>, groups: seq<Option<string>>, accepted: real, statuses: seq<Option<string>>,
                            partner: Value, projects: Projects, ts: int)
    requires Enumerates(groups, GroupKeys(rows, Status))
    requires Enumerates(statuses, SeenStatuses(StatusTotals(rows, groups)))
    ensures var calls := StatusCalls(StatusTotals(rows, groups), accepted, statuses, partner, projects, ts);
            |calls| == |statuses| &&
            (exists i :: 0 <= i < |calls| && LabelsOf(calls[i]) == StatusLabels(partner, Some(SubmissionSuccess))) &&
            forall i :: 0 <= i < |calls| ==>
              MetricOf(calls[i]) == MetricTypePrefix + Metric &&
              LabelsOf(calls[i]) == StatusLabels(partner, statuses[i]) &&
              ValueOf(calls[i]) == Share(Total(InGroup(rows, Status, statuses[i]), VlGlosaArvo), accepted)
  {
    var results := StatusTotals(rows, groups);
    StatusCallsLength(results, accepted, statuses, partner, projects, ts);
    forall i | 0 <= i < |statuses|
      ensures var calls := StatusCalls(results, accepted, statuses, partner, projects, ts);
              MetricOf(calls[i]) == MetricTypePrefix + Metric &&
              LabelsOf(calls[i]) == StatusLabels(partner, statuses[i]) &&
              ValueOf(calls[i]) == Share(Total(InGroup(rows, Status, statuses[i]), VlGlosaArvo), accepted)
    {
      StatusCallsAt(results, accepted, statuses, partner, projects, ts, i);
      TotalForIsGroupTotal(rows, groups, statuses[i]);
    }
    assert Some(SubmissionSuccess) in statuses;
    var k :| 0 <= k < |statuses| && statuses[k] == Some(SubmissionSuccess);
    StatusCallsAt(results, accepted, statuses, partner, projects, ts, k);
  }

  /** Without accepted savings in the window, a single gauge of 1.0 labelled
      `SUBMISSION_SUCCESS`, sent exactly when the partner is a string. */
  lemma NothingAcceptedReportsOne(msg: Value, projects: Projects, db: Db, env: Env)
    requires var p := Prepare(msg, Vars, projects, env);
             p.Ret? && p.value.refs[0] in db && p.value.refs[1] in db && p.value.refs[2] in db && p.value.refs[3] in db &&
             TotalAccepted(db[p.value.refs[0]], db[p.value.refs[1]], db[p.value.refs[2]],
                           WindowEnd(db[p.value.refs[3]], p.value.runId, p.value.ts)) == 0.0
    ensures var r := UnsentSavingsRun(msg, projects, db, env);
            r.Ret? && |r.value| == 1 && ValueOf(r.value[0]) == 1.0 &&
            LabelsOf(r.value[0]) == StatusLabels(Prepare(msg, Vars, projects, env).value.partner, Some(SubmissionSuccess))
    ensures var r := UnsentSavingsRun(msg, projects, db, env);
            var e := EffectOf(r);
            (e.outcome.Ret? <==> Prepare(msg, Vars, projects, env).value.partner.Str?) &&
            (e.outcome.Ret? ==> e.emitted == r.value) &&
            (e.outcome.Raise? ==> e == Effect(Raise(Internal), []))
  {
    var r := UnsentSavingsRun(msg, projects, db, env);
    assert Buildable(r.value[0]) <==> AllBuildable(r.value);
  }

  /** With accepted savings, the handler sends the gauges of the seen
      statuses in result order: all of them when the partner is a string and
      no status is `NULL`, none when the partner is not a string. */
  lemma AcceptedReportsStatuses(msg: Value, projects: Projects, db: Db, env: Env)
    requires var p := Prepare(msg, Vars, projects, env);
             p.Ret? && p.value.refs[0] in db && p.value.refs[1] in db && p.value.refs[2] in db && p.value.refs[3] in db &&
             TotalAccepted(db[p.value.refs[0]], db[p.value.refs[1]], db[p.value.refs[2]],
                           WindowEnd(db[p.value.refs[3]], p.value.runId, p.value.ts)) != 0.0
    requires var p := Prepare(msg, Vars, projects, env).value;
             var end := WindowEnd(db[p.refs[3]], p.runId, p.ts);
             var rows := RunRows(db[p.refs[3]], p.runId, end);
             var results := StatusTotals(rows, env.order(GroupKeys(rows, Status)));
             Enumerates(env.order(SeenStatuses(results)), SeenStatuses(results))
    ensures var p := Prepare(msg, Vars, projects, env).value;
            var end := WindowEnd(db[p.refs[3]], p.runId, p.ts);
            var accepted := TotalAccepted(db[p.refs[0]], db[p.refs[1]], db[p.refs[2]], end);
            var rows := RunRows(db[p.refs[3]], p.runId, end);
            var results := StatusTotals(rows, env.order(GroupKeys(rows, Status)));
            var statuses := env.order(SeenStatuses(results));
            var r := UnsentSavingsRun(msg, projects, db, env);
            var e := EffectOf(r);
            r == Ret(StatusCalls(results, accepted, statuses, p.partner, projects, p.ts)) &&
            (e.outcome.Ret? <==> p.partner.Str? && None !in SeenStatuses(results)) &&
            (e.outcome.Ret? ==> e.emitted == r.value) &&
            (e.outcome.Raise? ==> e.outcome == Raise(Internal)) &&
            (!p.partner.Str? ==> e.emitted == [])
  {
    var p := Prepare(msg, Vars, projects, env).value;
    var end := WindowEnd(db[p.refs[3]], p.runId, p.ts);
    var accepted := TotalAccepted(db[p.refs[0]], db[p.refs[1]], db[p.refs[2]], end);
    var rows := RunRows(db[p.refs[3]], p.runId, end);
    var results := StatusTotals(rows, env.order(GroupKeys(rows, Status)));
    var statuses := env.order(SeenStatuses(results));
    assert Some(SubmissionSuccess) in statuses;
    StatusGaugesOutcome(results, accepted, statuses, p.partner, projects, p.ts);
  }

  /** A missing table is an internal error, and nothing is emitted. */
  lemma MissingTableFails(msg: Value, projects: Projects, db: Db, env: Env, k: nat)
    requires var p := Prepare(msg, Vars, projects, env);
             p.Ret? && k < 4 && p.value.refs[k] !in db
    ensures UnsentSavingsRun(msg, projects, db, env) == Raise(Internal)
  {
    var refs := Prepare(msg, Vars, projects, env).value.refs;
    if k == 0 {
      assert refs[0] !in db;
    } else if k == 1 {
      assert refs[1] !in db;
    } else if k == 2 {
      assert refs[2] !in db;
    } else {
      assert refs[3] !in db;
    }
  }

  // The window end at sub-second resolution. Everywhere else the model
  // counts time in whole seconds; here a time counts `perSecond` ticks a
  // second, as BigQuery's microsecond `TIMESTAMP` does with 1000000.

  const MicrosPerSecond := 1000000

  /** `FORMAT_TIMESTAMP('%Y-%m-%d %H:%M:%S', t)` read back by `TIMESTAMP`:
      the fraction of the second is dropped. */
  function WholeSecond(t: int, perSecond: nat): (s: int)
    requires perSecond > 0
    ensures s <= t < s + perSecond
    ensures t % perSecond != 0 ==> s < t
  {
    t - t % perSecond
  }

  /** `COALESCE(MAX(ingested_at), source_timestamp - 20 minutes)` over the
      run's submitted rows, kept exact. */
  function WindowEndAt(submitted: seq<Row>, runId: string, ts: int, perSecond: nat): (e: int)
    ensures forall r :: r in submitted && Holds(r, Equals(SubmissionRunId, runId)) && r.ingestedAt.Some? ==>
              r.ingestedAt.value <= e
  {
    var latest := Latest(Select(submitted, Equals(SubmissionRunId, runId)), IngestedAt);
    if latest.Some? then latest.value else ts - FallbackSeconds * perSecond
  }

  /** The submitted rows of the run ingested in the two days up to `end`. */
  function RunRowsAt(submitted: seq<Row>, runId: string, end: int, perSecond: nat): seq<Row>
  {
    Select(submitted, All(Equals(SubmissionRunId, runId),
                          Between(IngestedAt, end - WindowDays * SecondsPerDay * perSecond, end)))
  }

  /** The rows the per-status query reads with the window end as the handler
      writes it: `latest_ingested_at_str` cut to a whole second. */
  function RunRowsAsWritten(submitted: seq<Row>, runId: string, ts: int, perSecond: nat): seq<Row>
    requires perSecond > 0
  {
    RunRowsAt(submitted, runId, WholeSecond(WindowEndAt(submitted, runId, ts, perSecond), perSecond), perSecond)
  }

  /** The rows read with the exact end, as the claims handler computes it. */
  function RunRowsExact(submitted: seq<Row>, runId: string, ts: int, perSecond: nat): seq<Row>
  {
    RunRowsAt(submitted, runId, WindowEndAt(submitted, runId, ts, perSecond), perSecond)
  }

  /** At whole-second resolution the exact window is the one `Report`
      reads, and the cut to a whole second changes nothing. */
  lemma WholeSecondsAgree(submitted: seq<Row>, runId: string, ts: int)
    ensures WindowEndAt(submitted, runId, ts, 1) == WindowEnd(submitted, runId, ts)
    ensures RunRowsExact(submitted, runId, ts, 1) == RunRows(submitted, runId, WindowEnd(submitted, runId, ts))
    ensures RunRowsAsWritten(submitted, runId, ts, 1) == RunRowsExact(submitted, runId, ts, 1)
  {
    var e := WindowEnd(submitted, runId, ts);
    assert WholeSecond(e, 1) == e;
  }

  /** With the exact end, every row of the run ingested in the two days up
      to its latest ingestion is read, the latest one included. */
  lemma ExactWindowKeepsRun(submitted: seq<Row>, runId: string, ts: int, perSecond: nat, r: Row)
    requires r in submitted && r.submissionRunId == Some(runId) && r.ingestedAt.Some?
    requires r.ingestedAt.value >= WindowEndAt(submitted, runId, ts, perSecond) - WindowDays * SecondsPerDay * perSecond
    ensures r in RunRowsExact(submitted, runId, ts, perSecond)
  {
    var e := WindowEndAt(submitted, runId, ts, perSecond);
    assert Holds(r, Equals(SubmissionRunId, runId));
    assert r.ingestedAt.value <= e;
    assert Holds(r, All(Equals(SubmissionRunId, runId), Between(IngestedAt, e - WindowDays * SecondsPerDay * perSecond, e)));
  }

  /** As written, when the run's latest ingestion is not on a whole second,
      the row ingested then is read by the exact window and left out of the
      window the handler queries. */
  lemma AsWrittenDropsLatest(submitted: seq<Row>, runId: string, ts: int, perSecond: nat)
    requires perSecond > 0
    requires exists r :: r in submitted && Holds(r, Equals(SubmissionRunId, runId)) && r.ingestedAt.Some?
    requires WindowEndAt(submitted, runId, ts, perSecond) % perSecond != 0
    ensures exists r :: r in submitted && r.submissionRunId == Some(runId) &&
                        r in RunRowsExact(submitted, runId, ts, perSecond) &&
                        r !in RunRowsAsWritten(submitted, runId, ts, perSecond)
  {
    var w :| w in submitted && Holds(w, Equals(SubmissionRunId, runId)) && w.ingestedAt.Some?;
    var run := Select(submitted, Equals(SubmissionRunId, runId));
    assert w in run;
    var latest := Latest(run, IngestedAt);
    var r :| r in run && TimeOf(r, IngestedAt) == latest;
    var e := WindowEndAt(submitted, runId, ts, perSecond);
    assert r.ingestedAt == Some(e);
    ExactWindowKeepsRun(submitted, runId, ts, perSecond, r);
    var cut := WholeSecond(e, perSecond);
    assert cut < e;
    assert !Holds(r, All(Equals(SubmissionRunId, runId), Between(IngestedAt, cut - WindowDays * SecondsPerDay * perSecond, cut)));
  }

  /** A run whose one submitted row was ingested at 1.5 seconds: the
      handler's window ends at 1 second and reads no row of the run. */
  lemma SubSecondRowDropped()
    ensures var row := BlankRow.(submissionRunId := Some("run"), status := Some("SUBMITTED"),
                                 vlGlosaArvo := Some(10.0), ingestedAt := Some(1500000));
            RunRowsExact([row], "run", 0, MicrosPerSecond) == [row] &&
            RunRowsAsWritten([row], "run", 0, MicrosPerSecond) == []
  {
    var row := BlankRow.(submissionRunId := Some("run"), status := Some("SUBMITTED"),
                         vlGlosaArvo := Some(10.0), ingestedAt := Some(1500000));
    var run := Select([row], Equals(SubmissionRunId, "run"));
    assert Holds(row, Equals(SubmissionRunId, "run"));
    assert run == [row] + Select([row][1..], Equals(SubmissionRunId, "run"));
    assert [row][1..] == [];
    assert Latest(run, IngestedAt) == Some(1500000);
    var exact := WindowEndAt([row], "run", 0, MicrosPerSecond);
    assert exact == 1500000;
    var cut := WholeSecond(exact, MicrosPerSecond);
    assert cut == 1000000;
    var lo := WindowDays * SecondsPerDay * MicrosPerSecond;
    var kept := All(Equals(SubmissionRunId, "run"), Between(IngestedAt, exact - lo, exact));
    var dropped := All(Equals(SubmissionRunId, "run"), Between(IngestedAt, cut - lo, cut));
    assert Holds(row, kept) && !Holds(row, dropped);
    assert RunRowsExact([row], "run", 0, MicrosPerSecond) == Select([row], kept) == [row] + Select([row][1..], kept);
    assert RunRowsAsWritten([row], "run", 0, MicrosPerSecond) == Select([row], dropped) == Select([row][1..], dropped);
  }
}
