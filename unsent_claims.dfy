/** Share of the received claims' value that a submission run sent, per
    submission status (handlers/unsent_claims.py). */
module UnsentClaims {
  import opened Wrappers
  import opened Json
  import opened Metrics
  import opened Warehouse
  import opened HandlerBase
  import opened Submission

  const PagoMetric := "claims/pipeline/claims/vl_pago/sent_over_recv_last_2_days"
  const InfoMetric := "claims/pipeline/claims/vl_info/sent_over_recv_last_2_days"

  const SentForValidation := "SENT_FOR_VALIDATION"
  const SubmittedSuccess := "SUBMITTED_SUCCESS"
  /** Validation statuses that keep a claim from being sendable. */
  const Unsendable: set<string> := {SentForValidation, "EXPIRED", "EXCLUDED"}

  /** The historical processable and unprocessable tables, the internal
      validation table and the submitted table. The submitted table's error
      message calls it `submitted_claims_output_table`. */
  const Vars := [
    TableVar("processable_claims_historical_table", "processable_claims_historical_table"),
    TableVar("unprocessable_claims_historical_table", "unprocessable_claims_historical_table"),
    TableVar("internal_validation_output_table", "internal_validation_output_table"),
    TableVar("claims_submitted_output_table", "submitted_claims_output_table")]

  /** The columns `id_arvo, vl_pago, vl_info` of a row. */
  function ClaimOf(r: Row): Row
  {
    BlankRow.(idArvo := r.idArvo, vlPago := r.vlPago, vlInfo := r.vlInfo)
  }

  function Claims(rows: seq<Row>): (r: seq<Row>)
    ensures |r| == |rows| && forall i :: 0 <= i < |rows| ==> r[i] == ClaimOf(rows[i])
  {
    if rows == [] then [] else [ClaimOf(rows[0])] + Claims(rows[1..])
  }

  /** `ingested_claims`: the distinct claims of both historical tables
      ingested in the window. */
  function Ingested(history: seq<Row>, end: int): seq<Row>
  {
    Dedup(Claims(Select(history, Window(end))))
  }

  /** `pending_invoices`: invoices with a claim sent for validation in the
      window. */
  function PendingInvoices(validation: seq<Row>, end: int): set<string>
  {
    set v | v in validation && Holds(v, Window(end)) && v.status == Some(SentForValidation) && v.idFatura.Some? ::
      v.idFatura.value
  }

  /** `non_sendable_claims`: claims of the window under validation, expired
      or excluded, and every claim of the window on a pending invoice. */
  function NonSendable(validation: seq<Row>, end: int): set<string>
  {
    (set v | v in validation && Holds(v, Window(end)) && Holds(v, OneOf(Status, Unsendable)) && v.idArvo.Some? ::
       v.idArvo.value) +
    (set v | v in validation && Holds(v, Window(end)) && v.idFatura.Some? &&
             v.idFatura.value in PendingInvoices(validation, end) && v.idArvo.Some? :: v.idArvo.value)
  }

  /** The anti-join: a claim without `id_arvo` never matches. */
  predicate Sendable(c: Row, nonSendable: set<string>)
  {
    !(c.idArvo.Some? && c.idArvo.value in nonSendable)
  }

  function SendableOf(claims: seq<Row>, nonSendable: set<string>): (r: seq<Row>)
    ensures forall c :: c in r <==> c in claims && Sendable(c, nonSendable)
  {
    if claims == [] then []
    else (if Sendable(claims[0], nonSendable) then [claims[0]] else []) + SendableOf(claims[1..], nonSendable)
  }

  /** `sendable_claims` for the run: the window ends at the run's latest
      submitted ingestion. */
  function SendableClaims(history: seq<Row>, validation: seq<Row>, submitted: seq<Row>, runId: string, ts: int): seq<Row>
  {
    var end := WindowEnd(submitted, runId, ts);
    SendableOf(Ingested(history, end), NonSendable(validation, end))
  }

  /** The sendable claims an `INNER JOIN` pairs with submitted row `r`. */
  function MatchesOf(r: Row, send: seq<Row>): (m: seq<Row>)
    ensures forall c :: c in m <==> c in send && c.idArvo.Some? && c.idArvo == r.idArvo
  {
    if send == [] then []
    else (if send[0].idArvo.Some? && send[0].idArvo == r.idArvo then [send[0]] else []) + MatchesOf(r, send[1..])
  }

  /** The joined pairs of group `status` of `totals_by_status`, one claim
      per pair. The submitted table is read for every run. */
  function Joined(submitted: seq<Row>, send: seq<Row>, status: Option<string>): seq<Row>
  {
    if submitted == [] then []
    else (if submitted[0].status == status then MatchesOf(submitted[0], send) else []) + Joined(submitted[1..], send, status)
  }

  /** The groups of `totals_by_status`. */
  function StatusGroups(submitted: seq<Row>, send: seq<Row>): set<Option<string>>
  {
    set r, c | r in submitted && c in send && c.idArvo.Some? && c.idArvo == r.idArvo :: r.status
  }

  /** `statuses`: the groups and `SUBMITTED_SUCCESS`. */
  function Statuses(submitted: seq<Row>, send: seq<Row>): set<Option<string>>
  {
    StatusGroups(submitted, send) + {Some(SubmittedSuccess)}
  }

  /** `tbs.status_*` after `LEFT JOIN … ON s.status = tbs.status`, which
      never matches a `NULL` status. */
  function StatusSum(submitted: seq<Row>, send: seq<Row>, status: Option<string>, a: Amount): Option<real>
  {
    if status.None? then None else SqlSum(Joined(submitted, send, status), a)
  }

  /** `CASE IFNULL(total, 0) WHEN 0 THEN 1.0 ELSE COALESCE(SAFE_DIVIDE(part,
      total), 0) END`. */
  function Perc(part: Option<real>, total: Option<real>): real
  {
    if total.None? || total.value == 0.0 then 1.0
    else if part.None? then 0.0
    else part.value / total.value
  }

  function StatusPerc(submitted: seq<Row>, send: seq<Row>, status: Option<string>, a: Amount): real
  {
    Perc(StatusSum(submitted, send, status, a), SqlSum(send, a))
  }

  function StatusCalls(submitted: seq<Row>, send: seq<Row>, statuses: seq<Option<string>>, partner: Value,
                       projects: Projects, ts: int): seq<SinkCall>
    decreases |statuses|
  {
    if statuses == [] then []
    else
      var s := statuses[|statuses| - 1];
      StatusCalls(submitted, send, statuses[..|statuses| - 1], partner, projects, ts) +
      [Gauge(projects.run, PagoMetric, StatusPerc(submitted, send, s, VlPago), StatusLabels(partner, s), ts),
       Gauge(projects.run, InfoMetric, StatusPerc(submitted, send, s, VlInfo), StatusLabels(partner, s), ts)]
  }

  /** `UnsentClaimsHandler.match`. */
  function Match(msg: Value): (r: Py<bool>)
    ensures r == Ret(true) <==> AnnouncesCompletion(msg, "pipesv2_submission")
    ensures msg.Obj? && "payload" in msg.fields && !Truthy(msg.fields["payload"]) ==> r == Ret(false)
  {
    MatchCompleted(msg, "pipesv2_submission")
  }

  /** A gauge of this handler: sent to the run project under one of its two
      metrics, labelled with the partner as given, at the event time. */
  predicate RunGauge(c: SinkCall, partner: Value, projects: Projects, ts: int)
  {
    c.name == ProjectPrefix + projects.run &&
    (MetricOf(c) == MetricTypePrefix + PagoMetric || MetricOf(c) == MetricTypePrefix + InfoMetric) &&
    "partner" in LabelsOf(c) && LabelsOf(c)["partner"] == partner && EndTimeOf(c) == ts
  }

  /** What `UnsentClaimsHandler.handle` does with a message. Every table is
      queried without a probe, so a missing one raises. */
  function UnsentClaimsRun(msg: Value, projects: Projects, db: Db, env: Env): (r: Py<seq<SinkCall>>)
    ensures r.Ret? <==> var p := Prepare(msg, Vars, projects, env);
                        p.Ret? && p.value.refs[0] in db && p.value.refs[1] in db && p.value.refs[2] in db &&
                        p.value.refs[3] in db
    ensures r.Ret? ==> var p := Prepare(msg, Vars, projects, env).value;
                       forall c :: c in r.value ==> RunGauge(c, p.partner, projects, p.ts)
  {
    var inputs :- Prepare(msg, Vars, projects, env);
    var refs := inputs.refs;
    if !(refs[0] in db && refs[1] in db && refs[2] in db && refs[3] in db) then Raise(Internal)
    else
      var submitted := db[refs[3]];
      var send := SendableClaims(db[refs[0]] + db[refs[1]], db[refs[2]], submitted, inputs.runId, inputs.ts);
      var statuses := env.order(Statuses(submitted, send));
      StatusCallsUniform(submitted, send, statuses, inputs.partner, projects, inputs.ts);
      Ret(StatusCalls(submitted, send, statuses, inputs.partner, projects, inputs.ts))
  }

  method Handle(msg: Value, projects: Projects, db: Db, env: Env, client: MonitoringClient)
    returns (outcome: Py<()>)
    modifies client
    ensures Performs(outcome, old(client.calls), client.calls, UnsentClaimsRun(msg, projects, db, env))
  {
    var inputs :- Prepare(msg, Vars, projects, env);
    var refs := inputs.refs;
    if !(refs[0] in db && refs[1] in db && refs[2] in db && refs[3] in db) {
      return Raise(Internal);
    }
    var submitted := db[refs[3]];
    var send := SendableClaims(db[refs[0]] + db[refs[1]], db[refs[2]], submitted, inputs.runId, inputs.ts);
    outcome := EmitStatusGauges(submitted, send, env.order(Statuses(submitted, send)), inputs.partner, projects, inputs.ts, client);
  }

  /** The loop over the result rows: the two gauges of each status, in
      result order, until a status whose labels are not strings raises. */
  method EmitStatusGauges(submitted: seq<Row>, send: seq<Row>, statuses: seq<Option<string>>, partner: Value,
                          projects: Projects, ts: int, client: MonitoringClient) returns (outcome: Py<()>)
    modifies client
    ensures var e := SendAll(StatusCalls(submitted, send, statuses, partner, projects, ts));
            outcome == e.outcome && client.calls == old(client.calls) + e.emitted
  {
    outcome := Ret(());
    for i := 0 to |statuses|
      invariant outcome == Ret(())
      invariant forall j :: 0 <= j < i ==> StrLabels(StatusLabels(partner, statuses[j]))
      invariant client.calls == old(client.calls) + StatusCalls(submitted, send, statuses[..i], partner, projects, ts)
    {
      var status := statuses[i];
      var labels := StatusLabels(partner, status);
      outcome := EmitGaugeMetric(client, projects.run, PagoMetric, StatusPerc(submitted, send, status, VlPago), labels, ts);
      if outcome.Raise? {
        StatusGaugesSent(submitted, send, statuses, partner, projects, ts);
        assert FirstUnlabelled(partner, statuses) == i;
        return;
      }
      outcome := EmitGaugeMetric(client, projects.run, InfoMetric, StatusPerc(submitted, send, status, VlInfo), labels, ts);
      assert statuses[..i + 1][..i] == statuses[..i];
    }
    StatusGaugesSent(submitted, send, statuses, partner, projects, ts);
    assert statuses[..|statuses|] == statuses;
  }

  /** Sending the gauges of `statuses` returns after sending them all when
      every status has string labels; otherwise it raises `Internal` after
      sending the gauges of the statuses before the first one that has not. */
  lemma {:induction false} StatusGaugesSent(submitted: seq<Row>, send: seq<Row>, statuses: seq<Option<string>>,
                                            partner: Value, projects: Projects, ts: int)
    ensures var k := FirstUnlabelled(partner, statuses);
            SendAll(StatusCalls(submitted, send, statuses, partner, projects, ts)) ==
            if k == |statuses| then Effect(Ret(()), StatusCalls(submitted, send, statuses, partner, projects, ts))
            else Effect(Raise(Internal), StatusCalls(submitted, send, statuses[..k], partner, projects, ts))
    decreases |statuses|
  {
    if statuses != [] {
      var n := |statuses| - 1;
      var init := statuses[..n];
      var s := statuses[n];
      var labels := StatusLabels(partner, s);
      var prefix := StatusCalls(submitted, send, init, partner, projects, ts);
      var pair := [Gauge(projects.run, PagoMetric, StatusPerc(submitted, send, s, VlPago), labels, ts),
                   Gauge(projects.run, InfoMetric, StatusPerc(submitted, send, s, VlInfo), labels, ts)];
      assert StatusCalls(submitted, send, statuses, partner, projects, ts) == prefix + pair;
      StatusGaugesSent(submitted, send, init, partner, projects, ts);
      SendAllConcat(prefix, pair);
      var k := FirstUnlabelled(partner, init);
      if k < n {
        assert init[..k] == statuses[..k];
      } else if StrLabels(labels) {
        SendAllDescribe(pair);
      } else {
        assert SendAll(pair) == Effect(Raise(Internal), []);
      }
    }
  }

  /** With at least one status: a partner that is not a string raises
      before any gauge is sent; a string partner sends every gauge unless a
      status is `NULL`, and then raises after the gauges of the statuses
      before the first `NULL` one. */
  lemma StatusGaugesOutcome(submitted: seq<Row>, send: seq<Row>, statuses: seq<Option<string>>,
                            partner: Value, projects: Projects, ts: int)
    requires |statuses| > 0
    ensures var e := SendAll(StatusCalls(submitted, send, statuses, partner, projects, ts));
            (e.outcome.Ret? <==> partner.Str? && None !in statuses) &&
            (e.outcome.Ret? ==> e.emitted == StatusCalls(submitted, send, statuses, partner, projects, ts)) &&
            (e.outcome.Raise? ==> e.outcome == Raise(Internal)) &&
            (!partner.Str? ==> e.emitted == []) &&
            (partner.Str? && None in statuses ==>
               exists k :: 0 <= k < |statuses| && statuses[k] == None && None !in statuses[..k] &&
                 e.emitted == StatusCalls(submitted, send, statuses[..k], partner, projects, ts))
  {
    StatusGaugesSent(submitted, send, statuses, partner, projects, ts);
    var k := FirstUnlabelled(partner, statuses);
    if partner.Str? {
      if None in statuses {
        var j :| 0 <= j < |statuses| && statuses[j] == None;
        assert k <= j;
        assert statuses[k] == None;
        assert None !in statuses[..k];
      }
    } else {
      assert k == 0;
      assert statuses[..0] == [];
    }
  }

  lemma {:induction false} StatusCallsLength(submitted: seq<Row>, send: seq<Row>, statuses: seq<Option<string>>,
                                             partner: Value, projects: Projects, ts: int)
    ensures |StatusCalls(submitted, send, statuses, partner, projects, ts)| == 2 * |statuses|
    decreases |statuses|
  {
    if statuses != [] {
      StatusCallsLength(submitted, send, statuses[..|statuses| - 1], partner, projects, ts);
    }
  }

  /** Every status gauge goes to the run project under one of the two
      metrics, with the raw partner and the event time. */
  lemma {:induction false} StatusCallsUniform(submitted: seq<Row>, send: seq<Row>, statuses: seq<Option<string>>,
                                              partner: Value, projects: Projects, ts: int)
    ensures forall c :: c in StatusCalls(submitted, send, statuses, partner, projects, ts) ==>
              RunGauge(c, partner, projects, ts)
    decreases |statuses|
  {
    if statuses != [] {
      StatusCallsUniform(submitted, send, statuses[..|statuses| - 1], partner, projects, ts);
    }
  }

  /** Result row `i` becomes gauges `2i` (`vl_pago`) and `2i + 1`
      (`vl_info`). */
  lemma {:induction false} StatusCallsAt(submitted: seq<Row>, send: seq<Row>, statuses: seq<Option<string>>,
                                         partner: Value, projects: Projects, ts: int, i: nat)
    requires i < |statuses|
    ensures var calls := StatusCalls(submitted, send, statuses, partner, projects, ts);
            |calls| == 2 * |statuses| &&
            calls[2 * i] == Gauge(projects.run, PagoMetric, StatusPerc(submitted, send, statuses[i], VlPago),
                                  StatusLabels(partner, statuses[i]), ts) &&
            calls[2 * i + 1] == Gauge(projects.run, InfoMetric, StatusPerc(submitted, send, statuses[i], VlInfo),
                                      StatusLabels(partner, statuses[i]), ts)
    decreases |statuses|
  {
    StatusCallsLength(submitted, send, statuses[..|statuses| - 1], partner, projects, ts);
    if i < |statuses| - 1 {
      StatusCallsAt(submitted, send, statuses[..|statuses| - 1], partner, projects, ts, i);
    }
  }

  /** Two gauges per status of the result, `SUBMITTED_SUCCESS` always among
      them; with nothing sendable received, every share is 1.0. */
  lemma StatusCallsDescribe(submitted: seq<Row>, send: seq<Row>, statuses: seq<Option<string>>,
                            partner: Value, projects: Projects, ts: int)
    requires Enumerates(statuses, Statuses(submitted, send))
    ensures var calls := StatusCalls(submitted, send, statuses, partner, projects, ts);
            |statuses| == |Statuses(submitted, send)| && |calls| == 2 * |statuses| &&
            (exists i :: 0 <= i < |statuses| && LabelsOf(calls[2 * i]) == StatusLabels(partner, Some(SubmittedSuccess))) &&
            forall i :: 0 <= i < |statuses| ==>
              MetricOf(calls[2 * i]) == MetricTypePrefix + PagoMetric &&
              MetricOf(calls[2 * i + 1]) == MetricTypePrefix + InfoMetric &&
              exists s :: s in Statuses(submitted, send) &&
                LabelsOf(calls[2 * i]) == StatusLabels(partner, s) &&
                ValueOf(calls[2 * i]) == StatusPerc(submitted, send, s, VlPago) &&
                ValueOf(calls[2 * i + 1]) == StatusPerc(submitted, send, s, VlInfo) &&
                (SqlSum(send, VlPago).None? ==> ValueOf(calls[2 * i]) == 1.0)
  {
    var calls := StatusCalls(submitted, send, statuses, partner, projects, ts);
    EnumeratesSize(statuses, Statuses(submitted, send));
    StatusCallsLength(submitted, send, statuses, partner, projects, ts);
    forall i | 0 <= i < |statuses|
      ensures MetricOf(calls[2 * i]) == MetricTypePrefix + PagoMetric &&
              MetricOf(calls[2 * i + 1]) == MetricTypePrefix + InfoMetric &&
              statuses[i] in Statuses(submitted, send) &&
              LabelsOf(calls[2 * i]) == StatusLabels(partner, statuses[i]) &&
              ValueOf(calls[2 * i]) == StatusPerc(submitted, send, statuses[i], VlPago) &&
              ValueOf(calls[2 * i + 1]) == StatusPerc(submitted, send, statuses[i], VlInfo)
    {
      StatusCallsAt(submitted, send, statuses, partner, projects, ts, i);
    }
    assert Some(SubmittedSuccess) in statuses;
    var k :| 0 <= k < |statuses| && statuses[k] == Some(SubmittedSuccess);
    StatusCallsAt(submitted, send, statuses, partner, projects, ts, k);
  }

  /** The handler's gauges, once every check has passed and the tables
      exist. */
  lemma UnsentClaimsMetrics(msg: Value, projects: Projects, db: Db, env: Env)
    requires var p := Prepare(msg, Vars, projects, env);
             p.Ret? && p.value.refs[0] in db && p.value.refs[1] in db && p.value.refs[2] in db && p.value.refs[3] in db
    requires var p := Prepare(msg, Vars, projects, env).value;
             var submitted := db[p.refs[3]];
             var send := SendableClaims(db[p.refs[0]] + db[p.refs[1]], db[p.refs[2]], submitted, p.runId, p.ts);
             Enumerates(env.order(Statuses(submitted, send)), Statuses(submitted, send))
    ensures var p := Prepare(msg, Vars, projects, env).value;
            var submitted := db[p.refs[3]];
            var send := SendableClaims(db[p.refs[0]] + db[p.refs[1]], db[p.refs[2]], submitted, p.runId, p.ts);
            var r := UnsentClaimsRun(msg, projects, db, env);
            r.Ret? && r.value == StatusCalls(submitted, send, env.order(Statuses(submitted, send)), p.partner, projects, p.ts) &&
            |r.value| == 2 * |Statuses(submitted, send)|
    ensures var p := Prepare(msg, Vars, projects, env).value;
            var submitted := db[p.refs[3]];
            var send := SendableClaims(db[p.refs[0]] + db[p.refs[1]], db[p.refs[2]], submitted, p.runId, p.ts);
            var e := EffectOf(UnsentClaimsRun(msg, projects, db, env));
            (e.outcome.Ret? <==> p.partner.Str? && None !in Statuses(submitted, send)) &&
            (e.outcome.Ret? ==> e.emitted == UnsentClaimsRun(msg, projects, db, env).value) &&
            (e.outcome.Raise? ==> e.outcome == Raise(Internal)) &&
            (!p.partner.Str? ==> e.emitted == [])
  {
    var p := Prepare(msg, Vars, projects, env).value;
    var submitted := db[p.refs[3]];
    var send := SendableClaims(db[p.refs[0]] + db[p.refs[1]], db[p.refs[2]], submitted, p.runId, p.ts);
    var order := env.order(Statuses(submitted, send));
    StatusCallsDescribe(submitted, send, order, p.partner, projects, p.ts);
    assert Some(SubmittedSuccess) in order;
    StatusGaugesOutcome(submitted, send, order, p.partner, projects, p.ts);
  }

  /** A claim of the window under validation, expired or excluded is not
      sendable. */
  lemma UnsendableStatusExcluded(validation: seq<Row>, end: int, v: Row, claims: seq<Row>)
    requires v in validation && Holds(v, Window(end)) && v.status.Some? && v.status.value in Unsendable && v.idArvo.Some?
    ensures forall c :: c in SendableOf(claims, NonSendable(validation, end)) ==> c.idArvo != v.idArvo
  {
    assert v.idArvo.value in NonSendable(validation, end);
  }

  /** Every claim of the window on an invoice with a claim sent for
      validation is not sendable, whatever its own status. */
  lemma PendingInvoiceExcluded(validation: seq<Row>, end: int, pending: Row, v: Row, claims: seq<Row>)
    requires pending in validation && Holds(pending, Window(end)) && pending.status == Some(SentForValidation)
    requires v in validation && Holds(v, Window(end)) && v.idFatura.Some? && v.idFatura == pending.idFatura && v.idArvo.Some?
    ensures forall c :: c in SendableOf(claims, NonSendable(validation, end)) ==> c.idArvo != v.idArvo
  {
    assert v.idFatura.value in PendingInvoices(validation, end);
    assert v.idArvo.value in NonSendable(validation, end);
  }

  /** The sendable claims are exactly the claims of historical rows ingested
      in the window that are not excluded. */
  lemma SendableIsIngested(history: seq<Row>, validation: seq<Row>, end: int, c: Row)
    ensures c in SendableOf(Ingested(history, end), NonSendable(validation, end)) <==>
            Sendable(c, NonSendable(validation, end)) && exists r :: r in history && Holds(r, Window(end)) && ClaimOf(r) == c
  {
    var window := Select(history, Window(end));
    if exists r :: r in history && Holds(r, Window(end)) && ClaimOf(r) == c {
      var r :| r in history && Holds(r, Window(end)) && ClaimOf(r) == c;
      var i :| 0 <= i < |window| && window[i] == r;
      assert Claims(window)[i] == c;
    }
    if c in Claims(window) {
      var i :| 0 <= i < |window| && Claims(window)[i] == c;
      assert window[i] in window;
    }
  }

  /** A status nobody submitted, and the `NULL` status, score zero against a
      non-zero total. */
  lemma UnmatchedStatusScoresZero(submitted: seq<Row>, send: seq<Row>, status: Option<string>, a: Amount)
    requires SqlSum(send, a).Some? && SqlSum(send, a).value != 0.0
    requires status.None? || forall r :: r in submitted ==> r.status != status
    ensures StatusPerc(submitted, send, status, a) == 0.0
  {
    if status.Some? {
      JoinedEmpty(submitted, send, status);
    }
  }

  lemma {:induction false} JoinedEmpty(submitted: seq<Row>, send: seq<Row>, status: Option<string>)
    requires forall r :: r in submitted ==> r.status != status
    ensures Joined(submitted, send, status) == []
    decreases |submitted|
  {
    if submitted != [] {
      assert submitted[0] in submitted;
      JoinedEmpty(submitted[1..], send, status);
    }
  }
}
