/** The pipeline-run counter (handlers/pipeline_run.py): every well-formed
    pipeline event, whatever its status, is counted once. */
module PipelineRun {
  import opened Wrappers
  import opened Json
  import opened Metrics
  import opened HandlerBase

  const CountMetric := "mageai/pipeline_run/count"

  /** The message is a dict with `payload` and `source_timestamp` keys, and
      its payload is a dict with `pipeline_uuid` and `status` keys. */
  predicate DescribesRun(msg: Value)
  {
    msg.Obj? && "payload" in msg.fields && "source_timestamp" in msg.fields &&
    msg.fields["payload"].Obj? &&
    "pipeline_uuid" in msg.fields["payload"].fields && "status" in msg.fields["payload"].fields
  }

  /** `PipelineRunHandler.match`: key presence only; `in` on the payload also
      accepts a list or a string that contains the two names. */
  function Match(msg: Value): (r: Py<bool>)
    ensures msg.Obj? && ("payload" !in msg.fields || "source_timestamp" !in msg.fields) ==> r == Ret(false)
    ensures msg.Obj? && "payload" in msg.fields && msg.fields["payload"].Obj? ==> r == Ret(DescribesRun(msg))
    ensures r == Ret(true) ==> msg.Obj? && "payload" in msg.fields && "source_timestamp" in msg.fields
  {
    var hasPayload :- Contains(msg, "payload");
    if !hasPayload then Ret(false)
    else
      var hasTimestamp :- Contains(msg, "source_timestamp");
      if !hasTimestamp then Ret(false)
      else
        var pl :- Index(msg, "payload");
        var hasUuid :- Contains(pl, "pipeline_uuid");
        if !hasUuid then Ret(false)
        else
          var hasStatus :- Contains(pl, "status");
          Ret(hasStatus)
  }

  /** The labels of the count metric: the pipeline and the status go in as
      sent, so they are strings only when the event's are. */
  function RunLabels(uuid: Value, status: Value, partner: Value, env: Env): (l: Labels)
    ensures StrLabels(l) <==> uuid.Str? && status.Str?
  {
    var l := map["pipeline_uuid" := uuid, "pipeline_status" := status, "partner" := PartnerText(partner, env)];
    assert l["pipeline_uuid"] == uuid && l["pipeline_status"] == status;
    l
  }

  /** What `PipelineRunHandler.handle` does with a message. */
  function PipelineRunRun(msg: Value, runProject: string, env: Env): (r: Py<seq<SinkCall>>)
    ensures r.Ret? ==> |r.value| == 1
    ensures r.Ret? ==> DescribesRun(msg) && MetricOf(r.value[0]) == MetricTypePrefix + CountMetric &&
                       ValueOf(r.value[0]) == 1.0 && SourceTimestamp(msg, env) == Ret(EndTimeOf(r.value[0]))
  {
    var pl :- Index(msg, "payload");
    var variables :- VariablesOf(pl);
    var uuid :- Index(pl, "pipeline_uuid");
    var status :- Index(pl, "status");
    var partnerValue :- Get(variables, "partner");
    var partner :- Require(partnerValue, PartnerMissing);
    var ts :- SourceTimestamp(msg, env);
    Ret([Gauge(runProject, CountMetric, 1.0, RunLabels(uuid, status, partner, env), ts)])
  }

  method Handle(msg: Value, runProject: string, env: Env, client: MonitoringClient) returns (outcome: Py<()>)
    modifies client
    ensures Performs(outcome, old(client.calls), client.calls, PipelineRunRun(msg, runProject, env))
  {
    var pl :- Index(msg, "payload");
    var variables :- VariablesOf(pl);
    var uuid :- Index(pl, "pipeline_uuid");
    var status :- Index(pl, "status");
    var labels: Labels := map["pipeline_uuid" := uuid, "pipeline_status" := status];
    var partnerValue :- Get(variables, "partner");
    if !Truthy(partnerValue) {
      return Raise(BadRequest(PartnerMissing));
    }
    labels := labels["partner" := PartnerText(partnerValue, env)];
    var ts :- SourceTimestamp(msg, env);
    outcome := EmitGaugeMetric(client, runProject, CountMetric, 1.0, labels, ts);
  }

  /** The payload's `variables`, or `{}` when it has none. */
  function RunVariables(msg: Value): Value
    requires msg.Obj? && "payload" in msg.fields && msg.fields["payload"].Obj?
  {
    var pl := msg.fields["payload"].fields;
    if "variables" in pl then pl["variables"] else EmptyObject
  }

  /** An event that gets as far as emission is sent exactly when its pipeline
      and its status are strings; otherwise `labels.update` raises and nothing
      is sent. */
  lemma PipelineRunSent(msg: Value, runProject: string, env: Env)
    requires PipelineRunRun(msg, runProject, env).Ret?
    ensures DescribesRun(msg)
    ensures var e := EffectOf(PipelineRunRun(msg, runProject, env));
            var pl := msg.fields["payload"].fields;
            (e.outcome.Ret? <==> pl["pipeline_uuid"].Str? && pl["status"].Str?) &&
            (e.outcome.Raise? ==> e == Effect(Raise(Internal), []))
  {
    var r := PipelineRunRun(msg, runProject, env);
    assert Buildable(r.value[0]) <==> AllBuildable(r.value);
  }

  /** A handled event emits one count of 1.0 to the run project, stamped with
      the event's source timestamp and labelled with exactly the pipeline and
      its status, both strings as sent, and the stringified partner. */
  lemma PipelineRunMetric(msg: Value, runProject: string, env: Env)
    requires EffectOf(PipelineRunRun(msg, runProject, env)).outcome.Ret?
    ensures DescribesRun(msg) && RunVariables(msg).Obj?
    ensures var calls := EffectOf(PipelineRunRun(msg, runProject, env)).emitted;
            var pl := msg.fields["payload"].fields;
            |calls| == 1 && calls[0].name == ProjectPrefix + runProject &&
            MetricOf(calls[0]) == MetricTypePrefix + CountMetric && ValueOf(calls[0]) == 1.0 &&
            calls[0].timeSeries[0].points == [Point(1.0, SourceTimestamp(msg, env).value)] &&
            LabelsOf(calls[0]).Keys == {"pipeline_uuid", "pipeline_status", "partner"} &&
            pl["pipeline_uuid"].Str? && pl["status"].Str? &&
            LabelsOf(calls[0])["pipeline_uuid"] == pl["pipeline_uuid"] &&
            LabelsOf(calls[0])["pipeline_status"] == pl["status"] &&
            LabelsOf(calls[0])["partner"] == PartnerText(Field(RunVariables(msg), "partner"), env)
  {
    PipelineRunSent(msg, runProject, env);
  }

  /** A well-formed event whose partner is missing or falsy is a bad request
      and emits nothing. */
  lemma PipelineRunNeedsPartner(msg: Value, runProject: string, env: Env)
    requires DescribesRun(msg) && RunVariables(msg).Obj?
    requires !Truthy(Field(RunVariables(msg), "partner"))
    ensures PipelineRunRun(msg, runProject, env) == Raise(BadRequest(PartnerMissing))
    ensures EffectOf(PipelineRunRun(msg, runProject, env)) == Effect(Raise(BadRequest(PartnerMissing)), [])
  {
  }

  /** A matched dict-shaped event whose pipeline and status are strings is
      handled, one count sent, unless its variables are not a dict, its
      partner is falsy or its timestamp does not parse: the keys the handler
      indexes are the ones `match` checked. */
  lemma MatchedRunSucceeds(msg: Value, runProject: string, env: Env)
    requires Match(msg) == Ret(true) && msg.fields["payload"].Obj?
    requires msg.fields["payload"].fields["pipeline_uuid"].Str? && msg.fields["payload"].fields["status"].Str?
    requires RunVariables(msg).Obj? && Truthy(Field(RunVariables(msg), "partner"))
    requires msg.fields["source_timestamp"].Str? && env.parseTimestamp(msg.fields["source_timestamp"].s).Some?
    ensures EffectOf(PipelineRunRun(msg, runProject, env)).outcome == Ret(())
    ensures |EffectOf(PipelineRunRun(msg, runProject, env)).emitted| == 1
  {
    PipelineRunSent(msg, runProject, env);
  }

  /** The status is never tested: with any value of it the event matches
      exactly when the original does and gets as far as emission exactly when
      the original does; a string status is then sent exactly when the
      original would be, and any other status, `null` included, raises. */
  lemma StatusNotTested(msg: Value, status: Value, runProject: string, env: Env)
    requires msg.Obj? && "payload" in msg.fields && msg.fields["payload"].Obj?
    requires "status" in msg.fields["payload"].fields
    ensures var other := Obj(msg.fields["payload" := Obj(msg.fields["payload"].fields["status" := status])]);
            Match(other) == Match(msg) &&
            PipelineRunRun(other, runProject, env).Ret? == PipelineRunRun(msg, runProject, env).Ret? &&
            (status.Str? && msg.fields["payload"].fields["status"].Str? ==>
               EffectOf(PipelineRunRun(other, runProject, env)).outcome == EffectOf(PipelineRunRun(msg, runProject, env)).outcome) &&
            (!status.Str? ==> EffectOf(PipelineRunRun(other, runProject, env)).outcome.Raise?)
  {
    var pl := msg.fields["payload"].fields;
    var other := Obj(msg.fields["payload" := Obj(pl["status" := status])]);
    assert other.fields["payload"].fields.Keys == pl.Keys;
    assert other.fields.Keys == msg.fields.Keys;
    if "pipeline_uuid" in pl {
      assert other.fields["payload"].fields["pipeline_uuid"] == pl["pipeline_uuid"];
    }
    assert RunVariables(other) == RunVariables(msg) by {
      if "variables" in pl {
        assert other.fields["payload"].fields["variables"] == pl["variables"];
      }
    }
    if PipelineRunRun(msg, runProject, env).Ret? {
      PipelineRunSent(msg, runProject, env);
      PipelineRunSent(other, runProject, env);
    }
  }

  /** A payload given as a string passes `match` when it merely contains the
      two key names, and the handler then fails on it. */
  lemma StringPayloadMatches(runProject: string, env: Env)
    ensures var msg := Obj(map["payload" := Str("pipeline_uuid status"), "source_timestamp" := Str("t")]);
            Match(msg) == Ret(true) && PipelineRunRun(msg, runProject, env) == Raise(Internal)
  {
    var s := "pipeline_uuid status";
    assert MatchesAt(s, "pipeline_uuid", 0);
    OccursAt("pipeline_uuid", s, 0);
    assert MatchesAt(s, "status", 14);
    OccursAt("status", s, 14);
  }
}
