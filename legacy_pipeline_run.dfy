/** The older pipeline-run counter (src/handlers/pipeline_run.py), which is
    given the raw event and decodes the Pub/Sub envelope itself, in `match`
    and again in `handle`, without catching decoding errors. */
module LegacyPipelineRun {
  import opened Wrappers
  import opened Json
  import opened Metrics
  import opened HandlerBase
  import PipelineRun

  /** `cloud_event.data.get("message", {}).get("data")`. */
  function EnvelopeData(data: Value): (r: Py<Value>)
    ensures data.Obj? && "message" !in data.fields ==> r == Ret(Null)
    ensures r.Ret? <==> data.Obj? && ("message" in data.fields ==> data.fields["message"].Obj?)
  {
    var message :- GetOr(data, "message", EmptyObject);
    Get(message, "data")
  }

  /** The event is a dict whose envelope data is a string the wire decoding
      accepts. */
  predicate Decodable(data: Value, env: Env)
  {
    var e := EnvelopeData(data);
    e.Ret? && e.value.Str? && env.decodeWire(e.value.s).Some?
  }

  /** The envelope decoded with nothing caught: a value that does not
      decode raises as well. */
  function Decode(encoded: Value, env: Env): (r: Py<Value>)
    ensures r.Ret? <==> encoded.Str? && env.decodeWire(encoded.s).Some?
    ensures r.Ret? ==> r.value == env.decodeWire(encoded.s).value
  {
    var decoded :- Base64Json(encoded, env);
    if decoded.None? then Raise(Internal) else Ret(decoded.value)
  }

  /** `PipelineRunHandler.match` on the raw event: no envelope data means no
      match; otherwise the decoded message is tested for the same keys as
      the current handler tests. */
  function Match(data: Value, env: Env): (r: Py<bool>)
    ensures !data.Obj? ==> r.Raise?
    ensures r == Ret(true) ==> Decodable(data, env)
  {
    var encoded :- EnvelopeData(data);
    if !Truthy(encoded) then Ret(false)
    else
      var msg :- Decode(encoded, env);
      PipelineRun.Match(msg)
  }

  /** What `PipelineRunHandler.handle` does with the raw event. */
  function LegacyRun(data: Value, runProject: string, env: Env): (r: Py<seq<SinkCall>>)
    ensures r.Ret? ==> |r.value| == 1
    ensures r.Ret? ==> Decodable(data, env) && MetricOf(r.value[0]) == MetricTypePrefix + PipelineRun.CountMetric
  {
    var encoded :- EnvelopeData(data);
    var msg :- Decode(encoded, env);
    PipelineRun.PipelineRunRun(msg, runProject, env)
  }

  method Handle(data: Value, runProject: string, env: Env, client: MonitoringClient) returns (outcome: Py<()>)
    modifies client
    ensures Performs(outcome, old(client.calls), client.calls, LegacyRun(data, runProject, env))
  {
    var encoded :- EnvelopeData(data);
    var msg :- Decode(encoded, env);
    outcome := PipelineRun.Handle(msg, runProject, env, client);
  }

  /** The event carries the string `s` as its envelope data. */
  predicate Carries(data: Value, s: string)
  {
    data.Obj? && "message" in data.fields && data.fields["message"].Obj? &&
    "data" in data.fields["message"].fields && data.fields["message"].fields["data"] == Str(s)
  }

  /** An envelope that decodes to `msg` is matched and handled exactly as the
      current handler matches and handles `msg`. */
  lemma DecodedEnvelopeAgrees(data: Value, s: string, msg: Value, runProject: string, env: Env)
    requires Carries(data, s) && s != "" && env.decodeWire(s) == Some(msg)
    ensures Match(data, env) == PipelineRun.Match(msg)
    ensures LegacyRun(data, runProject, env) == PipelineRun.PipelineRunRun(msg, runProject, env)
  {
  }

  /** A non-empty envelope that does not decode makes `match` raise instead
      of answering `False`. */
  lemma MalformedEnvelopeRaises(data: Value, s: string, env: Env)
    requires Carries(data, s) && s != "" && env.decodeWire(s).None?
    ensures Match(data, env) == Raise(Internal)
  {
  }

  /** An event without envelope data, or with empty data, is not matched. */
  lemma NoEnvelopeNoMatch(data: Value, env: Env)
    requires data.Obj? && ("message" in data.fields ==> data.fields["message"].Obj?)
    requires "message" in data.fields ==> !Truthy(Field(data.fields["message"], "data"))
    ensures Match(data, env) == Ret(false)
  {
  }

  /** A handled event emits the same single count as the current handler,
      from the message carried in the envelope, with string labels only. */
  lemma LegacyRunMetric(data: Value, s: string, runProject: string, env: Env)
    requires Carries(data, s) && EffectOf(LegacyRun(data, runProject, env)).outcome.Ret?
    ensures env.decodeWire(s).Some? && PipelineRun.DescribesRun(env.decodeWire(s).value)
    ensures var calls := EffectOf(LegacyRun(data, runProject, env)).emitted;
            |calls| == 1 && MetricOf(calls[0]) == MetricTypePrefix + PipelineRun.CountMetric &&
            ValueOf(calls[0]) == 1.0 && LabelsOf(calls[0]).Keys == {"pipeline_uuid", "pipeline_status", "partner"} &&
            StrLabels(LabelsOf(calls[0]))
  {
    PipelineRun.PipelineRunMetric(env.decodeWire(s).value, runProject, env);
  }
}
