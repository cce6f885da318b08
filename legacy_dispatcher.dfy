/** The older dispatcher (src/dispatcher.py): the same two fail-fast
    phases, given the raw event with no decoding step, and with every
    exception of `match` and `handle` caught. */
module LegacyDispatcher {
  import opened Wrappers
  import opened Json
  import opened Metrics
  import opened Warehouse
  import opened HandlerBase
  import opened Registry
  import Dispatcher
  import PipelineRun
  import LegacyPipelineRun

  class HandlerDispatcher {
    var handlers: seq<Handler>

    constructor (handlers: seq<Handler>)
      ensures this.handlers == handlers
    {
      this.handlers := handlers;
    }

    /** `dispatch(cloud_event)`: the handlers see the event's data as it
        arrived; nothing escapes. */
    method Dispatch(data: Value, db: Db, env: Env, client: MonitoringClient) returns (response: Dispatcher.Response)
      modifies client
      ensures response == Dispatcher.Route(handlers, data, db, env).response
      ensures client.calls == old(client.calls) + Dispatcher.Route(handlers, data, db, env).emitted
    {
      response := Dispatcher.MatchAndExecute(handlers, data, db, env, client);
    }
  }

  /** The two generations agree on a run event sent in an envelope that
      decodes to anything but `null`: the older dispatcher with the older
      counter, given the raw event, answers and sends exactly what the
      current dispatcher with the current counter does. */
  lemma GenerationsAgree(data: Value, s: string, msg: Value, runProject: string, db: Db, env: Env)
    requires Dispatcher.Enveloped(data, s) && env.decodeWire(s) == Some(msg) && msg != Null
    ensures Dispatcher.DispatchRun([PipelineRunHandler(runProject)], data, db, env) ==
            Ret(Dispatcher.Route([LegacyPipelineRunHandler(runProject)], data, db, env))
  {
    Dispatcher.EnvelopeDecodedAsIs(data, s, env);
    LegacyPipelineRun.DecodedEnvelopeAgrees(data, s, msg, runProject, env);
    var legacy := [LegacyPipelineRunHandler(runProject)];
    var current := [PipelineRunHandler(runProject)];
    assert Dispatcher.Answers(legacy, data, env) == Dispatcher.Answers(current, msg, env);
    assert HandleEffect(legacy[0], data, db, env) == HandleEffect(current[0], msg, db, env);
    Dispatcher.RouteAgrees(legacy, data, current, msg, db, env);
  }

  /** Where they differ: an envelope that does not decode is refused with
      400 by the current dispatcher, while the older counter's `match`
      raises on it and the older dispatcher answers 500. */
  lemma MalformedEnvelopeDiffers(data: Value, s: string, runProject: string, db: Db, env: Env)
    requires Dispatcher.Enveloped(data, s) && env.decodeWire(s).None?
    ensures Dispatcher.DispatchRun([PipelineRunHandler(runProject)], data, db, env) ==
            Ret(Dispatcher.Outcome(Dispatcher.InvalidFormat, []))
    ensures Dispatcher.Route([LegacyPipelineRunHandler(runProject)], data, db, env) ==
            Dispatcher.Outcome(Dispatcher.ServerError, [])
  {
    Dispatcher.EnvelopeDecodedAsIs(data, s, env);
    LegacyPipelineRun.MalformedEnvelopeRaises(data, s, env);
    var legacy := [LegacyPipelineRunHandler(runProject)];
    assert Dispatcher.Answers(legacy, data, env) == [Raise(Internal)];
  }

  /** An envelope holding the JSON document `null` differs the same way:
      the current dispatcher reads it as a failed decoding and answers 400,
      while the older counter's key test on the loaded `None` raises and the
      older dispatcher answers 500. */
  lemma NullEnvelopeDiffers(data: Value, s: string, runProject: string, db: Db, env: Env)
    requires Dispatcher.Enveloped(data, s) && env.decodeWire(s) == Some(Null)
    ensures Dispatcher.DispatchRun([PipelineRunHandler(runProject)], data, db, env) ==
            Ret(Dispatcher.Outcome(Dispatcher.InvalidFormat, []))
    ensures Dispatcher.Route([LegacyPipelineRunHandler(runProject)], data, db, env) ==
            Dispatcher.Outcome(Dispatcher.ServerError, [])
  {
    Dispatcher.EnvelopeDecodedAsIs(data, s, env);
    LegacyPipelineRun.DecodedEnvelopeAgrees(data, s, Null, runProject, env);
    var legacy := [LegacyPipelineRunHandler(runProject)];
    assert Dispatcher.Answers(legacy, data, env) == [Raise(Internal)];
  }
}
