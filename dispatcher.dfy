/** Event decoding and fail-fast dispatch (dispatcher.py): every handler's
    `match` in registration order, then `handle` on the matched ones in that
    order, the first failure deciding the HTTP response. */
module Dispatcher {
  import opened Wrappers
  import opened Json
  import opened Metrics
  import opened Warehouse
  import opened HandlerBase
  import opened Registry

  /** A Flask response, as body and status code. */
  datatype Response = Response(body: string, status: int)

  const InvalidFormat := Response("Bad Request: Invalid message format", 400)
  const ServerError := Response("Internal Server Error", 500)
  const NoContent := Response("", 204)

  /** `decode_message(cloud_event)` on the event's `data`. A truthy envelope
      `message.data` is decoded and returned whatever it holds, except that
      the JSON document `null` loads as Python's `None` and so reads as a
      failed decoding; without envelope data, `data` itself is returned when
      it has both a `payload` and a `source_timestamp` key. `None` means the
      event has neither shape; a raise is an exception that escapes
      `dispatch` (`data` or its `message` not a dict, envelope data that is
      not a string). */
  function DecodeMessage(data: Value, env: Env): (r: Py<Option<Value>>)
    ensures r.Ret? ==> data.Obj?
    ensures r.Ret? && r.value.Some? ==> r.value.value != Null
  {
    var message :- GetOr(data, "message", EmptyObject);
    var encoded :- Get(message, "data");
    if Truthy(encoded) then
      var decoded :- Base64Json(encoded, env);
      if decoded == Some(Null) then Ret(None) else Ret(decoded)
    else if "payload" in data.fields && "source_timestamp" in data.fields then Ret(Some(data))
    else Ret(None)
  }

  /** The envelope of `data` holds the non-empty string `s`. */
  predicate Enveloped(data: Value, s: string)
  {
    data.Obj? && "message" in data.fields && data.fields["message"].Obj? &&
    "data" in data.fields["message"].fields && data.fields["message"].fields["data"] == Str(s) && s != ""
  }

  /** An envelope that decodes is returned as decoded, with no check of its
      keys; one that does not decode, or decodes to `null`, gives `None`,
      even when the event also has the direct shape. */
  lemma EnvelopeDecodedAsIs(data: Value, s: string, env: Env)
    requires Enveloped(data, s)
    ensures DecodeMessage(data, env) == Ret(if env.decodeWire(s) == Some(Null) then None else env.decodeWire(s))
  {
  }

  /** The direct shape: without envelope data, a dict event is returned
      unchanged exactly when it has both keys. */
  lemma DirectShape(data: Value, env: Env)
    requires data.Obj? && ("message" in data.fields ==> data.fields["message"].Obj?)
    requires "message" in data.fields ==> !Truthy(Field(data.fields["message"], "data"))
    ensures DecodeMessage(data, env) ==
            Ret(if "payload" in data.fields && "source_timestamp" in data.fields then Some(data) else None)
  {
  }

  /** `s` is strictly increasing. */
  predicate Increasing(s: seq<nat>)
  {
    forall a, b :: 0 <= a < b < |s| ==> s[a] < s[b]
  }

  /** What each handler's `match` answers, in registration order. */
  function Answers(hs: seq<Handler>, input: Value, env: Env): (answers: seq<Py<bool>>)
    ensures |answers| == |hs|
  {
    seq(|hs|, i requires 0 <= i < |hs| => Registry.Match(hs[i], input, env))
  }

  /** The match loop over the answers: the positions that answered `True`,
      collected in order, or the first raise. */
  function Selected(answers: seq<Py<bool>>): (r: Py<seq<nat>>)
    ensures r.Ret? ==> Increasing(r.value) && forall k :: 0 <= k < |r.value| ==> r.value[k] < |answers|
    decreases |answers|
  {
    if answers == [] then Ret([])
    else
      var earlier :- Selected(answers[..|answers| - 1]);
      var m :- answers[|answers| - 1];
      Ret(if m then earlier + [|answers| - 1] else earlier)
  }

  /** The selected positions are exactly those that answered `True`, and the
      loop raises exactly when some answer is a raise. */
  lemma {:induction false} SelectedDescribe(answers: seq<Py<bool>>)
    ensures Selected(answers).Raise? <==> exists i :: 0 <= i < |answers| && answers[i].Raise?
    ensures Selected(answers).Ret? ==>
              forall i :: 0 <= i < |answers| ==> (i in Selected(answers).value <==> answers[i] == Ret(true))
    decreases |answers|
  {
    if answers != [] {
      var n := |answers| - 1;
      var p := answers[..n];
      SelectedDescribe(p);
      if Selected(p).Raise? {
        var i :| 0 <= i < n && p[i].Raise?;
        assert answers[i] == p[i];
      } else if answers[n].Raise? {
        assert Selected(answers).Raise?;
      } else {
        var e := Selected(p).value;
        var r := if answers[n].value then e + [n] else e;
        assert Selected(answers) == Ret(r);
        forall i | 0 <= i < |answers|
          ensures answers[i].Ret? && (i in r <==> answers[i] == Ret(true))
        {
          if i < n {
            assert answers[i] == p[i];
            assert i in r <==> i in e;
          }
        }
      }
    }
  }

  /** One more answer after a prefix that did not raise: `True` appends its
      position. */
  lemma SelectedStep(answers: seq<Py<bool>>, n: nat)
    requires n < |answers| && Selected(answers[..n]).Ret? && answers[n].Ret?
    ensures Selected(answers[..n + 1]) ==
            Ret(if answers[n].value then Selected(answers[..n]).value + [n] else Selected(answers[..n]).value)
  {
    assert answers[..n + 1][..n] == answers[..n];
  }

  /** A raise is final: answers after it cannot change the outcome. */
  lemma {:induction false} SelectedFailureFinal(answers: seq<Py<bool>>, more: seq<Py<bool>>)
    requires Selected(answers).Raise?
    ensures Selected(answers + more) == Selected(answers)
    decreases |more|
  {
    if more == [] {
      assert answers + more == answers;
    } else {
      var n := |more| - 1;
      SelectedFailureFinal(answers, more[..n]);
      assert (answers + more)[..|answers + more| - 1] == answers + more[..n];
    }
  }

  /** The match phase of `dispatch`. */
  function MatchedIn(hs: seq<Handler>, input: Value, env: Env): (r: Py<seq<nat>>)
    ensures r.Ret? ==> Increasing(r.value) && forall k :: 0 <= k < |r.value| ==> r.value[k] < |hs|
  {
    Selected(Answers(hs, input, env))
  }

  /** The matched handlers are exactly those whose `match` answered `True`,
      listed in registration order, and the phase raises exactly when some
      `match` raises. */
  lemma MatchedDescribe(hs: seq<Handler>, input: Value, env: Env)
    ensures MatchedIn(hs, input, env).Raise? <==> exists i :: 0 <= i < |hs| && Registry.Match(hs[i], input, env).Raise?
    ensures MatchedIn(hs, input, env).Ret? ==>
              Increasing(MatchedIn(hs, input, env).value) &&
              forall i :: 0 <= i < |hs| ==> (i in MatchedIn(hs, input, env).value <==> Registry.Match(hs[i], input, env) == Ret(true))
  {
    var answers := Answers(hs, input, env);
    SelectedDescribe(answers);
    assert forall i :: 0 <= i < |hs| ==> answers[i] == Registry.Match(hs[i], input, env);
  }

  /** What each matched handler's `handle` does, in order. */
  function EffectsAt(hs: seq<Handler>, ms: seq<nat>, input: Value, db: Db, env: Env): (es: seq<Effect>)
    requires forall k :: 0 <= k < |ms| ==> ms[k] < |hs|
    ensures |es| == |ms|
  {
    seq(|ms|, k requires 0 <= k < |ms| => HandleEffect(hs[ms[k]], input, db, env))
  }

  /** The execute loop over those effects: each runs only if every earlier
      one returned, and the first raise ends the loop. */
  function RunInOrder(es: seq<Effect>): Effect
    decreases |es|
  {
    if es == [] then Effect(Ret(()), [])
    else
      var e := RunInOrder(es[..|es| - 1]);
      if e.outcome.Raise? then e
      else Effect(es[|es| - 1].outcome, e.emitted + es[|es| - 1].emitted)
  }

  /** Everything the effects send, one after the other. */
  function AllEmitted(es: seq<Effect>): seq<SinkCall>
  {
    if es == [] then [] else es[0].emitted + AllEmitted(es[1..])
  }

  lemma {:induction false} AllEmittedAppend(es: seq<Effect>, e: Effect)
    ensures AllEmitted(es + [e]) == AllEmitted(es) + e.emitted
    decreases |es|
  {
    if es != [] {
      assert (es + [e])[1..] == es[1..] + [e];
      AllEmittedAppend(es[1..], e);
    }
  }

  /** The loop returns exactly when every effect returns, and then all
      their requests are sent. */
  lemma {:induction false} RunInOrderReturns(es: seq<Effect>)
    ensures RunInOrder(es).outcome.Ret? <==> forall k :: 0 <= k < |es| ==> es[k].outcome.Ret?
    ensures RunInOrder(es).outcome.Ret? ==> RunInOrder(es).emitted == AllEmitted(es)
    decreases |es|
  {
    if es != [] {
      var n := |es| - 1;
      var p := es[..n];
      RunInOrderReturns(p);
      assert forall k :: 0 <= k < n ==> p[k] == es[k];
      if RunInOrder(p).outcome.Ret? {
        assert es == p + [es[n]];
        AllEmittedAppend(p, es[n]);
      }
    }
  }

  /** Effects that all return run to the end, sending all their requests. */
  lemma RunInOrderAllReturn(es: seq<Effect>)
    requires forall j :: 0 <= j < |es| ==> es[j].outcome.Ret?
    ensures RunInOrder(es) == Effect(Ret(()), AllEmitted(es))
  {
    RunInOrderReturns(es);
    var r := RunInOrder(es);
    assert r.outcome == Ret(()) by { var u: () := r.outcome.value; assert u == (); }
  }

  /** When the effects before position `k` return and the one at `k` raises,
      the loop ends as that one, with the requests of it and of the ones
      before it. */
  lemma FirstRaise(es: seq<Effect>, k: nat)
    requires k < |es| && es[k].outcome.Raise?
    requires forall j :: 0 <= j < k ==> es[j].outcome.Ret?
    ensures RunInOrder(es) == Effect(es[k].outcome, AllEmitted(es[..k + 1]))
  {
    var q := es[..k + 1];
    forall j | 0 <= j < k
      ensures q[j].outcome.Ret?
    {
      assert q[j] == es[j];
    }
    LastRaise(q);
    RunInOrderPrefixFinal(es, k + 1);
  }

  /** Effects that return up to a last one that raises. */
  lemma LastRaise(q: seq<Effect>)
    requires |q| > 0 && q[|q| - 1].outcome.Raise?
    requires forall j :: 0 <= j < |q| - 1 ==> q[j].outcome.Ret?
    ensures RunInOrder(q) == Effect(q[|q| - 1].outcome, AllEmitted(q))
  {
    var n := |q| - 1;
    var p := q[..n];
    forall j | 0 <= j < n
      ensures p[j].outcome.Ret?
    {
      assert p[j] == q[j];
    }
    RunInOrderAllReturn(p);
    assert q == p + [q[n]];
    AllEmittedAppend(p, q[n]);
  }

  /** Otherwise the loop ends as the first effect that raised, with the
      requests of that one and of the ones before it, and nothing from the
      ones after. */
  lemma {:induction false} RunInOrderRaises(es: seq<Effect>)
    requires RunInOrder(es).outcome.Raise?
    ensures exists k :: 0 <= k < |es| && es[k].outcome.Raise? &&
                        (forall j :: 0 <= j < k ==> es[j].outcome.Ret?) &&
                        RunInOrder(es).outcome == es[k].outcome && RunInOrder(es).emitted == AllEmitted(es[..k + 1])
  {
    var k := FirstRaiseIndex(es);
    FirstRaise(es, k);
  }

  /** A raising loop has a first effect that raised. */
  lemma {:induction false} FirstRaiseIndex(es: seq<Effect>) returns (k: nat)
    requires RunInOrder(es).outcome.Raise?
    ensures k < |es| && es[k].outcome.Raise? && forall j :: 0 <= j < k ==> es[j].outcome.Ret?
    decreases |es|
  {
    var n := |es| - 1;
    var p := es[..n];
    if RunInOrder(p).outcome.Raise? {
      k := FirstRaiseIndex(p);
      assert forall j :: 0 <= j <= k ==> p[j] == es[j];
    } else {
      RunInOrderReturns(p);
      assert forall j :: 0 <= j < n ==> p[j] == es[j];
      k := n;
    }
  }

  /** Once a handler has raised, the handlers after it do not run. */
  lemma {:induction false} RunInOrderFailureFinal(es: seq<Effect>, more: seq<Effect>)
    requires RunInOrder(es).outcome.Raise?
    ensures RunInOrder(es + more) == RunInOrder(es)
    decreases |more|
  {
    if more == [] {
      assert es + more == es;
    } else {
      var n := |more| - 1;
      RunInOrderFailureFinal(es, more[..n]);
      assert (es + more)[..|es + more| - 1] == es + more[..n];
    }
  }

  /** The execute phase of `dispatch` over the matched positions `ms`. */
  function Execute(hs: seq<Handler>, ms: seq<nat>, input: Value, db: Db, env: Env): (e: Effect)
    requires forall k :: 0 <= k < |ms| ==> ms[k] < |hs|
    ensures ms == [] ==> e == Effect(Ret(()), [])
    ensures e.outcome.Raise? ==> exists k :: 0 <= k < |ms| && HandleEffect(hs[ms[k]], input, db, env).outcome == e.outcome
  {
    var es := EffectsAt(hs, ms, input, db, env);
    if RunInOrder(es).outcome.Raise? then
      RunInOrderRaises(es);
      RunInOrder(es)
    else
      RunInOrder(es)
  }

  /** The response for how the handlers ended: 204 when all returned, the
      message with 400 for a `HandlerBadRequestError`, 500 for any other
      exception. */
  function ResponseOf(outcome: Py<()>): (r: Response)
    ensures r.status == 204 <==> outcome.Ret?
    ensures r.status == 400 <==> outcome.Raise? && outcome.failure.BadRequest?
    ensures outcome.Raise? && outcome.failure.BadRequest? ==> r.body == outcome.failure.message
  {
    match outcome
    case Ret(_) => NoContent
    case Raise(BadRequest(message)) => Response(message, 400)
    case Raise(Internal) => ServerError
  }

  /** A response and the requests sent on the way to it. */
  datatype Outcome = Outcome(response: Response, emitted: seq<SinkCall>)

  /** The two phases on one input, shared by both dispatchers. */
  function Route(hs: seq<Handler>, input: Value, db: Db, env: Env): (o: Outcome)
    ensures o.response.status in {204, 400, 500}
    ensures o.emitted != [] ==> MatchedIn(hs, input, env).Ret? && MatchedIn(hs, input, env).value != []
  {
    match MatchedIn(hs, input, env)
    case Raise(_) => Outcome(ServerError, [])
    case Ret(ms) =>
      if ms == [] then Outcome(NoContent, [])
      else
        var e := Execute(hs, ms, input, db, env);
        Outcome(ResponseOf(e.outcome), e.emitted)
  }

  /** `HandlerDispatcher.dispatch`: a raise is an exception that escapes it. */
  function DispatchRun(hs: seq<Handler>, data: Value, db: Db, env: Env): (r: Py<Outcome>)
    ensures r.Raise? <==> DecodeMessage(data, env).Raise?
    ensures r.Ret? && r.value.emitted != [] ==> DecodeMessage(data, env).Ret? && DecodeMessage(data, env).value.Some?
  {
    var decoded :- DecodeMessage(data, env);
    match decoded
    case None => Ret(Outcome(InvalidFormat, []))
    case Some(msg) => Ret(Route(hs, msg, db, env))
  }

  /** The first loop of `dispatch`: `match` on every handler in order,
      stopping at the first that raises. */
  method MatchPhase(hs: seq<Handler>, input: Value, env: Env) returns (r: Py<seq<nat>>)
    ensures r == MatchedIn(hs, input, env)
  {
    ghost var answers := Answers(hs, input, env);
    var matched: seq<nat> := [];
    for i := 0 to |hs|
      invariant Selected(answers[..i]) == Ret(matched)
    {
      var m := Registry.Match(hs[i], input, env);
      assert answers[i] == m;
      if m.Raise? {
        assert Selected(answers[..i + 1]) == Raise(m.failure) by {
          assert answers[..i + 1][..i] == answers[..i];
        }
        assert answers == answers[..i + 1] + answers[i + 1..];
        SelectedFailureFinal(answers[..i + 1], answers[i + 1..]);
        return Raise(m.failure);
      }
      SelectedStep(answers, i);
      if m.value {
        matched := matched + [i];
      }
    }
    assert answers[..|hs|] == answers;
    return Ret(matched);
  }

  /** One more effect: it runs only if every earlier one returned. */
  lemma RunInOrderStep(es: seq<Effect>, k: nat)
    requires k < |es|
    ensures var e := RunInOrder(es[..k]);
            RunInOrder(es[..k + 1]) == if e.outcome.Raise? then e else Effect(es[k].outcome, e.emitted + es[k].emitted)
  {
    assert es[..k + 1][..k] == es[..k];
  }

  /** A raise among the first `n` effects decides the whole run. */
  lemma RunInOrderPrefixFinal(es: seq<Effect>, n: nat)
    requires n <= |es| && RunInOrder(es[..n]).outcome.Raise?
    ensures RunInOrder(es) == RunInOrder(es[..n])
  {
    assert es == es[..n] + es[n..];
    RunInOrderFailureFinal(es[..n], es[n..]);
  }

  /** `es` lists the effects of the handlers at the positions `ms`. The
      quantifier is instantiated only where a handler's effect is named. */
  predicate Realizes(hs: seq<Handler>, ms: seq<nat>, input: Value, db: Db, env: Env, es: seq<Effect>)
    requires forall k :: 0 <= k < |ms| ==> ms[k] < |hs|
  {
    |es| == |ms| &&
    forall k {:trigger HandleEffect(hs[ms[k]], input, db, env)} ::
      0 <= k < |ms| ==> es[k] == HandleEffect(hs[ms[k]], input, db, env)
  }

  lemma EffectsAtRealizes(hs: seq<Handler>, ms: seq<nat>, input: Value, db: Db, env: Env)
    requires forall k :: 0 <= k < |ms| ==> ms[k] < |hs|
    ensures Realizes(hs, ms, input, db, env, EffectsAt(hs, ms, input, db, env))
  {
  }

  /** `handle` on the handler at matched position `k`: it ends and sends as
      the `k`-th effect says. */
  method HandleAt(hs: seq<Handler>, ms: seq<nat>, k: nat, input: Value, db: Db, env: Env,
                  client: MonitoringClient, ghost es: seq<Effect>)
    returns (outcome: Py<()>)
    requires forall j :: 0 <= j < |ms| ==> ms[j] < |hs|
    requires Realizes(hs, ms, input, db, env, es) && k < |ms|
    modifies client
    ensures outcome == es[k].outcome && client.calls == old(client.calls) + es[k].emitted
  {
    outcome := Registry.Handle(hs[ms[k]], input, db, env, client);
  }

  /** The second loop: `handle` on every matched handler in order, stopping
      at the first that raises. */
  method RunHandlers(hs: seq<Handler>, ms: seq<nat>, input: Value, db: Db, env: Env,
                     client: MonitoringClient, ghost es: seq<Effect>)
    returns (outcome: Py<()>)
    requires forall k :: 0 <= k < |ms| ==> ms[k] < |hs|
    requires Realizes(hs, ms, input, db, env, es)
    modifies client
    ensures outcome == RunInOrder(es).outcome
    ensures client.calls == old(client.calls) + RunInOrder(es).emitted
  {
    outcome := Ret(());
    ghost var done := Effect(Ret(()), []);
    for k := 0 to |ms|
      invariant done == RunInOrder(es[..k]) && outcome == done.outcome && outcome.Ret?
      invariant client.calls == old(client.calls) + done.emitted
    {
      RunInOrderStep(es, k);
      ghost var before := client.calls;
      outcome := HandleAt(hs, ms, k, input, db, env, client, es);
      done := Effect(es[k].outcome, done.emitted + es[k].emitted);
      assert client.calls == before + es[k].emitted;
      assert client.calls == old(client.calls) + done.emitted;
      if outcome.Raise? {
        RunInOrderPrefixFinal(es, k + 1);
        return;
      }
    }
    assert es[..|ms|] == es;
  }

  /** The execute phase over the matched positions `ms`. */
  method ExecutePhase(hs: seq<Handler>, ms: seq<nat>, input: Value, db: Db, env: Env, client: MonitoringClient)
    returns (outcome: Py<()>)
    requires forall k :: 0 <= k < |ms| ==> ms[k] < |hs|
    modifies client
    ensures outcome == Execute(hs, ms, input, db, env).outcome
    ensures client.calls == old(client.calls) + Execute(hs, ms, input, db, env).emitted
  {
    EffectsAtRealizes(hs, ms, input, db, env);
    outcome := RunHandlers(hs, ms, input, db, env, client, EffectsAt(hs, ms, input, db, env));
  }

  /** Runs both phases: the response and the requests are those of `Route`. */
  method MatchAndExecute(hs: seq<Handler>, input: Value, db: Db, env: Env, client: MonitoringClient)
    returns (response: Response)
    modifies client
    ensures response == Route(hs, input, db, env).response
    ensures client.calls == old(client.calls) + Route(hs, input, db, env).emitted
  {
    var matched := MatchPhase(hs, input, env);
    if matched.Raise? {
      return ServerError;
    }
    if matched.value == [] {
      return NoContent;
    }
    var outcome := ExecutePhase(hs, matched.value, input, db, env, client);
    match outcome
    case Ret(_) =>
      return NoContent;
    case Raise(BadRequest(message)) =>
      return Response(message, 400);
    case Raise(Internal) =>
      return ServerError;
  }

  class HandlerDispatcher {
    var handlers: seq<Handler>

    constructor (handlers: seq<Handler>)
      ensures this.handlers == handlers
    {
      this.handlers := handlers;
    }

    method Dispatch(data: Value, db: Db, env: Env, client: MonitoringClient) returns (r: Py<Response>)
      modifies client
      ensures DispatchRun(handlers, data, db, env).Ret? ==>
                r == Ret(DispatchRun(handlers, data, db, env).value.response) &&
                client.calls == old(client.calls) + DispatchRun(handlers, data, db, env).value.emitted
      ensures DispatchRun(handlers, data, db, env).Raise? ==>
                r.Raise? && client.calls == old(client.calls)
    {
      var decoded :- DecodeMessage(data, env);
      if decoded.None? {
        return Ret(InvalidFormat);
      }
      var response := MatchAndExecute(handlers, decoded.value, db, env, client);
      return Ret(response);
    }
  }

  /** An event of neither shape, or whose envelope does not decode to a
      JSON value other than `null`, is refused with 400 before any handler
      is asked. */
  lemma UndecodableRefused(hs: seq<Handler>, data: Value, db: Db, env: Env)
    requires DecodeMessage(data, env) == Ret(None)
    ensures DispatchRun(hs, data, db, env) == Ret(Outcome(InvalidFormat, []))
  {
  }

  /** What the two phases decide: a raising `match` gives 500 before any
      `handle`; no match gives 204 with nothing sent; otherwise the response is
      204 exactly when every matched handler returned, and then every
      matched handler's requests are sent. */
  lemma RouteDescribe(hs: seq<Handler>, input: Value, db: Db, env: Env)
    ensures var o := Route(hs, input, db, env);
            var m := MatchedIn(hs, input, env);
            (m.Raise? ==> o == Outcome(ServerError, [])) &&
            (m == Ret([]) ==> o == Outcome(NoContent, [])) &&
            (m.Ret? ==>
               (o.response.status == 204 <==>
                  forall k :: 0 <= k < |m.value| ==> EffectsAt(hs, m.value, input, db, env)[k].outcome.Ret?) &&
               (o.response.status == 204 ==> o.emitted == AllEmitted(EffectsAt(hs, m.value, input, db, env))))
  {
    var m := MatchedIn(hs, input, env);
    if m.Ret? {
      RunInOrderReturns(EffectsAt(hs, m.value, input, db, env));
    }
  }

  /** The two phases depend on the handlers only through what their `match`
      answers and what their `handle` does: handler lists that agree on both
      are routed alike. */
  lemma RouteAgrees(hs1: seq<Handler>, in1: Value, hs2: seq<Handler>, in2: Value, db: Db, env: Env)
    requires |hs1| == |hs2| && Answers(hs1, in1, env) == Answers(hs2, in2, env)
    requires forall i :: 0 <= i < |hs1| ==> HandleEffect(hs1[i], in1, db, env) == HandleEffect(hs2[i], in2, db, env)
    ensures Route(hs1, in1, db, env) == Route(hs2, in2, db, env)
  {
    var m := MatchedIn(hs1, in1, env);
    if m.Ret? {
      var ms := m.value;
      var e1 := EffectsAt(hs1, ms, in1, db, env);
      var e2 := EffectsAt(hs2, ms, in2, db, env);
      forall k | 0 <= k < |ms|
        ensures e1[k] == e2[k]
      {
        assert ms[k] < |hs1|;
      }
      assert e1 == e2;
    }
  }

  /** A bad request from a matched handler reaches the caller as a 400 with
      that handler's message, with the requests of the handlers before it,
      provided every one of them returned. */
  lemma BadRequestReported(hs: seq<Handler>, input: Value, db: Db, env: Env, k: nat, message: string)
    requires MatchedIn(hs, input, env).Ret? && k < |MatchedIn(hs, input, env).value|
    requires var ms := MatchedIn(hs, input, env).value;
             (forall j :: 0 <= j < k ==> HandleEffect(hs[ms[j]], input, db, env).outcome.Ret?) &&
             HandleEffect(hs[ms[k]], input, db, env).outcome == Raise(BadRequest(message))
    ensures var ms := MatchedIn(hs, input, env).value;
            Route(hs, input, db, env) == Outcome(Response(message, 400), AllEmitted(EffectsAt(hs, ms, input, db, env)[..k + 1]))
  {
    var ms := MatchedIn(hs, input, env).value;
    FirstRaise(EffectsAt(hs, ms, input, db, env), k);
  }
}
