/** What every handler shares (handlers/base.py and the steps the handler
    families repeat): the outcome of `handle`, the conversions the model takes
    as given, and the reading of the decoded message. */
module HandlerBase {
  import opened Wrappers
  import opened Json
  import opened Metrics
  import opened Warehouse

  /** Conversions and orders the model does not compute:
      `decodeWire` is base64, then UTF-8, then `json.loads` (`None` when any
      of them fails); `parseTimestamp` is `datetime.fromisoformat` after
      `"Z"` becomes `"+00:00"`, in UTC seconds; `repr` is `str()` of a value
      that is not a string; `order` is the order in which a Python set is
      iterated or a grouped query result is returned. */
  datatype Env = Env(
    decodeWire: string -> Option<Value>,
    parseTimestamp: string -> Option<int>,
    repr: Value -> string,
    order: set<Option<string>> -> seq<Option<string>>)

  /** `json.loads(base64.b64decode(v).decode("utf-8"))`: a value that is not
      a string makes `b64decode` raise `TypeError`; a string that is not
      base64, not UTF-8 or not JSON gives `None`, standing for the
      `ValueError` the failing step raises. */
  function Base64Json(encoded: Value, env: Env): (r: Py<Option<Value>>)
    ensures r.Ret? <==> encoded.Str?
    ensures r.Ret? ==> r.value == env.decodeWire(encoded.s)
  {
    if encoded.Str? then Ret(env.decodeWire(encoded.s)) else Raise(Internal)
  }

  /** `run_project_id` receives the metrics; `data_project_id` qualifies
      table names. */
  datatype Projects = Projects(run: string, data: string)

  /** What one `handle` call did: its outcome and the requests it sent. */
  datatype Effect = Effect(outcome: Py<()>, emitted: seq<SinkCall>)

  /** Sends `calls` in order, one `emit_gauge_metric` each: the first request
      that cannot be built raises, and nothing after it is sent. */
  function SendAll(calls: seq<SinkCall>): Effect
  {
    if calls == [] then Effect(Ret(()), [])
    else if !Buildable(calls[0]) then Effect(Raise(Internal), [])
    else var rest := SendAll(calls[1..]); Effect(rest.outcome, [calls[0]] + rest.emitted)
  }

  /** Sending returns exactly when every request can be built, and then sends
      them all; otherwise it raises `Internal` after sending the requests
      before the first one that cannot be built. */
  lemma {:induction false} SendAllDescribe(calls: seq<SinkCall>)
    ensures AllBuildable(calls) ==> SendAll(calls) == Effect(Ret(()), calls)
    ensures !AllBuildable(calls) ==>
              var k := |SendAll(calls).emitted|;
              SendAll(calls).outcome == Raise(Internal) && k < |calls| &&
              SendAll(calls).emitted == calls[..k] && AllBuildable(calls[..k]) && !Buildable(calls[k])
  {
    if calls != [] {
      var tail := calls[1..];
      SendAllDescribe(tail);
      if Buildable(calls[0]) {
        assert AllBuildable(calls) <==> AllBuildable(tail) by {
          forall i | 0 <= i < |tail| ensures tail[i] == calls[i + 1] { }
        }
        if !AllBuildable(calls) {
          var k := |SendAll(tail).emitted|;
          assert [calls[0]] + tail[..k] == calls[..k + 1];
        }
      }
    }
  }

  /** Sending `xs + ys` sends `xs` and, when that returned, then `ys`. */
  lemma {:induction false} SendAllConcat(xs: seq<SinkCall>, ys: seq<SinkCall>)
    ensures SendAll(xs + ys) ==
            if SendAll(xs).outcome.Raise? then SendAll(xs)
            else Effect(SendAll(ys).outcome, xs + SendAll(ys).emitted)
  {
    if xs == [] {
      assert xs + ys == ys;
    } else {
      var rest := xs[1..];
      assert (xs + ys)[0] == xs[0];
      assert (xs + ys)[1..] == rest + ys;
      if Buildable(xs[0]) {
        SendAllConcat(rest, ys);
        assert SendAll(xs + ys) == Effect(SendAll(rest + ys).outcome, [xs[0]] + SendAll(rest + ys).emitted);
        assert SendAll(xs) == Effect(SendAll(rest).outcome, [xs[0]] + SendAll(rest).emitted);
        assert xs == [xs[0]] + rest;
      }
    }
  }

  /** What a handler does that computes `r` and then emits its requests in
      order: a raise while computing sends nothing; otherwise the requests are
      sent up to the first one that cannot be built, which raises
      (`EffectOfPartial`). */
  function EffectOf(r: Py<seq<SinkCall>>): (e: Effect)
    ensures r.Raise? ==> e == Effect(Raise(r.failure), [])
    ensures r.Ret? && AllBuildable(r.value) ==> e == Effect(Ret(()), r.value)
  {
    if r.Ret? then SendAllDescribe(r.value); SendAll(r.value) else Effect(Raise(r.failure), [])
  }

  /** A request that cannot be built stops the sending: the requests before
      it are sent and the handler raises. */
  lemma EffectOfPartial(r: Py<seq<SinkCall>>)
    requires r.Ret? && !AllBuildable(r.value)
    ensures var e := EffectOf(r);
            e.outcome == Raise(Internal) && |e.emitted| < |r.value| &&
            e.emitted == r.value[..|e.emitted|] && !Buildable(r.value[|e.emitted|])
  {
    SendAllDescribe(r.value);
  }

  /** A single request is sent exactly when it can be built. */
  lemma SendOne(c: SinkCall)
    ensures EffectOf(Ret([c])) == if Buildable(c) then Effect(Ret(()), [c]) else Effect(Raise(Internal), [])
  {
    assert [c][0] == c && [c][1..] == [];
  }

  /** A handler that raises after sending a request raised while emitting,
      not while computing. */
  lemma EffectOfLateRaise(r: Py<seq<SinkCall>>)
    ensures EffectOf(r).outcome.Raise? && EffectOf(r).emitted != [] ==> EffectOf(r).outcome == Raise(Internal)
  {
    if r.Ret? && !AllBuildable(r.value) {
      EffectOfPartial(r);
    }
  }

  /** A handler whose requests all have string labels raises, if at all,
      before sending any. */
  lemma EffectOfStringLabels(r: Py<seq<SinkCall>>)
    requires r.Ret? ==> AllBuildable(r.value)
    ensures EffectOf(r).outcome.Raise? ==> EffectOf(r).emitted == []
  {
  }

  /** So does a handler that builds a single request. */
  lemma EffectOfOneRequest(r: Py<seq<SinkCall>>)
    requires r.Ret? ==> |r.value| == 1
    ensures EffectOf(r).outcome.Raise? ==> EffectOf(r).emitted == []
  {
  }

  /** A handler method did what `r` describes: its outcome is that of
      `EffectOf(r)` and the client's requests grew by exactly the requests
      sent. */
  predicate Performs(outcome: Py<()>, before: seq<SinkCall>, after: seq<SinkCall>, r: Py<seq<SinkCall>>)
  {
    outcome == EffectOf(r).outcome && after == before + EffectOf(r).emitted
  }

  const PayloadMissing := "No 'payload' found in event data."
  const PartnerMissing := "Missing required 'partner' variable in payload."

  function NoVariable(name: string): string
  {
    "No variable '" + name + "' found in payload."
  }

  function NotInPayload(name: string): string
  {
    "No '" + name + "' found in payload."
  }

  /** `if not v: raise HandlerBadRequestError(message)`. */
  function Require(v: Value, message: string): (r: Py<Value>)
    ensures r.Ret? <==> Truthy(v)
    ensures r.Ret? ==> r.value == v
    ensures r.Raise? ==> r.failure == BadRequest(message)
  {
    if Truthy(v) then Ret(v) else Raise(BadRequest(message))
  }

  /** `payload = decoded_message.get("payload")` followed by the check that
      it is truthy. */
  function PayloadOf(msg: Value): Py<Value>
  {
    var payload :- Get(msg, "payload");
    Require(payload, PayloadMissing)
  }

  /** `payload.get("variables", {})`. */
  function VariablesOf(payload: Value): Py<Value>
  {
    GetOr(payload, "variables", EmptyObject)
  }

  /** The message reports a completed run of pipeline `uuid`. */
  predicate AnnouncesCompletion(msg: Value, uuid: string)
  {
    msg.Obj? && "payload" in msg.fields && msg.fields["payload"].Obj? &&
    var fields := msg.fields["payload"].fields;
    "pipeline_uuid" in fields && fields["pipeline_uuid"] == Str(uuid) &&
    "status" in fields && fields["status"] == Str("COMPLETED")
  }

  /** The message's payload is a dict whose `variables` entry is a dict. */
  predicate HasVariables(msg: Value)
  {
    msg.Obj? && "payload" in msg.fields && msg.fields["payload"].Obj? &&
    "variables" in msg.fields["payload"].fields && msg.fields["payload"].fields["variables"].Obj?
  }

  /** `variables.get(name)` of such a message. */
  function Variable(msg: Value, name: string): Value
    requires HasVariables(msg)
  {
    Field(msg.fields["payload"].fields["variables"], name)
  }

  /** Variable `name` is a non-empty string naming table `ref` once
      qualified with `project`. */
  predicate NamesTable(msg: Value, name: string, project: string, ref: string)
  {
    HasVariables(msg) && Variable(msg, name).Str? && Variable(msg, name).s != "" &&
    ref == FullTableRef(project, Variable(msg, name).s)
  }

  /** `payload.get("pipeline_uuid") == uuid and payload.get("status") ==
      "COMPLETED"`; the defensive checks of the base handlers negate it. */
  function IsCompletedRun(payload: Value, uuid: string): (r: Py<bool>)
    ensures r.Ret? <==> payload.Obj?
  {
    if payload.Obj? then Ret(ReportsCompletion(payload, uuid)) else Raise(Internal)
  }

  /** The same test on a payload already known to be a dict. */
  predicate ReportsCompletion(payload: Value, uuid: string)
    requires payload.Obj?
  {
    Field(payload, "pipeline_uuid") == Str(uuid) && Field(payload, "status") == Str("COMPLETED")
  }

  /** The `match` of most pipeline handlers: `False` for a falsy payload,
      otherwise the pipeline and status test. */
  function MatchCompleted(msg: Value, uuid: string): (r: Py<bool>)
    ensures r == Ret(true) <==> AnnouncesCompletion(msg, uuid)
  {
    var payload :- Get(msg, "payload");
    if !Truthy(payload) then Ret(false) else IsCompletedRun(payload, uuid)
  }

  /** The `match` of the approval and evaluation handlers, which read the
      payload with `get("payload", {})`: an absent payload does not match, a
      `null` or non-dict payload raises. */
  function MatchCompletedOrEmpty(msg: Value, uuid: string): (r: Py<bool>)
    ensures r == Ret(true) <==> AnnouncesCompletion(msg, uuid)
  {
    var payload :- GetOr(msg, "payload", EmptyObject);
    IsCompletedRun(payload, uuid)
  }

  /** The two styles differ only where the payload is falsy: one answers
      `False`, the other raises unless the payload key is absent or `{}`. */
  lemma MatchStylesOnFalsyPayload(msg: Value, uuid: string)
    requires msg.Obj? && "payload" in msg.fields && !Truthy(msg.fields["payload"])
    ensures MatchCompleted(msg, uuid) == Ret(false)
    ensures MatchCompletedOrEmpty(msg, uuid).Raise? <==> msg.fields["payload"] != EmptyObject
  {
  }

  lemma MatchStylesAgreeOnTruthyPayload(msg: Value, uuid: string)
    requires !(msg.Obj? && "payload" in msg.fields && !Truthy(msg.fields["payload"]))
    ensures MatchCompleted(msg, uuid) == MatchCompletedOrEmpty(msg, uuid)
  {
  }

  /** `decoded_message["source_timestamp"]`, with `"Z"` replaced, parsed by
      `fromisoformat`: a missing key, a non-string and an unparsable string
      all raise. */
  function SourceTimestamp(msg: Value, env: Env): (r: Py<int>)
    ensures r.Ret? <==> msg.Obj? && "source_timestamp" in msg.fields && msg.fields["source_timestamp"].Str? &&
                        env.parseTimestamp(msg.fields["source_timestamp"].s).Some?
  {
    var raw :- Index(msg, "source_timestamp");
    if !raw.Str? then Raise(Internal)
    else match env.parseTimestamp(raw.s)
      case Some(t) => Ret(t)
      case None => Raise(Internal)
  }

  /** `ensure_full_table_ref`: a name without a dot is qualified with the
      data project. */
  function FullTableRef(project: string, table: string): string
  {
    if '.' in table then table else project + "." + table
  }

  /** A qualified reference contains a dot, names the same table when
      qualified again, and is the given name whenever that already has a
      dot. */
  lemma FullTableRefQualifies(project: string, table: string)
    ensures '.' in FullTableRef(project, table)
    ensures FullTableRef(project, FullTableRef(project, table)) == FullTableRef(project, table)
    ensures '.' in table ==> FullTableRef(project, table) == table
    ensures '.' !in table ==> FullTableRef(project, table) == project + "." + table
  {
    if '.' !in table {
      assert (project + "." + table)[|project|] == '.';
    }
  }

  /** A table variable turned into a reference. A variable that is not a
      string raises here: the source fails on it at this point or where it
      first uses the reference. */
  function TableRef(v: Value, project: string): Py<string>
  {
    if v.Str? then Ret(FullTableRef(project, v.s)) else Raise(Internal)
  }

  /** The `partner` label, `str(partner_value)`. */
  function PartnerText(partner: Value, env: Env): Value
  {
    Str(PyStr(partner, env.repr))
  }

  /** `str()` of a nullable key column: `NULL` is rendered as "None". */
  function KeyText(key: Option<string>): string
  {
    if key.Some? then key.value else "None"
  }

  /** `COALESCE(SUM(a), 0)` over a table probed first with `get_table`; a
      missing table counts as zero. */
  function ProbedTotal(db: Db, table: string, a: Amount): (t: real)
    ensures table !in db ==> t == 0.0
    ensures table in db ==> t == Total(db[table], a)
  {
    if table in db then Total(db[table], a) else 0.0
  }

  /** The same query without a probe: a missing table raises `NotFound`,
      which no handler catches there. */
  function QueriedTotal(db: Db, table: string, a: Amount): (r: Py<real>)
    ensures r.Ret? <==> table in db
    ensures r.Ret? ==> r.value == Total(db[table], a)
  {
    if table in db then Ret(Total(db[table], a)) else Raise(Internal)
  }

  /** Every value present in column `a` is non-negative. */
  predicate NonNegative(rows: seq<Row>, a: Amount)
  {
    forall i :: 0 <= i < |rows| && AmountOf(rows[i], a).Some? ==> AmountOf(rows[i], a).value >= 0.0
  }

  lemma {:induction false} TotalNonNegative(rows: seq<Row>, a: Amount)
    requires NonNegative(rows, a)
    ensures Total(rows, a) >= 0.0
    decreases |rows|
  {
    if rows != [] {
      assert NonNegative(rows[1..], a) by {
        forall i | 0 <= i < |rows| - 1 && AmountOf(rows[1..][i], a).Some?
          ensures AmountOf(rows[1..][i], a).value >= 0.0
        {
          assert rows[1..][i] == rows[i + 1];
        }
      }
      TotalNonNegative(rows[1..], a);
    }
  }

  /** No table of the warehouse holds a negative amount in column `a`. */
  predicate NonNegativeDb(db: Db, a: Amount)
  {
    forall t :: t in db ==> NonNegative(db[t], a)
  }

  lemma ProbedTotalNonNegative(db: Db, table: string, a: Amount)
    requires NonNegativeDb(db, a)
    ensures ProbedTotal(db, table, a) >= 0.0
  {
    if table in db {
      TotalNonNegative(db[table], a);
    }
  }

  /** A ratio guarded against a non-positive denominator. */
  function Share(part: real, whole: real): real
  {
    if whole > 0.0 then part / whole else 0.0
  }

  /** A part of a non-negative sum is a share between zero and one. */
  lemma ShareOfSumBounded(part: real, other: real)
    requires part >= 0.0 && other >= 0.0
    ensures 0.0 <= Share(part, part + other) <= 1.0
    ensures part + other > 0.0 && other == 0.0 ==> Share(part, part + other) == 1.0
  {
    var whole := part + other;
    if whole > 0.0 {
      var q := part / whole;
      assert q * whole == part;
      assert part <= whole;
    }
  }
}
