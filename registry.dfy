/** The handlers a dispatcher can hold (handlers/base.py's `Handler`
    contract: a `match` predicate and a `handle` action), one constructor per
    concrete handler class, each with the project ids it is built with. */
module Registry {
  import opened Wrappers
  import opened Json
  import opened Metrics
  import opened Warehouse
  import opened HandlerBase
  import PipelineRun
  import LegacyPipelineRun
  import Processable
  import PreFiltered
  import PostFiltered
  import Savings
  import SelectedSavings
  import NewBeneficiaries
  import VolumeRatio
  import UnsentClaims
  import UnsentSavings
  import ExpiredValidation

  /** A registered handler. `OpaqueHandler` stands for a handler class whose
      source is not part of this model: it is known only by what its `match`
      answers and by what its `handle` sends and how it ends, which may be
      after some requests have been sent. */
  datatype Handler =
    | PipelineRunHandler(runProject: string)
    | LegacyPipelineRunHandler(runProject: string)
    | ProcessableApprovalHandler(projects: Projects)
    | ProcessableWranglingHandler(projects: Projects)
    | PreFilteredApprovalHandler(projects: Projects)
    | PreFilteredWranglingHandler(projects: Projects)
    | PostFilteredSelectionHandler(projects: Projects)
    | SavingsEvaluationHandler(projects: Projects)
    | SelectedSavingsApprovalHandler(projects: Projects)
    | NewBeneficiariesApprovalHandler(projects: Projects)
    | ProvidersVolumeRatioWranglingHandler(projects: Projects)
    | UnsentClaimsHandler(projects: Projects)
    | UnsentSavingsHandler(projects: Projects)
    | ExpiredValidationClaimsHandler(projects: Projects)
    | OpaqueHandler(className: string, matches: Value -> Py<bool>, effect: (Value, Db) -> Effect)

  /** `handler.match(input)`; `input` is the decoded message, or the raw event
      data for the handler written against the older dispatcher. */
  function Match(h: Handler, input: Value, env: Env): (r: Py<bool>)
    ensures r == Ret(true) && !h.OpaqueHandler? ==> input.Obj?
    ensures r == Ret(true) && !h.OpaqueHandler? && !h.LegacyPipelineRunHandler? ==> "payload" in input.fields
  {
    match h
    case PipelineRunHandler(_) => PipelineRun.Match(input)
    case LegacyPipelineRunHandler(_) => LegacyPipelineRun.Match(input, env)
    case ProcessableApprovalHandler(_) => Processable.ApprovalMatch(input)
    case ProcessableWranglingHandler(_) => Processable.WranglingMatch(input)
    case PreFilteredApprovalHandler(_) => PreFiltered.ApprovalMatch(input)
    case PreFilteredWranglingHandler(_) => PreFiltered.WranglingMatch(input)
    case PostFilteredSelectionHandler(_) => PostFiltered.SelectionMatch(input)
    case SavingsEvaluationHandler(_) => Savings.EvaluationMatch(input)
    case SelectedSavingsApprovalHandler(_) => SelectedSavings.ApprovalMatch(input)
    case NewBeneficiariesApprovalHandler(_) => NewBeneficiaries.ApprovalMatch(input)
    case ProvidersVolumeRatioWranglingHandler(_) => VolumeRatio.ProvidersWranglingMatch(input)
    case UnsentClaimsHandler(_) => UnsentClaims.Match(input)
    case UnsentSavingsHandler(_) => UnsentSavings.Match(input)
    case ExpiredValidationClaimsHandler(_) => ExpiredValidation.Match(input)
    case OpaqueHandler(_, matches, _) => matches(input)
  }

  /** What `handler.handle(input)` does, against warehouse `db`. */
  function HandleEffect(h: Handler, input: Value, db: Db, env: Env): (e: Effect)
    ensures !h.OpaqueHandler? && e.outcome.Raise? && e.emitted != [] ==> e.outcome == Raise(Internal)
  {
    match h
    case PipelineRunHandler(run) =>
      var r := PipelineRun.PipelineRunRun(input, run, env);
      EffectOfLateRaise(r);
      EffectOf(r)
    case LegacyPipelineRunHandler(run) =>
      var r := LegacyPipelineRun.LegacyRun(input, run, env);
      EffectOfLateRaise(r);
      EffectOf(r)
    case ProcessableApprovalHandler(p) =>
      var r := Processable.ProcessableRun(input, Processable.Approval, p, db, env);
      EffectOfLateRaise(r);
      EffectOf(r)
    case ProcessableWranglingHandler(p) =>
      var r := Processable.ProcessableRun(input, Processable.Wrangling, p, db, env);
      EffectOfLateRaise(r);
      EffectOf(r)
    case PreFilteredApprovalHandler(p) =>
      var r := PreFiltered.ApprovalRun(input, p, db, env);
      EffectOfLateRaise(r);
      EffectOf(r)
    case PreFilteredWranglingHandler(p) =>
      var r := PreFiltered.PreFilteredRun(input, PreFiltered.Wrangling, p, db, env);
      EffectOfLateRaise(r);
      EffectOf(r)
    case PostFilteredSelectionHandler(p) =>
      var r := PostFiltered.PostFilteredRun(input, PostFiltered.Selection, p, db, env);
      EffectOfLateRaise(r);
      EffectOf(r)
    case SavingsEvaluationHandler(p) =>
      var r := Savings.SavingsRun(input, Savings.Evaluation, p, db, env);
      EffectOfLateRaise(r);
      EffectOf(r)
    case SelectedSavingsApprovalHandler(p) =>
      var r := SelectedSavings.ApprovalRun(input, p, db, env);
      EffectOfLateRaise(r);
      EffectOf(r)
    case NewBeneficiariesApprovalHandler(p) =>
      var r := NewBeneficiaries.NewBeneficiariesRun(input, NewBeneficiaries.Approval, p, db, env);
      EffectOfLateRaise(r);
      EffectOf(r)
    case ProvidersVolumeRatioWranglingHandler(p) =>
      var r := VolumeRatio.VolumeRatioRun(input, VolumeRatio.ProvidersWrangling, p, db, env);
      EffectOfLateRaise(r);
      EffectOf(r)
    case UnsentClaimsHandler(p) =>
      var r := UnsentClaims.UnsentClaimsRun(input, p, db, env);
      EffectOfLateRaise(r);
      EffectOf(r)
    case UnsentSavingsHandler(p) =>
      var r := UnsentSavings.UnsentSavingsRun(input, p, db, env);
      EffectOfLateRaise(r);
      EffectOf(r)
    case ExpiredValidationClaimsHandler(p) =>
      var r := ExpiredValidation.ExpiredValidationRun(input, p, db, env);
      EffectOfLateRaise(r);
      EffectOf(r)
    case OpaqueHandler(_, _, effect) => effect(input, db)
  }

  /** The run counters. */
  predicate IsRunCounter(h: Handler)
  {
    h.PipelineRunHandler? || h.LegacyPipelineRunHandler?
  }

  /** The handlers that report a share of two warehouse totals. */
  predicate IsShareHandler(h: Handler)
  {
    h.ProcessableApprovalHandler? || h.ProcessableWranglingHandler? || h.PreFilteredApprovalHandler? ||
    h.PreFilteredWranglingHandler? || h.PostFilteredSelectionHandler? || h.SavingsEvaluationHandler? ||
    h.SelectedSavingsApprovalHandler?
  }

  /** Runs `handler.handle(input)`: the client receives exactly the requests
      of `HandleEffect`, and the call ends as it says. */
  method Handle(h: Handler, input: Value, db: Db, env: Env, client: MonitoringClient) returns (outcome: Py<()>)
    modifies client
    ensures outcome == HandleEffect(h, input, db, env).outcome
    ensures client.calls == old(client.calls) + HandleEffect(h, input, db, env).emitted
  {
    if IsRunCounter(h) {
      outcome := HandleRunCounter(h, input, db, env, client);
    } else if IsShareHandler(h) {
      outcome := HandleShare(h, input, db, env, client);
    } else if h.OpaqueHandler? {
      var e := h.effect(input, db);
      for i := 0 to |e.emitted|
        invariant client.calls == old(client.calls) + e.emitted[..i]
      {
        client.CreateTimeSeries(e.emitted[i].name, e.emitted[i].timeSeries);
        assert e.emitted[..i + 1] == e.emitted[..i] + [e.emitted[i]];
      }
      assert e.emitted[..|e.emitted|] == e.emitted;
      outcome := e.outcome;
    } else {
      outcome := HandleWindowed(h, input, db, env, client);
    }
  }

  method HandleRunCounter(h: Handler, input: Value, db: Db, env: Env, client: MonitoringClient) returns (outcome: Py<()>)
    requires IsRunCounter(h)
    modifies client
    ensures outcome == HandleEffect(h, input, db, env).outcome
    ensures client.calls == old(client.calls) + HandleEffect(h, input, db, env).emitted
  {
    match h
    case PipelineRunHandler(run) =>
      outcome := PipelineRun.Handle(input, run, env, client);
    case LegacyPipelineRunHandler(run) =>
      outcome := LegacyPipelineRun.Handle(input, run, env, client);
  }

  method HandleShare(h: Handler, input: Value, db: Db, env: Env, client: MonitoringClient) returns (outcome: Py<()>)
    requires IsShareHandler(h)
    modifies client
    ensures outcome == HandleEffect(h, input, db, env).outcome
    ensures client.calls == old(client.calls) + HandleEffect(h, input, db, env).emitted
  {
    match h
    case ProcessableApprovalHandler(p) =>
      outcome := Processable.ApprovalHandle(input, p, db, env, client);
    case ProcessableWranglingHandler(p) =>
      outcome := Processable.WranglingHandle(input, p, db, env, client);
    case PreFilteredApprovalHandler(p) =>
      outcome := PreFiltered.ApprovalHandle(input, p, db, env, client);
    case PreFilteredWranglingHandler(p) =>
      outcome := PreFiltered.WranglingHandle(input, p, db, env, client);
    case PostFilteredSelectionHandler(p) =>
      outcome := PostFiltered.SelectionHandle(input, p, db, env, client);
    case SavingsEvaluationHandler(p) =>
      outcome := Savings.EvaluationHandle(input, p, db, env, client);
    case SelectedSavingsApprovalHandler(p) =>
      outcome := SelectedSavings.ApprovalHandle(input, p, db, env, client);
  }

  /** The handlers over a window of the warehouse's history. */
  method HandleWindowed(h: Handler, input: Value, db: Db, env: Env, client: MonitoringClient) returns (outcome: Py<()>)
    requires !IsRunCounter(h) && !IsShareHandler(h) && !h.OpaqueHandler?
    modifies client
    ensures outcome == HandleEffect(h, input, db, env).outcome
    ensures client.calls == old(client.calls) + HandleEffect(h, input, db, env).emitted
  {
    match h
    case NewBeneficiariesApprovalHandler(p) =>
      outcome := NewBeneficiaries.ApprovalHandle(input, p, db, env, client);
    case ProvidersVolumeRatioWranglingHandler(p) =>
      outcome := VolumeRatio.ProvidersWranglingHandle(input, p, db, env, client);
    case UnsentClaimsHandler(p) =>
      outcome := UnsentClaims.Handle(input, p, db, env, client);
    case UnsentSavingsHandler(p) =>
      outcome := UnsentSavings.Handle(input, p, db, env, client);
    case ExpiredValidationClaimsHandler(p) =>
      outcome := ExpiredValidation.Handle(input, p, db, env, client);
  }

  /** The pipeline whose completion a handler reacts to; the run counters and
      the opaque handlers have none. */
  function PipelineOf(h: Handler): Option<string>
  {
    match h
    case ProcessableApprovalHandler(_) => Some("pipesv2_approval")
    case PreFilteredApprovalHandler(_) => Some("pipesv2_approval")
    case SelectedSavingsApprovalHandler(_) => Some("pipesv2_approval")
    case NewBeneficiariesApprovalHandler(_) => Some("pipesv2_approval")
    case ProcessableWranglingHandler(_) => Some("pipesv2_wrangling")
    case PreFilteredWranglingHandler(_) => Some("pipesv2_wrangling")
    case ProvidersVolumeRatioWranglingHandler(_) => Some("pipesv2_wrangling")
    case PostFilteredSelectionHandler(_) => Some("pipesv2_selection")
    case SavingsEvaluationHandler(_) => Some("pipesv2_evaluation")
    case UnsentClaimsHandler(_) => Some("pipesv2_submission")
    case UnsentSavingsHandler(_) => Some("pipesv2_submission")
    case ExpiredValidationClaimsHandler(_) => Some("pipesv2_release")
    case _ => None
  }

  /** Every metric handler matches exactly the completed runs of its own
      pipeline. */
  lemma MatchesItsPipeline(h: Handler, msg: Value, env: Env)
    requires PipelineOf(h).Some?
    ensures Match(h, msg, env) == Ret(true) <==> AnnouncesCompletion(msg, PipelineOf(h).value)
  {
  }

  /** A handler whose source is modelled and that raises after sending a
      request has raised `Internal`, a label that is not a string, and it is
      one of the two submission handlers, whose labels carry the partner as
      given and a status that may be `NULL`; every other one raises, if at
      all, before its first request. */
  lemma ConcreteHandlersFailCleanly(h: Handler, input: Value, db: Db, env: Env)
    requires !h.OpaqueHandler?
    ensures var e := HandleEffect(h, input, db, env);
            e.outcome.Raise? && e.emitted != [] ==>
              e.outcome == Raise(Internal) && (h.UnsentClaimsHandler? || h.UnsentSavingsHandler?)
  {
    if IsRunCounter(h) {
      RunCountersFailCleanly(h, input, db, env);
    } else if IsShareHandler(h) {
      ShareHandlersFailCleanly(h, input, db, env);
    } else {
      WindowedHandlersFailCleanly(h, input, db, env);
    }
  }

  /** A run counter builds one request, so it raises, if at all, before
      sending anything. */
  lemma RunCountersFailCleanly(h: Handler, input: Value, db: Db, env: Env)
    requires IsRunCounter(h)
    ensures HandleEffect(h, input, db, env).outcome.Raise? ==> HandleEffect(h, input, db, env).emitted == []
  {
    match h
    case PipelineRunHandler(run) =>
      EffectOfOneRequest(PipelineRun.PipelineRunRun(input, run, env));
    case LegacyPipelineRunHandler(run) =>
      EffectOfOneRequest(LegacyPipelineRun.LegacyRun(input, run, env));
  }

  /** The share handlers convert every label to a string, so they raise, if
      at all, before sending anything. */
  lemma ShareHandlersFailCleanly(h: Handler, input: Value, db: Db, env: Env)
    requires IsShareHandler(h)
    ensures HandleEffect(h, input, db, env).outcome.Raise? ==> HandleEffect(h, input, db, env).emitted == []
  {
    match h
    case ProcessableApprovalHandler(p) =>
      EffectOfStringLabels(Processable.ProcessableRun(input, Processable.Approval, p, db, env));
    case ProcessableWranglingHandler(p) =>
      EffectOfStringLabels(Processable.ProcessableRun(input, Processable.Wrangling, p, db, env));
    case PreFilteredApprovalHandler(p) =>
      EffectOfStringLabels(PreFiltered.ApprovalRun(input, p, db, env));
    case PreFilteredWranglingHandler(p) =>
      EffectOfStringLabels(PreFiltered.PreFilteredRun(input, PreFiltered.Wrangling, p, db, env));
    case PostFilteredSelectionHandler(p) =>
      EffectOfStringLabels(PostFiltered.PostFilteredRun(input, PostFiltered.Selection, p, db, env));
    case SavingsEvaluationHandler(p) =>
      EffectOfStringLabels(Savings.SavingsRun(input, Savings.Evaluation, p, db, env));
    case SelectedSavingsApprovalHandler(p) =>
      EffectOfStringLabels(SelectedSavings.ApprovalRun(input, p, db, env));
  }

  /** Of the windowed handlers, only the two submission handlers can raise
      after sending a request. */
  lemma WindowedHandlersFailCleanly(h: Handler, input: Value, db: Db, env: Env)
    requires !IsRunCounter(h) && !IsShareHandler(h) && !h.OpaqueHandler?
    ensures var e := HandleEffect(h, input, db, env);
            e.outcome.Raise? && e.emitted != [] ==>
              e.outcome == Raise(Internal) && (h.UnsentClaimsHandler? || h.UnsentSavingsHandler?)
  {
    match h
    case NewBeneficiariesApprovalHandler(p) =>
      EffectOfStringLabels(NewBeneficiaries.NewBeneficiariesRun(input, NewBeneficiaries.Approval, p, db, env));
    case ProvidersVolumeRatioWranglingHandler(p) =>
      EffectOfStringLabels(VolumeRatio.VolumeRatioRun(input, VolumeRatio.ProvidersWrangling, p, db, env));
    case UnsentClaimsHandler(p) =>
      EffectOfLateRaise(UnsentClaims.UnsentClaimsRun(input, p, db, env));
    case UnsentSavingsHandler(p) =>
      EffectOfLateRaise(UnsentSavings.UnsentSavingsRun(input, p, db, env));
    case ExpiredValidationClaimsHandler(p) =>
      EffectOfOneRequest(ExpiredValidation.ExpiredValidationRun(input, p, db, env));
  }

  /** A completion of one pipeline never triggers a metric handler of
      another. */
  lemma OtherPipelinesIgnored(h: Handler, msg: Value, uuid: string, env: Env)
    requires PipelineOf(h).Some? && PipelineOf(h).value != uuid
    requires AnnouncesCompletion(msg, uuid)
    ensures Match(h, msg, env) == Ret(false)
  {
    MatchesItsPipeline(h, msg, env);
    assert Match(h, msg, env) != Ret(true);
    MatchOnObjectAnswers(h, msg, env);
  }

  /** On a dict message whose payload is a dict, the metric handlers' `match`
      answers rather than raises. */
  lemma MatchOnObjectAnswers(h: Handler, msg: Value, env: Env)
    requires PipelineOf(h).Some?
    requires msg.Obj? && "payload" in msg.fields && msg.fields["payload"].Obj?
    ensures Match(h, msg, env).Ret?
  {
  }
}
