/** The Cloud Run entry point (main.py): the handler registry, the dispatcher
    built on the first event of each worker, and the catch-all 500 around
    dispatch. */
module Service {
  import opened Wrappers
  import opened Json
  import opened Metrics
  import opened Warehouse
  import opened HandlerBase
  import opened Registry
  import Dispatcher
  import PipelineRun

  /** The settings the entry point reads from the environment. */
  datatype Settings = Settings(cloudRunProject: string, bigqueryProject: string)

  /** The projects every warehouse handler is built with. */
  function ProjectsOf(settings: Settings): Projects
  {
    Projects(settings.cloudRunProject, settings.bigqueryProject)
  }

  /** `create_handlers`: the registry in its fixed order. The post-filtered
      approval and savings approval handlers are registered classes whose
      source is not part of this model; they are passed in. */
  function CreateHandlers(settings: Settings, postFilteredApproval: Handler, savingsApproval: Handler): (hs: seq<Handler>)
    ensures |hs| == 8 && hs[4] == postFilteredApproval && hs[7] == savingsApproval
    ensures hs[0] == PipelineRunHandler(settings.cloudRunProject)
    ensures forall i :: 1 <= i < |hs| && i != 4 && i != 7 ==>
              Registry.PipelineOf(hs[i]).Some? && hs[i].projects == ProjectsOf(settings)
  {
    var p := ProjectsOf(settings);
    [PipelineRunHandler(settings.cloudRunProject),
     PreFilteredApprovalHandler(p),
     PreFilteredWranglingHandler(p),
     PostFilteredSelectionHandler(p),
     postFilteredApproval,
     ProcessableApprovalHandler(p),
     ProcessableWranglingHandler(p),
     savingsApproval]
  }

  /** Which registered positions a completed run of `uuid` reaches, when the
      two handlers outside this model do not take it: the run counter always,
      and the warehouse handlers of that pipeline. */
  function CompletionRoute(uuid: string): seq<nat>
  {
    if uuid == "pipesv2_approval" then [0, 1, 5]
    else if uuid == "pipesv2_wrangling" then [0, 2, 6]
    else if uuid == "pipesv2_selection" then [0, 3]
    else [0]
  }

  /** What the registry's `match` calls answer on a completed run of `uuid`,
      position by position, when the two handlers outside this model do not
      take it. */
  function CompletionAnswers(uuid: string): seq<Py<bool>>
  {
    var approval := uuid == "pipesv2_approval";
    var wrangling := uuid == "pipesv2_wrangling";
    [Ret(true), Ret(approval), Ret(wrangling), Ret(uuid == "pipesv2_selection"),
     Ret(false), Ret(approval), Ret(wrangling), Ret(false)]
  }

  lemma AnswersOnCompletion(settings: Settings, postFilteredApproval: Handler, savingsApproval: Handler,
                            msg: Value, uuid: string, env: Env)
    requires AnnouncesCompletion(msg, uuid) && "source_timestamp" in msg.fields
    requires Registry.Match(postFilteredApproval, msg, env) == Ret(false)
    requires Registry.Match(savingsApproval, msg, env) == Ret(false)
    ensures Dispatcher.Answers(CreateHandlers(settings, postFilteredApproval, savingsApproval), msg, env) ==
            CompletionAnswers(uuid)
  {
    var hs := CreateHandlers(settings, postFilteredApproval, savingsApproval);
    var a := Dispatcher.Answers(hs, msg, env);
    assert a[0] == Ret(true);
    forall i | i in {1, 2, 3, 5, 6}
      ensures a[i] == CompletionAnswers(uuid)[i]
    {
      Registry.MatchesItsPipeline(hs[i], msg, env);
      Registry.MatchOnObjectAnswers(hs[i], msg, env);
    }
  }

  /** The match loop over answers shaped like `CompletionAnswers`, for at
      most one of the three pipelines: the first four positions. */
  lemma SelectedPatternHead(a: seq<Py<bool>>, approval: bool, wrangling: bool, selection: bool)
    requires |a| == 8 && a[0] == Ret(true) && a[1] == Ret(approval) && a[2] == Ret(wrangling)
    requires a[3] == Ret(selection)
    requires !(approval && wrangling) && !(approval && selection) && !(wrangling && selection)
    ensures Dispatcher.Selected(a[..4]) ==
            Ret(if approval then [0, 1] else if wrangling then [0, 2] else if selection then [0, 3] else [0])
  {
    var p: seq<nat> := [];
    assert a[..0] == [];
    Dispatcher.SelectedStep(a, 0);
    p := p + [0];
    Dispatcher.SelectedStep(a, 1);
    if approval { p := p + [1]; }
    Dispatcher.SelectedStep(a, 2);
    if wrangling { p := p + [2]; }
    Dispatcher.SelectedStep(a, 3);
    if selection { p := p + [3]; }
    assert Dispatcher.Selected(a[..4]) == Ret(p);
    if approval {
      assert p == [0, 1];
    } else if wrangling {
      assert p == [0, 2];
    } else if selection {
      assert p == [0, 3];
    } else {
      assert p == [0];
    }
  }

  /** The whole loop over such answers. */
  lemma SelectedPattern(a: seq<Py<bool>>, approval: bool, wrangling: bool, selection: bool)
    requires |a| == 8 && a[0] == Ret(true) && a[1] == Ret(approval) && a[2] == Ret(wrangling)
    requires a[3] == Ret(selection) && a[4] == Ret(false) && a[5] == Ret(approval)
    requires a[6] == Ret(wrangling) && a[7] == Ret(false)
    requires !(approval && wrangling) && !(approval && selection) && !(wrangling && selection)
    ensures Dispatcher.Selected(a) ==
            Ret(if approval then [0, 1, 5] else if wrangling then [0, 2, 6] else if selection then [0, 3] else [0])
  {
    SelectedPatternHead(a, approval, wrangling, selection);
    var p := Dispatcher.Selected(a[..4]).value;
    Dispatcher.SelectedStep(a, 4);
    Dispatcher.SelectedStep(a, 5);
    if approval { p := p + [5]; }
    Dispatcher.SelectedStep(a, 6);
    if wrangling { p := p + [6]; }
    Dispatcher.SelectedStep(a, 7);
    assert a[..8] == a;
    assert Dispatcher.Selected(a) == Ret(p);
    if approval {
      assert p == [0, 1, 5];
    } else if wrangling {
      assert p == [0, 2, 6];
    }
  }

  lemma SelectedOnCompletion(a: seq<Py<bool>>, uuid: string)
    requires a == CompletionAnswers(uuid)
    ensures Dispatcher.Selected(a) == Ret(CompletionRoute(uuid))
  {
    var approval, wrangling := uuid == "pipesv2_approval", uuid == "pipesv2_wrangling";
    var selection := uuid == "pipesv2_selection";
    assert !(wrangling && selection) by {
      if wrangling {
        assert uuid[8] != "pipesv2_selection"[8];
      }
    }
    SelectedPattern(a, approval, wrangling, selection);
  }

  /** A completed run that carries its source timestamp is matched by exactly
      the positions of `CompletionRoute`, in registration order. */
  lemma CompletionsRouted(settings: Settings, postFilteredApproval: Handler, savingsApproval: Handler,
                          msg: Value, uuid: string, env: Env)
    requires AnnouncesCompletion(msg, uuid) && "source_timestamp" in msg.fields
    requires Registry.Match(postFilteredApproval, msg, env) == Ret(false)
    requires Registry.Match(savingsApproval, msg, env) == Ret(false)
    ensures Dispatcher.MatchedIn(CreateHandlers(settings, postFilteredApproval, savingsApproval), msg, env) ==
            Ret(CompletionRoute(uuid))
  {
    AnswersOnCompletion(settings, postFilteredApproval, savingsApproval, msg, uuid, env);
    SelectedOnCompletion(CompletionAnswers(uuid), uuid);
  }

  /** What one event gets from the service: the dispatcher's response, or 500
      with nothing sent when an exception escapes `dispatch`. */
  function Serve(hs: seq<Handler>, data: Value, db: Db, env: Env): (o: Dispatcher.Outcome)
    ensures o.response.status in {204, 400, 500}
    ensures o.emitted != [] ==>
              var d := Dispatcher.DecodeMessage(data, env);
              d.Ret? && d.value.Some? && Dispatcher.MatchedIn(hs, d.value.value, env).Ret? &&
              Dispatcher.MatchedIn(hs, d.value.value, env).value != []
  {
    match Dispatcher.DispatchRun(hs, data, db, env)
    case Ret(o) => o
    case Raise(_) => Dispatcher.Outcome(Dispatcher.ServerError, [])
  }

  /** An event whose decoding raises is answered 500, so that Pub/Sub
      delivers it again; one that decodes to nothing (neither shape, an
      envelope that does not load, or one that loads as `null`) is answered
      400; any other event gets the dispatcher's answer on the decoded
      message unchanged. */
  lemma ServeDescribe(hs: seq<Handler>, data: Value, db: Db, env: Env)
    ensures Dispatcher.DecodeMessage(data, env).Raise? ==> Serve(hs, data, db, env) == Dispatcher.Outcome(Dispatcher.ServerError, [])
    ensures Dispatcher.DecodeMessage(data, env) == Ret(None) ==> Serve(hs, data, db, env) == Dispatcher.Outcome(Dispatcher.InvalidFormat, [])
    ensures Dispatcher.DecodeMessage(data, env).Ret? && Dispatcher.DecodeMessage(data, env).value.Some? ==>
              Serve(hs, data, db, env) == Dispatcher.Route(hs, Dispatcher.DecodeMessage(data, env).value.value, db, env)
  {
  }

  /** The keywords `handle_cloud_event` passes to `HandlerDispatcher(...)`. */
  const WrittenKeywords: set<string> := {"handlers", "monitoring_client", "project_id"}

  /** First-event initialisation with the dispatcher constructed from the
      given keywords. Its `__init__` takes `handlers` and nothing else, so a
      missing `handlers` or any other keyword is a `TypeError`. */
  function Initialise(settings: Settings, postFilteredApproval: Handler, savingsApproval: Handler,
                      keywords: set<string>): (r: Py<seq<Handler>>)
    ensures r.Ret? <==> keywords == {"handlers"}
    ensures r.Ret? ==> r.value == CreateHandlers(settings, postFilteredApproval, savingsApproval)
  {
    if keywords == {"handlers"} then Ret(CreateHandlers(settings, postFilteredApproval, savingsApproval))
    else Raise(Internal)
  }

  /** As written, initialisation fails whatever the settings, and it runs
      outside the `try`: no event is ever dispatched, and the worker keeps no
      dispatcher, so the next event fails the same way. */
  lemma InitAsWrittenRaises(settings: Settings, postFilteredApproval: Handler, savingsApproval: Handler)
    ensures Initialise(settings, postFilteredApproval, savingsApproval, WrittenKeywords) == Raise(Internal)
  {
    assert "monitoring_client" in WrittenKeywords;
  }

  /** One worker of the service, holding the module-level `_dispatcher`. */
  class Worker {
    var dispatcher: Dispatcher.HandlerDispatcher?

    constructor ()
      ensures dispatcher == null
    {
      dispatcher := null;
    }

    /** `handle_cloud_event`: builds the dispatcher on the first event only,
        then serves the event with it. */
    method HandleCloudEvent(settings: Settings, postFilteredApproval: Handler, savingsApproval: Handler,
                            data: Value, db: Db, env: Env, client: MonitoringClient)
      returns (response: Dispatcher.Response)
      modifies this, client
      ensures dispatcher != null
      ensures old(dispatcher) != null ==> dispatcher == old(dispatcher) && dispatcher.handlers == old(dispatcher.handlers)
      ensures old(dispatcher) == null ==>
                fresh(dispatcher) && dispatcher.handlers == CreateHandlers(settings, postFilteredApproval, savingsApproval)
      ensures response == Serve(dispatcher.handlers, data, db, env).response
      ensures client.calls == old(client.calls) + Serve(dispatcher.handlers, data, db, env).emitted
    {
      if dispatcher == null {
        var init := Initialise(settings, postFilteredApproval, savingsApproval, {"handlers"});
        dispatcher := new Dispatcher.HandlerDispatcher(init.value);
      }
      var r := dispatcher.Dispatch(data, db, env, client);
      match r
      case Ret(resp) =>
        response := resp;
      case Raise(_) =>
        response := Dispatcher.ServerError;
    }
  }
}
