/** What a check amounts to: its result, and what the server is told about it, in closed form. */
module Outcomes {
  import opened Wrappers
  import opened MachineInts
  import opened Clock
  import opened Protocol
  import opened CheckContext
  import opened AppSet
  import opened RequestBuilder
  import opened Trace
  import opened UpdateFlow
  import opened Observers
  import opened Requests
  import opened Retry
  import Bookkeeping
  import InstallResults

  // The result

  /** The result of a check whose last attempt got this reply. */
  function Outcome(i: CheckInput, reply: Reply): Performed {
    match ResultFor(reply)
    case Failure(e) => Failure(OmahaRequest(e))
    case Success(Malformed) => Failure(ResponseParser)
    case Success(Parsed(r)) => if Updates(r.apps) == [] then Same(r, NoUpdate) else Offered(i, r)
  }

  function Same(r: Response, action: Action): Performed {
    Success((Answers(r, action), NotNeeded))
  }

  /** The result when the server offers an update. */
  function Offered(i: CheckInput, r: Response): Performed {
    if i.plan.None? then Failure(InstallPlanError)
    else
      match i.planDecision
      case UpdateDeferredByPolicy => Same(r, DeferredByPolicy)
      case UpdateDeniedByPolicy => Same(r, DeniedByPolicyAction)
      case UpdateOk =>
        var outcome := i.install(r);
        CountAppsWithUpdate(r.apps);
        Success((WalkResults(r.apps, outcome.results, ClientRegulatedByDate(DayOf(r))),
                 if i.rebootNeeded && (forall k :: 0 <= k < |outcome.results| ==> !outcome.results[k].Failed?)
                 then Needed(outcome.installResult) else NotNeeded))
  }

  lemma HandlingHasOutcome(env: Env, w: World, params: RequestParams, apps: seq<App>, r: Response, i: CheckInput)
    ensures HandleResponse(env, w, params, apps, r, i).value ==
            if Updates(r.apps) == [] then Same(r, NoUpdate) else Offered(i, r)
  {
    hide InstallUpdate, ReportEvent, VersionsOf, WalkResults, AppsWithUpdate, CountUpdates, SameAction, Updates,
      Answers;
    UpdatesAreOffered(r.apps);
    SameActionAnswers(r, NoUpdate);
    SameActionAnswers(r, DeferredByPolicy);
    SameActionAnswers(r, DeniedByPolicyAction);
    if i.plan.Some? {
      var w2 := Emit(Emit(w, Yield(OmahaServerResponse(r))), Query(UpdateCanStart(i.plan.value, i.planDecision)));
      InstallResults.InstallationReturns(env, w2, params, apps, i.plan.value, r, i);
    }
  }

  /** The result of a check is a function of the replies to it, the poll interval before it, and what
      the policy and the installer say; of nothing else in storage, in the context or in the reports. */
  lemma CheckHasOutcome(env: Env, w: World, params: RequestParams, apps: seq<App>, i: CheckInput, n: nat)
    requires StopsAt(w.context.state.serverDictatedPollInterval, i.attempts, n)
    ensures PerformUpdateCheck(env, w, params, apps, i).value == Outcome(i, i.attempts.At(n).request.reply)
  {
    hide Fold, AttemptLoop, HandleResponse, ReportEvent, CheckOps, NoVersions, ResultFor, Continues, Script, Offered;
    var poll := w.context.state.serverDictatedPollInterval;
    var w2 := ReportCheckInterval(Emit(w, ChangeTo(CheckingForUpdates(params.source))), i.checkTime, params.source);
    AttemptsFollowScript([], env, w2, params, CheckOps(apps), i, 1, poll);
    var s := AttemptLoop(env, w2, params, CheckOps(apps), i, 1);
    LastAttemptIsUnique(poll, i.attempts, s.value.0, n);
    if s.value.1.Success? && s.value.1.value.Parsed? {
      var w3 := Emit(s.world, Report(RequestsPerCheck(s.value.0, true)));
      HandlingHasOutcome(env, w3, params, apps, s.value.1.value.response, i);
    }
  }

  /** The last update time moves exactly when the server answered, and then to the end of the check. */
  lemma LastUpdateTimeMeansAnswered(env: Env, w: World, params: RequestParams, i: CheckInput, n: nat)
    requires StopsAt(w.context.state.serverDictatedPollInterval, i.attempts, n)
    ensures StartUpdateCheck(env, w, params, i).world.context.schedule.lastUpdateTime ==
            if ResultFor(i.attempts.At(n).request.reply).Success? then Some(Complex(i.endTime))
            else w.context.schedule.lastUpdateTime
  {
    hide PerformUpdateCheck, ResultFor, StopsAt, PersistContext, PersistApps, UpdateApps, InstallVerdict, WrapU32,
      WrapI64, WrapU64, ReasonOf, Bookkeeping.InOrder, WalkResults, CountUpdates, SameAction;
    CheckHasOutcome(env, w, params, w.apps, i, n);
    Bookkeeping.PerformKeeps(Bookkeeping.NEW_BOOKS, env, w, params, w.apps, i, false);
  }

  // The reports

  /** What an observer of the reports notices. */
  predicate OfExchange(a: Act) {
    || (a.Sent? && a.sentFor.ForEvent?)
    || (a.Concluded? && a.concludedFor.ForEvent?)
    || (a.Report? && a.metrics.OmahaEventLost?)
  }

  function Overhear(heard: seq<Act>, a: Act): seq<Act> {
    if OfExchange(a) then heard + [a] else heard
  }

  /** One report: the request is sent if it can be built, it ends one way or the other, and if it failed
      every event in it is counted as lost. */
  function Exchange(request: Intermediate, lost: seq<Act>, reply: Reply): seq<Act> {
    (if reply.BuildFailed? then [] else [Sent(ForEvent, request)])
    + [Concluded(ForEvent, ResultFor(reply))]
    + if ResultFor(reply).Failure? then lost else []
  }

  /** The report of the same event for every app that has an update. */
  function Reporting(
    env: Env, params: RequestParams, event: Event, apps: seq<App>, sessionId: GUID, versions: NextVersions,
    d: Option<Duration>, input: RequestInput): seq<Act>
  {
    Exchange(RequestOf(env, params, EventOps(event, apps, versions, d), sessionId, input.requestId),
             [Report(OmahaEventLost(event))], input.reply)
  }

  lemma EventRequestOverheard(q: seq<Act>, w: World, request: Intermediate, input: RequestInput)
    ensures var s := DoRequest(w, ForEvent, request, input);
            && s.value == ResultFor(input.reply)
            && Fold(Overhear, q, s.world.log) == Fold(Overhear, q, w.log) + Exchange(request, [], input.reply)
  {
    hide Fold, NotePollInterval, ParseRetryAfter;
    EmitFolds(Overhear, q);
    if input.reply.Responded? {
      NotePollIntervalUnseen(
        Overhear, q, Emit(w, Sent(ForEvent, request)), ParseRetryAfter(input.reply.retryAfter), input.faults);
    }
  }

  lemma ReportOverheard(
    q: seq<Act>, env: Env, w: World, params: RequestParams, event: Event, apps: seq<App>, sessionId: GUID,
    versions: NextVersions, d: Option<Duration>, input: RequestInput)
    ensures Fold(Overhear, q, ReportEvent(env, w, params, event, apps, sessionId, versions, d, input).log)
         == Fold(Overhear, q, w.log) + Reporting(env, params, event, apps, sessionId, versions, d, input)
  {
    hide Fold, DoRequest, RequestOf, EventOps, ResultFor;
    EmitFolds(Overhear, q);
    var request := RequestOf(env, params, EventOps(event, apps, versions, d), sessionId, input.requestId);
    EventRequestOverheard(q, w, request, input);
    assert Exchange(request, [Report(OmahaEventLost(event))], input.reply) ==
      Exchange(request, [], input.reply) +
      if ResultFor(input.reply).Failure? then [Report(OmahaEventLost(event))] else [];
  }

  const COMPLETED := Event(UpdateComplete, SuccessResult, None, None, None, None)

  /** The reports of an installation: what became of each update, and then the completion of those that
      were installed. */
  function InstallReports(
    env: Env, params: RequestParams, apps: seq<App>, r: Response, results: seq<AppInstallResult>,
    d: Option<Duration>, i: CheckInput): seq<Act>
    requires |results| == |Updates(r.apps)|
  {
    var updates := Updates(r.apps);
    var news := AllNews(apps, updates, results, d);
    Exchange(RequestOf(env, params, news, i.sessionId, i.events.installs.requestId), Losses(news),
             i.events.installs.reply)
    + if Finished(news) == [] then []
      else Reporting(env, params, COMPLETED, Finished(news), i.sessionId, VersionsOf(updates), d, i.events.complete)
  }

  lemma {:induction false} LostAreOverheard(heard: seq<Act>, ops: seq<Op>)
    ensures LostEvents(ops) == Losses(ops)
    ensures Fold(Overhear, heard, LostEvents(ops)) == heard + LostEvents(ops)
    decreases |ops|
  {
    if ops == [] {
      FoldEmpty(Overhear, heard);
    } else if ops[0].AddEvent? {
      var lost := Report(OmahaEventLost(ops[0].event));
      FoldCons(Overhear, heard, lost, LostEvents(ops[1..]));
      LostAreOverheard(heard + [lost], ops[1..]);
    } else {
      LostAreOverheard(heard, ops[1..]);
      assert LostEvents(ops) == LostEvents(ops[1..]);
    }
  }

  lemma InstallReportsOverheard(
    q: seq<Act>, env: Env, w: World, params: RequestParams, apps: seq<App>, r: Response,
    results: seq<AppInstallResult>, d: Option<Duration>, i: CheckInput)
    requires |results| == |Updates(r.apps)|
    ensures Fold(Overhear, q, ReportInstalls(env, w, params, apps, r, results, d, i).log)
         == Fold(Overhear, q, w.log) + InstallReports(env, params, apps, r, results, d, i)
  {
    hide Fold, DoRequest, RequestOf, ReportEvent, LostEvents, InstallOps, InstalledApps, VersionsOf, AppsWithUpdate,
      ResultFor, Reporting, Updates, AllNews, Finished, Losses;
    UpdatesAreOffered(r.apps);
    var updates := Updates(r.apps);
    var ops := AllNews(apps, updates, results, d);
    InstallOpsAreTheNews(apps, updates, results, d);
    CompletionFollowsDownload(apps, updates, results, d);
    var request := RequestOf(env, params, ops, i.sessionId, i.events.installs.requestId);
    EventRequestOverheard(q, w, request, i.events.installs);
    var s := DoRequest(w, ForEvent, request, i.events.installs);
    FoldConcat(Overhear, q, s.world.log, LostEvents(ops));
    LostAreOverheard(Fold(Overhear, q, s.world.log), ops);
    var w1 := if s.value.Failure? then EmitAll(s.world, LostEvents(ops)) else s.world;
    ReportOverheard(q, env, w1, params, COMPLETED, Finished(ops), i.sessionId, VersionsOf(updates), d,
                    i.events.complete);
    assert Exchange(request, Losses(ops), i.events.installs.reply) ==
      Exchange(request, [], i.events.installs.reply) + if s.value.Failure? then Losses(ops) else [];
  }

  /** Everything the server is told about a check whose last attempt got this reply. */
  function Reports(env: Env, params: RequestParams, apps: seq<App>, i: CheckInput, reply: Reply): seq<Act> {
    match ResultFor(reply)
    case Failure(_) => []
    case Success(Malformed) =>
      Reporting(env, params, Event(UpdateComplete, ErrorResult, Some(ParseResponse), None, None, None), apps,
                i.sessionId, NoVersions(apps), None, i.events.first)
    case Success(Parsed(r)) =>
      if Updates(r.apps) == [] then []
      else
        Reporting(env, params, FirstEvent(i), apps, i.sessionId, VersionsOf(Updates(r.apps)), None, i.events.first)
        + if i.plan.Some? && i.planDecision.UpdateOk? then
            UpdatesAreOffered(r.apps);
            InstallReports(env, params, apps, r, i.install(r).results, Took(i), i)
          else []
  }

  /** How long the installation took, if it did not end before it began. */
  function Took(i: CheckInput): Option<Duration> {
    if i.installStart <= i.installFinish then Some(i.installFinish - i.installStart) else None
  }

  /** The first event about an offered update. */
  function FirstEvent(i: CheckInput): Event {
    if i.plan.None? then Event(UpdateComplete, ErrorResult, Some(ConstructInstallPlan), None, None, None)
    else
      match i.planDecision
      case UpdateOk => Event(UpdateDownloadStarted, SuccessResult, None, None, None, None)
      case UpdateDeferredByPolicy => Event(UpdateComplete, UpdateDeferred, None, None, None, None)
      case UpdateDeniedByPolicy => Event(UpdateComplete, ErrorResult, Some(DeniedByPolicy), None, None, None)
  }

  lemma InstallationOverheard(
    q: seq<Act>, env: Env, w: World, params: RequestParams, apps: seq<App>, plan: Plan, r: Response, i: CheckInput)
    requires |i.install(r).results| == |Updates(r.apps)|
    ensures var started := Event(UpdateDownloadStarted, SuccessResult, None, None, None, None);
            Fold(Overhear, q, InstallUpdate(env, w, params, apps, plan, r, i).world.log)
            == Fold(Overhear, q, w.log)
               + Reporting(env, params, started, apps, i.sessionId, VersionsOf(Updates(r.apps)), None, i.events.first)
               + InstallReports(env, params, apps, r, i.install(r).results, Took(i), i)
  {
    hide Fold, ReportEvent, RecordFirstSeen, ReportInstalls, FinishInstall, VersionsOf, AppsWithUpdate, NoAppsFailed,
      Reporting, InstallReports, Updates;
    EmitFolds(Overhear, q);
    UpdatesAreOffered(r.apps);
    var versions := VersionsOf(AppsWithUpdate(r.apps));
    var started := SuccessEvent(UpdateDownloadStarted);
    var w1 := Emit(w, ChangeTo(InstallingUpdate));
    ReportOverheard(q, env, w1, params, started, apps, i.sessionId, versions, None, i.events.first);
    var w2 := ReportEvent(env, w1, params, started, apps, i.sessionId, versions, None, i.events.first);
    RecordFirstSeenUnseen(Overhear, q, w2, plan.id, i.installStart, i.seenFaults);
    var seen := RecordFirstSeen(w2, plan.id, i.installStart, i.seenFaults);
    var outcome := i.install(r);
    EmitAllUnseen(Overhear, q, seen.world, ProgressActs(outcome.progress));
    var w4 := Emit(EmitAll(seen.world, ProgressActs(outcome.progress)),
                   PerformedInstall(plan, outcome.installResult, outcome.results));
    var w5 := ReportInstallDuration(w4, i.installStart, i.installFinish, NoAppsFailed(outcome.results));
    var d := InstallDuration(i.installStart, i.installFinish);
    InstallReportsOverheard(q, env, w5, params, apps, r, outcome.results, d, i);
    CountAppsWithUpdate(r.apps);
    FinishInstallUnseen(Overhear, q, ReportInstalls(env, w5, params, apps, r, outcome.results, d, i), plan, r, outcome,
                        seen.value, i);
  }

  lemma HandlingOverheard(
    q: seq<Act>, env: Env, w: World, params: RequestParams, apps: seq<App>, r: Response, i: CheckInput, reply: Reply)
    requires ResultFor(reply) == Success(Parsed(r))
    ensures Fold(Overhear, q, HandleResponse(env, w, params, apps, r, i).world.log)
         == Fold(Overhear, q, w.log) + Reports(env, params, apps, i, reply)
  {
    hide Fold, ReportEvent, InstallUpdate, VersionsOf, AppsWithUpdate, SameAction, CountUpdates, ResultFor, Reporting,
      InstallReports, Updates;
    EmitFolds(Overhear, q);
    UpdatesAreOffered(r.apps);
    var w1 := Emit(w, Yield(OmahaServerResponse(r)));
    var versions := VersionsOf(AppsWithUpdate(r.apps));
    match i.plan {
      case None =>
        var w2 := Emit(Emit(w1, ChangeTo(InstallingUpdate)), ChangeTo(InstallationError));
        ReportOverheard(q, env, w2, params, FirstEvent(i), apps, i.sessionId, versions, None, i.events.first);
      case Some(plan) =>
        var w2 := Emit(w1, Query(UpdateCanStart(plan, i.planDecision)));
        ReportOverheard(q, env, w2, params, FirstEvent(i), apps, i.sessionId, versions, None, i.events.first);
        InstallationOverheard(q, env, w2, params, apps, plan, r, i);
    }
  }

  lemma TakeResultOverheard(q: seq<Act>, w: World, r: Performed, i: CheckInput)
    ensures Fold(Overhear, q, TakeResult(w, r, i).log) == Fold(Overhear, q, w.log)
  {
    hide Fold, InstallVerdict, UpdateApps, WrapI64, WrapU32, WrapU64, ReasonOf;
    EmitFolds(Overhear, q);
  }

  lemma PerformOverheard(
    q: seq<Act>, env: Env, w: World, params: RequestParams, apps: seq<App>, i: CheckInput, n: nat)
    requires StopsAt(w.context.state.serverDictatedPollInterval, i.attempts, n)
    ensures Fold(Overhear, q, PerformUpdateCheck(env, w, params, apps, i).world.log)
         == Fold(Overhear, q, w.log) + Reports(env, params, apps, i, i.attempts.At(n).request.reply)
  {
    hide Fold, AttemptLoop, HandleResponse, ReportEvent, CheckOps, NoVersions, ResultFor, Continues, Script, Reporting,
      Updates, InstallReports;
    EmitFolds(Overhear, q);
    var poll := w.context.state.serverDictatedPollInterval;
    var w2 := ReportCheckInterval(Emit(w, ChangeTo(CheckingForUpdates(params.source))), i.checkTime, params.source);
    CheckOpsFrom(apps);
    AttemptLoopUnseen(Overhear, q, env, w2, params, apps, CheckOps(apps), i, 1);
    AttemptsFollowScript([], env, w2, params, CheckOps(apps), i, 1, poll);
    var s := AttemptLoop(env, w2, params, CheckOps(apps), i, 1);
    LastAttemptIsUnique(poll, i.attempts, s.value.0, n);
    var w3 := Emit(s.world, Report(RequestsPerCheck(s.value.0, s.value.1.Success?)));
    match s.value.1 {
      case Failure(_) =>
      case Success(Malformed) =>
        var w4 := Emit(w3, ChangeTo(ErrorCheckingForUpdate));
        ReportOverheard(q, env, w4, params, ErrorEvent(ParseResponse), apps, i.sessionId, NoVersions(apps), None,
                        i.events.first);
      case Success(Parsed(r)) =>
        HandlingOverheard(q, env, w3, params, apps, r, i, i.attempts.At(n).request.reply);
    }
  }

  /** What the server is told about a check, and which events are counted as lost, is this and nothing
      else: which event goes first is decided by the plan and the policy, the installer's results follow
      in the order of the response, and every failed report is followed by the loss of its events. */
  lemma CheckIsReported(env: Env, w: World, params: RequestParams, i: CheckInput, n: nat)
    requires w.log == [] && StopsAt(w.context.state.serverDictatedPollInterval, i.attempts, n)
    ensures Fold(Overhear, [], StartUpdateCheck(env, w, params, i).world.log)
         == Reports(env, params, w.apps, i, i.attempts.At(n).request.reply)
  {
    hide Fold, PerformUpdateCheck, TakeResult, PersistData, Reports, StopsAt;
    EmitFolds(Overhear, []);
    FoldEmpty(Overhear, []);
    PerformOverheard([], env, w, params, w.apps, i, n);
    var s := PerformUpdateCheck(env, w, params, w.apps, i);
    TakeResultOverheard([], s.world, s.value, i);
    var w1 := TakeResult(s.world, s.value, i);
    PersistDataUnseen(Overhear, [], env, Announce(w1, ResultOf(s.value)), i.persistFaults);
  }

  /** A report about an offered update is about each app of the client that the response gives an update
      for, and no other, with the version offered last for it. */
  lemma {:induction false} EventOpsAreTheOffered(
    event: Event, apps: seq<App>, updates: seq<ResponseApp>, d: Option<Duration>, op: Op)
    ensures op in EventOps(event, apps, VersionsOf(updates), d) <==>
            op.AddEvent? && op.app in apps && OffersLast(updates, op.app.id).Some?
            && op.event == About(op.app, event.eventType, event.eventResult, event.errorcode,
                                 VersionOffered(OffersLast(updates, op.app.id).value), d)
  {
    hide About, FillEvent;
    if apps != [] {
      EventOpsAreTheOffered(event, apps[..|apps| - 1], updates, d, op);
      VersionsAreTheLast(updates, apps[|apps| - 1].id);
      if apps[|apps| - 1].id in VersionsOf(updates) {
        FilledEventIsAbout(event, apps[|apps| - 1], VersionsOf(updates)[apps[|apps| - 1].id], d);
      }
      assert apps == apps[..|apps| - 1] + [apps[|apps| - 1]];
    }
  }
}
