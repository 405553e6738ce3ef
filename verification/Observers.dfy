/** Which acts each part of the client can show to an observer at all. */
module Observers {
  import opened Wrappers
  import opened MachineInts
  import opened Clock
  import opened Protocol
  import opened Storage
  import opened CheckContext
  import opened AppSet
  import opened RequestBuilder
  import opened Trace
  import opened UpdateFlow

  /** What one request with this purpose may show. */
  predicate OfRequest(purpose: Purpose, a: Act) {
    || (a.Sent? && a.sentFor == purpose)
    || (a.Concluded? && a.concludedFor == purpose)
    || (a.Yield? && a.event.ProtocolStateChange?)
    || a.Committed?
  }

  /** What one attempt to ask for updates may show. */
  predicate OfAttempt(a: Act) {
    OfRequest(ForCheck, a) || (a.Report? && a.metrics.UpdateCheckResponseTime?)
  }

  /** What reporting events may show. */
  predicate OfReporting(a: Act) {
    OfRequest(ForEvent, a) || (a.Report? && a.metrics.OmahaEventLost?)
  }

  /** What installing may show besides the reports about it. */
  predicate OfInstalling(a: Act) {
    || a.Committed?
    || a.FirstSeen?
    || a.PerformedInstall?
    || (a.Query? && (a.query.UpdateCanStart? || a.query.RebootNeeded?))
    || (a.Report? && !a.metrics.AttemptsToSuccessfulCheck? && !a.metrics.AttemptsToSuccessfulInstall?
        && !a.metrics.RequestsPerCheck? && !a.metrics.WaitedForRebootDuration? && !a.metrics.OmahaEventLost?)
    || (a.Yield? && (a.event.OmahaServerResponse? || a.event.InstallProgressChange? || a.event.InstallerError?))
    || (a.Yield? && a.event.StateChange? && !a.event.state.Idle? && !a.event.state.WaitingForReboot?
        && !a.event.state.CheckingForUpdates?)
  }

  /** What the handling of a response, or of the failure to get one, may show. */
  predicate OfHandling(a: Act) {
    OfReporting(a) || OfInstalling(a)
  }

  /** What asking for updates may show, all attempts together. */
  predicate OfAsking(a: Act) {
    || OfAttempt(a)
    || (a.Waited? && a.wait.Backoff?)
    || a == ChangeTo(ErrorCheckingForUpdate)
  }

  /** What a check may show before its result is taken. */
  predicate OfPerforming(a: Act) {
    || OfHandling(a)
    || OfAsking(a)
    || (a.Report? && a.metrics.RequestsPerCheck?)
    || (a.Yield? && a.event.StateChange? && a.event.state.CheckingForUpdates?)
  }

  /** What a whole update check may show. */
  predicate OfCheck(a: Act) {
    || OfPerforming(a)
    || (a.Report? && !a.metrics.WaitedForRebootDuration?)
    || (a.Yield? && (a.event.ScheduleChange? || a.event.UpdateCheckResult?))
  }

  /** What a ping may show. */
  predicate OfPing(a: Act) {
    || OfRequest(ForPing, a)
    || (a.Yield? && a.event.ScheduleChange?)
  }

  /** The request is about these apps, as they are. */
  ghost predicate RequestFrom(apps: seq<App>, r: Intermediate) {
    forall k :: 0 <= k < |r.body.apps| ==> AppFrom(apps, r.body.apps[k])
  }

  ghost predicate AppFrom(apps: seq<App>, x: RequestApp) {
    exists entry: AppEntry :: entry.app in apps && x == ToRequestApp(entry)
  }

  ghost predicate Honest(apps: seq<App>, a: Act) {
    a.Sent? ==> RequestFrom(apps, a.request)
  }

  /** What storage holds besides the client's own keys: the apps. */
  function Foreign(w: World): map<string, Value> {
    w.store.cached - RESERVED
  }

  /** Moreover a commit leaves the part of storage that is not the client's own as it is. */
  ghost predicate Fair(apps: seq<App>, foreign: map<string, Value>, a: Act) {
    Honest(apps, a) && (a.Committed? ==> a.snapshot - RESERVED == foreign)
  }

  /** An observer in state `p` notices no request with this purpose about these apps; and so on. */
  ghost predicate IgnoresRequests<Q>(
    next: (Q, Act) -> Q, p: Q, purpose: Purpose, apps: seq<App>, foreign: map<string, Value>)
  {
    forall a :: OfRequest(purpose, a) && Fair(apps, foreign, a) ==> next(p, a) == p
  }

  ghost predicate IgnoresAttempts<Q>(next: (Q, Act) -> Q, p: Q, apps: seq<App>, foreign: map<string, Value>) {
    forall a :: OfAttempt(a) && Fair(apps, foreign, a) ==> next(p, a) == p
  }

  ghost predicate IgnoresReporting<Q>(next: (Q, Act) -> Q, p: Q, apps: seq<App>, foreign: map<string, Value>) {
    forall a :: OfReporting(a) && Fair(apps, foreign, a) ==> next(p, a) == p
  }

  ghost predicate IgnoresHandling<Q>(next: (Q, Act) -> Q, p: Q, apps: seq<App>, foreign: map<string, Value>) {
    forall a :: OfHandling(a) && Fair(apps, foreign, a) ==> next(p, a) == p
  }

  ghost predicate IgnoresInstalling<Q>(next: (Q, Act) -> Q, p: Q, foreign: map<string, Value>) {
    forall a :: OfInstalling(a) && (a.Committed? ==> a.snapshot - RESERVED == foreign) ==> next(p, a) == p
  }

  ghost predicate IgnoresAsking<Q>(next: (Q, Act) -> Q, p: Q, apps: seq<App>, foreign: map<string, Value>) {
    forall a :: OfAsking(a) && Fair(apps, foreign, a) ==> next(p, a) == p
  }

  ghost predicate IgnoresPerforming<Q>(next: (Q, Act) -> Q, p: Q, apps: seq<App>, foreign: map<string, Value>) {
    forall a :: OfPerforming(a) && Fair(apps, foreign, a) ==> next(p, a) == p
  }

  ghost predicate IgnoresChecks<Q>(next: (Q, Act) -> Q, p: Q, apps: seq<App>) {
    forall a :: OfCheck(a) && Honest(apps, a) ==> next(p, a) == p
  }

  ghost predicate IgnoresPings<Q>(next: (Q, Act) -> Q, p: Q, apps: seq<App>) {
    forall a :: OfPing(a) && Honest(apps, a) ==> next(p, a) == p
  }

  // Requests are about the apps they are made for

  predicate OpsFrom(apps: seq<App>, ops: seq<Op>) {
    forall k :: 0 <= k < |ops| ==> ops[k].app in apps
  }

  lemma {:induction false} EntriesFrom(apps: seq<App>, params: RequestParams, ops: seq<Op>)
    requires OpsFrom(apps, ops)
    ensures forall k :: 0 <= k < |ApplyOps(params, ops)| ==> ApplyOps(params, ops)[k].app in apps
  {
    if ops != [] {
      EntriesFrom(apps, params, ops[..|ops| - 1]);
    }
  }

  lemma RequestOfFrom(
    apps: seq<App>, env: Env, params: RequestParams, ops: seq<Op>, sessionId: GUID, requestId: GUID)
    requires OpsFrom(apps, ops)
    ensures RequestFrom(apps, RequestOf(env, params, ops, sessionId, requestId))
  {
    EntriesFrom(apps, params, ops);
    var request := RequestOf(env, params, ops, sessionId, requestId);
    forall k | 0 <= k < |request.body.apps|
      ensures AppFrom(apps, request.body.apps[k])
    {
      assert request.body.apps[k] == ToRequestApp(ApplyOps(params, ops)[k]);
    }
  }

  lemma {:induction false} CheckOpsFrom(apps: seq<App>)
    ensures OpsFrom(apps, CheckOps(apps))
  {
    if apps != [] {
      CheckOpsFrom(apps[..|apps| - 1]);
    }
  }

  lemma {:induction false} EventOpsFrom(
    event: Event, apps: seq<App>, versions: NextVersions, d: Option<Duration>)
    ensures OpsFrom(apps, EventOps(event, apps, versions, d))
  {
    if apps != [] {
      EventOpsFrom(event, apps[..|apps| - 1], versions, d);
    }
  }

  lemma PingOpsFrom(apps: seq<App>)
    ensures OpsFrom(apps, PingOps(apps))
  {
    forall k | 0 <= k < |apps|
      ensures PingOps(apps)[k].app in apps
    {
      assert PingOps(apps)[k].app == apps[k];
    }
  }

  lemma FewerAppsAreHonest(apps: seq<App>, some: seq<App>)
    requires forall app :: app in some ==> app in apps
    ensures forall a :: Honest(some, a) ==> Honest(apps, a)
  {
    forall a: Act | a.Sent? && RequestFrom(some, a.request)
      ensures RequestFrom(apps, a.request)
    {
      assert forall x :: AppFrom(some, x) ==> AppFrom(apps, x);
    }
  }

  lemma {:induction false} FoundAppIsThere(apps: seq<App>, id: string)
    ensures FindApp(apps, id).Some? ==> FindApp(apps, id).value in apps && FindApp(apps, id).value.id == id
  {
    if apps != [] {
      FoundAppIsThere(apps[1..], id);
    }
  }

  lemma {:induction false} InstallOpsFrom(
    apps: seq<App>, updates: seq<ResponseApp>, results: seq<AppInstallResult>, d: Option<Duration>)
    ensures OpsFrom(apps, InstallOps(apps, updates, results, d))
    ensures forall app :: app in InstalledApps(apps, updates, results) ==> app in apps
  {
    if updates != [] && results != [] {
      FoundAppIsThere(apps, updates[0].id);
      InstallOpsFrom(apps, updates[1..], results[1..], d);
    }
  }

  lemma OwnWrites(m: map<string, Value>, key: string, value: Value)
    requires key in RESERVED
    ensures m[key := value] - RESERVED == m - RESERVED
    ensures m - {key} - RESERVED == m - RESERVED
  {
    hide RESERVED;
  }

  lemma PersistContextIsOwn(s: Store, c: Context, faults: Faults)
    ensures PersistContext(s, c, faults).cached - RESERVED == s.cached - RESERVED
  {
    hide PersistContext;
    PersistContextForeign(s, c, faults);
    var m := PersistContext(s, c, faults).cached;
    forall k | k !in RESERVED
      ensures (k in m <==> k in s.cached) && (k in m ==> m[k] == s.cached[k])
    {
      assert k !in CONTEXT_KEYS;
      assert SameAt(m, s.cached, k);
    }
  }

  lemma CommitUnseen<Q>(next: (Q, Act) -> Q, q: Q, w: World, faults: Faults)
    requires forall a: Act :: a.Committed? && a.snapshot - RESERVED == Foreign(w) ==>
               next(Fold(next, q, w.log), a) == Fold(next, q, w.log)
    ensures Fold(next, q, CommitStore(w, faults).log) == Fold(next, q, w.log)
    ensures Foreign(CommitStore(w, faults)) == Foreign(w)
  {
    hide Fold, RESERVED;
    EmitFolds(next, q);
  }

  lemma NotePollIntervalUnseen<Q>(
    next: (Q, Act) -> Q, q: Q, w: World, poll: Option<Duration>, faults: Faults)
    requires forall a: Act :: a.Committed? && a.snapshot - RESERVED == Foreign(w) ==>
               next(Fold(next, q, w.log), a) == Fold(next, q, w.log)
    requires forall a: Act :: a.Yield? && a.event.ProtocolStateChange? ==>
               next(Fold(next, q, w.log), a) == Fold(next, q, w.log)
    ensures Fold(next, q, NotePollInterval(w, poll, faults).log) == Fold(next, q, w.log)
    ensures Foreign(NotePollInterval(w, poll, faults)) == Foreign(w)
  {
    hide Fold, CommitStore, PersistContext, RESERVED;
    EmitFolds(next, q);
    var w1 := w.WithState(w.context.state.(serverDictatedPollInterval := poll));
    var w2 := Emit(w1, Yield(ProtocolStateChange(w1.context.state)));
    PersistContextIsOwn(w2.store, w2.context, faults);
    CommitUnseen(next, q, w2.(store := PersistContext(w2.store, w2.context, faults)), faults);
  }

  lemma RequestUnseen<Q>(
    next: (Q, Act) -> Q, q: Q, w: World, purpose: Purpose, apps: seq<App>, request: Intermediate, input: RequestInput)
    requires IgnoresRequests(next, Fold(next, q, w.log), purpose, apps, Foreign(w))
    requires RequestFrom(apps, request)
    ensures Fold(next, q, DoRequest(w, purpose, request, input).world.log) == Fold(next, q, w.log)
    ensures Foreign(DoRequest(w, purpose, request, input).world) == Foreign(w)
  {
    hide Fold, NotePollInterval, ParseRetryAfter;
    EmitFolds(next, q);
    if input.reply.Responded? {
      NotePollIntervalUnseen(
        next, q, Emit(w, Sent(purpose, request)), ParseRetryAfter(input.reply.retryAfter), input.faults);
    }
  }

  lemma ReportEventUnseen<Q>(
    next: (Q, Act) -> Q, q: Q, env: Env, w: World, params: RequestParams, event: Event, apps: seq<App>,
    sessionId: GUID, versions: NextVersions, d: Option<Duration>, input: RequestInput)
    requires IgnoresReporting(next, Fold(next, q, w.log), apps, Foreign(w))
    ensures Fold(next, q, ReportEvent(env, w, params, event, apps, sessionId, versions, d, input).log)
         == Fold(next, q, w.log)
    ensures Foreign(ReportEvent(env, w, params, event, apps, sessionId, versions, d, input)) == Foreign(w)
  {
    hide Fold, DoRequest, RequestOf, EventOps;
    EmitFolds(next, q);
    var request := RequestOf(env, params, EventOps(event, apps, versions, d), sessionId, input.requestId);
    EventOpsFrom(event, apps, versions, d);
    RequestOfFrom(apps, env, params, EventOps(event, apps, versions, d), sessionId, input.requestId);
    RequestUnseen(next, q, w, ForEvent, apps, request, input);
  }

  lemma EmitAllUnseen<Q>(next: (Q, Act) -> Q, q: Q, w: World, acts: seq<Act>)
    requires forall a :: a in acts ==> next(Fold(next, q, w.log), a) == Fold(next, q, w.log)
    ensures Fold(next, q, EmitAll(w, acts).log) == Fold(next, q, w.log)
  {
    FoldConcat(next, q, w.log, acts);
    FoldIgnores(next, Fold(next, q, w.log), acts);
  }

  lemma {:induction false} LostEventsAreReporting(ops: seq<Op>)
    ensures forall a :: a in LostEvents(ops) ==> OfReporting(a) && !a.Sent? && !a.Committed?
  {
    if ops != [] {
      LostEventsAreReporting(ops[1..]);
    }
  }

  lemma ReportInstallsUnseen<Q>(
    next: (Q, Act) -> Q, q: Q, env: Env, w: World, params: RequestParams, apps: seq<App>, r: Response,
    results: seq<AppInstallResult>, d: Option<Duration>, i: CheckInput)
    requires IgnoresReporting(next, Fold(next, q, w.log), apps, Foreign(w))
    ensures Fold(next, q, ReportInstalls(env, w, params, apps, r, results, d, i).log) == Fold(next, q, w.log)
    ensures Foreign(ReportInstalls(env, w, params, apps, r, results, d, i)) == Foreign(w)
  {
    hide DoRequest, RequestOf, ReportEvent, LostEvents, InstallOps, InstalledApps, VersionsOf, AppsWithUpdate;
    var updates := AppsWithUpdate(r.apps);
    var ops := InstallOps(apps, updates, results, d);
    var request := RequestOf(env, params, ops, i.sessionId, i.events.installs.requestId);
    InstallOpsFrom(apps, updates, results, d);
    RequestOfFrom(apps, env, params, ops, i.sessionId, i.events.installs.requestId);
    RequestUnseen(next, q, w, ForEvent, apps, request, i.events.installs);
    var s := DoRequest(w, ForEvent, request, i.events.installs);
    LostEventsAreReporting(ops);
    EmitAllUnseen(next, q, s.world, LostEvents(ops));
    var w1 := if s.value.Failure? then EmitAll(s.world, LostEvents(ops)) else s.world;
    FewerAppsAreHonest(apps, InstalledApps(apps, updates, results));
    ReportEventUnseen(next, q, env, w1, params, SuccessEvent(UpdateComplete), InstalledApps(apps, updates, results),
                      i.sessionId, VersionsOf(updates), d, i.events.complete);
  }

  lemma KeysOwned()
    ensures {INSTALL_PLAN_ID, UPDATE_FIRST_SEEN_TIME, UPDATE_FINISH_TIME, TARGET_VERSION} <= RESERVED
  {
  }

  lemma RecordFinishUnseen<Q>(
    next: (Q, Act) -> Q, q: Q, w: World, finish: SystemTime, versions: NextVersions, faults: Faults)
    requires IgnoresInstalling(next, Fold(next, q, w.log), Foreign(w))
    ensures Fold(next, q, RecordFinish(w, finish, versions, faults).log) == Fold(next, q, w.log)
    ensures Foreign(RecordFinish(w, finish, versions, faults)) == Foreign(w)
  {
    hide Fold, RESERVED, CommitStore, CheckedMicros;
    KeysOwned();
    var time := CheckedMicros(finish);
    OwnWrites(w.store.cached, UPDATE_FINISH_TIME, Int(time.GetOr(0)));
    var s := w.store.SetTime(UPDATE_FINISH_TIME, finish, faults);
    var target := if w.apps != [] && w.apps[0].id in versions then versions[w.apps[0].id] else None;
    OwnWrites(s.cached, TARGET_VERSION, Text(target.GetOr("UNKNOWN")));
    var t := if w.apps != [] && w.apps[0].id in versions
             then s.Set(TARGET_VERSION, Text(target.GetOr("UNKNOWN")), faults) else s;
    CommitUnseen(next, q, w.(store := t), faults);
  }

  lemma FinishInstallUnseen<Q>(
    next: (Q, Act) -> Q, q: Q, w: World, plan: Plan, r: Response, outcome: InstallOutcome, since: SystemTime,
    i: CheckInput)
    requires |outcome.results| == CountUpdates(r.apps)
    requires IgnoresInstalling(next, Fold(next, q, w.log), Foreign(w))
    ensures Fold(next, q, FinishInstall(w, plan, r, outcome, since, i).world.log) == Fold(next, q, w.log)
    ensures Foreign(FinishInstall(w, plan, r, outcome, since, i).world) == Foreign(w)
  {
    hide Fold, WalkResults, ErrorsOf, VersionsOf, AppsWithUpdate, RecordFinish, RESERVED;
    EmitFolds(next, q);
    EmitAllUnseen(next, q, w, ErrorActs(ErrorsOf(outcome.results)));
    var w1 := if since <= i.installFinish
              then Emit(w, Report(SuccessfulUpdateFromFirstSeen(i.installFinish - since))) else w;
    RecordFinishUnseen(next, q, w1, i.installFinish, VersionsOf(AppsWithUpdate(r.apps)), i.finishFaults);
  }

  lemma RecordFirstSeenUnseen<Q>(
    next: (Q, Act) -> Q, q: Q, w: World, planId: string, now: SystemTime, faults: SeenFaults)
    requires IgnoresInstalling(next, Fold(next, q, w.log), Foreign(w))
    ensures Fold(next, q, RecordFirstSeen(w, planId, now, faults).world.log) == Fold(next, q, w.log)
    ensures Foreign(RecordFirstSeen(w, planId, now, faults).world) == Foreign(w)
  {
    hide Fold, RESERVED, CommitStore, StorePlan, Torn;
    EmitFolds(next, q);
    var w1 := Emit(w, FirstSeen(planId, now, now, Torn(faults)));
    StorePlanIsOwn(w1.store, planId, now, faults);
    CommitUnseen(next, q, w1.(store := StorePlan(w1.store, planId, now, faults).0), faults.write);
  }

  lemma StorePlanIsOwn(s: Store, planId: string, now: SystemTime, faults: SeenFaults)
    ensures StorePlan(s, planId, now, faults).0.cached - RESERVED == s.cached - RESERVED
  {
    hide RESERVED, CheckedMicros;
    KeysOwned();
    var t := s.Set(INSTALL_PLAN_ID, Text(planId), faults.write);
    OwnWrites(s.cached, INSTALL_PLAN_ID, Text(planId));
    OwnWrites(t.cached, INSTALL_PLAN_ID, Text(planId));
    OwnWrites(t.cached, UPDATE_FIRST_SEEN_TIME, Int(CheckedMicros(now).GetOr(0)));
  }

  lemma InstallUpdateUnseen<Q>(
    next: (Q, Act) -> Q, q: Q, env: Env, w: World, params: RequestParams, apps: seq<App>, plan: Plan, r: Response,
    i: CheckInput)
    requires IgnoresHandling(next, Fold(next, q, w.log), apps, Foreign(w))
    ensures Fold(next, q, InstallUpdate(env, w, params, apps, plan, r, i).world.log) == Fold(next, q, w.log)
    ensures Foreign(InstallUpdate(env, w, params, apps, plan, r, i).world) == Foreign(w)
  {
    hide Fold, ReportEvent, RecordFirstSeen, ReportInstalls, FinishInstall, VersionsOf, AppsWithUpdate, NoAppsFailed;
    EmitFolds(next, q);
    var next' := VersionsOf(AppsWithUpdate(r.apps));
    var w1 := Emit(w, ChangeTo(InstallingUpdate));
    ReportEventUnseen(next, q, env, w1, params, SuccessEvent(UpdateDownloadStarted), apps, i.sessionId, next', None,
                      i.events.first);
    var w2 := ReportEvent(env, w1, params, SuccessEvent(UpdateDownloadStarted), apps, i.sessionId, next', None,
                          i.events.first);
    RecordFirstSeenUnseen(next, q, w2, plan.id, i.installStart, i.seenFaults);
    var seen := RecordFirstSeen(w2, plan.id, i.installStart, i.seenFaults);
    var outcome := i.install(r);
    EmitAllUnseen(next, q, seen.world, ProgressActs(outcome.progress));
    var w3 := EmitAll(seen.world, ProgressActs(outcome.progress));
    var w4 := Emit(w3, PerformedInstall(plan, outcome.installResult, outcome.results));
    var w5 := ReportInstallDuration(w4, i.installStart, i.installFinish, NoAppsFailed(outcome.results));
    var d := InstallDuration(i.installStart, i.installFinish);
    ReportInstallsUnseen(next, q, env, w5, params, apps, r, outcome.results, d, i);
    var w6 := ReportInstalls(env, w5, params, apps, r, outcome.results, d, i);
    CountAppsWithUpdate(r.apps);
    FinishInstallUnseen(next, q, w6, plan, r, outcome, seen.value, i);
  }

  /** An observer who ignores everything that can come after an answer does not notice its handling. */
  lemma HandleResponseUnseen<Q>(
    next: (Q, Act) -> Q, q: Q, env: Env, w: World, params: RequestParams, apps: seq<App>, r: Response, i: CheckInput)
    requires IgnoresHandling(next, Fold(next, q, w.log), apps, Foreign(w))
    ensures Fold(next, q, HandleResponse(env, w, params, apps, r, i).world.log) == Fold(next, q, w.log)
    ensures Foreign(HandleResponse(env, w, params, apps, r, i).world) == Foreign(w)
  {
    hide Fold, ReportEvent, InstallUpdate, VersionsOf, AppsWithUpdate, SameAction;
    EmitFolds(next, q);
    var w1 := Emit(w, Yield(OmahaServerResponse(r)));
    var versions := VersionsOf(AppsWithUpdate(r.apps));
    match i.plan {
      case None =>
        var w2 := Emit(Emit(w1, ChangeTo(InstallingUpdate)), ChangeTo(InstallationError));
        ReportEventUnseen(next, q, env, w2, params, ErrorEvent(ConstructInstallPlan), apps, i.sessionId, versions, None,
                          i.events.first);
      case Some(plan) =>
        var w2 := Emit(w1, Query(UpdateCanStart(plan, i.planDecision)));
        ReportEventUnseen(next, q, env, w2, params, DEFERRED_EVENT, apps, i.sessionId, versions, None, i.events.first);
        ReportEventUnseen(next, q, env, w2, params, ErrorEvent(DeniedByPolicy), apps, i.sessionId, versions, None,
                          i.events.first);
        InstallUpdateUnseen(next, q, env, w2, params, apps, plan, r, i);
    }
  }

  lemma AttemptUnseen<Q>(
    next: (Q, Act) -> Q, q: Q, env: Env, w: World, params: RequestParams, apps: seq<App>, ops: seq<Op>, i: CheckInput,
    k: nat)
    requires OpsFrom(apps, ops)
    requires IgnoresAttempts(next, Fold(next, q, w.log), apps, Foreign(w))
    ensures Fold(next, q, Attempt(env, w, params, ops, i, k).world.log) == Fold(next, q, w.log)
    ensures Foreign(Attempt(env, w, params, ops, i, k).world) == Foreign(w)
  {
    hide Fold, DoRequest, RequestOf;
    EmitFolds(next, q);
    var a := i.attempts.At(k);
    RequestOfFrom(apps, env, params, ops, i.sessionId, a.request.requestId);
    RequestUnseen(next, q, w, ForCheck, apps, RequestOf(env, params, ops, i.sessionId, a.request.requestId), a.request);
  }

  lemma {:induction false} AttemptLoopUnseen<Q>(
    next: (Q, Act) -> Q, q: Q, env: Env, w: World, params: RequestParams, apps: seq<App>, ops: seq<Op>, i: CheckInput,
    k: nat)
    requires 1 <= k <= MAX_OMAHA_REQUEST_ATTEMPTS && OpsFrom(apps, ops)
    requires IgnoresAsking(next, Fold(next, q, w.log), apps, Foreign(w))
    ensures Fold(next, q, AttemptLoop(env, w, params, ops, i, k).world.log) == Fold(next, q, w.log)
    ensures Foreign(AttemptLoop(env, w, params, ops, i, k).world) == Foreign(w)
    decreases MAX_OMAHA_REQUEST_ATTEMPTS - k
  {
    hide Fold, Attempt, BackoffMillis;
    EmitFolds(next, q);
    AttemptUnseen(next, q, env, w, params, apps, ops, i, k);
    var s := Attempt(env, w, params, ops, i, k);
    if Retries(s.value, k, s.world.context.state.serverDictatedPollInterval) {
      var w1 := Emit(s.world, Waited(Backoff(BackoffMillis(k, i.attempts.At(k).random))));
      AttemptLoopUnseen(next, q, env, w1, params, apps, ops, i, k + 1);
    }
  }

  lemma PerformUpdateCheckUnseen<Q>(
    next: (Q, Act) -> Q, q: Q, env: Env, w: World, params: RequestParams, apps: seq<App>, i: CheckInput)
    requires IgnoresPerforming(next, Fold(next, q, w.log), apps, Foreign(w))
    ensures Fold(next, q, PerformUpdateCheck(env, w, params, apps, i).world.log) == Fold(next, q, w.log)
    ensures Foreign(PerformUpdateCheck(env, w, params, apps, i).world) == Foreign(w)
  {
    hide Fold, AttemptLoop, HandleResponse, ReportEvent, CheckOps, NoVersions;
    EmitFolds(next, q);
    var w1 := Emit(w, ChangeTo(CheckingForUpdates(params.source)));
    var w2 := ReportCheckInterval(w1, i.checkTime, params.source);
    CheckOpsFrom(apps);
    AttemptLoopUnseen(next, q, env, w2, params, apps, CheckOps(apps), i, 1);
    var s := AttemptLoop(env, w2, params, CheckOps(apps), i, 1);
    var w3 := Emit(s.world, Report(RequestsPerCheck(s.value.0, s.value.1.Success?)));
    match s.value.1 {
      case Failure(_) =>
      case Success(Malformed) =>
        var w4 := Emit(w3, ChangeTo(ErrorCheckingForUpdate));
        ReportEventUnseen(next, q, env, w4, params, ErrorEvent(ParseResponse), apps, i.sessionId,
                          NoVersions(apps), None, i.events.first);
      case Success(Parsed(r)) =>
        HandleResponseUnseen(next, q, env, w3, params, apps, r, i);
    }
  }

  lemma TakeResultUnseen<Q>(
    next: (Q, Act) -> Q, q: Q, w: World, apps: seq<App>, r: Performed, i: CheckInput)
    requires IgnoresChecks(next, Fold(next, q, w.log), apps)
    ensures Fold(next, q, TakeResult(w, r, i).log) == Fold(next, q, w.log)
  {
    hide Fold, InstallVerdict, UpdateApps, WrapI64, WrapU32, WrapU64, ReasonOf;
    EmitFolds(next, q);
  }

  lemma PersistDataUnseen<Q>(next: (Q, Act) -> Q, q: Q, env: Env, w: World, faults: Faults)
    requires forall a: Act :: a.Committed? ==> next(Fold(next, q, w.log), a) == Fold(next, q, w.log)
    ensures Fold(next, q, PersistData(env, w, faults).log) == Fold(next, q, w.log)
  {
    hide Fold;
    EmitFolds(next, q);
  }

  /** Nothing a check does is seen by an observer who ignores checks. */
  lemma StartUpdateCheckUnseen<Q>(
    next: (Q, Act) -> Q, q: Q, env: Env, w: World, params: RequestParams, i: CheckInput)
    requires IgnoresChecks(next, Fold(next, q, w.log), w.apps)
    ensures Fold(next, q, StartUpdateCheck(env, w, params, i).world.log) == Fold(next, q, w.log)
  {
    hide Fold, PerformUpdateCheck, PersistData, TakeResult;
    EmitFolds(next, q);
    PerformUpdateCheckUnseen(next, q, env, w, params, w.apps, i);
    var s := PerformUpdateCheck(env, w, params, w.apps, i);
    TakeResultUnseen(next, q, s.world, w.apps, s.value, i);
    var w1 := TakeResult(s.world, s.value, i);
    var w2 := Emit(w1, Yield(ScheduleChange(w1.context.schedule)));
    var w3 := Emit(w2, Yield(ProtocolStateChange(w2.context.state)));
    var w4 := Emit(w3, Yield(UpdateCheckResult(ResultOf(s.value))));
    PersistDataUnseen(next, q, env, w4, i.persistFaults);
  }

  lemma PingUnseen<Q>(next: (Q, Act) -> Q, q: Q, env: Env, w: World, p: PingInput)
    requires IgnoresPings(next, Fold(next, q, w.log), w.apps)
    ensures Fold(next, q, PingOmaha(env, w, p).log) == Fold(next, q, w.log)
  {
    hide Fold, DoRequest, RequestOf, PingOps, PersistData, UpdateApps, WrapU32;
    EmitFolds(next, q);
    var request := RequestOf(env, PING_PARAMS, PingOps(w.apps), p.sessionId, p.request.requestId);
    PingOpsFrom(w.apps);
    RequestOfFrom(w.apps, env, PING_PARAMS, PingOps(w.apps), p.sessionId, p.request.requestId);
    RequestUnseen(next, q, w, ForPing, w.apps, request, p.request);
    var s := DoRequest(w, ForPing, request, p.request);
    match s.value {
      case Success(Parsed(r)) =>
        var w1 := s.world.WithState(s.world.context.state.(consecutiveFailedUpdateChecks := 0));
        var w2 := TalkedToOmaha(w1, p.endTime);
        var w3 := Emit(w2, Yield(ScheduleChange(w2.context.schedule)));
        var w4 := w3.(apps := UpdateApps(w3.apps, SameAction(r, NoUpdate)));
        PersistDataUnseen(next, q, env, w4, p.persistFaults);
      case _ =>
        PersistDataUnseen(next, q, env, CountFailure(s.world), p.persistFaults);
    }
  }

  predicate StillChecking(ok: bool, a: Act) {
    ok && OfCheck(a)
  }

  lemma {:induction false} FoldStillChecking(log: seq<Act>)
    requires Fold(StillChecking, true, log)
    ensures forall a :: a in log ==> OfCheck(a)
  {
    if log != [] {
      FoldStillChecking(log[..|log| - 1]);
      assert log == log[..|log| - 1] + [log[|log| - 1]];
    }
  }

  /** Everything a check shows is of its class. */
  lemma CheckShowsOnlyChecks(env: Env, w: World, params: RequestParams, i: CheckInput)
    requires w.log == []
    ensures forall a :: a in StartUpdateCheck(env, w, params, i).world.log ==> OfCheck(a)
  {
    hide StartUpdateCheck;
    StartUpdateCheckUnseen(StillChecking, true, env, w, params, i);
    FoldStillChecking(StartUpdateCheck(env, w, params, i).world.log);
  }
}
