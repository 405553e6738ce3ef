/** Reporting events to the server is best effort: how the reports turn out changes nothing but the
    metrics about lost events and the poll interval a server may dictate in its answer. */
module BestEffort {
  import opened Wrappers
  import opened MachineInts
  import opened Clock
  import opened Protocol
  import opened Storage
  import opened CheckContext
  import opened AppSet
  import opened RequestBuilder
  import opened Trace
  import opened UpdateFlow
  import opened Observers

  /** What is kept of a record when the reports themselves, the loss of their events, changes of the
      protocol state and commits are left out. */
  function Erase(kept: seq<Act>, a: Act): seq<Act> {
    if OfReporting(a) then kept else kept + [a]
  }

  /** Everything about the client that event reports must not touch. */
  datatype Core = Core(context: Context, cached: map<string, Value>, apps: seq<App>, record: seq<Act>)

  ghost function CoreOf(w: World): Core {
    Core(
      w.context.(state := w.context.state.(serverDictatedPollInterval := None)),
      w.store.cached - CONTEXT_KEYS,
      w.apps,
      Fold(Erase, [], w.log))
  }

  lemma PersistContextOutsideItsKeys(s: Store, c: Context, faults: Faults)
    ensures PersistContext(s, c, faults).cached - CONTEXT_KEYS == s.cached - CONTEXT_KEYS
  {
    hide PersistContext;
    PersistContextForeign(s, c, faults);
    var m := PersistContext(s, c, faults).cached;
    forall k | k !in CONTEXT_KEYS
      ensures (k in m <==> k in s.cached) && (k in m ==> m[k] == s.cached[k])
    {
      assert SameAt(m, s.cached, k);
    }
  }

  lemma CommitKeepsCore(w: World, faults: Faults)
    ensures CoreOf(CommitStore(w, faults)) == CoreOf(w)
  {
    hide Fold;
    EmitFolds(Erase, []);
  }

  lemma NotePollIntervalKeepsCore(w: World, poll: Option<Duration>, faults: Faults)
    ensures CoreOf(NotePollInterval(w, poll, faults)) == CoreOf(w)
  {
    hide Fold, PersistContext, CommitStore;
    EmitFolds(Erase, []);
    var w1 := w.WithState(w.context.state.(serverDictatedPollInterval := poll));
    var w2 := Emit(w1, Yield(ProtocolStateChange(w1.context.state)));
    PersistContextOutsideItsKeys(w2.store, w2.context, faults);
    CommitKeepsCore(w2.(store := PersistContext(w2.store, w2.context, faults)), faults);
  }

  lemma RequestKeepsCore(w: World, request: Intermediate, input: RequestInput)
    ensures CoreOf(DoRequest(w, ForEvent, request, input).world) == CoreOf(w)
  {
    hide Fold, NotePollInterval, ParseRetryAfter;
    EmitFolds(Erase, []);
    match input.reply {
      case Responded(_, _, retryAfter, _) =>
        NotePollIntervalKeepsCore(Emit(w, Sent(ForEvent, request)), ParseRetryAfter(retryAfter), input.faults);
      case _ =>
    }
  }

  lemma ReportEventKeepsCore(
    env: Env, w: World, params: RequestParams, event: Event, apps: seq<App>, sessionId: GUID,
    versions: NextVersions, d: Option<Duration>, input: RequestInput)
    ensures CoreOf(ReportEvent(env, w, params, event, apps, sessionId, versions, d, input)) == CoreOf(w)
  {
    hide Fold, DoRequest, RequestOf, EventOps;
    EmitFolds(Erase, []);
    RequestKeepsCore(w, RequestOf(env, params, EventOps(event, apps, versions, d), sessionId, input.requestId), input);
  }

  lemma ReportInstallsKeepsCore(
    env: Env, w: World, params: RequestParams, apps: seq<App>, r: Response, results: seq<AppInstallResult>,
    d: Option<Duration>, i: CheckInput)
    ensures CoreOf(ReportInstalls(env, w, params, apps, r, results, d, i)) == CoreOf(w)
  {
    hide Fold, DoRequest, RequestOf, ReportEvent, LostEvents, InstallOps, InstalledApps, VersionsOf, AppsWithUpdate;
    var updates := AppsWithUpdate(r.apps);
    var ops := InstallOps(apps, updates, results, d);
    var request := RequestOf(env, params, ops, i.sessionId, i.events.installs.requestId);
    RequestKeepsCore(w, request, i.events.installs);
    var s := DoRequest(w, ForEvent, request, i.events.installs);
    LostEventsAreReporting(ops);
    EmitAllUnseen(Erase, [], s.world, LostEvents(ops));
    var w1 := if s.value.Failure? then EmitAll(s.world, LostEvents(ops)) else s.world;
    ReportEventKeepsCore(env, w1, params, SuccessEvent(UpdateComplete), InstalledApps(apps, updates, results),
                         i.sessionId, VersionsOf(updates), d, i.events.complete);
  }

  // Every other step takes equal cores to equal cores

  lemma EmitAlike(w: World, v: World, a: Act)
    requires CoreOf(w) == CoreOf(v)
    ensures CoreOf(Emit(w, a)) == CoreOf(Emit(v, a))
  {
    hide Fold;
    EmitFolds(Erase, []);
  }

  lemma EmitAllAlike(w: World, v: World, acts: seq<Act>)
    requires CoreOf(w) == CoreOf(v)
    ensures CoreOf(EmitAll(w, acts)) == CoreOf(EmitAll(v, acts))
  {
    hide Fold;
    FoldConcat(Erase, [], w.log, acts);
    FoldConcat(Erase, [], v.log, acts);
  }

  /** Maps that agree outside some keys still do after the same change to both. */
  lemma MapsAlike(m: map<string, Value>, n: map<string, Value>, keys: set<string>, key: string, value: Value)
    requires m - keys == n - keys
    ensures m[key := value] - keys == n[key := value] - keys
    ensures m - {key} - keys == n - {key} - keys
    ensures key !in keys ==> (key in m <==> key in n) && (key in m ==> m[key] == n[key])
  {
    forall k | k !in keys
      ensures (k in m <==> k in n) && (k in m ==> m[k] == n[k])
    {
      assert k in m <==> k in m - keys;
      assert k in n <==> k in n - keys;
      assert k in m ==> m[k] == (m - keys)[k] && n[k] == (n - keys)[k];
    }
  }

  /** Outside the context's keys, equal caches read alike and stay equal when written alike. */
  lemma StoresAlike(s: Store, t: Store, key: string, value: Value, faults: Faults)
    requires s.cached - CONTEXT_KEYS == t.cached - CONTEXT_KEYS
    ensures s.Set(key, value, faults).cached - CONTEXT_KEYS == t.Set(key, value, faults).cached - CONTEXT_KEYS
    ensures s.Remove(key, faults).cached - CONTEXT_KEYS == t.Remove(key, faults).cached - CONTEXT_KEYS
    ensures key !in CONTEXT_KEYS ==>
              s.GetInt(key) == t.GetInt(key) && s.GetString(key) == t.GetString(key) && s.GetTime(key) == t.GetTime(key)
  {
    MapsAlike(s.cached, t.cached, CONTEXT_KEYS, key, value);
  }

  lemma TimesAlike(s: Store, t: Store, key: string, time: SystemTime, faults: Faults)
    requires s.cached - CONTEXT_KEYS == t.cached - CONTEXT_KEYS
    ensures s.SetTime(key, time, faults).cached - CONTEXT_KEYS == t.SetTime(key, time, faults).cached - CONTEXT_KEYS
  {
    match CheckedMicros(time) {
      case Some(m) => StoresAlike(s, t, key, Int(m), faults);
      case None => StoresAlike(s, t, key, Bool(false), faults);
    }
  }

  lemma ForeignKeys()
    ensures INSTALL_PLAN_ID !in CONTEXT_KEYS && UPDATE_FIRST_SEEN_TIME !in CONTEXT_KEYS
    ensures CONSECUTIVE_FAILED_INSTALL_ATTEMPTS !in CONTEXT_KEYS
  {
    assert INSTALL_PLAN_ID[0] == 'i' && UPDATE_FIRST_SEEN_TIME[0] == 'u';
    assert LAST_UPDATE_TIME[0] == 'l' && SERVER_DICTATED_POLL_INTERVAL[0] == 's';
    assert CONSECUTIVE_FAILED_UPDATE_CHECKS[0] == 'c';
    assert CONSECUTIVE_FAILED_UPDATE_CHECKS[19] == 'u' && CONSECUTIVE_FAILED_INSTALL_ATTEMPTS[19] == 'i';
    assert CONSECUTIVE_FAILED_INSTALL_ATTEMPTS[0] == 'c';
  }

  lemma CommitAlike(w: World, v: World, faults: Faults)
    requires CoreOf(w) == CoreOf(v)
    ensures CoreOf(CommitStore(w, faults)) == CoreOf(CommitStore(v, faults))
  {
    CommitKeepsCore(w, faults);
    CommitKeepsCore(v, faults);
  }

  lemma RecordFirstSeenAlike(w: World, v: World, planId: string, now: SystemTime, faults: SeenFaults)
    requires CoreOf(w) == CoreOf(v)
    ensures var s, t := RecordFirstSeen(w, planId, now, faults), RecordFirstSeen(v, planId, now, faults);
            s.value == t.value && CoreOf(s.world) == CoreOf(t.world)
  {
    hide Fold, CommitStore, CONTEXT_KEYS;
    ForeignKeys();
    StoresAlike(w.store, v.store, INSTALL_PLAN_ID, Text(planId), faults.write);
    StoresAlike(w.store, v.store, UPDATE_FIRST_SEEN_TIME, Text(planId), faults.write);
    var a := if w.store.GetString(INSTALL_PLAN_ID) == Some(planId)
             then FirstSeen(planId, now, w.store.GetTime(UPDATE_FIRST_SEEN_TIME).GetOr(now), false)
             else FirstSeen(planId, now, now, Torn(faults));
    EmitAlike(w, v, a);
    var s := w.store.Set(INSTALL_PLAN_ID, Text(planId), faults.write);
    var t := v.store.Set(INSTALL_PLAN_ID, Text(planId), faults.write);
    StoresAlike(s, t, INSTALL_PLAN_ID, Text(planId), faults.undo);
    TimesAlike(s, t, UPDATE_FIRST_SEEN_TIME, now, faults.write);
    CommitAlike(Emit(w, a).(store := s.SetTime(UPDATE_FIRST_SEEN_TIME, now, faults.write)),
                Emit(v, a).(store := t.SetTime(UPDATE_FIRST_SEEN_TIME, now, faults.write)), faults.write);
  }

  lemma RecordFinishAlike(w: World, v: World, finish: SystemTime, versions: NextVersions, faults: Faults)
    requires CoreOf(w) == CoreOf(v)
    ensures CoreOf(RecordFinish(w, finish, versions, faults)) == CoreOf(RecordFinish(v, finish, versions, faults))
  {
    hide Fold, CommitStore;
    TimesAlike(w.store, v.store, UPDATE_FINISH_TIME, finish, faults);
    var s := w.store.SetTime(UPDATE_FINISH_TIME, finish, faults);
    var t := v.store.SetTime(UPDATE_FINISH_TIME, finish, faults);
    if w.apps != [] && w.apps[0].id in versions {
      var target := Text(versions[w.apps[0].id].GetOr("UNKNOWN"));
      StoresAlike(s, t, TARGET_VERSION, target, faults);
      s, t := s.Set(TARGET_VERSION, target, faults), t.Set(TARGET_VERSION, target, faults);
    }
    CommitAlike(w.(store := s), v.(store := t), faults);
  }

  lemma FinishInstallAlike(
    w: World, v: World, plan: Plan, r: Response, outcome: InstallOutcome, since: SystemTime, i: CheckInput,
    j: CheckInput)
    requires |outcome.results| == CountUpdates(r.apps)
    requires CoreOf(w) == CoreOf(v) && i == j.(events := i.events)
    ensures var s, t := FinishInstall(w, plan, r, outcome, since, i), FinishInstall(v, plan, r, outcome, since, j);
            s.value == t.value && CoreOf(s.world) == CoreOf(t.world)
  {
    hide CoreOf, WalkResults, ErrorsOf, VersionsOf, AppsWithUpdate, RecordFinish, Fold;
    var errors := ErrorsOf(outcome.results);
    if errors != [] {
      EmitAllAlike(w, v, ErrorActs(errors));
      EmitAlike(EmitAll(w, ErrorActs(errors)), EmitAll(v, ErrorActs(errors)), ChangeTo(InstallationError));
    } else {
      var w1, v1 := w, v;
      if since <= i.installFinish {
        var a := Report(SuccessfulUpdateFromFirstSeen(i.installFinish - since));
        EmitAlike(w, v, a);
        w1, v1 := Emit(w, a), Emit(v, a);
      }
      var versions := VersionsOf(AppsWithUpdate(r.apps));
      RecordFinishAlike(w1, v1, i.installFinish, versions, i.finishFaults);
      EmitAlike(RecordFinish(w1, i.installFinish, versions, i.finishFaults),
                RecordFinish(v1, i.installFinish, versions, i.finishFaults),
                Query(RebootNeeded(plan, i.rebootNeeded)));
    }
  }

  lemma InstallUpdateAlike(
    env: Env, w: World, v: World, params: RequestParams, apps: seq<App>, plan: Plan, r: Response, i: CheckInput,
    j: CheckInput)
    requires CoreOf(w) == CoreOf(v) && i == j.(events := i.events)
    ensures var s := InstallUpdate(env, w, params, apps, plan, r, i);
            var t := InstallUpdate(env, v, params, apps, plan, r, j);
            s.value == t.value && CoreOf(s.world) == CoreOf(t.world)
  {
    hide CoreOf, ReportEvent, RecordFirstSeen, ReportInstalls, FinishInstall, VersionsOf, AppsWithUpdate, NoAppsFailed,
      ProgressActs;
    var versions := VersionsOf(AppsWithUpdate(r.apps));
    var started := SuccessEvent(UpdateDownloadStarted);
    var w1, v1 := Emit(w, ChangeTo(InstallingUpdate)), Emit(v, ChangeTo(InstallingUpdate));
    EmitAlike(w, v, ChangeTo(InstallingUpdate));
    ReportEventKeepsCore(env, w1, params, started, apps, i.sessionId, versions, None, i.events.first);
    ReportEventKeepsCore(env, v1, params, started, apps, i.sessionId, versions, None, j.events.first);
    var w2 := ReportEvent(env, w1, params, started, apps, i.sessionId, versions, None, i.events.first);
    var v2 := ReportEvent(env, v1, params, started, apps, i.sessionId, versions, None, j.events.first);
    RecordFirstSeenAlike(w2, v2, plan.id, i.installStart, i.seenFaults);
    var seen := RecordFirstSeen(w2, plan.id, i.installStart, i.seenFaults);
    var seen' := RecordFirstSeen(v2, plan.id, i.installStart, i.seenFaults);
    var outcome := i.install(r);
    var acts := ProgressActs(outcome.progress);
    EmitAllAlike(seen.world, seen'.world, acts);
    var w3, v3 := EmitAll(seen.world, acts), EmitAll(seen'.world, acts);
    var done := PerformedInstall(plan, outcome.installResult, outcome.results);
    EmitAlike(w3, v3, done);
    var w4, v4 := Emit(w3, done), Emit(v3, done);
    var clean := NoAppsFailed(outcome.results);
    var w5 := ReportInstallDuration(w4, i.installStart, i.installFinish, clean);
    var v5 := ReportInstallDuration(v4, i.installStart, i.installFinish, clean);
    if i.installStart <= i.installFinish {
      var took := i.installFinish - i.installStart;
      EmitAlike(w4, v4, Report(if clean then SuccessfulUpdateDuration(took) else FailedUpdateDuration(took)));
    }
    var d := InstallDuration(i.installStart, i.installFinish);
    ReportInstallsKeepsCore(env, w5, params, apps, r, outcome.results, d, i);
    ReportInstallsKeepsCore(env, v5, params, apps, r, outcome.results, d, j);
    CountAppsWithUpdate(r.apps);
    FinishInstallAlike(ReportInstalls(env, w5, params, apps, r, outcome.results, d, i),
                       ReportInstalls(env, v5, params, apps, r, outcome.results, d, j),
                       plan, r, outcome, seen.value, i, j);
  }

  lemma HandleResponseAlike(
    env: Env, w: World, params: RequestParams, apps: seq<App>, r: Response, i: CheckInput, j: CheckInput)
    requires i == j.(events := i.events)
    ensures var s, t := HandleResponse(env, w, params, apps, r, i), HandleResponse(env, w, params, apps, r, j);
            s.value == t.value && CoreOf(s.world) == CoreOf(t.world)
  {
    hide CoreOf, ReportEvent, InstallUpdate, VersionsOf, AppsWithUpdate, SameAction;
    var w1 := Emit(w, Yield(OmahaServerResponse(r)));
    var versions := VersionsOf(AppsWithUpdate(r.apps));
    match i.plan {
      case None =>
        var w2 := Emit(Emit(w1, ChangeTo(InstallingUpdate)), ChangeTo(InstallationError));
        var event := ErrorEvent(ConstructInstallPlan);
        ReportEventKeepsCore(env, w2, params, event, apps, i.sessionId, versions, None, i.events.first);
        ReportEventKeepsCore(env, w2, params, event, apps, i.sessionId, versions, None, j.events.first);
      case Some(plan) =>
        var w2 := Emit(w1, Query(UpdateCanStart(plan, i.planDecision)));
        var event := if i.planDecision.UpdateDeferredByPolicy? then DEFERRED_EVENT else ErrorEvent(DeniedByPolicy);
        ReportEventKeepsCore(env, w2, params, event, apps, i.sessionId, versions, None, i.events.first);
        ReportEventKeepsCore(env, w2, params, event, apps, i.sessionId, versions, None, j.events.first);
        EmitAlike(ReportEvent(env, w2, params, event, apps, i.sessionId, versions, None, i.events.first),
                  ReportEvent(env, w2, params, event, apps, i.sessionId, versions, None, j.events.first),
                  ChangeTo(InstallationDeferredByPolicy));
        InstallUpdateAlike(env, w2, w2, params, apps, plan, r, i, j);
    }
  }

  /** The requests for updates do not depend on how events are going to be reported. */
  lemma {:induction false} AttemptLoopSame(
    env: Env, w: World, params: RequestParams, ops: seq<Op>, i: CheckInput, j: CheckInput, k: nat)
    requires 1 <= k <= MAX_OMAHA_REQUEST_ATTEMPTS
    requires i == j.(events := i.events)
    ensures AttemptLoop(env, w, params, ops, i, k) == AttemptLoop(env, w, params, ops, j, k)
    decreases MAX_OMAHA_REQUEST_ATTEMPTS - k
  {
    hide DoRequest, RequestOf, BackoffMillis;
    var s := Attempt(env, w, params, ops, i, k);
    if Retries(s.value, k, s.world.context.state.serverDictatedPollInterval) {
      var w1 := Emit(s.world, Waited(Backoff(BackoffMillis(k, i.attempts.At(k).random))));
      AttemptLoopSame(env, w1, params, ops, i, j, k + 1);
    }
  }

  lemma PerformAlike(
    env: Env, w: World, params: RequestParams, apps: seq<App>, i: CheckInput, j: CheckInput)
    requires i == j.(events := i.events)
    ensures var s, t := PerformUpdateCheck(env, w, params, apps, i), PerformUpdateCheck(env, w, params, apps, j);
            s.value == t.value && CoreOf(s.world) == CoreOf(t.world)
  {
    hide CoreOf, AttemptLoop, HandleResponse, ReportEvent, ReportCheckInterval, CheckOps, NoVersions;
    var w1 := Emit(w, ChangeTo(CheckingForUpdates(params.source)));
    var w2 := ReportCheckInterval(w1, i.checkTime, params.source);
    AttemptLoopSame(env, w2, params, CheckOps(apps), i, j, 1);
    var s := AttemptLoop(env, w2, params, CheckOps(apps), i, 1);
    var w3 := Emit(s.world, Report(RequestsPerCheck(s.value.0, s.value.1.Success?)));
    match s.value.1 {
      case Failure(_) =>
      case Success(Malformed) =>
        var w4 := Emit(w3, ChangeTo(ErrorCheckingForUpdate));
        var event := ErrorEvent(ParseResponse);
        ReportEventKeepsCore(env, w4, params, event, apps, i.sessionId, NoVersions(apps), None, i.events.first);
        ReportEventKeepsCore(env, w4, params, event, apps, i.sessionId, NoVersions(apps), None, j.events.first);
      case Success(Parsed(r)) =>
        HandleResponseAlike(env, w3, params, apps, r, i, j);
    }
  }

  lemma InstallAttemptsAlike(w: World, v: World, success: bool, faults: Faults)
    requires CoreOf(w) == CoreOf(v)
    ensures CoreOf(ReportInstallAttempts(w, success, faults)) == CoreOf(ReportInstallAttempts(v, success, faults))
  {
    hide Fold, WrapI64, WrapU64, CONTEXT_KEYS;
    ForeignKeys();
    StoresAlike(w.store, v.store, CONSECUTIVE_FAILED_INSTALL_ATTEMPTS, Bool(true), faults);
    var attempts := WrapI64(w.store.GetInt(CONSECUTIVE_FAILED_INSTALL_ATTEMPTS).GetOr(0) + 1);
    StoresAlike(w.store, v.store, CONSECUTIVE_FAILED_INSTALL_ATTEMPTS, Int(attempts), faults);
    EmitAlike(w, v, Report(AttemptsToSuccessfulInstall(WrapU64(attempts), success)));
  }

  lemma TakeResultAlike(w: World, v: World, p: Performed, i: CheckInput, j: CheckInput)
    requires CoreOf(w) == CoreOf(v) && i == j.(events := i.events)
    ensures CoreOf(TakeResult(w, p, i)) == CoreOf(TakeResult(v, p, j))
  {
    hide Fold, InstallVerdict, UpdateApps, ReportInstallAttempts, WrapU32, CONTEXT_KEYS, ReasonOf;
    EmitFolds(Erase, []);
    if p.Success? {
      var responses := p.value.0;
      var w1 := ReportCheckAttempts(TalkedToOmaha(w, i.endTime), true);
      var v1 := ReportCheckAttempts(TalkedToOmaha(v, i.endTime), true);
      var w2, v2 := w1.(apps := UpdateApps(w1.apps, responses)), v1.(apps := UpdateApps(v1.apps, responses));
      assert CoreOf(w2) == CoreOf(v2);
      if InstallVerdict(responses).Some? {
        InstallAttemptsAlike(w2, v2, InstallVerdict(responses).value, i.countFaults);
      }
    }
  }

  lemma {:induction false} PersistAppsAlike(
    s: Store, t: Store, apps: seq<App>, codec: Codec, faults: Faults, keys: set<string>)
    requires s.cached - keys == t.cached - keys
    ensures PersistApps(s, apps, codec, faults).cached - keys == PersistApps(t, apps, codec, faults).cached - keys
  {
    if apps != [] {
      var before, app := apps[..|apps| - 1], apps[|apps| - 1];
      PersistAppsAlike(s, t, before, codec, faults, keys);
      var json := codec.encode(PersistedApp(app.cohort, app.userCounting)).GetOr("");
      MapsAlike(PersistApps(s, before, codec, faults).cached, PersistApps(t, before, codec, faults).cached, keys,
                app.id, Text(json));
    }
  }

  lemma PersistContextAgrees(s: Store, t: Store, c: Context, d: Context)
    requires s.cached - CONTEXT_KEYS == t.cached - CONTEXT_KEYS
    requires c.(state := c.state.(serverDictatedPollInterval := None))
          == d.(state := d.state.(serverDictatedPollInterval := None))
    ensures PersistContext(s, c, NO_FAULTS).cached - {SERVER_DICTATED_POLL_INTERVAL}
         == PersistContext(t, d, NO_FAULTS).cached - {SERVER_DICTATED_POLL_INTERVAL}
  {
    hide PersistContext, StoredTime, StoredPollInterval, StoredFailures;
    PersistContextWrites(s, c);
    PersistContextWrites(t, d);
    var a, b := PersistContext(s, c, NO_FAULTS).cached, PersistContext(t, d, NO_FAULTS).cached;
    forall k | k != SERVER_DICTATED_POLL_INTERVAL
      ensures (k in a <==> k in b) && (k in a ==> a[k] == b[k])
    {
      MapsAlike(s.cached, t.cached, CONTEXT_KEYS, k, Bool(true));
      assert k in CONTEXT_KEYS || (SameAt(a, s.cached, k) && SameAt(b, t.cached, k));
    }
    assert a - {SERVER_DICTATED_POLL_INTERVAL} == b - {SERVER_DICTATED_POLL_INTERVAL};
  }

  function DurableButPoll(w: World): map<string, Value> {
    w.store.durable - {SERVER_DICTATED_POLL_INTERVAL}
  }

  lemma PersistDataAlike(env: Env, w: World, v: World, faults: Faults)
    requires CoreOf(w) == CoreOf(v)
    ensures CoreOf(PersistData(env, w, faults)) == CoreOf(PersistData(env, v, faults))
    ensures faults == NO_FAULTS ==>
              DurableButPoll(PersistData(env, w, faults)) == DurableButPoll(PersistData(env, v, faults))
  {
    hide Fold, PersistContext, PersistApps;
    var s, t := PersistContext(w.store, w.context, faults), PersistContext(v.store, v.context, faults);
    PersistContextOutsideItsKeys(w.store, w.context, faults);
    PersistContextOutsideItsKeys(v.store, v.context, faults);
    PersistAppsAlike(s, t, w.apps, env.codec, faults, CONTEXT_KEYS);
    CommitAlike(w.(store := PersistApps(s, w.apps, env.codec, faults)),
                v.(store := PersistApps(t, v.apps, env.codec, faults)), faults);
    if faults == NO_FAULTS {
      PersistContextAgrees(w.store, v.store, w.context, v.context);
      PersistAppsAlike(s, t, w.apps, env.codec, faults, {SERVER_DICTATED_POLL_INTERVAL});
    }
  }

  function StateChanges(log: seq<Act>): seq<State> {
    if log == [] then []
    else
      StateChanges(log[..|log| - 1]) +
      match log[|log| - 1]
      case Yield(StateChange(s)) => [s]
      case _ => []
  }

  lemma {:induction false} ErasingKeepsStates(log: seq<Act>)
    ensures StateChanges(Fold(Erase, [], log)) == StateChanges(log)
  {
    if log != [] {
      var before, last := log[..|log| - 1], log[|log| - 1];
      ErasingKeepsStates(before);
      var kept := Fold(Erase, [], before);
      if !OfReporting(last) {
        assert (kept + [last])[..|kept|] == kept;
      }
    }
  }

  /** Two checks that differ only in how their event reports turn out decide alike about the reboot,
      show the same states, and leave the same apps, context, cache and record, apart from the
      reports, the lost events, the poll interval and its events.  With storage that works at the
      end, what is durable differs at most in the stored poll interval. */
  lemma EventReportsAreBestEffort(
    env: Env, w: World, params: RequestParams, i: CheckInput, one: EventInputs, other: EventInputs)
    ensures var s := StartUpdateCheck(env, w, params, i.(events := one));
            var t := StartUpdateCheck(env, w, params, i.(events := other));
            && s.value == t.value
            && StateChanges(s.world.log) == StateChanges(t.world.log)
            && CoreOf(s.world) == CoreOf(t.world)
            && (i.persistFaults == NO_FAULTS ==> DurableButPoll(s.world) == DurableButPoll(t.world))
  {
    hide CoreOf, PerformUpdateCheck, PersistData, TakeResult, Fold;
    var a, b := i.(events := one), i.(events := other);
    PerformAlike(env, w, params, w.apps, a, b);
    var s := PerformUpdateCheck(env, w, params, w.apps, a);
    var t := PerformUpdateCheck(env, w, params, w.apps, b);
    TakeResultAlike(s.world, t.world, s.value, a, b);
    var w1, v1 := TakeResult(s.world, s.value, a), TakeResult(t.world, t.value, b);
    YieldsAlike(w1, v1, ResultOf(s.value));
    var w4, v4 := Announce(w1, ResultOf(s.value)), Announce(v1, ResultOf(s.value));
    PersistDataAlike(env, w4, v4, i.persistFaults);
    SameStates(PersistData(env, w4, i.persistFaults), PersistData(env, v4, i.persistFaults));
  }

  lemma YieldsAlike(w: World, v: World, r: CheckResult)
    requires CoreOf(w) == CoreOf(v)
    ensures CoreOf(Announce(w, r)) == CoreOf(Announce(v, r))
  {
    hide Fold;
    EmitFolds(Erase, []);
  }

  lemma SameStates(w: World, v: World)
    requires CoreOf(w) == CoreOf(v)
    ensures StateChanges(w.log) == StateChanges(v.log)
  {
    ErasingKeepsStates(w.log);
    ErasingKeepsStates(v.log);
  }
}
