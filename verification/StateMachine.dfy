/** The client as the object it is: a context, storage and apps that its methods update step by
    step.  Every method is proved to do exactly what its function in `UpdateFlow` or `ClientRun`
    says, to the state, to storage and to the record. */
module StateMachine {
  import opened Wrappers
  import opened MachineInts
  import opened Clock
  import opened Protocol
  import opened Storage
  import opened CheckContext
  import opened AppSet
  import opened Trace
  import Flow = UpdateFlow
  import Loop = ClientRun
  import Builders = RequestBuilder

  class StateMachine {
    const env: Flow.Env
    var context: Context
    const storage: MemStorage
    const appSet: VecAppSet
    ghost var log: seq<Act>

    ghost predicate Valid()
      reads this, storage
    {
      storage.Valid()
    }

    ghost function Current(): Flow.World
      reads this, storage, appSet
    {
      Flow.World(context, storage.Contents(), appSet.apps, log)
    }

    /** `StateMachineBuilder::build` on storage that was just opened. */
    constructor (env: Flow.Env, storage: MemStorage, appSet: VecAppSet, ghost log: seq<Act>)
      requires storage.Valid() && storage.committed
      modifies appSet
      ensures Valid() && this.env == env && this.storage == storage && this.appSet == appSet
      ensures Current() ==
              Loop.Boot(env, Flow.World(context, old(storage.Contents()), old(appSet.apps), log), old(appSet.apps))
    {
      this.env := env;
      this.storage := storage;
      this.appSet := appSet;
      new;
      appSet.Load(storage, env.codec);
      context := CheckContext.Load(storage);
      this.log := log + [Booted];
    }

    ghost method Emit(a: Act)
      requires Valid()
      modifies this`log
      ensures Valid()
      ensures Current() == Flow.Emit(old(Current()), a)
    {
      log := log + [a];
    }

    method CommitStore(faults: Faults)
      requires Valid()
      modifies this`log, storage
      ensures Valid()
      ensures Current() == Flow.CommitStore(old(Current()), faults)
    {
      var ok := storage.Commit(faults);
      if ok {
        Emit(Committed(storage.data));
      }
    }

    // Requests

    method DoRequest(purpose: Purpose, builder: Builders.RequestBuilder, input: Flow.RequestInput)
      returns (r: RequestResult)
      requires Valid()
      modifies this`context, this`log, storage
      ensures Valid()
      ensures var s := Flow.DoRequest(old(Current()), purpose, builder.Contents().Build(), input);
              Current() == s.world && r == s.value
    {
      var request := builder.Build();
      match input.reply {
        case BuildFailed(e) =>
          r := Failure(Flow.FromBuildError(e));
        case TransportFailed(user) =>
          Emit(Sent(purpose, request));
          r := Failure(HttpTransport(user));
        case Responded(cupValid, status, retryAfter, body) =>
          Emit(Sent(purpose, request));
          if !cupValid {
            r := Failure(CupValidationError);
          } else {
            var poll := Flow.ParseRetryAfter(retryAfter);
            if context.state.serverDictatedPollInterval != poll {
              context := context.(state := context.state.(serverDictatedPollInterval := poll));
              Emit(Yield(ProtocolStateChange(context.state)));
              CheckContext.Persist(context, storage, input.faults);
              CommitStore(input.faults);
            }
            r := if Flow.IsSuccess(status) then Success(body) else Failure(HttpStatus(status));
          }
      }
      Emit(Concluded(purpose, r));
    }

    /** The loop over the apps in `report_omaha_event_and_update_context`. */
    method EventBuilder(
      params: RequestParams, event: Event, apps: seq<App>, next: Flow.NextVersions, d: Option<Duration>)
      returns (builder: Builders.RequestBuilder)
      ensures fresh(builder)
      ensures builder.Contents() == Builders.NewBuilder(env.config, params).(
                entries := Builders.ApplyOps(params, Flow.EventOps(event, apps, next, d)))
    {
      builder := new Builders.RequestBuilder(env.config, params);
      ghost var empty := builder.Contents();
      var k := 0;
      while k < |apps|
        invariant 0 <= k <= |apps| && fresh(builder)
        invariant builder.Contents() == empty.(
                    entries := Builders.ApplyOps(params, Flow.EventOps(event, apps[..k], next, d)))
      {
        ghost var ops := Flow.EventOps(event, apps[..k], next, d);
        assert apps[..k + 1][..k] == apps[..k];
        if apps[k].id in next {
          var op := Builders.AddEvent(apps[k], Flow.FillEvent(event, apps[k], next[apps[k].id], d));
          Builders.ApplyOpsSnoc(params, ops, op);
          builder.InsertAndModifyEntry(op);
          assert Flow.EventOps(event, apps[..k + 1], next, d) == ops + [op];
        } else {
          assert Flow.EventOps(event, apps[..k + 1], next, d) == ops;
        }
        k := k + 1;
      }
      assert apps[..k] == apps;
    }

    /** The loop over the apps in `perform_update_check`. */
    method CheckBuilder(params: RequestParams, apps: seq<App>) returns (builder: Builders.RequestBuilder)
      ensures fresh(builder)
      ensures builder.Contents() == Builders.NewBuilder(env.config, params).(
                entries := Builders.ApplyOps(params, Flow.CheckOps(apps)))
    {
      builder := new Builders.RequestBuilder(env.config, params);
      ghost var empty := builder.Contents();
      var k := 0;
      while k < |apps|
        invariant 0 <= k <= |apps| && fresh(builder)
        invariant builder.Contents() == empty.(entries := Builders.ApplyOps(params, Flow.CheckOps(apps[..k])))
      {
        assert apps[..k + 1][..k] == apps[..k];
        var check, ping := Builders.AddUpdateCheck(apps[k]), Builders.AddPing(apps[k]);
        ghost var ops := Flow.CheckOps(apps[..k]);
        Builders.ApplyOpsSnoc(params, ops, check);
        Builders.ApplyOpsSnoc(params, ops + [check], ping);
        builder.InsertAndModifyEntry(check);
        builder.InsertAndModifyEntry(ping);
        assert Flow.CheckOps(apps[..k + 1]) == ops + [check] + [ping];
        k := k + 1;
      }
      assert apps[..k] == apps;
    }

    /** The loop over the apps in `ping_omaha`. */
    method PingBuilder(apps: seq<App>) returns (builder: Builders.RequestBuilder)
      ensures fresh(builder)
      ensures builder.Contents() == Builders.NewBuilder(env.config, Flow.PING_PARAMS).(
                entries := Builders.ApplyOps(Flow.PING_PARAMS, Flow.PingOps(apps)))
    {
      builder := new Builders.RequestBuilder(env.config, Flow.PING_PARAMS);
      ghost var empty := builder.Contents();
      var k := 0;
      while k < |apps|
        invariant 0 <= k <= |apps| && fresh(builder)
        invariant builder.Contents() == empty.(
                    entries := Builders.ApplyOps(Flow.PING_PARAMS, Flow.PingOps(apps[..k])))
      {
        assert Flow.PingOps(apps[..k + 1]) == Flow.PingOps(apps[..k]) + [Builders.AddPing(apps[k])];
        Builders.ApplyOpsSnoc(Flow.PING_PARAMS, Flow.PingOps(apps[..k]), Builders.AddPing(apps[k]));
        builder.InsertAndModifyEntry(Builders.AddPing(apps[k]));
        k := k + 1;
      }
      assert apps[..k] == apps;
    }

    method ReportEvent(
      params: RequestParams, event: Event, apps: seq<App>, sessionId: GUID, next: Flow.NextVersions,
      d: Option<Duration>, input: Flow.RequestInput)
      requires Valid()
      modifies this`context, this`log, storage
      ensures Valid()
      ensures Current() == Flow.ReportEvent(env, old(Current()), params, event, apps, sessionId, next, d, input)
    {
      var builder := EventBuilder(params, event, apps, next, d);
      builder.SetSessionId(sessionId);
      builder.SetRequestId(input.requestId);
      var r := DoRequest(ForEvent, builder, input);
      if r.Failure? {
        Emit(Report(OmahaEventLost(event)));
      }
    }

    // Asking for updates

    method ReportCheckInterval(now: ComplexTime, source: InstallSource)
      requires Valid()
      modifies this`context, this`log
      ensures Valid()
      ensures Current() == Flow.ReportCheckInterval(old(Current()), now, source)
    {
      match context.schedule.lastUpdateCheckTime {
        case Some(Wall(t)) =>
          if t <= now.wall {
            Emit(Report(UpdateCheckInterval(now.wall - t, WallClock, source)));
          }
        case Some(Complex(t)) =>
          if t.mono <= now.mono {
            Emit(Report(UpdateCheckInterval(now.mono - t.mono, MonotonicClock, source)));
          }
        case _ =>
      }
      context := context.(schedule := context.schedule.(lastUpdateCheckTime := Some(Complex(now))));
    }

    method Attempt(
      builder: Builders.RequestBuilder, ghost params: RequestParams, ghost ops: seq<Builders.Op>, i: Flow.CheckInput,
      attempt: nat)
      returns (r: RequestResult)
      requires Valid()
      requires builder.Contents().(requestId := None) == Builders.NewBuilder(env.config, params).(
                 entries := Builders.ApplyOps(params, ops), sessionId := Some(i.sessionId))
      modifies this`context, this`log, storage, builder`requestId
      ensures Valid()
      ensures var s := Flow.Attempt(env, old(Current()), params, ops, i, attempt);
              Current() == s.world && r == s.value
    {
      hide Flow.DoRequest, Builders.ApplyOps, Builders.Builder.Build;
      var a := i.attempts.At(attempt);
      builder.SetRequestId(a.request.requestId);
      r := DoRequest(ForCheck, builder, a.request);
      if a.start <= a.end {
        Emit(Report(UpdateCheckResponseTime(a.end - a.start, r.Success?)));
      }
    }

    /** The request loop of `perform_update_check`. */
    method AskOmaha(params: RequestParams, apps: seq<App>, i: Flow.CheckInput)
      returns (attempt: nat, r: RequestResult)
      requires Valid()
      modifies this`context, this`log, storage
      ensures Valid()
      ensures var s := Flow.AttemptLoop(env, old(Current()), params, Flow.CheckOps(apps), i, 1);
              Current() == s.world && (attempt, r) == s.value
    {
      hide Flow.Attempt, Flow.CheckOps, Flow.BackoffMillis, Builders.ApplyOps, Builders.Builder.Build;
      var builder := CheckBuilder(params, apps);
      builder.SetSessionId(i.sessionId);
      ghost var ops := Flow.CheckOps(apps);
      attempt := 1;
      while true
        invariant 1 <= attempt <= Flow.MAX_OMAHA_REQUEST_ATTEMPTS
        invariant Valid() && fresh(builder)
        invariant builder.Contents().(requestId := None) == Builders.NewBuilder(env.config, params).(
                    entries := Builders.ApplyOps(params, ops), sessionId := Some(i.sessionId))
        invariant Flow.AttemptLoop(env, old(Current()), params, ops, i, 1)
               == Flow.AttemptLoop(env, Current(), params, ops, i, attempt)
        decreases Flow.MAX_OMAHA_REQUEST_ATTEMPTS - attempt
      {
        r := Attempt(builder, params, ops, i, attempt);
        if r.Success? {
          return;
        }
        var giveUp :=
          match r.error
          case HttpTransport(user) =>
            attempt >= Flow.MAX_OMAHA_REQUEST_ATTEMPTS || user || context.state.serverDictatedPollInterval.Some?
          case HttpStatus(_) =>
            attempt >= Flow.MAX_OMAHA_REQUEST_ATTEMPTS || context.state.serverDictatedPollInterval.Some?
          case _ => true;
        if giveUp {
          Emit(ChangeTo(ErrorCheckingForUpdate));
          return;
        }
        Emit(Waited(Backoff(Flow.BackoffMillis(attempt, i.attempts.At(attempt).random))));
        attempt := attempt + 1;
      }
    }

    // Installing

    method RecordFirstSeen(planId: string, now: SystemTime, faults: Flow.SeenFaults) returns (since: SystemTime)
      requires Valid()
      modifies this`log, storage
      ensures Valid()
      ensures var s := Flow.RecordFirstSeen(old(Current()), planId, now, faults);
              Current() == s.world && since == s.value
    {
      var previous := storage.GetString(Flow.INSTALL_PLAN_ID);
      if previous == Some(planId) {
        var stored := storage.GetTime(Flow.UPDATE_FIRST_SEEN_TIME);
        since := stored.GetOr(now);
        Emit(FirstSeen(planId, now, since, false));
        return;
      }
      since := now;
      Emit(FirstSeen(planId, now, now, Flow.Torn(faults)));
      var ok := storage.Set(Flow.INSTALL_PLAN_ID, Text(planId), faults.write);
      if !ok {
        return;
      }
      ok := storage.SetTime(Flow.UPDATE_FIRST_SEEN_TIME, now, faults.write);
      if !ok {
        var _ := storage.Remove(Flow.INSTALL_PLAN_ID, faults.undo);
        return;
      }
      CommitStore(faults.write);
    }

    /** The loop over the updated apps and their results, side by side. */
    method InstallsBuilder(
      params: RequestParams, apps: seq<App>, updates: seq<ResponseApp>, results: seq<AppInstallResult>,
      d: Option<Duration>)
      returns (builder: Builders.RequestBuilder, ops: seq<Builders.Op>, installed: seq<App>)
      ensures fresh(builder)
      ensures builder.Contents() == Builders.NewBuilder(env.config, params).(
                entries := Builders.ApplyOps(params, ops))
      ensures ops == Flow.InstallOps(apps, updates, results, d)
      ensures installed == Flow.InstalledApps(apps, updates, results)
    {
      hide Builders.Builder.Build, Builders.ApplyOp, Flow.FillEvent, Flow.InstallEvent, Flow.FindApp,
        Flow.InstallOps, Flow.InstalledApps;
      builder := new Builders.RequestBuilder(env.config, params);
      ghost var empty := builder.Contents();
      ops, installed := [], [];
      var k := 0;
      while k < |updates| && k < |results|
        invariant 0 <= k <= |updates| && k <= |results| && fresh(builder)
        invariant builder.Contents() == empty.(entries := Builders.ApplyOps(params, ops))
        invariant Flow.InstallOps(apps, updates, results, d)
               == ops + Flow.InstallOps(apps, updates[k..], results[k..], d)
        invariant Flow.InstalledApps(apps, updates, results)
               == installed + Flow.InstalledApps(apps, updates[k..], results[k..])
      {
        var app := Flow.FindApp(apps, updates[k].id);
        InstallOpsStep(apps, updates[k..], results[k..], d);
        assert updates[k..][1..] == updates[k + 1..] && results[k..][1..] == results[k + 1..];
        if app.Some? {
          var event := Flow.FillEvent(Flow.InstallEvent(results[k]), app.value, updates[k].ManifestVersion(), d);
          var op := Builders.AddEvent(app.value, event);
          Builders.ApplyOpsSnoc(params, ops, op);
          builder.InsertAndModifyEntry(op);
          ops := ops + [op];
          if results[k].Installed? {
            installed := installed + [app.value];
          }
        }
        k := k + 1;
      }
      InstallOpsEnd(apps, updates[k..], results[k..], d);
    }

    method ReportLostEvents(ops: seq<Builders.Op>)
      requires Valid()
      modifies this`log
      ensures Valid()
      ensures Current() == Flow.EmitAll(old(Current()), Flow.LostEvents(ops))
    {
      var j := 0;
      while j < |ops|
        invariant 0 <= j <= |ops|
        invariant old(log) + Flow.LostEvents(ops) == log + Flow.LostEvents(ops[j..])
      {
        assert ops[j..][1..] == ops[j + 1..];
        if ops[j].AddEvent? {
          Emit(Report(OmahaEventLost(ops[j].event)));
        }
        j := j + 1;
      }
    }

    method ReportInstalls(
      params: RequestParams, apps: seq<App>, r: Response, results: seq<AppInstallResult>, d: Option<Duration>,
      i: Flow.CheckInput)
      requires Valid()
      modifies this`context, this`log, storage
      ensures Valid()
      ensures Current() == Flow.ReportInstalls(env, old(Current()), params, apps, r, results, d, i)
    {
      var updates := Flow.AppsWithUpdate(r.apps);
      var builder, ops, installed := InstallsBuilder(params, apps, updates, results, d);
      builder.SetSessionId(i.sessionId);
      builder.SetRequestId(i.events.installs.requestId);
      var answer := DoRequest(ForEvent, builder, i.events.installs);
      if answer.Failure? {
        ReportLostEvents(ops);
      }
      if installed != [] {
        ReportEvent(params, SuccessEvent(UpdateComplete), installed, i.sessionId, Flow.VersionsOf(updates), d,
                    i.events.complete);
      }
    }

    method RecordFinish(finish: SystemTime, next: Flow.NextVersions, faults: Faults)
      requires Valid()
      modifies this`log, storage
      ensures Valid()
      ensures Current() == Flow.RecordFinish(old(Current()), finish, next, faults)
    {
      var _ := storage.SetTime(Flow.UPDATE_FINISH_TIME, finish, faults);
      if appSet.apps != [] && appSet.apps[0].id in next {
        var target := next[appSet.apps[0].id].GetOr("UNKNOWN");
        var _ := storage.Set(Flow.TARGET_VERSION, Text(target), faults);
      }
      CommitStore(faults);
    }

    /** The walk over the response with `app_install_results.remove(0)`. */
    static method WalkResults(apps: seq<ResponseApp>, results: seq<AppInstallResult>, counting: UserCounting)
      returns (responses: seq<AppResponse>, errors: seq<InstallError>)
      requires |results| == Flow.CountUpdates(apps)
      ensures responses == Flow.WalkResults(apps, results, counting)
      ensures errors == Flow.ErrorsOf(results)
    {
      var rest := results;
      responses, errors := [], [];
      var k := 0;
      hide Flow.WalkResults, Flow.CountUpdates;
      while k < |apps|
        invariant 0 <= k <= |apps|
        invariant |rest| == Flow.CountUpdates(apps[k..])
        invariant Flow.WalkResults(apps, results, counting)
               == responses + Flow.WalkResults(apps[k..], rest, counting)
        invariant Flow.ErrorsOf(results) == errors + Flow.ErrorsOf(rest)
      {
        ghost var tail, before := apps[k..], rest;
        assert tail[0] == apps[k] && tail[1..] == apps[k + 1..];
        Flow.WalkStep(tail, before, counting);
        var action := NoUpdate;
        if apps[k].HasUpdate() {
          var first := rest[0];
          rest := rest[1..];
          action := Flow.InstallAction(first);
          if first.Failed? {
            errors := errors + [first.error];
          }
        }
        var response := AppResponse(apps[k].id, apps[k].cohort, counting, action);
        responses := responses + [response];
        k := k + 1;
      }
      assert apps[k..] == [];
      Flow.WalkEnd(rest, counting);
    }

    ghost method EmitAll(acts: seq<Act>)
      requires Valid()
      modifies this`log
      ensures Valid()
      ensures Current() == Flow.EmitAll(old(Current()), acts)
    {
      log := log + acts;
    }

    method FinishInstall(plan: Plan, r: Response, outcome: Flow.InstallOutcome, since: SystemTime, i: Flow.CheckInput)
      returns (p: Flow.Performed)
      requires |outcome.results| == Flow.CountUpdates(r.apps)
      requires Valid()
      modifies this`log, storage
      ensures Valid()
      ensures var s := Flow.FinishInstall(old(Current()), plan, r, outcome, since, i);
              Current() == s.world && p == s.value
    {
      var responses, errors := WalkResults(r.apps, outcome.results, ToUserCounting(r.daystart));
      if errors != [] {
        EmitAll(Flow.ErrorActs(errors));
        Emit(ChangeTo(InstallationError));
        return Success((responses, Flow.NotNeeded));
      }
      if since <= i.installFinish {
        Emit(Report(SuccessfulUpdateFromFirstSeen(i.installFinish - since)));
      }
      RecordFinish(i.installFinish, Flow.VersionsOf(Flow.AppsWithUpdate(r.apps)), i.finishFaults);
      Emit(Query(RebootNeeded(plan, i.rebootNeeded)));
      p := Success((responses, if i.rebootNeeded then Flow.Needed(outcome.installResult) else Flow.NotNeeded));
    }

    method InstallUpdate(params: RequestParams, apps: seq<App>, plan: Plan, r: Response, i: Flow.CheckInput)
      returns (p: Flow.Performed)
      requires Valid()
      modifies this`context, this`log, storage
      ensures Valid()
      ensures var s := Flow.InstallUpdate(env, old(Current()), params, apps, plan, r, i);
              Current() == s.world && p == s.value
    {
      hide Flow.ReportEvent, Flow.ReportInstalls, Flow.RecordFirstSeen, Flow.FinishInstall, Flow.VersionsOf,
        Flow.NoAppsFailed, Flow.ProgressActs;
      var next := Flow.VersionsOf(Flow.AppsWithUpdate(r.apps));
      Emit(ChangeTo(InstallingUpdate));
      ReportEvent(params, SuccessEvent(UpdateDownloadStarted), apps, i.sessionId, next, None, i.events.first);
      var since := RecordFirstSeen(plan.id, i.installStart, i.seenFaults);
      var outcome := i.install(r);
      EmitAll(Flow.ProgressActs(outcome.progress));
      Emit(PerformedInstall(plan, outcome.installResult, outcome.results));
      var duration := None;
      if i.installStart <= i.installFinish {
        var d: Duration := i.installFinish - i.installStart;
        duration := Some(d);
        var clean := Flow.NoAppsFailed(outcome.results);
        Emit(Report(if clean then SuccessfulUpdateDuration(d) else FailedUpdateDuration(d)));
      }
      ReportInstalls(params, apps, r, outcome.results, duration, i);
      Flow.CountAppsWithUpdate(r.apps);
      p := FinishInstall(plan, r, outcome, since, i);
    }

    method HandleResponse(params: RequestParams, apps: seq<App>, r: Response, i: Flow.CheckInput)
      returns (p: Flow.Performed)
      requires Valid()
      modifies this`context, this`log, storage
      ensures Valid()
      ensures var s := Flow.HandleResponse(env, old(Current()), params, apps, r, i);
              Current() == s.world && p == s.value
    {
      Emit(Yield(OmahaServerResponse(r)));
      var updates := Flow.AppsWithUpdate(r.apps);
      if updates == [] {
        Emit(ChangeTo(NoUpdateAvailable));
        return Success((Flow.SameAction(r, NoUpdate), Flow.NotNeeded));
      }
      var next := Flow.VersionsOf(updates);
      if i.plan.None? {
        Emit(ChangeTo(InstallingUpdate));
        Emit(ChangeTo(InstallationError));
        ReportEvent(params, ErrorEvent(ConstructInstallPlan), apps, i.sessionId, next, None, i.events.first);
        return Failure(InstallPlanError);
      }
      Emit(Query(UpdateCanStart(i.plan.value, i.planDecision)));
      match i.planDecision {
        case UpdateDeferredByPolicy =>
          ReportEvent(params, DEFERRED_EVENT, apps, i.sessionId, next, None, i.events.first);
          Emit(ChangeTo(InstallationDeferredByPolicy));
          return Success((Flow.SameAction(r, DeferredByPolicy), Flow.NotNeeded));
        case UpdateDeniedByPolicy =>
          ReportEvent(params, ErrorEvent(DeniedByPolicy), apps, i.sessionId, next, None, i.events.first);
          return Success((Flow.SameAction(r, DeniedByPolicyAction), Flow.NotNeeded));
        case UpdateOk =>
          p := InstallUpdate(params, apps, i.plan.value, r, i);
      }
    }

    method PerformUpdateCheck(params: RequestParams, apps: seq<App>, i: Flow.CheckInput) returns (p: Flow.Performed)
      requires Valid()
      modifies this`context, this`log, storage
      ensures Valid()
      ensures var s := Flow.PerformUpdateCheck(env, old(Current()), params, apps, i);
              Current() == s.world && p == s.value
    {
      Emit(ChangeTo(CheckingForUpdates(params.source)));
      ReportCheckInterval(i.checkTime, params.source);
      var attempt, r := AskOmaha(params, apps, i);
      Emit(Report(RequestsPerCheck(attempt, r.Success?)));
      match r {
        case Failure(e) =>
          p := Failure(OmahaRequest(e));
        case Success(Malformed) =>
          Emit(ChangeTo(ErrorCheckingForUpdate));
          ReportEvent(params, ErrorEvent(ParseResponse), apps, i.sessionId, Flow.NoVersions(apps), None,
                      i.events.first);
          p := Failure(ResponseParser);
        case Success(Parsed(response)) =>
          p := HandleResponse(params, apps, response, i);
      }
    }

    // Around the check

    method ReportInstallAttempts(success: bool, faults: Faults)
      requires Valid()
      modifies this`log, storage
      ensures Valid()
      ensures Current() == Flow.ReportInstallAttempts(old(Current()), success, faults)
    {
      var stored := storage.GetInt(Flow.CONSECUTIVE_FAILED_INSTALL_ATTEMPTS);
      var attempts := WrapI64(stored.GetOr(0) + 1);
      Emit(Report(AttemptsToSuccessfulInstall(WrapU64(attempts), success)));
      if success {
        var _ := storage.Remove(Flow.CONSECUTIVE_FAILED_INSTALL_ATTEMPTS, faults);
      } else {
        var _ := storage.Set(Flow.CONSECUTIVE_FAILED_INSTALL_ATTEMPTS, Int(attempts), faults);
      }
    }

    method ReportCheckAttempts(success: bool)
      requires Valid()
      modifies this`context, this`log
      ensures Valid()
      ensures Current() == Flow.ReportCheckAttempts(old(Current()), success)
    {
      var attempts := WrapU32(context.state.consecutiveFailedUpdateChecks + 1);
      if success {
        context := context.(state := context.state.(consecutiveFailedUpdateChecks := 0));
        Emit(Report(AttemptsToSuccessfulCheck(attempts)));
      } else {
        context := context.(state := context.state.(consecutiveFailedUpdateChecks := attempts));
      }
    }

    method PersistData(faults: Faults)
      requires Valid()
      modifies this`log, storage
      ensures Valid()
      ensures Current() == Flow.PersistData(env, old(Current()), faults)
    {
      CheckContext.Persist(context, storage, faults);
      appSet.Persist(storage, env.codec, faults);
      CommitStore(faults);
    }

    method StartUpdateCheck(params: RequestParams, i: Flow.CheckInput) returns (reboot: Flow.RebootAfterUpdate)
      requires Valid()
      modifies this`context, this`log, storage, appSet
      ensures Valid()
      ensures var s := Flow.StartUpdateCheck(env, old(Current()), params, i);
              Current() == s.world && reboot == s.value
    {
      hide Flow.PerformUpdateCheck, Flow.PersistData, Flow.ReportInstallAttempts, Flow.InstallVerdict, Flow.ReasonOf,
        UpdateApps, WrapU32;
      var p := PerformUpdateCheck(params, appSet.apps, i);
      match p {
        case Success((responses, needed)) =>
          context := context.(schedule := context.schedule.(lastUpdateTime := Some(Complex(i.endTime))));
          var verdict := Flow.InstallVerdict(responses);
          ReportCheckAttempts(true);
          appSet.UpdateFromOmaha(responses);
          if verdict.Some? {
            ReportInstallAttempts(verdict.value, i.countFaults);
          }
          reboot := needed;
        case Failure(e) =>
          if !e.OmahaRequest? {
            context := context.(schedule := context.schedule.(lastUpdateTime := Some(Complex(i.endTime))));
          }
          Emit(Report(UpdateCheckFailureReason(Flow.ReasonOf(e))));
          ReportCheckAttempts(false);
          reboot := Flow.NotNeeded;
      }
      Emit(Yield(ScheduleChange(context.schedule)));
      Emit(Yield(ProtocolStateChange(context.state)));
      Emit(Yield(UpdateCheckResult(Flow.ResultOf(p))));
      PersistData(i.persistFaults);
    }

    method PingOmaha(p: Flow.PingInput)
      requires Valid()
      modifies this`context, this`log, storage, appSet
      ensures Valid()
      ensures Current() == Flow.PingOmaha(env, old(Current()), p)
    {
      hide Flow.DoRequest, Flow.PersistData, Flow.PingOps, UpdateApps, WrapU32, Builders.ApplyOps,
        Builders.Builder.Build;
      var apps := appSet.apps;
      var builder := PingBuilder(apps);
      builder.SetSessionId(p.sessionId);
      builder.SetRequestId(p.request.requestId);
      var r := DoRequest(ForPing, builder, p.request);
      match r {
        case Success(Parsed(response)) =>
          context := context.(state := context.state.(consecutiveFailedUpdateChecks := 0));
          context := context.(schedule := context.schedule.(lastUpdateTime := Some(Complex(p.endTime))));
          Emit(Yield(ScheduleChange(context.schedule)));
          appSet.UpdateFromOmaha(Flow.SameAction(response, NoUpdate));
        case _ =>
          context := context.(state := context.state.(
            consecutiveFailedUpdateChecks := WrapU32(context.state.consecutiveFailedUpdateChecks + 1)));
      }
      PersistData(p.persistFaults);
    }

    // The outer loop

    method UpdateNextUpdateTime(timing: CheckTiming)
      requires Valid()
      modifies this`context, this`log
      ensures Valid()
      ensures Current() == Loop.UpdateNextUpdateTime(old(Current()), timing)
    {
      Emit(Query(NextUpdateTime(timing)));
      context := context.(schedule := context.schedule.(nextUpdateTime := Some(timing)));
      Emit(Yield(ScheduleChange(context.schedule)));
      Emit(Waited(ForNextCheck(timing)));
    }

    /** One pass through the loop of `wait_for_reboot`. */
    method RebootRound(options0: CheckOptions, installed: InstallResult, step: Loop.RebootStep)
      returns (options: CheckOptions, allowed: bool)
      requires Valid()
      modifies this`context, this`log, storage, appSet
      ensures Valid()
      ensures Loop.Round(Current(), options, allowed)
           == Loop.RebootRound(env, old(Current()), options0, installed, step)
    {
      hide Flow.PingOmaha, Loop.UpdateNextUpdateTime;
      options := options0;
      allowed := false;
      match step {
        case RecheckDue(answer) =>
          Emit(Query(RebootAllowed(options, installed, answer)));
          allowed := answer;
          if !allowed {
            Emit(Waited(ForReboot(Loop.CHECK_REBOOT_ALLOWED_INTERVAL)));
          }
        case PingDue(ping, timing) =>
          PingOmaha(ping);
          UpdateNextUpdateTime(timing);
        case AskedToCheck(asked, answer) =>
          Emit(Received(asked));
          Emit(Replied(AlreadyRunning));
          if asked.source == OnDemand {
            options := options.(source := OnDemand);
            Emit(Query(RebootAllowed(options, installed, answer)));
            allowed := answer;
          }
      }
    }

    method WaitForReboot(options0: CheckOptions, installed: InstallResult, r: Loop.RebootInput) returns (rebooted: bool)
      requires Valid()
      modifies this`context, this`log, storage, appSet
      ensures Valid()
      ensures var s := Loop.WaitForReboot(env, old(Current()), options0, installed, r);
              Current() == s.world && rebooted == s.value
    {
      hide Loop.RebootRound, Loop.UpdateNextUpdateTime;
      var options := options0;
      Emit(Query(RebootAllowed(options, installed, r.allowedAtOnce)));
      if !r.allowedAtOnce {
        Emit(Waited(ForReboot(Loop.CHECK_REBOOT_ALLOWED_INTERVAL)));
        UpdateNextUpdateTime(r.timing);
        var k := 0;
        var allowed := false;
        while !allowed
          invariant 0 <= k <= |r.steps|
          invariant Valid()
          invariant Loop.WaitForReboot(env, old(Current()), options0, installed, r)
                 == if allowed then Flow.Out(Flow.Emit(Current(), PerformReboot), true)
                    else Loop.RebootLoop(env, Current(), options, installed, r.steps[k..])
          decreases |r.steps| - k, !allowed
        {
          if k == |r.steps| {
            return false;
          }
          assert r.steps[k..][1..] == r.steps[k + 1..];
          options, allowed := RebootRound(options, installed, r.steps[k]);
          k := k + 1;
        }
      }
      Emit(PerformReboot);
      rebooted := true;
    }

    /** The check, and the control requests that arrive meanwhile; returns the options they leave. */
    method CheckWhileServing(params: RequestParams, options0: CheckOptions, c: Loop.CycleInput)
      returns (options: CheckOptions, reboot: Flow.RebootAfterUpdate)
      requires Valid()
      modifies this`context, this`log, storage, appSet
      ensures Valid()
      ensures var s := Loop.CheckWhileServing(env, old(Current()), params, c);
              Current() == s.world && reboot == s.value
      ensures options == Loop.Upgraded(options0, c.arrivals)
    {
      hide Flow.StartUpdateCheck, Merge, Loop.Served, Loop.Upgraded;
      ghost var before := log;
      ghost var w := Current();
      log := [];
      assert Current() == w.(log := []);
      reboot := StartUpdateCheck(params, c.check);
      ghost var s := Flow.StartUpdateCheck(env, w.(log := []), params, c.check);
      assert Current() == s.world && reboot == s.value;
      options := ServeArrivals(options0, c.arrivals);
      log := before + Merge(log, Loop.Served(c.arrivals), c.pattern);
      assert Current() == s.world.(log := before + Merge(s.world.log, Loop.Served(c.arrivals), c.pattern));
    }

    /** The other arm of that loop: each request may raise the options to on demand. */
    static method ServeArrivals(options0: CheckOptions, arrivals: seq<CheckOptions>) returns (options: CheckOptions)
      ensures options == Loop.Upgraded(options0, arrivals)
    {
      options := options0;
      var k := 0;
      while k < |arrivals|
        invariant 0 <= k <= |arrivals|
        invariant options == Loop.Upgraded(options0, arrivals[..k])
      {
        assert arrivals[..k + 1][..k] == arrivals[..k];
        if arrivals[k].source == OnDemand {
          UpgradedOnDemand(options0, arrivals[..k]);
          options := options.(source := OnDemand);
        }
        k := k + 1;
      }
      assert arrivals[..k] == arrivals;
    }

    method AwaitCheck(c: Loop.CycleInput)
      requires Valid()
      modifies this`context, this`log
      ensures Valid()
      ensures Current() == Loop.AwaitCheck(old(Current()), c)
    {
      hide Loop.UpdateNextUpdateTime;
      UpdateNextUpdateTime(c.timing);
      var options := Loop.DEFAULT_OPTIONS;
      if c.wake.Requested? {
        options := c.wake.options;
        Emit(Received(options));
      }
      Emit(Query(UpdateCheckAllowed(options, c.decision)));
      if !Loop.Positive(c.decision) {
        if c.wake.Requested? {
          Emit(Replied(Throttled));
        }
        return;
      }
      if c.wake.Requested? {
        Emit(Replied(Started));
      }
    }

    method CheckAndReboot(c: Loop.CycleInput) returns (goesOn: bool)
      requires Valid() && Loop.Positive(c.decision)
      modifies this`context, this`log, storage, appSet
      ensures Valid()
      ensures var s := Loop.CheckAndReboot(env, old(Current()), c);
              Current() == s.world && goesOn == s.value
    {
      hide Loop.CheckWhileServing, Loop.WaitForReboot, Loop.Upgraded;
      var options, reboot := CheckWhileServing(c.decision.params, Loop.OptionsOf(c.wake), c);
      match reboot {
        case Needed(installed) =>
          Emit(ChangeTo(WaitingForReboot));
          var rebooted := WaitForReboot(options, installed, c.reboot);
          if !rebooted || !c.reboot.rebootReturns {
            return false;
          }
        case NotNeeded =>
      }
      Emit(ChangeTo(Idle));
      goesOn := true;
    }

    /** The report, on a boot after an update, of how long the reboot took to come. */
    method TryReportWait(start: Instant, pending0: Option<SystemTime>, c: Loop.CycleInput)
      returns (pending: Option<SystemTime>)
      requires Valid()
      modifies this`log, storage
      ensures Valid()
      ensures Loop.Driver(Current(), pending, false)
           == Loop.TryReportWait(Loop.Driver(old(Current()), pending0, false), start, c)
    {
      hide Loop.WaitedForReboot;
      pending := pending0;
      if pending.Some? {
        var waited := Loop.WaitedForReboot(pending.value, start, c.now);
        if waited.Some? {
          Emit(Report(WaitedForRebootDuration(waited.value)));
          pending := None;
          var _ := storage.Remove(Flow.UPDATE_FINISH_TIME, c.removeFaults);
          var _ := storage.Remove(Flow.TARGET_VERSION, c.removeFaults);
          CommitStore(c.removeFaults);
        }
      }
    }

    /** One turn of `run`; `pending` is the finish time still to be reported. */
    method RunCycle(start: Instant, pending0: Option<SystemTime>, c: Loop.CycleInput)
      returns (pending: Option<SystemTime>, halted: bool)
      requires Valid()
      modifies this`context, this`log, storage, appSet
      ensures Valid()
      ensures Loop.Driver(Current(), pending, halted)
           == Loop.RunCycle(env, Loop.Driver(old(Current()), pending0, false), start, c)
    {
      hide Loop.TryReportWait, Loop.AwaitCheck, Loop.CheckAndReboot;
      pending := TryReportWait(start, pending0, c);
      AwaitCheck(c);
      halted := false;
      if Loop.Positive(c.decision) {
        var goesOn := CheckAndReboot(c);
        halted := !goesOn;
      }
    }

    /** `run`, as long as its inputs last. */
    method Run(start: Instant, cycles: seq<Loop.CycleInput>)
      requires Valid()
      modifies this`context, this`log, storage, appSet
      ensures Valid()
      ensures Current() ==
              if !AllValid(old(appSet.apps)) then old(Current())
              else Loop.RunCycles(env,
                     Loop.Driver(old(Current()), Loop.PendingReport(env, old(storage.Contents())), false),
                     start, cycles).world
    {
      hide Loop.RunCycle, Flow.CommitStore;
      if !AllValid(appSet.apps) {
        return;
      }
      var finish := storage.GetTime(Flow.UPDATE_FINISH_TIME);
      var target := storage.GetString(Flow.TARGET_VERSION);
      var pending := None;
      if finish.Some? && target.Some? && target.value == env.config.os.version {
        pending := finish;
      }
      ghost var first := Loop.Driver(Current(), pending, false);
      var k := 0;
      var halted := false;
      while k < |cycles| && !halted
        invariant 0 <= k <= |cycles|
        invariant Valid()
        invariant Loop.RunCycles(env, first, start, cycles)
               == Loop.RunCycles(env, Loop.Driver(Current(), pending, halted), start, cycles[k..])
      {
        assert cycles[k..][1..] == cycles[k + 1..];
        pending, halted := RunCycle(start, pending, cycles[k]);
        k := k + 1;
      }
    }
  }

  lemma InstallOpsStep(
    apps: seq<App>, updates: seq<ResponseApp>, results: seq<AppInstallResult>, d: Option<Duration>)
    requires updates != [] && results != []
    ensures var app := Flow.FindApp(apps, updates[0].id);
            && Flow.InstallOps(apps, updates, results, d) ==
               (if app.Some? then
                  [Builders.AddEvent(app.value,
                     Flow.FillEvent(Flow.InstallEvent(results[0]), app.value, updates[0].ManifestVersion(), d))]
                else []) + Flow.InstallOps(apps, updates[1..], results[1..], d)
            && Flow.InstalledApps(apps, updates, results) ==
               (if app.Some? && results[0].Installed? then [app.value] else [])
               + Flow.InstalledApps(apps, updates[1..], results[1..])
  {
  }

  lemma InstallOpsEnd(
    apps: seq<App>, updates: seq<ResponseApp>, results: seq<AppInstallResult>, d: Option<Duration>)
    requires updates == [] || results == []
    ensures Flow.InstallOps(apps, updates, results, d) == [] && Flow.InstalledApps(apps, updates, results) == []
  {
  }

  /** On demand is never taken back. */
  lemma {:induction false} UpgradedOnDemand(options: CheckOptions, arrivals: seq<CheckOptions>)
    ensures Loop.Upgraded(options, arrivals).(source := OnDemand) == options.(source := OnDemand)
  {
    if arrivals != [] {
      UpgradedOnDemand(options, arrivals[..|arrivals| - 1]);
    }
  }
}
