/** One update check, and one ping, as functions of the client's state and of everything the
    outside world does meanwhile: the server, the installer, the policy, the clocks and storage. */
module UpdateFlow {
  import opened Wrappers
  import opened MachineInts
  import opened Clock
  import opened Protocol
  import opened Storage
  import opened CheckContext
  import opened AppSet
  import opened RequestBuilder
  import opened Trace
  import Text
  import Version

  const INSTALL_PLAN_ID := "install_plan_id"
  const UPDATE_FIRST_SEEN_TIME := "update_first_seen_time"
  const UPDATE_FINISH_TIME := "update_finish_time"
  const TARGET_VERSION := "target_version"
  const CONSECUTIVE_FAILED_INSTALL_ATTEMPTS := "consecutive_failed_install_attempts"
  const MAX_OMAHA_REQUEST_ATTEMPTS := 3
  const MAX_POLL_SECONDS := 86400

  /** The keys the client uses for itself; an app whose id is one of them would overwrite it. */
  const RESERVED := {
    LAST_UPDATE_TIME, SERVER_DICTATED_POLL_INTERVAL, CONSECUTIVE_FAILED_UPDATE_CHECKS, INSTALL_PLAN_ID,
    UPDATE_FIRST_SEEN_TIME, UPDATE_FINISH_TIME, TARGET_VERSION, CONSECUTIVE_FAILED_INSTALL_ATTEMPTS}

  /** What stays the same for the life of the client. */
  datatype Env = Env(config: Config, codec: Codec)

  /** The state of the client, its storage, and the record of what it did. */
  datatype World = World(context: Context, store: Store, apps: seq<App>, log: seq<Act>) {
    function WithSchedule(s: UpdateCheckSchedule): World {
      this.(context := context.(schedule := s))
    }

    function WithState(s: ProtocolState): World {
      this.(context := context.(state := s))
    }
  }

  datatype Out<+T> = Out(world: World, value: T)

  function Emit(w: World, a: Act): World {
    w.(log := w.log + [a])
  }

  function EmitAll(w: World, acts: seq<Act>): World {
    w.(log := w.log + acts)
  }

  /** Use with `Emit` as trigger: an observer of a longer record takes one step more. */
  lemma EmitFolds<Q>(next: (Q, Act) -> Q, q: Q)
    ensures forall w, a {:trigger Emit(w, a)} :: Fold(next, q, Emit(w, a).log) == next(Fold(next, q, w.log), a)
  {
    forall w: World, a: Act
      ensures Fold(next, q, Emit(w, a).log) == next(Fold(next, q, w.log), a)
    {
      assert Emit(w, a).log[..|w.log|] == w.log;
    }
  }

  // The outside world

  datatype Reply =
    | BuildFailed(error: BuildError)
    | TransportFailed(user: bool)
    | Responded(cupValid: bool, status: nat, retryAfter: Option<string>, body: Body)

  datatype BuildError = JsonFails | HttpFails | CupFails

  datatype RequestInput = RequestInput(requestId: GUID, reply: Reply, faults: Faults)

  datatype AttemptInput = AttemptInput(start: Instant, request: RequestInput, end: Instant, random: u64)

  datatype Attempts = Attempts(first: AttemptInput, second: AttemptInput, third: AttemptInput) {
    function At(k: nat): AttemptInput {
      if k == 1 then first else if k == 2 then second else third
    }
  }

  datatype InstallOutcome = InstallOutcome(
    installResult: InstallResult,
    results: seq<AppInstallResult>,
    progress: seq<real>)

  /** An installer gives one result for each app of the response that has an update. */
  type Installer = f: Response -> InstallOutcome |
      forall r :: |f(r).results| == |AppsWithUpdate(r.apps)|
    witness (r: Response) => InstallOutcome(0, seq(|AppsWithUpdate(r.apps)|, i => Installed), [])

  /** How the requests that only report events turn out: the first report of a check, the report
      of what was installed, and the report of its completion. */
  datatype EventInputs = EventInputs(first: RequestInput, installs: RequestInput, complete: RequestInput)

  /** Recording a new plan writes, and takes back the first write if the second one failed. */
  datatype SeenFaults = SeenFaults(write: Faults, undo: Faults)

  const NO_SEEN_FAULTS := SeenFaults(NO_FAULTS, NO_FAULTS)

  datatype CheckInput = CheckInput(
    checkTime: ComplexTime,
    sessionId: GUID,
    attempts: Attempts,
    plan: Option<Plan>,
    planDecision: UpdateDecision,
    installStart: SystemTime,
    seenFaults: SeenFaults,
    install: Installer,
    installFinish: SystemTime,
    finishFaults: Faults,
    rebootNeeded: bool,
    endTime: ComplexTime,
    countFaults: Faults,
    persistFaults: Faults,
    events: EventInputs)

  datatype PingInput = PingInput(
    sessionId: GUID,
    request: RequestInput,
    endTime: ComplexTime,
    persistFaults: Faults)

  // Requests

  function FromBuildError(e: BuildError): RequestError {
    match e
    case JsonFails => JsonError
    case HttpFails => HttpBuilderError
    case CupFails => CupDecorationError
  }

  /** The X-Retry-After header: a number of seconds, at most a day; anything else counts as absent. */
  function ParseRetryAfter(header: Option<string>): Option<Duration> {
    match header
    case None => None
    case Some(s) =>
      match Text.ParseUnsigned(s, U64_MAX)
      case None => None
      case Some(n) => Some(FromSecs(if n <= MAX_POLL_SECONDS then n else MAX_POLL_SECONDS))
  }

  predicate IsSuccess(status: nat) {
    200 <= status < 300
  }

  function CommitStore(w: World, faults: Faults): World {
    if faults.commit then w
    else Emit(w.(store := w.store.Commit(faults)), Committed(w.store.cached))
  }

  function NotePollInterval(w: World, poll: Option<Duration>, faults: Faults): World {
    if w.context.state.serverDictatedPollInterval == poll then w
    else
      var w1 := w.WithState(w.context.state.(serverDictatedPollInterval := poll));
      var w2 := Emit(w1, Yield(ProtocolStateChange(w1.context.state)));
      var w3 := w2.(store := PersistContext(w2.store, w2.context, faults));
      CommitStore(w3, faults)
  }

  /** `do_omaha_request_and_update_context`: the response is verified before its header is heeded,
      and the header before its status. */
  function DoRequest(w: World, purpose: Purpose, request: Intermediate, input: RequestInput): Out<RequestResult> {
    match input.reply
    case BuildFailed(e) => Conclude(w, purpose, Failure(FromBuildError(e)))
    case TransportFailed(user) => Conclude(Emit(w, Sent(purpose, request)), purpose, Failure(HttpTransport(user)))
    case Responded(cupValid, status, retryAfter, body) =>
      var w1 := Emit(w, Sent(purpose, request));
      if !cupValid then Conclude(w1, purpose, Failure(CupValidationError))
      else
        var w2 := NotePollInterval(w1, ParseRetryAfter(retryAfter), input.faults);
        Conclude(w2, purpose, if IsSuccess(status) then Success(body) else Failure(HttpStatus(status)))
  }

  function Conclude(w: World, purpose: Purpose, r: RequestResult): Out<RequestResult> {
    Out(Emit(w, Concluded(purpose, r)), r)
  }

  // Reporting events

  function DownloadMillis(d: Option<Duration>): Option<u64> {
    match d
    case None => None
    case Some(nanos) => if nanos / 1_000_000 <= U64_MAX then Some(nanos / 1_000_000) else None
  }

  type NextVersions = map<string, Option<string>>

  function FillEvent(event: Event, app: App, next: Option<string>, d: Option<Duration>): Event {
    event.(previousVersion := Some(Version.ToString(app.version)),
           nextVersion := next,
           downloadTimeMs := DownloadMillis(d))
  }

  /** The same event for every app that has an update. */
  function EventOps(event: Event, apps: seq<App>, next: NextVersions, d: Option<Duration>): seq<Op> {
    if apps == [] then []
    else
      var app := apps[|apps| - 1];
      EventOps(event, apps[..|apps| - 1], next, d) +
      if app.id in next then [AddEvent(app, FillEvent(event, app, next[app.id], d))] else []
  }

  function RequestOf(env: Env, params: RequestParams, ops: seq<Op>, sessionId: GUID, requestId: GUID): Intermediate {
    NewBuilder(env.config, params).(
      entries := ApplyOps(params, ops), sessionId := Some(sessionId), requestId := Some(requestId)).Build()
  }

  /** `report_omaha_event_and_update_context`. */
  function ReportEvent(
    env: Env, w: World, params: RequestParams, event: Event, apps: seq<App>, sessionId: GUID,
    next: NextVersions, d: Option<Duration>, input: RequestInput): World
  {
    var request := RequestOf(env, params, EventOps(event, apps, next, d), sessionId, input.requestId);
    var s := DoRequest(w, ForEvent, request, input);
    if s.value.Failure? then Emit(s.world, Report(OmahaEventLost(event))) else s.world
  }

  // Asking for updates

  /** `report_check_interval`. */
  function ReportCheckInterval(w: World, now: ComplexTime, source: InstallSource): World {
    var w1 :=
      match w.context.schedule.lastUpdateCheckTime
      case Some(Wall(t)) =>
        if t <= now.wall then Emit(w, Report(UpdateCheckInterval(now.wall - t, WallClock, source))) else w
      case Some(Complex(t)) =>
        if t.mono <= now.mono then Emit(w, Report(UpdateCheckInterval(now.mono - t.mono, MonotonicClock, source)))
        else w
      case _ => w;
    w1.WithSchedule(w1.context.schedule.(lastUpdateCheckTime := Some(Complex(now))))
  }

  function CheckOps(apps: seq<App>): seq<Op> {
    if apps == [] then []
    else CheckOps(apps[..|apps| - 1]) + [AddUpdateCheck(apps[|apps| - 1]), AddPing(apps[|apps| - 1])]
  }

  /** Whether a failed attempt is followed by another one. */
  predicate Retries(r: RequestResult, attempt: nat, poll: Option<Duration>) {
    && r.Failure?
    && attempt < MAX_OMAHA_REQUEST_ATTEMPTS
    && poll.None?
    && (r.error.HttpStatus? || (r.error.HttpTransport? && !r.error.user))
  }

  /** `1 << n`. */
  function ShiftOne(n: nat): (r: nat)
    ensures r >= 1
  {
    if n == 0 then 1 else 2 * ShiftOne(n - 1)
  }

  /** A number in [n - range / 2, n - range / 2 + range). */
  function Randomize(n: nat, range: nat, random: u64): int
    requires range > 0
  {
    n - range / 2 + random % range
  }

  function BackoffMillis(attempt: nat, random: u64): (ms: nat)
    requires attempt >= 1
  {
    Randomize(ShiftOne(attempt - 1) * 1000, 1000, random)
  }

  function ReportResponseTime(w: World, a: AttemptInput, r: RequestResult): World {
    if a.start <= a.end then Emit(w, Report(UpdateCheckResponseTime(a.end - a.start, r.Success?))) else w
  }

  /** One pass through the request loop, up to the decision what to do with its result. */
  function Attempt(
    env: Env, w: World, params: RequestParams, ops: seq<Op>, i: CheckInput, k: nat): Out<RequestResult>
  {
    var a := i.attempts.At(k);
    var s := DoRequest(w, ForCheck, RequestOf(env, params, ops, i.sessionId, a.request.requestId), a.request);
    Out(ReportResponseTime(s.world, a, s.value), s.value)
  }

  /** The attempts from number `k` on; the number of the last one is returned with its result. */
  function AttemptLoop(
    env: Env, w: World, params: RequestParams, ops: seq<Op>, i: CheckInput, k: nat): Out<(nat, RequestResult)>
    requires 1 <= k <= MAX_OMAHA_REQUEST_ATTEMPTS
    decreases MAX_OMAHA_REQUEST_ATTEMPTS - k
  {
    var s := Attempt(env, w, params, ops, i, k);
    if Retries(s.value, k, s.world.context.state.serverDictatedPollInterval) then
      var w1 := Emit(s.world, Waited(Backoff(BackoffMillis(k, i.attempts.At(k).random))));
      AttemptLoop(env, w1, params, ops, i, k + 1)
    else
      Out(if s.value.Failure? then Emit(s.world, ChangeTo(ErrorCheckingForUpdate)) else s.world, (k, s.value))
  }

  // Installing

  function AppsWithUpdate(apps: seq<ResponseApp>): seq<ResponseApp> {
    if apps == [] then []
    else
      AppsWithUpdate(apps[..|apps| - 1]) +
      if apps[|apps| - 1].HasUpdate() then [apps[|apps| - 1]] else []
  }

  /** A later app with the same id wins. */
  function VersionsOf(updates: seq<ResponseApp>): NextVersions {
    if updates == [] then map[]
    else
      var app := updates[|updates| - 1];
      VersionsOf(updates[..|updates| - 1])[app.id := app.ManifestVersion()]
  }

  function NoVersions(apps: seq<App>): NextVersions {
    if apps == [] then map[] else NoVersions(apps[..|apps| - 1])[apps[|apps| - 1].id := None]
  }

  /** The new plan gets stored, its time does not, and the plan cannot be taken back either. */
  predicate Torn(faults: SeenFaults) {
    && INSTALL_PLAN_ID !in faults.write.keys
    && UPDATE_FIRST_SEEN_TIME in faults.write.keys
    && INSTALL_PLAN_ID in faults.undo.keys
  }

  /** The writes for a new plan; the bool says whether they are to be committed. */
  function StorePlan(s: Store, planId: string, now: SystemTime, faults: SeenFaults): (Store, bool) {
    if INSTALL_PLAN_ID in faults.write.keys then (s, false)
    else
      var t := s.Set(INSTALL_PLAN_ID, Text(planId), faults.write);
      if UPDATE_FIRST_SEEN_TIME in faults.write.keys then (t.Remove(INSTALL_PLAN_ID, faults.undo), false)
      else (t.SetTime(UPDATE_FIRST_SEEN_TIME, now, faults.write), true)
  }

  /** `record_update_first_seen_time`. */
  function RecordFirstSeen(w: World, planId: string, now: SystemTime, faults: SeenFaults): Out<SystemTime> {
    if w.store.GetString(INSTALL_PLAN_ID) == Some(planId) then
      var since := w.store.GetTime(UPDATE_FIRST_SEEN_TIME).GetOr(now);
      Out(Emit(w, FirstSeen(planId, now, since, false)), since)
    else
      var w1 := Emit(w, FirstSeen(planId, now, now, Torn(faults)));
      var (s, written) := StorePlan(w1.store, planId, now, faults);
      var w2 := w1.(store := s);
      Out(if written then CommitStore(w2, faults.write) else w2, now)
  }

  function FindApp(apps: seq<App>, id: string): Option<App> {
    if apps == [] then None
    else if apps[0].id == id then Some(apps[0])
    else FindApp(apps[1..], id)
  }

  function InstallEvent(r: AppInstallResult): Event {
    match r
    case Installed => SuccessEvent(UpdateDownloadFinished)
    case Deferred => DEFERRED_EVENT
    case Failed(_) => ErrorEvent(Installation)
  }

  /** The events about what became of each update, for the apps the client knows. */
  function InstallOps(
    apps: seq<App>, updates: seq<ResponseApp>, results: seq<AppInstallResult>, d: Option<Duration>): seq<Op>
  {
    if updates == [] || results == [] then []
    else
      (match FindApp(apps, updates[0].id)
       case Some(app) =>
         [AddEvent(app, FillEvent(InstallEvent(results[0]), app, updates[0].ManifestVersion(), d))]
       case None => [])
      + InstallOps(apps, updates[1..], results[1..], d)
  }

  function InstalledApps(apps: seq<App>, updates: seq<ResponseApp>, results: seq<AppInstallResult>): seq<App> {
    if updates == [] || results == [] then []
    else
      (match FindApp(apps, updates[0].id)
       case Some(app) => if results[0].Installed? then [app] else []
       case None => [])
      + InstalledApps(apps, updates[1..], results[1..])
  }

  predicate NoAppsFailed(results: seq<AppInstallResult>) {
    forall i :: 0 <= i < |results| ==> !results[i].Failed?
  }

  function InstallAction(r: AppInstallResult): Action {
    match r
    case Installed => Updated
    case Deferred => DeferredByPolicy
    case Failed(_) => InstallPlanExecutionError
  }

  /** Each app with an update takes the first result not yet taken. */
  function WalkResults(
    apps: seq<ResponseApp>, results: seq<AppInstallResult>, counting: UserCounting): seq<AppResponse>
    requires |results| == CountUpdates(apps)
  {
    if apps == [] then []
    else
      var app := apps[0];
      if app.HasUpdate() then
        [AppResponse(app.id, app.cohort, counting, InstallAction(results[0]))]
        + WalkResults(apps[1..], results[1..], counting)
      else
        [AppResponse(app.id, app.cohort, counting, NoUpdate)] + WalkResults(apps[1..], results, counting)
  }

  function CountUpdates(apps: seq<ResponseApp>): nat {
    if apps == [] then 0 else (if apps[0].HasUpdate() then 1 else 0) + CountUpdates(apps[1..])
  }

  lemma WalkEnd(results: seq<AppInstallResult>, counting: UserCounting)
    requires |results| == CountUpdates([])
    ensures WalkResults([], results, counting) == [] && results == []
  {
  }

  /** One step of the walk: the first app and what it takes. */
  lemma WalkStep(apps: seq<ResponseApp>, results: seq<AppInstallResult>, counting: UserCounting)
    requires apps != [] && |results| == CountUpdates(apps)
    ensures apps[0].HasUpdate() ==> results != []
    ensures var (action, rest) := if apps[0].HasUpdate() then (InstallAction(results[0]), results[1..])
                                  else (NoUpdate, results);
            && |rest| == CountUpdates(apps[1..])
            && WalkResults(apps, results, counting)
               == [AppResponse(apps[0].id, apps[0].cohort, counting, action)] + WalkResults(apps[1..], rest, counting)
  {
  }

  lemma {:induction false} AppsWithUpdateFromTheFront(apps: seq<ResponseApp>)
    requires apps != []
    ensures AppsWithUpdate(apps) ==
            (if apps[0].HasUpdate() then [apps[0]] else []) + AppsWithUpdate(apps[1..])
  {
    if |apps| > 1 {
      AppsWithUpdateFromTheFront(apps[..|apps| - 1]);
      assert apps[..|apps| - 1][1..] == apps[1..][..|apps| - 2];
    }
  }

  lemma {:induction false} CountAppsWithUpdate(apps: seq<ResponseApp>)
    ensures |AppsWithUpdate(apps)| == CountUpdates(apps)
  {
    if apps != [] {
      AppsWithUpdateFromTheFront(apps);
      CountAppsWithUpdate(apps[1..]);
    }
  }

  function ErrorsOf(results: seq<AppInstallResult>): seq<InstallError> {
    if results == [] then []
    else (if results[0].Failed? then [results[0].error] else []) + ErrorsOf(results[1..])
  }

  function SameAction(r: Response, action: Action): (responses: seq<AppResponse>)
    ensures |responses| == |r.apps|
  {
    seq(|r.apps|, i requires 0 <= i < |r.apps| =>
      AppResponse(r.apps[i].id, r.apps[i].cohort, ToUserCounting(r.daystart), action))
  }

  datatype RebootAfterUpdate = Needed(installResult: InstallResult) | NotNeeded

  type Performed = Result<(seq<AppResponse>, RebootAfterUpdate), CheckError>

  /** The finish time and, for a system update, the version to expect after the reboot. */
  function RecordFinish(w: World, finish: SystemTime, next: NextVersions, faults: Faults): World {
    var s := w.store.SetTime(UPDATE_FINISH_TIME, finish, faults);
    var t := if w.apps != [] && w.apps[0].id in next
             then s.Set(TARGET_VERSION, Text(next[w.apps[0].id].GetOr("UNKNOWN")), faults) else s;
    CommitStore(w.(store := t), faults)
  }

  function LostEvents(ops: seq<Op>): seq<Act> {
    if ops == [] then []
    else (if ops[0].AddEvent? then [Report(OmahaEventLost(ops[0].event))] else []) + LostEvents(ops[1..])
  }

  function ProgressActs(progress: seq<real>): seq<Act> {
    seq(|progress|, i requires 0 <= i < |progress| => Yield(InstallProgressChange(progress[i])))
  }

  function ErrorActs(errors: seq<InstallError>): seq<Act> {
    seq(|errors|, i requires 0 <= i < |errors| => Yield(InstallerError(errors[i])))
  }

  function ReportInstallDuration(w: World, start: SystemTime, finish: SystemTime, clean: bool): World {
    if start <= finish then
      Emit(w, Report(if clean then SuccessfulUpdateDuration(finish - start) else FailedUpdateDuration(finish - start)))
    else w
  }

  function InstallDuration(start: SystemTime, finish: SystemTime): Option<Duration> {
    if start <= finish then Some(finish - start) else None
  }

  /** Telling the server what was installed. */
  function ReportInstalls(
    env: Env, w: World, params: RequestParams, apps: seq<App>, r: Response, results: seq<AppInstallResult>,
    d: Option<Duration>, i: CheckInput): World
  {
    var updates := AppsWithUpdate(r.apps);
    var ops := InstallOps(apps, updates, results, d);
    var s := DoRequest(w, ForEvent,
                       RequestOf(env, params, ops, i.sessionId, i.events.installs.requestId), i.events.installs);
    var w1 := if s.value.Failure? then EmitAll(s.world, LostEvents(ops)) else s.world;
    var installed := InstalledApps(apps, updates, results);
    if installed == [] then w1
    else ReportEvent(env, w1, params, SuccessEvent(UpdateComplete), installed, i.sessionId,
                     VersionsOf(updates), d, i.events.complete)
  }

  /** Deciding what the installation amounts to. */
  function FinishInstall(
    w: World, plan: Plan, r: Response, outcome: InstallOutcome, since: SystemTime, i: CheckInput): Out<Performed>
    requires |outcome.results| == CountUpdates(r.apps)
  {
    var responses := WalkResults(r.apps, outcome.results, ToUserCounting(r.daystart));
    var errors := ErrorsOf(outcome.results);
    if errors != [] then
      Out(Emit(EmitAll(w, ErrorActs(errors)), ChangeTo(InstallationError)), Success((responses, NotNeeded)))
    else
      var w1 := if since <= i.installFinish
                then Emit(w, Report(SuccessfulUpdateFromFirstSeen(i.installFinish - since))) else w;
      var w2 := RecordFinish(w1, i.installFinish, VersionsOf(AppsWithUpdate(r.apps)), i.finishFaults);
      Out(Emit(w2, Query(RebootNeeded(plan, i.rebootNeeded))),
          Success((responses, if i.rebootNeeded then Needed(outcome.installResult) else NotNeeded)))
  }

  function InstallUpdate(
    env: Env, w: World, params: RequestParams, apps: seq<App>, plan: Plan, r: Response, i: CheckInput): Out<Performed>
  {
    var next := VersionsOf(AppsWithUpdate(r.apps));
    var w1 := Emit(w, ChangeTo(InstallingUpdate));
    var w2 := ReportEvent(env, w1, params, SuccessEvent(UpdateDownloadStarted), apps, i.sessionId, next, None,
                          i.events.first);
    var seen := RecordFirstSeen(w2, plan.id, i.installStart, i.seenFaults);
    var outcome := i.install(r);
    var w3 := EmitAll(seen.world, ProgressActs(outcome.progress));
    var w4 := Emit(w3, PerformedInstall(plan, outcome.installResult, outcome.results));
    var w5 := ReportInstallDuration(w4, i.installStart, i.installFinish, NoAppsFailed(outcome.results));
    var d := InstallDuration(i.installStart, i.installFinish);
    var w6 := ReportInstalls(env, w5, params, apps, r, outcome.results, d, i);
    CountAppsWithUpdate(r.apps);
    FinishInstall(w6, plan, r, outcome, seen.value, i)
  }

  /** From a response on: plan, ask the policy, install. */
  function HandleResponse(
    env: Env, w: World, params: RequestParams, apps: seq<App>, r: Response, i: CheckInput): Out<Performed>
  {
    var w1 := Emit(w, Yield(OmahaServerResponse(r)));
    var updates := AppsWithUpdate(r.apps);
    if updates == [] then
      Out(Emit(w1, ChangeTo(NoUpdateAvailable)), Success((SameAction(r, NoUpdate), NotNeeded)))
    else
      var next := VersionsOf(updates);
      match i.plan
      case None =>
        var w2 := Emit(Emit(w1, ChangeTo(InstallingUpdate)), ChangeTo(InstallationError));
        Out(ReportEvent(env, w2, params, ErrorEvent(ConstructInstallPlan), apps, i.sessionId, next, None,
                        i.events.first),
            Failure(InstallPlanError))
      case Some(plan) =>
        var w2 := Emit(w1, Query(UpdateCanStart(plan, i.planDecision)));
        match i.planDecision
        case UpdateDeferredByPolicy =>
          var w3 := ReportEvent(env, w2, params, DEFERRED_EVENT, apps, i.sessionId, next, None, i.events.first);
          Out(Emit(w3, ChangeTo(InstallationDeferredByPolicy)),
              Success((SameAction(r, DeferredByPolicy), NotNeeded)))
        case UpdateDeniedByPolicy =>
          Out(ReportEvent(env, w2, params, ErrorEvent(DeniedByPolicy), apps, i.sessionId, next, None, i.events.first),
              Success((SameAction(r, DeniedByPolicyAction), NotNeeded)))
        case UpdateOk => InstallUpdate(env, w2, params, apps, plan, r, i)
  }

  /** `perform_update_check`. */
  function PerformUpdateCheck(env: Env, w: World, params: RequestParams, apps: seq<App>, i: CheckInput): Out<Performed>
  {
    var w1 := Emit(w, ChangeTo(CheckingForUpdates(params.source)));
    var w2 := ReportCheckInterval(w1, i.checkTime, params.source);
    var s := AttemptLoop(env, w2, params, CheckOps(apps), i, 1);
    var w3 := Emit(s.world, Report(RequestsPerCheck(s.value.0, s.value.1.Success?)));
    match s.value.1
    case Failure(e) => Out(w3, Failure(OmahaRequest(e)))
    case Success(Malformed) =>
      var w4 := Emit(w3, ChangeTo(ErrorCheckingForUpdate));
      Out(ReportEvent(env, w4, params, ErrorEvent(ParseResponse), apps, i.sessionId, NoVersions(apps), None,
                      i.events.first),
          Failure(ResponseParser))
    case Success(Parsed(r)) => HandleResponse(env, w3, params, apps, r, i)
  }

  // Around the check

  /** Whether the check installed something: no if an app failed, yes if none failed and one was
      updated, and otherwise neither. */
  function InstallVerdict(responses: seq<AppResponse>): Option<bool> {
    if responses == [] then None
    else
      match (InstallVerdict(responses[..|responses| - 1]), responses[|responses| - 1].result)
      case (_, InstallPlanExecutionError) => Some(false)
      case (None, Updated) => Some(true)
      case (verdict, _) => verdict
  }

  function ReportCheckAttempts(w: World, success: bool): World {
    var attempts := WrapU32(w.context.state.consecutiveFailedUpdateChecks + 1);
    if success then
      Emit(w.WithState(w.context.state.(consecutiveFailedUpdateChecks := 0)),
           Report(AttemptsToSuccessfulCheck(attempts)))
    else
      w.WithState(w.context.state.(consecutiveFailedUpdateChecks := attempts))
  }

  function ReportInstallAttempts(w: World, success: bool, faults: Faults): World {
    var attempts := WrapI64(w.store.GetInt(CONSECUTIVE_FAILED_INSTALL_ATTEMPTS).GetOr(0) + 1);
    var w1 := Emit(w, Report(AttemptsToSuccessfulInstall(WrapU64(attempts), success)));
    w1.(store := if success then w1.store.Remove(CONSECUTIVE_FAILED_INSTALL_ATTEMPTS, faults)
                 else w1.store.Set(CONSECUTIVE_FAILED_INSTALL_ATTEMPTS, Int(attempts), faults))
  }

  function PersistData(env: Env, w: World, faults: Faults): World {
    var s := PersistApps(PersistContext(w.store, w.context, faults), w.apps, env.codec, faults);
    CommitStore(w.(store := s), faults)
  }

  function ReasonOf(e: CheckError): FailureReason {
    match e
    case ResponseParser => OmahaReason
    case InstallPlanError => OmahaReason
    case OmahaRequest(HttpTransport(_)) => NetworkReason
    case OmahaRequest(HttpStatus(_)) => NetworkReason
    case OmahaRequest(_) => InternalReason
  }

  function TalkedToOmaha(w: World, now: ComplexTime): World {
    w.WithSchedule(w.context.schedule.(lastUpdateTime := Some(Complex(now))))
  }

  /** What a check changes beyond itself, before the observers hear of it. */
  function TakeResult(w: World, r: Performed, i: CheckInput): World {
    match r
    case Success((responses, _)) =>
      var w1 := ReportCheckAttempts(TalkedToOmaha(w, i.endTime), true);
      var w2 := w1.(apps := UpdateApps(w1.apps, responses));
      var verdict := InstallVerdict(responses);
      if verdict.Some? then ReportInstallAttempts(w2, verdict.value, i.countFaults) else w2
    case Failure(e) =>
      var w1 := if e.OmahaRequest? then w else TalkedToOmaha(w, i.endTime);
      ReportCheckAttempts(Emit(w1, Report(UpdateCheckFailureReason(ReasonOf(e)))), false)
  }

  function ResultOf(r: Performed): CheckResult {
    match r
    case Success((responses, _)) => Success(responses)
    case Failure(e) => Failure(e)
  }

  function RebootOf(r: Performed): RebootAfterUpdate {
    match r
    case Success((_, reboot)) => reboot
    case Failure(_) => NotNeeded
  }

  /** Telling the observers. */
  function Announce(w: World, r: CheckResult): World {
    var w1 := Emit(w, Yield(ScheduleChange(w.context.schedule)));
    var w2 := Emit(w1, Yield(ProtocolStateChange(w1.context.state)));
    Emit(w2, Yield(UpdateCheckResult(r)))
  }

  /** `start_update_check`. */
  function StartUpdateCheck(env: Env, w: World, params: RequestParams, i: CheckInput): Out<RebootAfterUpdate> {
    var s := PerformUpdateCheck(env, w, params, w.apps, i);
    var w1 := Announce(TakeResult(s.world, s.value, i), ResultOf(s.value));
    Out(PersistData(env, w1, i.persistFaults), RebootOf(s.value))
  }

  // Pings

  const PING_PARAMS := RequestParams(ScheduledTask, true, false, false)

  function PingOps(apps: seq<App>): seq<Op> {
    seq(|apps|, i requires 0 <= i < |apps| => AddPing(apps[i]))
  }

  function CountFailure(w: World): World {
    w.WithState(w.context.state.(
      consecutiveFailedUpdateChecks := WrapU32(w.context.state.consecutiveFailedUpdateChecks + 1)))
  }

  /** `ping_omaha`. */
  function PingOmaha(env: Env, w: World, p: PingInput): World {
    var request := RequestOf(env, PING_PARAMS, PingOps(w.apps), p.sessionId, p.request.requestId);
    var s := DoRequest(w, ForPing, request, p.request);
    match s.value
    case Success(Parsed(r)) =>
      var w1 := s.world.WithState(s.world.context.state.(consecutiveFailedUpdateChecks := 0));
      var w2 := TalkedToOmaha(w1, p.endTime);
      var w3 := Emit(w2, Yield(ScheduleChange(w2.context.schedule)));
      var w4 := w3.(apps := UpdateApps(w3.apps, SameAction(r, NoUpdate)));
      PersistData(env, w4, p.persistFaults)
    case _ => PersistData(env, CountFailure(s.world), p.persistFaults)
  }
}
