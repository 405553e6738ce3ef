/** Which cohort and which user counting the server is told for an app: what was loaded at the start,
    overlaid by every answer since; and over restarts, by every answer that was committed. */
module Cohorts {
  import opened Wrappers
  import opened MachineInts
  import opened Clock
  import opened Protocol
  import opened Storage
  import opened CheckContext
  import opened AppSet
  import opened RequestBuilder
  import opened Trace
  import opened UpdateFlow
  import opened ClientRun
  import opened Observers
  import opened Bookkeeping
  import opened Requests
  import Histories
  import InstallResults

  /** What an observer of the requests and answers expects to be told of each app: its cohort and how its
      users are counted.  `kept` is what a restart falls back to, `answer` the answer to the check under
      way; `ok`: every app of every request carried what is expected; `stored`: so did every snapshot that
      became durable. */
  datatype Holding = Holding(
    held: map<string, PersistedApp>,
    kept: map<string, PersistedApp>,
    answer: Option<Response>,
    codec: Codec,
    ok: bool,
    stored: bool)

  /** What the server says about an app: the first entry with its id. */
  function FirstEntry(apps: seq<ResponseApp>, id: string): Option<ResponseApp> {
    if apps == [] then None
    else if apps[0].id == id then Some(apps[0])
    else FirstEntry(apps[1..], id)
  }

  /** Every field of the cohort that was sent replaces the one before, and the day replaces the day before. */
  function AfterAnswer(p: PersistedApp, r: Response, id: string): PersistedApp {
    match FirstEntry(r.apps, id)
    case None => p
    case Some(x) =>
      PersistedApp(
        Cohort(
          if x.cohort.id.Some? then x.cohort.id else p.cohort.id,
          if x.cohort.hint.Some? then x.cohort.hint else p.cohort.hint,
          if x.cohort.name.Some? then x.cohort.name else p.cohort.name),
        ClientRegulatedByDate(DayOf(r)))
  }

  function Overlay(held: map<string, PersistedApp>, r: Response): map<string, PersistedApp> {
    map id | id in held :: AfterAnswer(held[id], r, id)
  }

  predicate Expected(held: map<string, PersistedApp>, request: Intermediate) {
    forall k :: 0 <= k < |request.body.apps| ==> ExpectedApp(held, request.body.apps[k])
  }

  predicate ExpectedApp(held: map<string, PersistedApp>, x: RequestApp) {
    && x.id in held
    && x.cohort == Some(held[x.id].cohort)
    && (x.ping.Some? ==> x.ping.value == Ping(held[x.id].userCounting.days, held[x.id].userCounting.days))
  }

  /** What storage gives back for an app that leaves everything open. */
  function Recalled(codec: Codec, m: map<string, Value>, id: string): PersistedApp {
    if id in m && m[id].Text? then codec.decode(m[id].text).GetOr(BLANK) else BLANK
  }

  predicate Recalls(codec: Codec, m: map<string, Value>, held: map<string, PersistedApp>) {
    forall id :: id in held ==> Recalled(codec, m, id) == held[id]
  }

  function AnswerIn(r: RequestResult): Option<Response> {
    match r
    case Success(Parsed(response)) => Some(response)
    case _ => None
  }

  /** An answer to a ping counts at once, one to a check when the check succeeds; both survive a restart
      once they have been committed. */
  function NextHeld(h: Holding, a: Act): Holding {
    match a
    case Sent(_, request) => h.(ok := h.ok && Expected(h.held, request))
    case Concluded(ForCheck, r) => h.(answer := AnswerIn(r))
    case Concluded(ForPing, r) =>
      if AnswerIn(r).Some? then h.(held := Overlay(h.held, AnswerIn(r).value)) else h
    case Yield(UpdateCheckResult(Success(_))) =>
      if h.answer.Some? then h.(held := Overlay(h.held, h.answer.value)) else h.(ok := false)
    case Committed(m) =>
      if h.stored && Recalls(h.codec, m - RESERVED, h.held) then h.(kept := h.held) else h.(stored := false)
    case Booted => h.(held := h.kept, answer := None)
    case _ => h
  }

  predicate HasId(apps: seq<App>, id: string) {
    exists k :: 0 <= k < |apps| && apps[k].id == id
  }

  ghost predicate Matches(h: Holding, apps: seq<App>) {
    && h.ok && DistinctIds(apps)
    && (forall k :: 0 <= k < |apps| ==> apps[k].id in h.held && h.held[apps[k].id] == Persisted(apps[k]))
    && (forall id :: id in h.held ==> HasId(apps, id))
  }

  /** While storage did not fail, it holds what is expected. */
  ghost predicate Recalling(h: Holding, apps: seq<App>, foreign: map<string, Value>) {
    h.stored ==> IdsFree(apps) && h.kept == h.held && Recalls(h.codec, foreign, h.held)
  }

  /** Requests made for the client's apps carry what is expected. */
  lemma HonestIsExpected(h: Holding, apps: seq<App>, request: Intermediate)
    requires Matches(h, apps) && RequestFrom(apps, request)
    ensures Expected(h.held, request)
  {
    forall k | 0 <= k < |request.body.apps|
      ensures ExpectedApp(h.held, request.body.apps[k])
    {
      assert AppFrom(apps, request.body.apps[k]);
      var entry: AppEntry :| entry.app in apps && request.body.apps[k] == ToRequestApp(entry);
    }
  }

  lemma CommitUnheld(h: Holding, apps: seq<App>, foreign: map<string, Value>)
    requires Recalling(h, apps, foreign)
    ensures forall a: Act :: a.Committed? && a.snapshot - RESERVED == foreign ==> NextHeld(h, a) == h
  {
    hide Recalls, RESERVED;
  }

  lemma HandlingUnheld(h: Holding, apps: seq<App>, foreign: map<string, Value>)
    requires Matches(h, apps) && Recalling(h, apps, foreign)
    ensures IgnoresHandling(NextHeld, h, apps, foreign) && IgnoresReporting(NextHeld, h, apps, foreign)
  {
    hide Expected, RequestFrom, Overlay, Matches, Recalling, Recalls, RESERVED;
    CommitUnheld(h, apps, foreign);
    forall a: Act | a.Sent? && RequestFrom(apps, a.request)
      ensures Expected(h.held, a.request) && h.ok
    {
      HonestIsExpected(h, apps, a.request);
      assert h.ok by { OkWhenMatching(h, apps); }
    }
  }

  lemma OkWhenMatching(h: Holding, apps: seq<App>)
    requires Matches(h, apps)
    ensures h.ok
  {
  }

  // A check

  lemma AskHolds(q: Holding, w: World, apps: seq<App>, request: Intermediate, input: RequestInput)
    requires RequestFrom(apps, request)
    requires Matches(Fold(NextHeld, q, w.log), apps) && Recalling(Fold(NextHeld, q, w.log), apps, Foreign(w))
    ensures var s := DoRequest(w, ForCheck, request, input);
            && Fold(NextHeld, q, s.world.log) == Fold(NextHeld, q, w.log).(answer := AnswerIn(s.value))
            && Foreign(s.world) == Foreign(w)
  {
    hide Fold, NotePollInterval, ParseRetryAfter, Expected, Matches, Recalling, Recalls, Overlay, RequestFrom, RESERVED;
    EmitFolds(NextHeld, q);
    var h := Fold(NextHeld, q, w.log);
    HonestIsExpected(h, apps, request);
    OkWhenMatching(h, apps);
    CommitUnheld(h, apps, Foreign(w));
    if input.reply.Responded? {
      NotePollIntervalUnseen(
        NextHeld, q, Emit(w, Sent(ForCheck, request)), ParseRetryAfter(input.reply.retryAfter), input.faults);
    }
  }

  lemma AttemptHolds(
    q: Holding, env: Env, w: World, params: RequestParams, apps: seq<App>, ops: seq<Op>, i: CheckInput, k: nat)
    requires OpsFrom(apps, ops)
    requires Matches(Fold(NextHeld, q, w.log), apps) && Recalling(Fold(NextHeld, q, w.log), apps, Foreign(w))
    ensures var s := Attempt(env, w, params, ops, i, k);
            && Fold(NextHeld, q, s.world.log) == Fold(NextHeld, q, w.log).(answer := AnswerIn(s.value))
            && Foreign(s.world) == Foreign(w)
  {
    hide Fold, DoRequest, RequestOf, Expected, Matches, Recalling, Recalls, Overlay, RequestFrom, RESERVED, AnswerIn;
    EmitFolds(NextHeld, q);
    var a := i.attempts.At(k);
    RequestOfFrom(apps, env, params, ops, i.sessionId, a.request.requestId);
    AskHolds(q, w, apps, RequestOf(env, params, ops, i.sessionId, a.request.requestId), a.request);
  }

  /** Neither depends on the answer to the check under way. */
  lemma AnswerAside(h: Holding, answer: Option<Response>, apps: seq<App>, foreign: map<string, Value>)
    ensures Matches(h.(answer := answer), apps) <==> Matches(h, apps)
    ensures Recalling(h.(answer := answer), apps, foreign) <==> Recalling(h, apps, foreign)
  {
  }

  lemma {:induction false} AttemptsHold(
    q: Holding, env: Env, w: World, params: RequestParams, apps: seq<App>, ops: seq<Op>, i: CheckInput, k: nat)
    requires 1 <= k <= MAX_OMAHA_REQUEST_ATTEMPTS
    requires OpsFrom(apps, ops)
    requires Matches(Fold(NextHeld, q, w.log), apps) && Recalling(Fold(NextHeld, q, w.log), apps, Foreign(w))
    ensures var s := AttemptLoop(env, w, params, ops, i, k);
            && Fold(NextHeld, q, s.world.log) == Fold(NextHeld, q, w.log).(answer := AnswerIn(s.value.1))
            && Foreign(s.world) == Foreign(w)
    decreases MAX_OMAHA_REQUEST_ATTEMPTS - k
  {
    hide Fold, Attempt, BackoffMillis, Overlay, Expected, Matches, Recalling, Recalls, RESERVED;
    EmitFolds(NextHeld, q);
    AttemptHolds(q, env, w, params, apps, ops, i, k);
    var s := Attempt(env, w, params, ops, i, k);
    AnswerAside(Fold(NextHeld, q, w.log), AnswerIn(s.value), apps, Foreign(w));
    if Retries(s.value, k, s.world.context.state.serverDictatedPollInterval) {
      var w1 := Emit(s.world, Waited(Backoff(BackoffMillis(k, i.attempts.At(k).random))));
      AttemptsHold(q, env, w1, params, apps, ops, i, k + 1);
    }
  }

  /** What the client makes of an answer names the apps of the answer, with their cohorts and its day. */
  predicate Renders(responses: seq<AppResponse>, r: Response) {
    && |responses| == |r.apps|
    && forall j :: 0 <= j < |responses| ==>
         && responses[j].appId == r.apps[j].id
         && responses[j].cohort == r.apps[j].cohort
         && responses[j].userCounting.days == DayOf(r)
  }

  lemma {:induction false} RenderedApp(responses: seq<AppResponse>, r: Response, app: App)
    requires Renders(responses, r)
    ensures Persisted(UpdateApp(app, responses)) == AfterAnswer(Persisted(app), r, app.id)
    ensures UpdateApp(app, responses).id == app.id
  {
    if responses != [] && responses[0].appId != app.id {
      RenderedApp(responses[1..], r.(apps := r.apps[1..]), app);
    }
  }

  /** Taking over an answer does to each app what the observer expects of it. */
  lemma UpdatedAppsMatch(h: Holding, apps: seq<App>, responses: seq<AppResponse>, r: Response)
    requires Matches(h, apps) && Renders(responses, r)
    ensures Matches(h.(held := Overlay(h.held, r)), UpdateApps(apps, responses))
  {
    hide Renders, UpdateApp, Persisted, AfterAnswer;
    var updated := UpdateApps(apps, responses);
    forall k | 0 <= k < |apps|
      ensures updated[k].id == apps[k].id
      ensures Persisted(updated[k]) == AfterAnswer(Persisted(apps[k]), r, apps[k].id)
    {
      RenderedApp(responses, r, apps[k]);
    }
    forall id | id in h.held
      ensures HasId(updated, id)
    {
      var k :| 0 <= k < |apps| && apps[k].id == id;
      assert updated[k].id == id;
    }
  }

  lemma ResponseRenders(env: Env, w: World, params: RequestParams, apps: seq<App>, r: Response, i: CheckInput)
    ensures var p := HandleResponse(env, w, params, apps, r, i).value;
            p.Success? ==> Renders(p.value.0, r)
  {
    hide InstallUpdate, ReportEvent, VersionsOf, WalkResults;
    if i.plan.Some? {
      var w2 := Emit(Emit(w, Yield(OmahaServerResponse(r))), Query(UpdateCanStart(i.plan.value, i.planDecision)));
      InstallResults.InstallationReturns(env, w2, params, apps, i.plan.value, r, i);
      WalkRenders(r, i.install(r).results);
    }
  }

  lemma WalkRenders(r: Response, results: seq<AppInstallResult>)
    requires |results| == CountUpdates(r.apps)
    ensures Renders(WalkResults(r.apps, results, ToUserCounting(r.daystart)), r)
  {
    hide WalkResults, CountUpdates;
    var counting := ToUserCounting(r.daystart);
    forall j | 0 <= j < |r.apps|
      ensures var responses := WalkResults(r.apps, results, counting);
              && |responses| == |r.apps| && responses[j].appId == r.apps[j].id
              && responses[j].cohort == r.apps[j].cohort && responses[j].userCounting == counting
    {
      InstallResults.WalkPairs(r.apps, results, counting, j);
    }
    if r.apps == [] {
      WalkEnd(results, counting);
    } else {
      InstallResults.WalkPairs(r.apps, results, counting, 0);
    }
  }

  lemma PerformHolds(q: Holding, env: Env, w: World, params: RequestParams, apps: seq<App>, i: CheckInput)
    requires Matches(Fold(NextHeld, q, w.log), apps) && Recalling(Fold(NextHeld, q, w.log), apps, Foreign(w))
    ensures var s := PerformUpdateCheck(env, w, params, apps, i);
            var h := Fold(NextHeld, q, s.world.log);
            && h == Fold(NextHeld, q, w.log).(answer := h.answer)
            && Foreign(s.world) == Foreign(w)
            && (s.value.Success? ==> h.answer.Some? && Renders(s.value.value.0, h.answer.value))
  {
    hide Fold, AttemptLoop, HandleResponse, ReportEvent, CheckOps, NoVersions, Overlay, Expected, Renders, Matches,
      Recalling, Recalls, RESERVED;
    EmitFolds(NextHeld, q);
    var w1 := Emit(w, ChangeTo(CheckingForUpdates(params.source)));
    var w2 := ReportCheckInterval(w1, i.checkTime, params.source);
    CheckOpsFrom(apps);
    AttemptsHold(q, env, w2, params, apps, CheckOps(apps), i, 1);
    var s := AttemptLoop(env, w2, params, CheckOps(apps), i, 1);
    var w3 := Emit(s.world, Report(RequestsPerCheck(s.value.0, s.value.1.Success?)));
    AnswerAside(Fold(NextHeld, q, w.log), AnswerIn(s.value.1), apps, Foreign(w));
    HandlingUnheld(Fold(NextHeld, q, w3.log), apps, Foreign(w3));
    match s.value.1 {
      case Failure(_) =>
      case Success(Malformed) =>
        var w4 := Emit(w3, ChangeTo(ErrorCheckingForUpdate));
        ReportEventUnseen(NextHeld, q, env, w4, params, ErrorEvent(ParseResponse), apps, i.sessionId, NoVersions(apps),
                          None, i.events.first);
      case Success(Parsed(r)) =>
        HandleResponseUnseen(NextHeld, q, env, w3, params, apps, r, i);
        ResponseRenders(env, w3, params, apps, r, i);
    }
  }

  /** The client holds what is expected, and while storage did not fail so does storage. */
  ghost predicate Holds(q: Holding, w: World) {
    var h := Fold(NextHeld, q, w.log);
    && Matches(h, w.apps) && Recalling(h, w.apps, Foreign(w))
    && h.stored == q.stored && h.codec == q.codec
  }

  /** Storage is looked at with the client's own codec, and this one loses nothing. */
  ghost predicate Trusts(q: Holding, env: Env) {
    q.stored ==> env.codec == q.codec && env.codec.Faithful()
  }

  lemma TakeResultHolds(q: Holding, w: World, p: Performed, i: CheckInput)
    requires Holds(q, w)
    requires p.Success? ==>
               var h := Fold(NextHeld, q, w.log);
               h.answer.Some? && Renders(p.value.0, h.answer.value)
    ensures var v := Announce(TakeResult(w, p, i), ResultOf(p));
            var h := Fold(NextHeld, q, v.log);
            && Matches(h, v.apps) && (h.stored ==> IdsFree(v.apps))
            && h.stored == q.stored && h.codec == q.codec
  {
    hide Fold, InstallVerdict, UpdateApps, WrapI64, WrapU32, WrapU64, ReasonOf, Overlay, Matches, Renders, Recalls,
      RESERVED, Store.Set, Store.Remove, IdsFree;
    EmitFolds(NextHeld, q);
    if p.Success? {
      var h := Fold(NextHeld, q, w.log);
      UpdatedAppsMatch(h, w.apps, p.value.0, h.answer.value);
      AnswerAside(h.(held := Overlay(h.held, h.answer.value)), h.answer, UpdateApps(w.apps, p.value.0), map[]);
      if h.stored {
        UpdateAppsFree(w.apps, p.value.0);
      }
    }
  }

  lemma WrittenRecalls(h: Holding, s: Store, apps: seq<App>, codec: Codec)
    requires Matches(h, apps) && IdsFree(apps) && codec.Faithful()
    ensures Recalls(codec, PersistApps(s, apps, codec, NO_FAULTS).cached - RESERVED, h.held)
  {
    hide RESERVED, PersistApps;
    var t := PersistApps(s, apps, codec, NO_FAULTS);
    forall id | id in h.held
      ensures Recalled(codec, t.cached - RESERVED, id) == h.held[id]
    {
      var k :| 0 <= k < |apps| && apps[k].id == id;
      PersistAppsStores(s, apps, codec, k);
    }
  }

  /** Saving brings storage up to what is expected. */
  lemma PersistHolds(q: Holding, env: Env, w: World, faults: Faults)
    requires Trusts(q, env) && (q.stored ==> faults == NO_FAULTS)
    requires var h := Fold(NextHeld, q, w.log);
             && Matches(h, w.apps) && (h.stored ==> IdsFree(w.apps))
             && h.stored == q.stored && h.codec == q.codec
    ensures Holds(q, PersistData(env, w, faults))
  {
    hide Fold, PersistContext, PersistApps, Recalls, RESERVED, Overlay, Expected, IdsFree, DistinctIds, HasId,
      Codec.Faithful;
    EmitFolds(NextHeld, q);
    if q.stored {
      WrittenRecalls(Fold(NextHeld, q, w.log), PersistContext(w.store, w.context, faults), w.apps, env.codec);
    }
  }

  lemma CheckHolds(q: Holding, env: Env, w: World, params: RequestParams, i: CheckInput)
    requires Trusts(q, env) && (q.stored ==> i.persistFaults == NO_FAULTS)
    requires Holds(q, w)
    ensures Holds(q, StartUpdateCheck(env, w, params, i).world)
  {
    hide Fold, PerformUpdateCheck, TakeResult, Announce, PersistData, Renders, Matches, Recalling, RESERVED, Trusts,
      IdsFree;
    PerformHolds(q, env, w, params, w.apps, i);
    var s := PerformUpdateCheck(env, w, params, w.apps, i);
    CheckKeepsApps(env, w, params, i);
    AnswerAside(Fold(NextHeld, q, w.log), Fold(NextHeld, q, s.world.log).answer, w.apps, Foreign(w));
    TakeResultHolds(q, s.world, s.value, i);
    PersistHolds(q, env, Announce(TakeResult(s.world, s.value, i), ResultOf(s.value)), i.persistFaults);
  }

  lemma CheckKeepsApps(env: Env, w: World, params: RequestParams, i: CheckInput)
    ensures PerformUpdateCheck(env, w, params, w.apps, i).world.apps == w.apps
  {
    hide PerformUpdateCheck, InOrder;
    PerformKeeps(NEW_BOOKS, env, w, params, w.apps, i, false);
  }

  // A ping

  lemma PingRequestHolds(q: Holding, w: World, request: Intermediate, input: RequestInput)
    requires Holds(q, w) && RequestFrom(w.apps, request)
    ensures var s := DoRequest(w, ForPing, request, input);
            var h := Fold(NextHeld, q, w.log);
            && Fold(NextHeld, q, s.world.log)
               == (if AnswerIn(s.value).Some? then h.(held := Overlay(h.held, AnswerIn(s.value).value)) else h)
            && s.world.apps == w.apps
  {
    hide Fold, NotePollInterval, ParseRetryAfter, Overlay, Expected, Matches, Recalling, Recalls, RequestFrom, RESERVED;
    EmitFolds(NextHeld, q);
    var h := Fold(NextHeld, q, w.log);
    HonestIsExpected(h, w.apps, request);
    OkWhenMatching(h, w.apps);
    CommitUnheld(h, w.apps, Foreign(w));
    if input.reply.Responded? {
      var sent := Emit(w, Sent(ForPing, request));
      NotePollIntervalUnseen(NextHeld, q, sent, ParseRetryAfter(input.reply.retryAfter), input.faults);
      NotePollKeepsApps(sent, ParseRetryAfter(input.reply.retryAfter), input.faults);
    }
  }

  lemma PingHolds(q: Holding, env: Env, w: World, p: PingInput)
    requires Trusts(q, env) && (q.stored ==> p.persistFaults == NO_FAULTS)
    requires Holds(q, w)
    ensures Holds(q, PingOmaha(env, w, p))
  {
    hide Fold, DoRequest, RequestOf, PingOps, PersistData, UpdateApps, SameAction, WrapU32, Overlay, Matches, Recalls,
      RESERVED, RequestFrom, Trusts, IdsFree;
    EmitFolds(NextHeld, q);
    var request := RequestOf(env, PING_PARAMS, PingOps(w.apps), p.sessionId, p.request.requestId);
    var s := DoRequest(w, ForPing, request, p.request);
    var h := Fold(NextHeld, q, w.log);
    PingOpsFrom(w.apps);
    RequestOfFrom(w.apps, env, PING_PARAMS, PingOps(w.apps), p.sessionId, p.request.requestId);
    PingRequestHolds(q, w, request, p.request);
    match s.value {
      case Success(Parsed(r)) =>
        SameActionRenders(r);
        UpdatedAppsMatch(h, w.apps, SameAction(r, NoUpdate), r);
        if h.stored {
          UpdateAppsFree(w.apps, SameAction(r, NoUpdate));
        }
        var reset := s.world.context.state.(consecutiveFailedUpdateChecks := 0);
        var w1 := TalkedToOmaha(s.world.WithState(reset), p.endTime);
        var w2 := Emit(w1, Yield(ScheduleChange(w1.context.schedule)));
        PersistHolds(q, env, w2.(apps := UpdateApps(w2.apps, SameAction(r, NoUpdate))), p.persistFaults);
      case _ =>
        PersistHolds(q, env, CountFailure(s.world), p.persistFaults);
    }
  }

  lemma SameActionRenders(r: Response)
    ensures Renders(SameAction(r, NoUpdate), r)
  {
  }

  lemma NotePollKeepsApps(w: World, poll: Option<Duration>, faults: Faults)
    ensures NotePollInterval(w, poll, faults).apps == w.apps
  {
  }

  // A run

  ghost predicate KeepsHolding(q: Holding, w: World, v: World) {
    Holds(q, w) ==> Holds(q, v)
  }

  /** Acts that say nothing about cohorts. */
  predicate Beside(a: Act) {
    !a.Sent? && !a.Concluded? && !(a.Yield? && a.event.UpdateCheckResult?) && !a.Committed? && !a.Booted?
  }

  lemma EmitHolds(q: Holding, w: World, a: Act)
    requires Beside(a)
    ensures KeepsHolding(q, w, Emit(w, a))
  {
    hide Fold, Matches, Recalling, RESERVED;
    EmitFolds(NextHeld, q);
  }

  lemma NextTimeHolds(q: Holding, w: World, timing: CheckTiming)
    ensures KeepsHolding(q, w, UpdateNextUpdateTime(w, timing))
  {
    hide Fold, Matches, Recalling, RESERVED;
    EmitFolds(NextHeld, q);
  }

  /** What a ping learns while waiting for the reboot is saved. */
  predicate SavesStep(step: RebootStep) {
    step.PingDue? ==> step.ping.persistFaults == NO_FAULTS
  }

  lemma RoundHolds(q: Holding, env: Env, w: World, options: CheckOptions, installed: InstallResult, step: RebootStep)
    requires Trusts(q, env) && (q.stored ==> SavesStep(step))
    ensures KeepsHolding(q, w, RebootRound(env, w, options, installed, step).world)
  {
    hide Holds, Trusts, PingOmaha, UpdateNextUpdateTime;
    match step {
      case RecheckDue(allowed) =>
        var query := Query(RebootAllowed(options, installed, allowed));
        EmitHolds(q, w, query);
        EmitHolds(q, Emit(w, query), Waited(ForReboot(CHECK_REBOOT_ALLOWED_INTERVAL)));
      case PingDue(ping, timing) =>
        if Holds(q, w) {
          PingHolds(q, env, w, ping);
        }
        NextTimeHolds(q, PingOmaha(env, w, ping), timing);
      case AskedToCheck(asked, allowed) =>
        EmitHolds(q, w, Received(asked));
        EmitHolds(q, Emit(w, Received(asked)), Replied(AlreadyRunning));
        EmitHolds(q, Emit(Emit(w, Received(asked)), Replied(AlreadyRunning)),
                  Query(RebootAllowed(options.(source := OnDemand), installed, allowed)));
    }
  }

  lemma {:induction false} RebootLoopHolds(
    q: Holding, env: Env, w: World, options: CheckOptions, installed: InstallResult, steps: seq<RebootStep>)
    requires Trusts(q, env) && (q.stored ==> forall k :: 0 <= k < |steps| ==> SavesStep(steps[k]))
    ensures KeepsHolding(q, w, RebootLoop(env, w, options, installed, steps).world)
    decreases |steps|
  {
    hide Holds, Trusts, RebootRound;
    if steps != [] {
      RoundHolds(q, env, w, options, installed, steps[0]);
      var round := RebootRound(env, w, options, installed, steps[0]);
      EmitHolds(q, round.world, PerformReboot);
      RebootLoopHolds(q, env, round.world, round.options, installed, steps[1..]);
    }
  }

  /** What a check, or a ping during the wait after it, learns is saved. */
  predicate Saves(c: CycleInput) {
    && c.check.persistFaults == NO_FAULTS
    && forall k :: 0 <= k < |c.reboot.steps| ==> SavesStep(c.reboot.steps[k])
  }

  lemma WaitForRebootHolds(
    q: Holding, env: Env, w: World, options: CheckOptions, installed: InstallResult, input: RebootInput)
    requires Trusts(q, env) && (q.stored ==> forall k :: 0 <= k < |input.steps| ==> SavesStep(input.steps[k]))
    ensures KeepsHolding(q, w, WaitForReboot(env, w, options, installed, input).world)
  {
    hide Holds, Trusts, RebootLoop, UpdateNextUpdateTime;
    var query := Query(RebootAllowed(options, installed, input.allowedAtOnce));
    var pause := Waited(ForReboot(CHECK_REBOOT_ALLOWED_INTERVAL));
    var w1 := Emit(w, query);
    EmitHolds(q, w, query);
    EmitHolds(q, w1, PerformReboot);
    EmitHolds(q, w1, pause);
    NextTimeHolds(q, Emit(w1, pause), input.timing);
    RebootLoopHolds(q, env, UpdateNextUpdateTime(Emit(w1, pause), input.timing), options, installed, input.steps);
  }

  lemma {:induction false} ServedBeside(arrivals: seq<CheckOptions>)
    ensures forall a, p :: a in Served(arrivals) ==> NextHeld(p, a) == p
  {
    if arrivals != [] {
      ServedBeside(arrivals[..|arrivals| - 1]);
    }
  }

  lemma ServingHolds(q: Holding, env: Env, w: World, params: RequestParams, c: CycleInput)
    requires Trusts(q, env) && (q.stored ==> Saves(c))
    ensures KeepsHolding(q, w, CheckWhileServing(env, w, params, c).world)
  {
    hide StartUpdateCheck, Served, Merge, Fold, Matches, Recalling, RESERVED, Codec.Faithful;
    if Holds(q, w) {
      var alone := w.(log := []);
      var h := Fold(NextHeld, q, w.log);
      var s := StartUpdateCheck(env, alone, params, c.check);
      FoldEmpty(NextHeld, h);
      CheckHolds(h, env, alone, params, c.check);
      ServedBeside(c.arrivals);
      FoldMerge(NextHeld, h, s.world.log, Served(c.arrivals), c.pattern);
      FoldConcat(NextHeld, q, w.log, Merge(s.world.log, Served(c.arrivals), c.pattern));
    }
  }

  lemma CheckAndRebootHolds(q: Holding, env: Env, w: World, c: CycleInput)
    requires Positive(c.decision) && Trusts(q, env) && (q.stored ==> Saves(c))
    ensures KeepsHolding(q, w, CheckAndReboot(env, w, c).world)
  {
    hide Holds, Trusts, CheckWhileServing, WaitForReboot, Upgraded;
    ServingHolds(q, env, w, c.decision.params, c);
    var s := CheckWhileServing(env, w, c.decision.params, c);
    match s.value {
      case NotNeeded => EmitHolds(q, s.world, ChangeTo(Idle));
      case Needed(installed) =>
        var w1 := Emit(s.world, ChangeTo(WaitingForReboot));
        EmitHolds(q, s.world, ChangeTo(WaitingForReboot));
        var options := Upgraded(OptionsOf(c.wake), c.arrivals);
        WaitForRebootHolds(q, env, w1, options, installed, c.reboot);
        EmitHolds(q, WaitForReboot(env, w1, options, installed, c.reboot).world, ChangeTo(Idle));
    }
  }

  lemma AwaitCheckHolds(q: Holding, w: World, c: CycleInput)
    ensures KeepsHolding(q, w, AwaitCheck(w, c))
  {
    hide Fold, Matches, Recalling, RESERVED;
    EmitFolds(NextHeld, q);
  }

  lemma ReportWaitHolds(q: Holding, d: Driver, start: Instant, c: CycleInput)
    ensures KeepsHolding(q, d.world, TryReportWait(d, start, c).world)
  {
    hide Fold, Matches, Recalling, RESERVED, CommitStore;
    EmitFolds(NextHeld, q);
    var w := d.world;
    if Holds(q, w) && d.pendingReport.Some? && WaitedForReboot(d.pendingReport.value, start, c.now).Some? {
      var w1 := Emit(w, Report(WaitedForRebootDuration(WaitedForReboot(d.pendingReport.value, start, c.now).value)));
      KeysOwned();
      OwnWrites(w1.store.cached, UPDATE_FINISH_TIME, Int(0));
      var s := w1.store.Remove(UPDATE_FINISH_TIME, c.removeFaults);
      OwnWrites(s.cached, TARGET_VERSION, Int(0));
      CommitUnheld(Fold(NextHeld, q, w.log), w.apps, Foreign(w));
      var t := w1.(store := s.Remove(TARGET_VERSION, c.removeFaults));
      CommitUnseen(NextHeld, q, t, c.removeFaults);
      CommitKeepsApps(t, c.removeFaults);
    }
  }

  lemma CommitKeepsApps(w: World, faults: Faults)
    ensures CommitStore(w, faults).apps == w.apps
  {
  }

  lemma {:induction false} RunHolds(q: Holding, env: Env, d: Driver, start: Instant, cycles: seq<CycleInput>)
    requires Trusts(q, env) && (q.stored ==> forall k :: 0 <= k < |cycles| ==> Saves(cycles[k]))
    ensures KeepsHolding(q, d.world, RunCycles(env, d, start, cycles).world)
    decreases |cycles|
  {
    hide Holds, Trusts, TryReportWait, AwaitCheck, CheckAndReboot, Saves;
    if cycles != [] && !d.halted {
      ReportWaitHolds(q, d, start, cycles[0]);
      var d1 := TryReportWait(d, start, cycles[0]);
      AwaitCheckHolds(q, d1.world, cycles[0]);
      if Positive(cycles[0].decision) {
        CheckAndRebootHolds(q, env, AwaitCheck(d1.world, cycles[0]), cycles[0]);
      }
      RunHolds(q, env, RunCycle(env, d, start, cycles[0]), start, cycles[1..]);
    }
  }

  function HeldOf(apps: seq<App>): map<string, PersistedApp> {
    if apps == [] then map[] else HeldOf(apps[..|apps| - 1])[apps[|apps| - 1].id := Persisted(apps[|apps| - 1])]
  }

  /** An observer of one life, who starts with what was loaded and does not look at storage. */
  function Watching(env: Env, held: map<string, PersistedApp>): Holding {
    Holding(held, held, None, env.codec, true, false)
  }

  lemma {:induction false} HeldOfApps(apps: seq<App>)
    requires DistinctIds(apps)
    ensures forall k :: 0 <= k < |apps| ==> apps[k].id in HeldOf(apps) && HeldOf(apps)[apps[k].id] == Persisted(apps[k])
    ensures forall id :: id in HeldOf(apps) ==> HasId(apps, id)
  {
    hide Persisted, HasId;
    if apps != [] {
      var fewer, last := apps[..|apps| - 1], apps[|apps| - 1];
      HeldOfApps(fewer);
      assert HeldOf(apps) == HeldOf(fewer)[last.id := Persisted(last)];
      forall id | id in HeldOf(apps)
        ensures HasId(apps, id)
      {
        MoreIds(fewer, last, id);
        assert apps == fewer + [last];
      }
    }
  }

  lemma MoreIds(apps: seq<App>, last: App, id: string)
    ensures HasId(apps, id) || last.id == id ==> HasId(apps + [last], id)
  {
    if last.id == id {
      assert (apps + [last])[|apps|].id == id;
    } else if HasId(apps, id) {
      var k :| 0 <= k < |apps| && apps[k].id == id;
      assert (apps + [last])[k].id == id;
    }
  }

  lemma HeldMatches(env: Env, apps: seq<App>)
    requires DistinctIds(apps)
    ensures Matches(Watching(env, HeldOf(apps)), apps)
  {
    HeldOfApps(apps);
  }

  /** The expectation after a record, from what was loaded at its start. */
  ghost function HeldAfter(env: Env, apps: seq<App>, log: seq<Act>): Holding {
    Fold(NextHeld, Watching(env, HeldOf(apps)), log)
  }

  /** Whatever the server, storage and the schedule do: in every request of a run, be it a check, a
      ping or a report of events, every app carries the cohort and the user counting it had at the start,
      overlaid by every answer before that request; and these are what the client is left with. */
  lemma EveryRequestCarriesItsCohorts(
    env: Env, d: Driver, start: Instant, cycles: seq<CycleInput>, n: nat)
    requires d.world.log == [] && DistinctIds(d.world.apps)
    ensures var v := RunCycles(env, d, start, cycles).world;
            && Matches(HeldAfter(env, d.world.apps, v.log), v.apps)
            && (n < |v.log| && v.log[n].Sent? ==>
                  Expected(HeldAfter(env, d.world.apps, v.log[..n]).held, v.log[n].request))
  {
    hide RunCycles, Matches, Fold, Expected, RESERVED;
    var q := Watching(env, HeldOf(d.world.apps));
    FoldEmpty(NextHeld, q);
    HeldMatches(env, d.world.apps);
    RunHolds(q, env, d, start, cycles);
    var v := RunCycles(env, d, start, cycles).world;
    OkWhenMatching(Fold(NextHeld, q, v.log), v.apps);
    if n < |v.log| && v.log[n].Sent? {
      FlagsOfPrefix(q, v.log, n + 1);
      StepExpects(q, v.log, n);
    }
  }

  lemma {:induction false} FlagsOfPrefix(q: Holding, log: seq<Act>, n: nat)
    requires n <= |log|
    ensures Fold(NextHeld, q, log).ok ==> Fold(NextHeld, q, log[..n]).ok
    ensures Fold(NextHeld, q, log).stored ==> Fold(NextHeld, q, log[..n]).stored
  {
    hide Expected, Overlay, Recalls, RESERVED;
    if n < |log| {
      assert log[..|log| - 1][..n] == log[..n];
      FlagsOfPrefix(q, log[..|log| - 1], n);
    } else {
      assert log[..n] == log;
    }
  }

  lemma StepExpects(q: Holding, log: seq<Act>, n: nat)
    requires n < |log| && log[n].Sent? && Fold(NextHeld, q, log[..n + 1]).ok
    ensures Expected(Fold(NextHeld, q, log[..n]).held, log[n].request)
  {
    hide Expected, Overlay, Recalls, RESERVED;
    assert log[..n + 1][..n] == log[..n];
  }

  /** The one state is what the other makes of this cohort. */
  ghost predicate Overlays(first: Cohort, h: Holding, total: Holding, id: string) {
    && id in h.held && id in total.held && id in h.kept && id in total.kept && h.answer == total.answer
    && !h.stored && !total.stored
    && h.held[id].cohort == first.UpdateFromOmaha(total.held[id].cohort)
    && h.kept[id].cohort == first.UpdateFromOmaha(total.kept[id].cohort)
  }

  lemma LaterAccumulates(first: Cohort, p: PersistedApp, total: PersistedApp, r: Response, id: string)
    requires p.cohort == first.UpdateFromOmaha(total.cohort)
    ensures AfterAnswer(p, r, id).cohort == first.UpdateFromOmaha(AfterAnswer(total, r, id).cohort)
  {
    hide FirstEntry;
  }

  lemma AnswerAccumulates(first: Cohort, h: Holding, total: Holding, id: string, a: Act)
    requires Overlays(first, h, total, id)
    ensures Overlays(first, NextHeld(h, a), NextHeld(total, a), id)
  {
    hide Expected, AfterAnswer, Recalls, RESERVED, Cohort.UpdateFromOmaha;
    forall r: Response
      ensures AfterAnswer(h.held[id], r, id).cohort
           == first.UpdateFromOmaha(AfterAnswer(total.held[id], r, id).cohort)
    {
      LaterAccumulates(first, h.held[id], total.held[id], r, id);
    }
  }

  /** All the answers so far can be overlaid on each other first, and then on the cohort at the start. */
  lemma {:induction false} AnswersAccumulate(env: Env, held: map<string, PersistedApp>, log: seq<Act>, id: string)
    requires id in held
    ensures Overlays(held[id].cohort, Fold(NextHeld, Watching(env, held), log),
                     Fold(NextHeld, Watching(env, map[id := BLANK]), log), id)
  {
    hide NextHeld, Overlays;
    if log == [] {
      StartOverlays(env, held, id);
    } else {
      var before, last := log[..|log| - 1], log[|log| - 1];
      AnswersAccumulate(env, held, before, id);
      AnswerAccumulates(held[id].cohort, Fold(NextHeld, Watching(env, held), before),
                        Fold(NextHeld, Watching(env, map[id := BLANK]), before), id, last);
    }
  }

  lemma StartOverlays(env: Env, held: map<string, PersistedApp>, id: string)
    requires id in held
    ensures Overlays(held[id].cohort, Watching(env, held), Watching(env, map[id := BLANK]), id)
  {
  }

  // Any number of lives

  /** These very apps, which leave to storage all that it can fill in and take none of the client's keys. */
  ghost predicate OpenApps(presets: seq<App>, ids: set<string>) {
    && Blank(presets) && DistinctIds(presets) && IdsFree(presets)
    && (forall k :: 0 <= k < |presets| ==> presets[k].id in ids)
    && (forall id :: id in ids ==> HasId(presets, id))
  }

  /** What every check and every ping of the life learns is saved. */
  predicate SavesLife(b: BootInput) {
    forall k :: 0 <= k < |b.cycles| ==> Saves(b.cycles[k])
  }

  lemma NextHeldApps(h: Holding, a: Act)
    requires h.held.Keys == h.kept.Keys
    ensures NextHeld(h, a).held.Keys == NextHeld(h, a).kept.Keys == h.kept.Keys && NextHeld(h, a).codec == h.codec
  {
    hide Expected, Recalls, RESERVED, AfterAnswer;
  }

  lemma {:induction false} HeldApps(q: Holding, log: seq<Act>)
    requires q.held.Keys == q.kept.Keys
    ensures var h := Fold(NextHeld, q, log);
            h.held.Keys == h.kept.Keys == q.kept.Keys && h.codec == q.codec
  {
    hide NextHeld;
    if log != [] {
      HeldApps(q, log[..|log| - 1]);
      NextHeldApps(Fold(NextHeld, q, log[..|log| - 1]), log[|log| - 1]);
    }
  }

  /** What was committed last gives back what a restart is expected to fall back to. */
  lemma {:induction false} DurableRecalls(q: Holding, durable: map<string, Value>, log: seq<Act>)
    requires q.held.Keys == q.kept.Keys && Recalls(q.codec, durable - RESERVED, q.kept)
    requires Fold(NextHeld, q, log).stored
    ensures Recalls(q.codec, LastCommitted(durable, log) - RESERVED, Fold(NextHeld, q, log).kept)
  {
    hide Expected, Recalls, RESERVED, Overlay;
    if log != [] {
      HeldApps(q, log[..|log| - 1]);
      DurableRecalls(q, durable, log[..|log| - 1]);
    }
  }

  lemma KeptAtACommit(h: Holding, a: Act)
    requires NextHeld(h, a).stored
    ensures h.stored && NextHeld(h, a).kept == if a.Committed? then NextHeld(h, a).held else h.kept
  {
    hide Expected, Recalls, RESERVED, Overlay;
  }

  /** And this is what was held at the last commit, or, before the first one, at the start. */
  lemma {:induction false} KeptAtTheLastCommit(q: Holding, log: seq<Act>)
    requires Fold(NextHeld, q, log).stored
    ensures var n := Histories.CommittedUpTo(log);
            Fold(NextHeld, q, log).kept == if n == 0 then q.kept else Fold(NextHeld, q, log[..n]).held
  {
    hide NextHeld;
    if log != [] {
      KeptAtACommit(Fold(NextHeld, q, log[..|log| - 1]), log[|log| - 1]);
      if log[|log| - 1].Committed? {
        assert log[..|log|] == log;
      } else {
        KeptAtTheLastCommit(q, log[..|log| - 1]);
        assert log[..|log| - 1][..Histories.CommittedUpTo(log)] == log[..Histories.CommittedUpTo(log)];
      }
    }
  }

  lemma LoadedIsRecalled(app: App, s: Store, codec: Codec)
    requires Persisted(app) == BLANK && app.id !in RESERVED
    ensures Persisted(LoadApp(app, s, codec)) == Recalled(codec, s.cached - RESERVED, app.id)
    ensures LoadApp(app, s, codec).id == app.id
  {
    hide RESERVED;
  }

  lemma BootHolds(h: Holding, env: Env, w: World, presets: seq<App>)
    requires h.ok && h.stored && h.held.Keys == h.kept.Keys && OpenApps(presets, h.kept.Keys)
    requires h.codec == env.codec && Recalls(h.codec, w.store.durable - RESERVED, h.kept)
    requires w.log == []
    ensures Holds(h, Boot(env, w, presets))
  {
    hide Fold, LoadContext, LoadApp, RESERVED, Recalled, Persisted, Histories.CommittedUpTo;
    EmitFolds(NextHeld, h);
    FoldEmpty(NextHeld, h);
    var s := w.store.Restart();
    var apps := LoadApps(presets, s, env.codec);
    forall k | 0 <= k < |apps|
      ensures apps[k].id == presets[k].id && Persisted(apps[k]) == h.kept[apps[k].id]
    {
      LoadedIsRecalled(presets[k], s, env.codec);
    }
    forall id | id in h.kept
      ensures HasId(apps, id)
    {
      var k :| 0 <= k < |presets| && presets[k].id == id;
      assert apps[k].id == id;
    }
  }

  /** Between two lives: so far all was as expected, and durable storage gives back what it should. */
  ghost predicate Resting(q: Holding, env: Env, w: World) {
    var h := Fold(NextHeld, q, w.log);
    h.ok && h.stored && Recalls(env.codec, w.store.durable - RESERVED, h.kept)
  }

  lemma LifeHolds(h: Holding, env: Env, w: World, b: BootInput)
    requires env.codec.Faithful() && SavesLife(b)
    requires h.ok && h.stored && h.held.Keys == h.kept.Keys && OpenApps(b.presets, h.kept.Keys)
    requires h.codec == env.codec && Recalls(h.codec, w.store.durable - RESERVED, h.kept)
    requires w.log == []
    ensures Holds(h, Life(env, w, b))
  {
    hide Holds, Boot, RunCycles, OpenApps, Recalls, RESERVED, Codec.Faithful, Saves;
    BootHolds(h, env, w, b.presets);
    var w1 := Boot(env, w, b.presets);
    RunHolds(h, env, Driver(w1, PendingReport(env, w1.store), false), b.start, b.cycles);
  }

  lemma RunBootHolds(q: Holding, env: Env, w: World, b: BootInput)
    requires env.codec.Faithful() && q.codec == env.codec && SavesLife(b)
    requires q.held.Keys == q.kept.Keys && OpenApps(b.presets, q.kept.Keys)
    requires Resting(q, env, w)
    ensures Resting(q, env, RunBoot(env, w, b))
  {
    hide Fold, Life, RunBoot, OpenApps, Recalls, RESERVED, Codec.Faithful, SavesLife, NextHeld, LastCommitted, Matches,
      Recalling;
    HeldApps(q, w.log);
    var h := Fold(NextHeld, q, w.log);
    var alone := w.(log := []);
    LifeHolds(h, env, alone, b);
    var v := Life(env, alone, b);
    OkWhenMatching(Fold(NextHeld, h, v.log), v.apps);
    var n := ActsOf(v.log, b.ending);
    FlagsOfPrefix(h, v.log, n);
    DurableRecalls(h, w.store.durable, v.log[..n]);
    Histories.RunBootLeaves(env, w, b);
    FoldConcat(NextHeld, q, w.log, v.log[..n]);
  }

  lemma {:induction false} HistoryHolds(q: Holding, env: Env, w: World, boots: seq<BootInput>)
    requires env.codec.Faithful() && q.codec == env.codec && q.held.Keys == q.kept.Keys
    requires forall k :: 0 <= k < |boots| ==> SavesLife(boots[k]) && OpenApps(boots[k].presets, q.kept.Keys)
    requires Resting(q, env, w)
    ensures Resting(q, env, History(env, w, boots))
    decreases |boots|
  {
    hide RunBoot, OpenApps, Codec.Faithful, SavesLife, Resting;
    if boots != [] {
      RunBootHolds(q, env, w, boots[0]);
      HistoryHolds(q, env, RunBoot(env, w, boots[0]), boots[1..]);
    }
  }

  /** An observer of a new device with these apps, of which nothing is known yet, who looks at storage too. */
  function WatchingAll(env: Env, ids: set<string>): Holding {
    var held := map id | id in ids :: BLANK;
    Holding(held, held, None, env.codec, true, true)
  }

  /** Over any number of lives of a device, wherever each of them ends, and whatever storage fails at
      except saving what checks and pings learned: in every request every app carries the overlay of all
      answers that its life heard before on those that earlier lives had committed when they ended. */
  lemma EveryLifeCarriesItsCohorts(env: Env, boots: seq<BootInput>, ids: set<string>, n: nat)
    requires env.codec.Faithful()
    requires forall k :: 0 <= k < |boots| ==> SavesLife(boots[k]) && OpenApps(boots[k].presets, ids)
    ensures var log := History(env, Histories.NEW_DEVICE, boots).log;
            var q := WatchingAll(env, ids);
            && Fold(NextHeld, q, log).stored
            && (n < |log| && log[n].Sent? ==> Expected(Fold(NextHeld, q, log[..n]).held, log[n].request))
  {
    hide History, Expected, OpenApps, Codec.Faithful, SavesLife, Fold, RESERVED;
    var q := WatchingAll(env, ids);
    assert q.kept.Keys == ids;
    FoldEmpty(NextHeld, q);
    HistoryHolds(q, env, Histories.NEW_DEVICE, boots);
    var log := History(env, Histories.NEW_DEVICE, boots).log;
    if n < |log| && log[n].Sent? {
      FlagsOfPrefix(q, log, n + 1);
      StepExpects(q, log, n);
    }
  }
}
