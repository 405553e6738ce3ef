/** What storage and the context say to each other, in every state of every history: the poll
    interval a server dictated, and the time at which the current update was first seen. */
module Bookkeeping {
  import opened Wrappers
  import opened MachineInts
  import opened Clock
  import opened Protocol
  import opened Storage
  import opened CheckContext
  import opened AppSet
  import opened RequestBuilder
  import opened Trace
  import opened UpdateFlow
  import opened Observers

  ghost predicate IdsFree(apps: seq<App>) {
    forall k :: 0 <= k < |apps| ==> apps[k].id !in RESERVED
  }

  lemma KeysDiffer()
    ensures SERVER_DICTATED_POLL_INTERVAL !in {INSTALL_PLAN_ID, UPDATE_FIRST_SEEN_TIME, UPDATE_FINISH_TIME,
                                               TARGET_VERSION, CONSECUTIVE_FAILED_INSTALL_ATTEMPTS}
    ensures INSTALL_PLAN_ID !in CONTEXT_KEYS + {UPDATE_FIRST_SEEN_TIME, UPDATE_FINISH_TIME,
                                                TARGET_VERSION, CONSECUTIVE_FAILED_INSTALL_ATTEMPTS}
    ensures UPDATE_FIRST_SEEN_TIME !in CONTEXT_KEYS + {UPDATE_FINISH_TIME,
                                                       TARGET_VERSION, CONSECUTIVE_FAILED_INSTALL_ATTEMPTS}
    ensures CONSECUTIVE_FAILED_INSTALL_ATTEMPTS !in CONTEXT_KEYS + {UPDATE_FINISH_TIME, TARGET_VERSION}
    ensures CONSECUTIVE_FAILED_UPDATE_CHECKS !in {UPDATE_FINISH_TIME, TARGET_VERSION}
  {
    assert |SERVER_DICTATED_POLL_INTERVAL| == 29 && |INSTALL_PLAN_ID| == 15 && |UPDATE_FIRST_SEEN_TIME| == 22;
    assert |UPDATE_FINISH_TIME| == 18 && |TARGET_VERSION| == 14 && |CONSECUTIVE_FAILED_INSTALL_ATTEMPTS| == 35;
    assert |LAST_UPDATE_TIME| == 16 && |CONSECUTIVE_FAILED_UPDATE_CHECKS| == 32;
  }

  /** Whole seconds, at most a day. */
  predicate PollOk(poll: Option<Duration>) {
    poll.Some? ==> poll.value % NANOS_PER_SECOND == 0 && poll.value <= MAX_POLL_SECONDS * NANOS_PER_SECOND
  }

  predicate StoredPollOk(m: map<string, Value>) {
    SERVER_DICTATED_POLL_INTERVAL in m ==>
      && m[SERVER_DICTATED_POLL_INTERVAL].Int?
      && 0 <= m[SERVER_DICTATED_POLL_INTERVAL].number <= MAX_POLL_SECONDS * 1_000_000
      && m[SERVER_DICTATED_POLL_INTERVAL].number % 1_000_000 == 0
  }

  predicate PollStored(m: map<string, Value>, poll: Option<Duration>) {
    Holds(m, SERVER_DICTATED_POLL_INTERVAL, StoredPollInterval(poll))
  }

  /** An interval within the bound never overflows its stored form, and comes back from it. */
  lemma PollFits(poll: Option<Duration>, m: map<string, Value>)
    requires PollOk(poll)
    ensures poll.Some? ==> StoredPollInterval(poll) == Some(poll.value / NANOS_PER_MICRO)
    ensures LoadPollInterval(StoredPollInterval(poll)) == poll
    ensures PollStored(m, poll) ==> StoredPollOk(m)
  {
  }

  lemma StoredPollLoads(s: Store)
    requires StoredPollOk(s.cached)
    ensures PollOk(LoadPollInterval(s.GetInt(SERVER_DICTATED_POLL_INTERVAL)))
    ensures PollStored(s.cached, LoadPollInterval(s.GetInt(SERVER_DICTATED_POLL_INTERVAL)))
  {
  }

  lemma RetryAfterOk(header: Option<string>)
    ensures PollOk(ParseRetryAfter(header))
  {
  }

  /** A plan and the time it was first seen in its current streak. */
  datatype Streak = Streak(planId: string, first: SystemTime)

  predicate StreakStored(m: map<string, Value>, streak: Option<Streak>) {
    match streak
    case None => INSTALL_PLAN_ID !in m
    case Some(s) =>
      && INSTALL_PLAN_ID in m && m[INSTALL_PLAN_ID] == Text(s.planId)
      && Holds(m, UPDATE_FIRST_SEEN_TIME, CheckedMicros(s.first))
  }

  /** The plan in storage and the time stored with it. */
  function PairIn(m: map<string, Value>): Option<(string, Option<i64>)> {
    if INSTALL_PLAN_ID in m && m[INSTALL_PLAN_ID].Text? then
      var time := if UPDATE_FIRST_SEEN_TIME in m && m[UPDATE_FIRST_SEEN_TIME].Int?
                  then Some(m[UPDATE_FIRST_SEEN_TIME].number) else None;
      Some((m[INSTALL_PLAN_ID].text, time))
    else None
  }

  /** The stored time is one at which the stored plan was seen. */
  predicate Paired(seen: set<(string, Option<i64>)>, m: map<string, Value>) {
    PairIn(m).Some? ==> PairIn(m).value in seen
  }

  // The counters

  function InstallsRead(m: map<string, Value>): int {
    if CONSECUTIVE_FAILED_INSTALL_ATTEMPTS in m && m[CONSECUTIVE_FAILED_INSTALL_ATTEMPTS].Int?
    then m[CONSECUTIVE_FAILED_INSTALL_ATTEMPTS].number else 0
  }

  predicate FailuresStored(m: map<string, Value>, failures: u32) {
    Holds(m, CONSECUTIVE_FAILED_UPDATE_CHECKS, StoredFailures(failures))
  }

  function InstallsAfter(installs: i64, verdict: Option<bool>): i64 {
    match verdict
    case None => installs
    case Some(true) => 0
    case Some(false) => WrapI64(installs + 1)
  }

  function FailuresAfter(failures: u32, success: bool): u32 {
    if success then 0 else WrapU32(failures + 1)
  }

  /** The books an observer keeps: the poll interval, what is durable, the current streak of equal
      plans, the plans seen so far with their times in stored form, and the failed checks, pings and
      installations since the last success, wrapped.  `safe` is judged whatever storage does, `paired` as
      long as no recording of a plan was torn, and `exact` and `counted` are what holds while storage does
      not fail: at every commit the snapshot has the interval, the streak and the counts of that moment. */
  datatype Books = Books(
    poll: Option<Duration>,
    durable: map<string, Value>,
    streak: Option<Streak>,
    seen: set<(string, Option<i64>)>,
    failures: u32,
    installs: i64,
    tidy: bool,
    safe: bool,
    paired: bool,
    exact: bool,
    counted: bool)

  const NEW_BOOKS := Books(None, map[], None, {}, 0, 0, true, true, true, true, true)

  // What an act does to each of the books

  function PollThen(poll: Option<Duration>, a: Act): Option<Duration> {
    match a
    case Yield(ProtocolStateChange(s)) => s.serverDictatedPollInterval
    case _ => poll
  }

  function StreakThen(streak: Option<Streak>, a: Act): Option<Streak> {
    match a
    case FirstSeen(planId, now, _, _) =>
      if streak.Some? && streak.value.planId == planId then streak else Some(Streak(planId, now))
    case _ => streak
  }

  function SeenThen(seen: set<(string, Option<i64>)>, a: Act): set<(string, Option<i64>)> {
    match a
    case FirstSeen(planId, now, _, _) => seen + {(planId, CheckedMicros(now))}
    case _ => seen
  }

  function FailuresThen(failures: u32, a: Act): u32 {
    match a
    case Concluded(ForPing, r) => FailuresAfter(failures, r.Success? && r.value.Parsed?)
    case Yield(UpdateCheckResult(r)) => FailuresAfter(failures, r.Success?)
    case _ => failures
  }

  function InstallsThen(installs: i64, a: Act): i64 {
    match a
    case Yield(UpdateCheckResult(Success(responses))) => InstallsAfter(installs, InstallVerdict(responses))
    case _ => installs
  }

  /** A time as storage gives it back; one that has no stored form counts as now. */
  function ReadBack(time: SystemTime, now: SystemTime): SystemTime {
    match CheckedMicros(time)
    case Some(m) => FromMicros(m)
    case None => now
  }

  /** The time to be given out for a plan: that of the first call in its current streak. */
  function FirstOf(streak: Option<Streak>, planId: string, now: SystemTime): SystemTime {
    if streak.Some? && streak.value.planId == planId then ReadBack(streak.value.first, now) else now
  }

  predicate IsSafe(a: Act) {
    match a
    case Yield(ProtocolStateChange(s)) => PollOk(s.serverDictatedPollInterval)
    case Committed(m) => StoredPollOk(m)
    case _ => true
  }

  predicate IsExact(b: Books, a: Act) {
    match a
    case Committed(m) => StreakStored(m, b.streak) && PollStored(m, b.poll)
    case Concluded(_, _) => PollStored(b.durable, b.poll)
    case FirstSeen(planId, now, since, _) => since == FirstOf(b.streak, planId, now)
    case _ => true
  }

  function NextBooks(b: Books, a: Act): Books {
    Books(
      PollThen(b.poll, a),
      if a.Committed? then a.snapshot else b.durable,
      StreakThen(b.streak, a),
      SeenThen(b.seen, a),
      FailuresThen(b.failures, a),
      InstallsThen(b.installs, a),
      b.tidy && !(a.FirstSeen? && a.torn),
      b.safe && IsSafe(a),
      b.paired && (a.Committed? && b.tidy ==> Paired(b.seen, a.snapshot)),
      b.exact && IsExact(b, a),
      b.counted && (a.Committed? ==> FailuresStored(a.snapshot, b.failures) && InstallsRead(a.snapshot) == b.installs))
  }

  /** `strict` says that storage has not failed so far. */
  ghost predicate InOrder(b: Books, w: World, strict: bool) {
    && b.safe && b.paired && Tracks(b, w)
    && (b.tidy ==> Paired(b.seen, w.store.cached) && Paired(b.seen, w.store.durable))
    && PollOk(b.poll) && PollOk(w.context.state.serverDictatedPollInterval)
    && StoredPollOk(w.store.cached) && StoredPollOk(w.store.durable)
    && IdsFree(w.apps)
    && (strict ==> Exact(b, w))
  }

  ghost predicate Exact(b: Books, w: World) {
    && b.exact
    && b.poll == w.context.state.serverDictatedPollInterval
    && PollStored(w.store.cached, b.poll) && PollStored(w.store.durable, b.poll)
    && StreakStored(w.store.cached, b.streak)
  }

  /** The books look at storage under three keys only. */
  lemma SameAccounts(m: map<string, Value>, n: map<string, Value>)
    requires SameAt(m, n, SERVER_DICTATED_POLL_INTERVAL)
    requires SameAt(m, n, INSTALL_PLAN_ID) && SameAt(m, n, UPDATE_FIRST_SEEN_TIME)
    ensures StoredPollOk(m) <==> StoredPollOk(n)
    ensures forall poll :: PollStored(m, poll) <==> PollStored(n, poll)
    ensures forall streak :: StreakStored(m, streak) <==> StreakStored(n, streak)
    ensures forall seen :: Paired(seen, m) <==> Paired(seen, n)
  {
    hide CheckedMicros, StoredPollInterval;
    assert PairIn(m) == PairIn(n);
  }

  /** What the steps inside a check leave alone. */
  ghost predicate Frame(w: World, v: World) {
    && v.apps == w.apps
    && v.context.schedule.lastUpdateTime == w.context.schedule.lastUpdateTime
    && v.context.state.consecutiveFailedUpdateChecks == w.context.state.consecutiveFailedUpdateChecks
    && v.context.state.consecutiveProxiedRequests == w.context.state.consecutiveProxiedRequests
    && SameAt(v.store.cached, w.store.cached, CONSECUTIVE_FAILED_INSTALL_ATTEMPTS)
    && (PollOk(w.context.state.serverDictatedPollInterval) ==> PollOk(v.context.state.serverDictatedPollInterval))
  }

  /** The counts in memory and in the cache are those in the books. */
  ghost predicate Steady(b: Books, w: World) {
    && b.counted
    && w.context.state.consecutiveFailedUpdateChecks == b.failures
    && FailuresStored(w.store.cached, b.failures)
    && InstallsRead(w.store.cached) == b.installs
  }

  /** What the books call durable is so. */
  ghost predicate Tracks(b: Books, w: World) {
    b.durable == w.store.durable
  }

  ghost predicate Keeps(q: Books, w: World, v: World, strict: bool) {
    && (InOrder(Fold(NextBooks, q, w.log), w, strict) ==> InOrder(Fold(NextBooks, q, v.log), v, strict))
    && (Steady(Fold(NextBooks, q, w.log), w) ==> Steady(Fold(NextBooks, q, v.log), v))
    && (Tracks(Fold(NextBooks, q, w.log), w) ==> Tracks(Fold(NextBooks, q, v.log), v))
    && Frame(w, v)
  }

  /** Acts that are not in the books. */
  predicate OffBooks(a: Act) {
    && !(a.Yield? && (a.event.ProtocolStateChange? || a.event.UpdateCheckResult?))
    && !a.Committed? && !a.Concluded? && !a.FirstSeen?
  }

  lemma EmitKeeps(q: Books, w: World, a: Act, strict: bool)
    requires OffBooks(a)
    ensures Keeps(q, w, Emit(w, a), strict)
  {
    hide Fold, PollOk, StoredPollOk, PollStored, StreakStored, Paired, FailuresStored, InstallsRead, RESERVED;
    EmitFolds(NextBooks, q);
  }

  lemma EmitAllKeeps(q: Books, w: World, acts: seq<Act>, strict: bool)
    requires forall a :: a in acts ==> OffBooks(a)
    ensures Keeps(q, w, EmitAll(w, acts), strict)
  {
    hide Fold, PollOk, StoredPollOk, PollStored, StreakStored, Paired, FailuresStored, InstallsRead, RESERVED;
    EmitAllUnseen(NextBooks, q, w, acts);
  }

  lemma CommitKeeps(q: Books, w: World, faults: Faults, strict: bool)
    ensures Keeps(q, w, CommitStore(w, faults), strict)
  {
    hide Fold, PollOk, StoredPollOk, PollStored, StreakStored, Paired, FailuresStored, InstallsRead, RESERVED;
    EmitFolds(NextBooks, q);
  }

  lemma PersistContextSafe(s: Store, c: Context, faults: Faults)
    requires StoredPollOk(s.cached) && PollOk(c.state.serverDictatedPollInterval)
    ensures StoredPollOk(PersistContext(s, c, faults).cached)
  {
    hide StoredTime, StoredFailures, PollOk, StoredPollInterval;
    PollInMicros(c.state.serverDictatedPollInterval);
  }

  lemma PollInMicros(poll: Option<Duration>)
    requires PollOk(poll)
    ensures poll.Some? ==> StoredPollInterval(poll) == Some(poll.value / NANOS_PER_MICRO)
                           && 0 <= poll.value / NANOS_PER_MICRO <= MAX_POLL_SECONDS * 1_000_000
                           && poll.value / NANOS_PER_MICRO % 1_000_000 == 0
    ensures poll.None? ==> StoredPollInterval(poll) == None
  {
  }

  /** Writing a context again keeps the count of failures, even if the write fails. */
  lemma PersistKeepsFailures(s: Store, c: Context, faults: Faults)
    requires FailuresStored(s.cached, c.state.consecutiveFailedUpdateChecks)
    ensures FailuresStored(PersistContext(s, c, faults).cached, c.state.consecutiveFailedUpdateChecks)
  {
    hide StoredTime, StoredPollInterval, StoredFailures;
  }

  lemma SameCounts(m: map<string, Value>, n: map<string, Value>)
    requires SameAt(m, n, CONSECUTIVE_FAILED_INSTALL_ATTEMPTS)
    ensures InstallsRead(m) == InstallsRead(n)
    ensures SameAt(m, n, CONSECUTIVE_FAILED_UPDATE_CHECKS) ==>
              forall f :: FailuresStored(m, f) <==> FailuresStored(n, f)
  {
    hide StoredFailures;
  }

  lemma NotePollKeeps(q: Books, w: World, poll: Option<Duration>, faults: Faults, strict: bool)
    requires PollOk(poll) && (strict ==> faults == NO_FAULTS)
    ensures Keeps(q, w, NotePollInterval(w, poll, faults), strict)
  {
    hide Fold, PollOk, StoredPollOk, PersistContext, RESERVED, FailuresStored, InstallsRead;
    if w.context.state.serverDictatedPollInterval != poll {
      EmitFolds(NextBooks, q);
      KeysDiffer();
      var w1 := w.WithState(w.context.state.(serverDictatedPollInterval := poll));
      var w2 := Emit(w1, Yield(ProtocolStateChange(w1.context.state)));
      var s := PersistContext(w2.store, w2.context, faults);
      PersistContextForeign(w2.store, w2.context, faults);
      assert SameAt(s.cached, w.store.cached, CONSECUTIVE_FAILED_INSTALL_ATTEMPTS);
      SameCounts(s.cached, w.store.cached);
      if Steady(Fold(NextBooks, q, w.log), w) {
        PersistKeepsFailures(w2.store, w2.context, faults);
      }
      if InOrder(Fold(NextBooks, q, w.log), w, strict) {
        PersistContextSafe(w2.store, w2.context, faults);
        if strict {
          PersistContextWrites(w2.store, w2.context);
          assert SameAt(s.cached, w.store.cached, INSTALL_PLAN_ID);
          assert SameAt(s.cached, w.store.cached, UPDATE_FIRST_SEEN_TIME);
        }
      }
    }
  }

  lemma ConcludeKeeps(q: Books, w: World, purpose: Purpose, r: RequestResult, strict: bool)
    requires !purpose.ForPing?
    ensures Keeps(q, w, Emit(w, Concluded(purpose, r)), strict)
  {
    hide Fold, PollOk, StoredPollOk, PollStored, StreakStored, Paired, FailuresStored, InstallsRead, RESERVED;
    EmitFolds(NextBooks, q);
  }

  /** A request up to its conclusion. */
  lemma AnswerKeeps(
    q: Books, w: World, purpose: Purpose, request: Intermediate, input: RequestInput, strict: bool) returns (v: World)
    requires strict ==> input.faults == NO_FAULTS
    ensures Keeps(q, w, v, strict)
    ensures var s := DoRequest(w, purpose, request, input);
            s.world == Emit(v, Concluded(purpose, s.value))
  {
    hide InOrder, Steady, Fold, NotePollInterval, ParseRetryAfter;
    v := w;
    if !input.reply.BuildFailed? {
      v := Emit(w, Sent(purpose, request));
      EmitKeeps(q, w, Sent(purpose, request), strict);
    }
    if input.reply.Responded? && input.reply.cupValid {
      var poll := ParseRetryAfter(input.reply.retryAfter);
      RetryAfterOk(input.reply.retryAfter);
      NotePollKeeps(q, v, poll, input.faults, strict);
      v := NotePollInterval(v, poll, input.faults);
    }
  }

  lemma DoRequestKeeps(q: Books, w: World, purpose: Purpose, request: Intermediate, input: RequestInput, strict: bool)
    requires !purpose.ForPing? && (strict ==> input.faults == NO_FAULTS)
    ensures Keeps(q, w, DoRequest(w, purpose, request, input).world, strict)
  {
    hide InOrder, Steady, Fold, DoRequest;
    var v := AnswerKeeps(q, w, purpose, request, input, strict);
    ConcludeKeeps(q, v, purpose, DoRequest(w, purpose, request, input).value, strict);
  }

  /** The request of a ping, whose conclusion counts. */
  lemma PingRequestKeeps(q: Books, w: World, request: Intermediate, input: RequestInput, strict: bool)
    requires strict ==> input.faults == NO_FAULTS
    ensures var v := DoRequest(w, ForPing, request, input).world;
            && Frame(w, v)
            && (InOrder(Fold(NextBooks, q, w.log), w, strict) ==> InOrder(Fold(NextBooks, q, v.log), v, strict))
            && (Tracks(Fold(NextBooks, q, w.log), w) ==> Tracks(Fold(NextBooks, q, v.log), v))
            && (Steady(Fold(NextBooks, q, w.log), w) ==>
                  && Fold(NextBooks, q, v.log).counted
                  && InstallsRead(v.store.cached) == Fold(NextBooks, q, v.log).installs)
  {
    hide Fold, PollOk, StoredPollOk, PollStored, StreakStored, Paired, FailuresStored, InstallsRead, RESERVED,
      DoRequest;
    var v := AnswerKeeps(q, w, ForPing, request, input, strict);
    EmitFolds(NextBooks, q);
  }

  lemma ReportEventKeeps(
    q: Books, env: Env, w: World, params: RequestParams, event: Event, apps: seq<App>, sessionId: GUID,
    versions: NextVersions, d: Option<Duration>, input: RequestInput, strict: bool)
    requires strict ==> input.faults == NO_FAULTS
    ensures Keeps(q, w, ReportEvent(env, w, params, event, apps, sessionId, versions, d, input), strict)
  {
    hide InOrder, Steady, Fold, DoRequest, RequestOf, EventOps;
    var request := RequestOf(env, params, EventOps(event, apps, versions, d), sessionId, input.requestId);
    DoRequestKeeps(q, w, ForEvent, request, input, strict);
    EmitKeeps(q, DoRequest(w, ForEvent, request, input).world, Report(OmahaEventLost(event)), strict);
  }

  lemma {:induction false} LostEventsOffBooks(ops: seq<Op>)
    ensures forall a :: a in LostEvents(ops) ==> OffBooks(a)
  {
    if ops != [] {
      LostEventsOffBooks(ops[1..]);
    }
  }

  lemma ReportInstallsKeeps(
    q: Books, env: Env, w: World, params: RequestParams, apps: seq<App>, r: Response, results: seq<AppInstallResult>,
    d: Option<Duration>, i: CheckInput, strict: bool)
    requires strict ==> i.events.installs.faults == NO_FAULTS && i.events.complete.faults == NO_FAULTS
    ensures Keeps(q, w, ReportInstalls(env, w, params, apps, r, results, d, i), strict)
  {
    hide InOrder, Steady, Fold, DoRequest, RequestOf, ReportEvent, LostEvents, InstallOps, InstalledApps, VersionsOf,
      AppsWithUpdate;
    var updates := AppsWithUpdate(r.apps);
    var ops := InstallOps(apps, updates, results, d);
    var request := RequestOf(env, params, ops, i.sessionId, i.events.installs.requestId);
    DoRequestKeeps(q, w, ForEvent, request, i.events.installs, strict);
    var s := DoRequest(w, ForEvent, request, i.events.installs);
    LostEventsOffBooks(ops);
    EmitAllKeeps(q, s.world, LostEvents(ops), strict);
    var w1 := if s.value.Failure? then EmitAll(s.world, LostEvents(ops)) else s.world;
    ReportEventKeeps(q, env, w1, params, SuccessEvent(UpdateComplete), InstalledApps(apps, updates, results),
                     i.sessionId, VersionsOf(updates), d, i.events.complete, strict);
  }

  lemma {:induction false} AttemptLoopKeeps(
    q: Books, env: Env, w: World, params: RequestParams, ops: seq<Op>, i: CheckInput, k: nat, strict: bool)
    requires 1 <= k <= MAX_OMAHA_REQUEST_ATTEMPTS
    requires strict ==> CleanAttempts(i)
    ensures Keeps(q, w, AttemptLoop(env, w, params, ops, i, k).world, strict)
    decreases MAX_OMAHA_REQUEST_ATTEMPTS - k
  {
    hide InOrder, Steady, Fold, Attempt, BackoffMillis;
    AttemptKeeps(q, env, w, params, ops, i, k, strict);
    var s := Attempt(env, w, params, ops, i, k);
    if Retries(s.value, k, s.world.context.state.serverDictatedPollInterval) {
      var pause := Waited(Backoff(BackoffMillis(k, i.attempts.At(k).random)));
      EmitKeeps(q, s.world, pause, strict);
      AttemptLoopKeeps(q, env, Emit(s.world, pause), params, ops, i, k + 1, strict);
    } else {
      EmitKeeps(q, s.world, ChangeTo(ErrorCheckingForUpdate), strict);
    }
  }

  predicate CleanAttempts(i: CheckInput) {
    && i.attempts.first.request.faults == NO_FAULTS
    && i.attempts.second.request.faults == NO_FAULTS
    && i.attempts.third.request.faults == NO_FAULTS
  }

  lemma AttemptKeeps(
    q: Books, env: Env, w: World, params: RequestParams, ops: seq<Op>, i: CheckInput, k: nat, strict: bool)
    requires strict ==> CleanAttempts(i)
    ensures Keeps(q, w, Attempt(env, w, params, ops, i, k).world, strict)
  {
    hide InOrder, Steady, Fold, DoRequest, RequestOf;
    var a := i.attempts.At(k);
    var request := RequestOf(env, params, ops, i.sessionId, a.request.requestId);
    DoRequestKeeps(q, w, ForCheck, request, a.request, strict);
    var s := DoRequest(w, ForCheck, request, a.request);
    if a.start <= a.end {
      EmitKeeps(q, s.world, Report(UpdateCheckResponseTime(a.end - a.start, s.value.Success?)), strict);
    }
  }

  lemma SamePlanKeeps(q: Books, w: World, planId: string, now: SystemTime, faults: SeenFaults, strict: bool)
    requires w.store.GetString(INSTALL_PLAN_ID) == Some(planId)
    ensures Keeps(q, w, RecordFirstSeen(w, planId, now, faults).world, strict)
  {
    hide Fold, PollOk, StoredPollOk, PollStored, FailuresStored, InstallsRead, RESERVED, CONTEXT_KEYS;
    EmitFolds(NextBooks, q);
  }

  lemma PlanStored(s: Store, planId: string, now: SystemTime, faults: SeenFaults, seen: set<(string, Option<i64>)>)
    requires s.GetString(INSTALL_PLAN_ID) != Some(planId) && (planId, CheckedMicros(now)) in seen
    ensures var (t, written) := StorePlan(s, planId, now, faults);
            && (!Torn(faults) && Paired(seen, s.cached) ==> Paired(seen, t.cached))
            && (faults == NO_SEEN_FAULTS ==> written && StreakStored(t.cached, Some(Streak(planId, now))))
            && (StoredPollOk(t.cached) <==> StoredPollOk(s.cached))
            && (forall poll :: PollStored(t.cached, poll) <==> PollStored(s.cached, poll))
            && SameAt(t.cached, s.cached, CONSECUTIVE_FAILED_INSTALL_ATTEMPTS)
            && SameAt(t.cached, s.cached, CONSECUTIVE_FAILED_UPDATE_CHECKS)
            && t.durable == s.durable
  {
    hide CheckedMicros, CONTEXT_KEYS, StoredPollInterval;
    KeysDiffer();
    assert SameAt(StorePlan(s, planId, now, faults).0.cached, s.cached, SERVER_DICTATED_POLL_INTERVAL);
  }

  lemma PairedMore(seen: set<(string, Option<i64>)>, more: set<(string, Option<i64>)>, m: map<string, Value>)
    requires Paired(seen, m) && seen <= more
    ensures Paired(more, m)
  {
  }

  lemma StoredStreakPlan(s: Store, streak: Option<Streak>)
    requires StreakStored(s.cached, streak)
    ensures streak.Some? ==> s.GetString(INSTALL_PLAN_ID) == Some(streak.value.planId)
  {
  }

  lemma NewPlanInOrder(q: Books, w: World, planId: string, now: SystemTime, faults: SeenFaults, strict: bool)
    requires w.store.GetString(INSTALL_PLAN_ID) != Some(planId)
    requires strict ==> faults == NO_SEEN_FAULTS
    requires InOrder(Fold(NextBooks, q, w.log), w, strict)
    ensures var v := Emit(w, FirstSeen(planId, now, now, Torn(faults))).(
                       store := StorePlan(w.store, planId, now, faults).0);
            InOrder(Fold(NextBooks, q, v.log), v, strict)
  {
    hide Fold, PollOk, StoredPollOk, PollStored, StreakStored, Paired, RESERVED, Torn, CheckedMicros, StorePlan;
    EmitFolds(NextBooks, q);
    var b := Fold(NextBooks, q, w.log);
    var seen := b.seen + {(planId, CheckedMicros(now))};
    if b.tidy {
      PairedMore(b.seen, seen, w.store.cached);
      PairedMore(b.seen, seen, w.store.durable);
    }
    if StreakStored(w.store.cached, b.streak) {
      StoredStreakPlan(w.store, b.streak);
    }
    PlanStored(w.store, planId, now, faults, seen);
  }

  lemma NewPlanKeeps(q: Books, w: World, planId: string, now: SystemTime, faults: SeenFaults, strict: bool)
    requires w.store.GetString(INSTALL_PLAN_ID) != Some(planId)
    requires strict ==> faults == NO_SEEN_FAULTS
    ensures Keeps(q, w, Emit(w, FirstSeen(planId, now, now, Torn(faults))).(
                          store := StorePlan(w.store, planId, now, faults).0), strict)
  {
    hide InOrder, Fold, FailuresStored, InstallsRead, Torn, CheckedMicros, StorePlan, PollOk;
    EmitFolds(NextBooks, q);
    if InOrder(Fold(NextBooks, q, w.log), w, strict) {
      NewPlanInOrder(q, w, planId, now, faults, strict);
    }
    PlanStored(w.store, planId, now, faults, {(planId, CheckedMicros(now))});
    SameCounts(StorePlan(w.store, planId, now, faults).0.cached, w.store.cached);
  }

  lemma RecordFirstSeenKeeps(q: Books, w: World, planId: string, now: SystemTime, faults: SeenFaults, strict: bool)
    requires strict ==> faults == NO_SEEN_FAULTS
    ensures Keeps(q, w, RecordFirstSeen(w, planId, now, faults).world, strict)
  {
    hide InOrder, Steady, Fold, StorePlan;
    if w.store.GetString(INSTALL_PLAN_ID) == Some(planId) {
      SamePlanKeeps(q, w, planId, now, faults, strict);
    } else {
      NewPlanKeeps(q, w, planId, now, faults, strict);
      var w1 := Emit(w, FirstSeen(planId, now, now, Torn(faults))).(store := StorePlan(w.store, planId, now, faults).0);
      CommitKeeps(q, w1, faults.write, strict);
    }
  }

  lemma FinishStored(w: World, finish: SystemTime, versions: NextVersions, faults: Faults, key: string)
    requires key !in {UPDATE_FINISH_TIME, TARGET_VERSION}
    ensures SameAt(RecordFinish(w, finish, versions, faults).store.cached, w.store.cached, key)
  {
    hide CheckedMicros;
  }

  lemma FinishCommits(w: World, finish: SystemTime, versions: NextVersions, faults: Faults)
    ensures var s := RecordFinish(w, finish, versions, faults).store;
            s.durable == if faults.commit then w.store.durable else s.cached
  {
    hide CheckedMicros;
  }

  lemma RecordFinishKeeps(q: Books, w: World, finish: SystemTime, versions: NextVersions, faults: Faults, strict: bool)
    ensures Keeps(q, w, RecordFinish(w, finish, versions, faults), strict)
  {
    hide Fold, PollOk, StoredPollOk, PollStored, StreakStored, Paired, FailuresStored, InstallsRead, RESERVED,
      CONTEXT_KEYS, CheckedMicros;
    EmitFolds(NextBooks, q);
    KeysDiffer();
    FinishStored(w, finish, versions, faults, SERVER_DICTATED_POLL_INTERVAL);
    FinishStored(w, finish, versions, faults, INSTALL_PLAN_ID);
    FinishStored(w, finish, versions, faults, UPDATE_FIRST_SEEN_TIME);
    FinishStored(w, finish, versions, faults, CONSECUTIVE_FAILED_INSTALL_ATTEMPTS);
    FinishStored(w, finish, versions, faults, CONSECUTIVE_FAILED_UPDATE_CHECKS);
    SameCounts(RecordFinish(w, finish, versions, faults).store.cached, w.store.cached);
    FinishCommits(w, finish, versions, faults);
    SameAccounts(RecordFinish(w, finish, versions, faults).store.cached, w.store.cached);
  }

  lemma FinishInstallKeeps(
    q: Books, w: World, plan: Plan, r: Response, outcome: InstallOutcome, since: SystemTime, i: CheckInput,
    strict: bool)
    requires |outcome.results| == CountUpdates(r.apps)
    ensures Keeps(q, w, FinishInstall(w, plan, r, outcome, since, i).world, strict)
  {
    hide InOrder, Steady, Fold, WalkResults, ErrorsOf, VersionsOf, AppsWithUpdate, RecordFinish;
    var errors := ErrorsOf(outcome.results);
    if errors != [] {
      EmitAllKeeps(q, w, ErrorActs(errors), strict);
      EmitKeeps(q, EmitAll(w, ErrorActs(errors)), ChangeTo(InstallationError), strict);
    } else {
      var w1 := w;
      if since <= i.installFinish {
        var a := Report(SuccessfulUpdateFromFirstSeen(i.installFinish - since));
        EmitKeeps(q, w, a, strict);
        w1 := Emit(w, a);
      }
      var versions := VersionsOf(AppsWithUpdate(r.apps));
      RecordFinishKeeps(q, w1, i.installFinish, versions, i.finishFaults, strict);
      EmitKeeps(q, RecordFinish(w1, i.installFinish, versions, i.finishFaults),
                Query(RebootNeeded(plan, i.rebootNeeded)), strict);
    }
  }

  /** No write to storage fails during the check. */
  predicate Clean(i: CheckInput) {
    && CleanAttempts(i)
    && i.events.first.faults == NO_FAULTS
    && i.events.installs.faults == NO_FAULTS
    && i.events.complete.faults == NO_FAULTS
    && i.seenFaults == NO_SEEN_FAULTS
    && i.finishFaults == NO_FAULTS
    && i.countFaults == NO_FAULTS
    && i.persistFaults == NO_FAULTS
  }

  lemma InstallUpdateKeeps(
    q: Books, env: Env, w: World, params: RequestParams, apps: seq<App>, plan: Plan, r: Response, i: CheckInput,
    strict: bool)
    requires strict ==> Clean(i)
    ensures Keeps(q, w, InstallUpdate(env, w, params, apps, plan, r, i).world, strict)
  {
    hide InOrder, Steady, Fold, ReportEvent, RecordFirstSeen, ReportInstalls, FinishInstall, VersionsOf,
      AppsWithUpdate, NoAppsFailed;
    var versions := VersionsOf(AppsWithUpdate(r.apps));
    var started := SuccessEvent(UpdateDownloadStarted);
    var w1 := Emit(w, ChangeTo(InstallingUpdate));
    EmitKeeps(q, w, ChangeTo(InstallingUpdate), strict);
    ReportEventKeeps(q, env, w1, params, started, apps, i.sessionId, versions, None, i.events.first, strict);
    var w2 := ReportEvent(env, w1, params, started, apps, i.sessionId, versions, None, i.events.first);
    RecordFirstSeenKeeps(q, w2, plan.id, i.installStart, i.seenFaults, strict);
    var seen := RecordFirstSeen(w2, plan.id, i.installStart, i.seenFaults);
    var outcome := i.install(r);
    EmitAllKeeps(q, seen.world, ProgressActs(outcome.progress), strict);
    var w3 := EmitAll(seen.world, ProgressActs(outcome.progress));
    var done := PerformedInstall(plan, outcome.installResult, outcome.results);
    EmitKeeps(q, w3, done, strict);
    var w4 := Emit(w3, done);
    var clean := NoAppsFailed(outcome.results);
    var w5 := ReportInstallDuration(w4, i.installStart, i.installFinish, clean);
    if i.installStart <= i.installFinish {
      var took := i.installFinish - i.installStart;
      EmitKeeps(q, w4, Report(if clean then SuccessfulUpdateDuration(took) else FailedUpdateDuration(took)), strict);
    }
    var d := InstallDuration(i.installStart, i.installFinish);
    ReportInstallsKeeps(q, env, w5, params, apps, r, outcome.results, d, i, strict);
    CountAppsWithUpdate(r.apps);
    FinishInstallKeeps(q, ReportInstalls(env, w5, params, apps, r, outcome.results, d, i),
                       plan, r, outcome, seen.value, i, strict);
  }

  lemma HandleResponseKeeps(
    q: Books, env: Env, w: World, params: RequestParams, apps: seq<App>, r: Response, i: CheckInput, strict: bool)
    requires strict ==> Clean(i)
    ensures Keeps(q, w, HandleResponse(env, w, params, apps, r, i).world, strict)
  {
    hide InOrder, Steady, Fold, ReportEvent, InstallUpdate, VersionsOf, AppsWithUpdate, SameAction;
    var w1 := Emit(w, Yield(OmahaServerResponse(r)));
    EmitKeeps(q, w, Yield(OmahaServerResponse(r)), strict);
    var versions := VersionsOf(AppsWithUpdate(r.apps));
    EmitKeeps(q, w1, ChangeTo(NoUpdateAvailable), strict);
    match i.plan {
      case None =>
        var w2 := Emit(w1, ChangeTo(InstallingUpdate));
        EmitKeeps(q, w1, ChangeTo(InstallingUpdate), strict);
        EmitKeeps(q, w2, ChangeTo(InstallationError), strict);
        ReportEventKeeps(q, env, Emit(w2, ChangeTo(InstallationError)), params, ErrorEvent(ConstructInstallPlan), apps,
                         i.sessionId, versions, None, i.events.first, strict);
      case Some(plan) =>
        var w2 := Emit(w1, Query(UpdateCanStart(plan, i.planDecision)));
        EmitKeeps(q, w1, Query(UpdateCanStart(plan, i.planDecision)), strict);
        var event := if i.planDecision.UpdateDeferredByPolicy? then DEFERRED_EVENT else ErrorEvent(DeniedByPolicy);
        ReportEventKeeps(q, env, w2, params, event, apps, i.sessionId, versions, None, i.events.first, strict);
        EmitKeeps(q, ReportEvent(env, w2, params, event, apps, i.sessionId, versions, None, i.events.first),
                  ChangeTo(InstallationDeferredByPolicy), strict);
        InstallUpdateKeeps(q, env, w2, params, apps, plan, r, i, strict);
    }
  }

  lemma CheckIntervalKeeps(q: Books, w: World, now: ComplexTime, source: InstallSource, strict: bool)
    ensures Keeps(q, w, ReportCheckInterval(w, now, source), strict)
  {
    hide Fold, NextBooks, PollOk, StoredPollOk, PollStored, StreakStored, Paired, FailuresStored, InstallsRead,
      RESERVED;
    var last := w.context.schedule.lastUpdateCheckTime;
    if last.Some? && last.value.Wall? && last.value.wall <= now.wall {
      EmitKeeps(q, w, Report(UpdateCheckInterval(now.wall - last.value.wall, WallClock, source)), strict);
    } else if last.Some? && last.value.Complex? && last.value.time.mono <= now.mono {
      EmitKeeps(q, w, Report(UpdateCheckInterval(now.mono - last.value.time.mono, MonotonicClock, source)), strict);
    }
  }

  lemma PerformKeeps(
    q: Books, env: Env, w: World, params: RequestParams, apps: seq<App>, i: CheckInput, strict: bool)
    requires strict ==> Clean(i)
    ensures Keeps(q, w, PerformUpdateCheck(env, w, params, apps, i).world, strict)
  {
    hide InOrder, Steady, Fold, AttemptLoop, HandleResponse, ReportEvent, ReportCheckInterval, CheckOps, NoVersions;
    var w1 := Emit(w, ChangeTo(CheckingForUpdates(params.source)));
    EmitKeeps(q, w, ChangeTo(CheckingForUpdates(params.source)), strict);
    CheckIntervalKeeps(q, w1, i.checkTime, params.source, strict);
    var w2 := ReportCheckInterval(w1, i.checkTime, params.source);
    AttemptLoopKeeps(q, env, w2, params, CheckOps(apps), i, 1, strict);
    var s := AttemptLoop(env, w2, params, CheckOps(apps), i, 1);
    var count := Report(RequestsPerCheck(s.value.0, s.value.1.Success?));
    EmitKeeps(q, s.world, count, strict);
    var w3 := Emit(s.world, count);
    match s.value.1 {
      case Failure(_) =>
      case Success(Malformed) =>
        EmitKeeps(q, w3, ChangeTo(ErrorCheckingForUpdate), strict);
        ReportEventKeeps(q, env, Emit(w3, ChangeTo(ErrorCheckingForUpdate)), params, ErrorEvent(ParseResponse), apps,
                         i.sessionId, NoVersions(apps), None, i.events.first, strict);
      case Success(Parsed(r)) =>
        HandleResponseKeeps(q, env, w3, params, apps, r, i, strict);
    }
  }

  // After a check, and around it

  lemma {:induction false} PersistAppsForeign(s: Store, apps: seq<App>, codec: Codec, faults: Faults, key: string)
    requires IdsFree(apps) && key in RESERVED
    ensures SameAt(PersistApps(s, apps, codec, faults).cached, s.cached, key)
    ensures PersistApps(s, apps, codec, faults).durable == s.durable
  {
    hide RESERVED;
    PersistAppsFrame(s, apps, codec, faults, key);
  }

  lemma PersistDataKeeps(q: Books, env: Env, w: World, faults: Faults, strict: bool)
    requires strict ==> faults == NO_FAULTS
    requires InOrder(Fold(NextBooks, q, w.log), w, strict)
    ensures var v := PersistData(env, w, faults);
            && InOrder(Fold(NextBooks, q, v.log), v, strict)
            && v.apps == w.apps && v.context == w.context
            && SameAt(v.store.cached, w.store.cached, CONSECUTIVE_FAILED_INSTALL_ATTEMPTS)
            && (faults == NO_FAULTS ==> v.store.cached == v.store.durable)
  {
    hide Fold, PollOk, StoredTime, StoredFailures, PersistContext, PersistApps, RESERVED, CONTEXT_KEYS;
    EmitFolds(NextBooks, q);
    KeysDiffer();
    KeysReserved();
    var s := PersistContext(w.store, w.context, faults);
    PersistContextForeign(w.store, w.context, faults);
    PersistContextSafe(w.store, w.context, faults);
    PersistContextWrites(w.store, w.context);
    assert SameAt(s.cached, w.store.cached, INSTALL_PLAN_ID);
    assert SameAt(s.cached, w.store.cached, UPDATE_FIRST_SEEN_TIME);
    assert SameAt(s.cached, w.store.cached, CONSECUTIVE_FAILED_INSTALL_ATTEMPTS);
    PersistAppsForeign(s, w.apps, env.codec, faults, SERVER_DICTATED_POLL_INTERVAL);
    PersistAppsForeign(s, w.apps, env.codec, faults, INSTALL_PLAN_ID);
    PersistAppsForeign(s, w.apps, env.codec, faults, UPDATE_FIRST_SEEN_TIME);
    PersistAppsForeign(s, w.apps, env.codec, faults, CONSECUTIVE_FAILED_INSTALL_ATTEMPTS);
  }

  lemma PersistDataTracks(q: Books, env: Env, w: World, faults: Faults)
    requires Tracks(Fold(NextBooks, q, w.log), w)
    ensures var v := PersistData(env, w, faults);
            Tracks(Fold(NextBooks, q, v.log), v)
  {
    hide Fold, PersistContext, PersistApps, FailuresThen, InstallsThen, PollThen, StreakThen, SeenThen, IsSafe, IsExact,
      Paired, FailuresStored, InstallsRead;
    EmitFolds(NextBooks, q);
    PersistContextForeign(w.store, w.context, faults);
    PersistAppsKeepDurable(PersistContext(w.store, w.context, faults), w.apps, env.codec, faults);
  }

  lemma {:induction false} PersistAppsKeepDurable(s: Store, apps: seq<App>, codec: Codec, faults: Faults)
    ensures PersistApps(s, apps, codec, faults).durable == s.durable
  {
    if apps != [] {
      PersistAppsKeepDurable(s, apps[..|apps| - 1], codec, faults);
    }
  }

  lemma KeysReserved()
    ensures CONTEXT_KEYS <= RESERVED && SERVER_DICTATED_POLL_INTERVAL in CONTEXT_KEYS
    ensures {SERVER_DICTATED_POLL_INTERVAL, INSTALL_PLAN_ID, UPDATE_FIRST_SEEN_TIME,
             CONSECUTIVE_FAILED_INSTALL_ATTEMPTS} <= RESERVED
  {
  }

  lemma UpdateAppsFree(apps: seq<App>, responses: seq<AppResponse>)
    requires IdsFree(apps)
    ensures IdsFree(UpdateApps(apps, responses))
  {
    hide RESERVED, FirstResponse;
  }

  lemma TakeResultStored(w: World, p: Performed, i: CheckInput, key: string)
    requires key != CONSECUTIVE_FAILED_INSTALL_ATTEMPTS
    ensures SameAt(TakeResult(w, p, i).store.cached, w.store.cached, key)
    ensures TakeResult(w, p, i).store.durable == w.store.durable
  {
    hide InstallVerdict, UpdateApps, WrapU32, WrapI64, WrapU64, ReasonOf;
  }

  lemma TakeResultKeeps(q: Books, w: World, p: Performed, i: CheckInput, strict: bool)
    requires InOrder(Fold(NextBooks, q, w.log), w, strict)
    ensures var v := TakeResult(w, p, i);
            InOrder(Fold(NextBooks, q, v.log), v, strict)
  {
    hide Fold, PollOk, StoredPollOk, PollStored, StreakStored, Paired, FailuresStored, InstallsRead, RESERVED,
      CONTEXT_KEYS, InstallVerdict, UpdateApps, WrapU32, WrapI64, WrapU64, ReasonOf, Store.Set, Store.Remove;
    EmitFolds(NextBooks, q);
    KeysDiffer();
    TakeResultStored(w, p, i, SERVER_DICTATED_POLL_INTERVAL);
    TakeResultStored(w, p, i, INSTALL_PLAN_ID);
    TakeResultStored(w, p, i, UPDATE_FIRST_SEEN_TIME);
    SameAccounts(TakeResult(w, p, i).store.cached, w.store.cached);
    if p.Success? {
      UpdateAppsFree(w.apps, p.value.0);
    }
  }

  lemma StartKeeps(q: Books, env: Env, w: World, params: RequestParams, i: CheckInput, strict: bool)
    requires strict ==> Clean(i)
    requires InOrder(Fold(NextBooks, q, w.log), w, strict)
    ensures var v := StartUpdateCheck(env, w, params, i).world;
            InOrder(Fold(NextBooks, q, v.log), v, strict)
  {
    hide Fold, PerformUpdateCheck, PersistData, TakeResult, InOrder;
    PerformKeeps(q, env, w, params, w.apps, i, strict);
    var s := PerformUpdateCheck(env, w, params, w.apps, i);
    TakeResultKeeps(q, s.world, s.value, i, strict);
    AnnounceKeeps(q, TakeResult(s.world, s.value, i), ResultOf(s.value), strict);
    PersistDataKeeps(q, env, Announce(TakeResult(s.world, s.value, i), ResultOf(s.value)), i.persistFaults, strict);
  }

  lemma AnnounceKeeps(q: Books, w: World, r: CheckResult, strict: bool)
    ensures var v := Announce(w, r);
            && (InOrder(Fold(NextBooks, q, w.log), w, strict) ==> InOrder(Fold(NextBooks, q, v.log), v, strict))
            && Fold(NextBooks, q, v.log).durable == Fold(NextBooks, q, w.log).durable
            && Fold(NextBooks, q, v.log).counted == Fold(NextBooks, q, w.log).counted
            && v.context == w.context && v.store == w.store && v.apps == w.apps
  {
    hide Fold, StoredPollOk, PollOk, PollStored, StreakStored, Paired, FailuresStored, InstallsRead, RESERVED,
      InstallVerdict;
    EmitFolds(NextBooks, q);
  }
}
