/** Whole histories: any number of cycles, pings and restarts, from what storage kept each time. */
module Histories {
  import opened Wrappers
  import opened MachineInts
  import opened Clock
  import opened Protocol
  import opened Storage
  import opened CheckContext
  import opened AppSet
  import opened Trace
  import opened UpdateFlow
  import opened ClientRun
  import opened Observers
  import opened Bookkeeping

  /** The counts an observer keeps: failed checks and pings since the last success, failed
      installations since the last successful one, and what the current check has reported.  `ok` is
      judged whatever storage does, `exact` is what holds while storage does not fail. */
  datatype Tally = Tally(
    failures: nat,
    installs: nat,
    checkReported: bool,
    installReported: Option<bool>,
    ok: bool,
    exact: bool)

  function NextTally(t: Tally, a: Act): Tally {
    match a
    case Report(AttemptsToSuccessfulCheck(n)) =>
      t.(checkReported := true, ok := t.ok && !t.checkReported && n == WrapU32(t.failures + 1))
    case Report(AttemptsToSuccessfulInstall(n, successful)) =>
      t.(installReported := Some(successful),
         ok := t.ok && t.installReported.None?,
         exact := t.exact && n == WrapU64(WrapI64(t.installs + 1)))
    case Yield(UpdateCheckResult(Success(responses))) =>
      var verdict := InstallVerdict(responses);
      Tally(0,
            (match verdict case None => t.installs case Some(true) => 0 case Some(false) => t.installs + 1),
            false, None,
            t.ok && t.checkReported && t.installReported == verdict, t.exact)
    case Yield(UpdateCheckResult(Failure(_))) =>
      Tally(t.failures + 1, t.installs, false, None,
            t.ok && !t.checkReported && t.installReported.None?, t.exact)
    case Concluded(ForPing, r) =>
      t.(failures := if r.Success? && r.value.Parsed? then 0 else t.failures + 1)
    case Committed(_) => t.(ok := t.ok && !t.checkReported && t.installReported.None?)
    case _ => t
  }

  /** The client agrees with the counts, between checks. */
  ghost predicate Balanced(t: Tally, w: World, strict: bool) {
    && t.ok && !t.checkReported && t.installReported.None?
    && w.context.state.consecutiveFailedUpdateChecks == WrapU32(t.failures)
    && (strict ==>
          && t.exact
          && w.store.cached == w.store.durable
          && FailuresStored(w.store.cached, w.context.state.consecutiveFailedUpdateChecks)
          && InstallsRead(w.store.cached) == WrapI64(t.installs))
  }

  /** The books keep the same counts, wrapped. */
  ghost predicate Tied(b: Books, t: Tally) {
    b.failures == WrapU32(t.failures) && b.installs == WrapI64(t.installs)
  }

  /** The client agrees with the counts, and so did every snapshot while storage did not fail. */
  ghost predicate Agrees(b: Books, t: Tally, w: World, strict: bool) {
    Balanced(t, w, strict) && (strict ==> b.counted)
  }

  /** Whatever storage does, what is durable is known and the counts in memory stay right; what is in
      order stays so; and so do the counts in storage while it does not fail. */
  ghost predicate Carries(q: Books, r: Tally, w: World, v: World, strict: bool) {
    && (Tracks(Fold(NextBooks, q, w.log), w) ==> Tracks(Fold(NextBooks, q, v.log), v))
    && (Balanced(Fold(NextTally, r, w.log), w, false) ==> Balanced(Fold(NextTally, r, v.log), v, false))
    && (Tied(q, r) && InOrder(Fold(NextBooks, q, w.log), w, strict) ==>
          && InOrder(Fold(NextBooks, q, v.log), v, strict)
          && (Agrees(Fold(NextBooks, q, w.log), Fold(NextTally, r, w.log), w, strict) ==>
                Agrees(Fold(NextBooks, q, v.log), Fold(NextTally, r, v.log), v, strict)))
  }

  lemma TallyCounts(t: Tally, a: Act)
    ensures var u := NextTally(t, a);
            && WrapU32(u.failures) == FailuresThen(WrapU32(t.failures), a)
            && WrapI64(u.installs) == InstallsThen(WrapI64(t.installs), a)
  {
    hide WrapU32, WrapI64, WrapU64, InstallVerdict;
    WrapZero();
    WrapU32Successor(t.failures);
    WrapI64Successor(t.installs);
  }

  lemma TiedStep(b: Books, t: Tally, a: Act)
    requires Tied(b, t)
    ensures Tied(NextBooks(b, a), NextTally(t, a))
  {
    hide NextTally, WrapU32, WrapI64, FailuresThen, InstallsThen, PollThen, StreakThen, SeenThen, IsSafe, IsExact,
      Paired, FailuresStored, InstallsRead;
    TallyCounts(t, a);
  }

  lemma {:induction false} TiedFolds(q: Books, r: Tally, log: seq<Act>)
    requires Tied(q, r)
    ensures Tied(Fold(NextBooks, q, log), Fold(NextTally, r, log))
  {
    hide NextBooks, NextTally, Tied;
    if log != [] {
      TiedFolds(q, r, log[..|log| - 1]);
      TiedStep(Fold(NextBooks, q, log[..|log| - 1]), Fold(NextTally, r, log[..|log| - 1]), log[|log| - 1]);
    }
  }

  lemma AgreesIsSteady(b: Books, t: Tally, w: World)
    requires Tied(b, t) && Agrees(b, t, w, true)
    ensures Steady(b, w)
  {
    hide WrapU32, WrapI64, FailuresStored, InstallsRead;
  }

  lemma PersistFailures(env: Env, w: World)
    requires IdsFree(w.apps)
    ensures FailuresStored(PersistData(env, w, NO_FAULTS).store.cached, w.context.state.consecutiveFailedUpdateChecks)
  {
    hide PersistContext, PersistApps, StoredFailures, StoredTime, StoredPollInterval, RESERVED;
    KeysReserved();
    PersistContextWrites(w.store, w.context);
    var s := PersistContext(w.store, w.context, NO_FAULTS);
    PersistAppsForeign(s, w.apps, env.codec, NO_FAULTS, CONSECUTIVE_FAILED_UPDATE_CHECKS);
  }

  lemma InstallAttemptsCount(r: Tally, w: World, success: bool, faults: Faults)
    ensures var v := ReportInstallAttempts(w, success, faults);
            var t := Fold(NextTally, r, w.log);
            var n := WrapI64(InstallsRead(w.store.cached) + 1);
            && v.context == w.context
            && Fold(NextTally, r, v.log) ==
               t.(installReported := Some(success), ok := t.ok && t.installReported.None?,
                  exact := t.exact && WrapU64(n) == WrapU64(WrapI64(t.installs + 1)))
            && (faults == NO_FAULTS ==> InstallsRead(v.store.cached) == if success then 0 else n)
  {
    hide Fold, WrapI64, WrapU64;
    EmitFolds(NextTally, r);
  }

  /** What taking the result of a check does to the counts. */
  lemma TakeResultCounts(r: Tally, w: World, p: Performed, i: CheckInput, strict: bool)
    requires strict ==> i.countFaults == NO_FAULTS
    requires var t := Fold(NextTally, r, w.log);
             && t.ok && !t.checkReported && t.installReported.None?
             && w.context.state.consecutiveFailedUpdateChecks == WrapU32(t.failures)
             && (strict ==> t.exact && InstallsRead(w.store.cached) == WrapI64(t.installs))
    ensures var v := Announce(TakeResult(w, p, i), ResultOf(p));
            var t := Fold(NextTally, r, v.log);
            && t.ok && !t.checkReported && t.installReported.None?
            && v.context.state.consecutiveFailedUpdateChecks == WrapU32(t.failures)
            && (strict ==> t.exact && InstallsRead(v.store.cached) == WrapI64(t.installs))
  {
    hide Fold, InstallVerdict, UpdateApps, WrapU32, WrapI64, WrapU64, ReasonOf, ReportInstallAttempts, InstallsRead;
    EmitFolds(NextTally, r);
    WrapZero();
    WrapU32Successor(Fold(NextTally, r, w.log).failures);
    WrapI64Successor(Fold(NextTally, r, w.log).installs);
    if p.Success? {
      var w1 := ReportCheckAttempts(TalkedToOmaha(w, i.endTime), true);
      var w2 := w1.(apps := UpdateApps(w1.apps, p.value.0));
      var verdict := InstallVerdict(p.value.0);
      if verdict.Some? {
        InstallAttemptsCount(r, w2, verdict.value, i.countFaults);
      }
    }
  }

  lemma StartTracks(q: Books, env: Env, w: World, params: RequestParams, i: CheckInput)
    requires Tracks(Fold(NextBooks, q, w.log), w)
    ensures var v := StartUpdateCheck(env, w, params, i).world;
            Tracks(Fold(NextBooks, q, v.log), v)
  {
    hide Fold, InOrder, Steady, PerformUpdateCheck, PersistData, TakeResult, Announce;
    PerformKeeps(q, env, w, params, w.apps, i, false);
    var s := PerformUpdateCheck(env, w, params, w.apps, i);
    TakeResultUncommitted(q, s.world, s.value, i);
    TakeResultStored(s.world, s.value, i, "");
    AnnounceKeeps(q, TakeResult(s.world, s.value, i), ResultOf(s.value), false);
    PersistDataTracks(q, env, Announce(TakeResult(s.world, s.value, i), ResultOf(s.value)), i.persistFaults);
  }

  lemma StartBalances(r: Tally, env: Env, w: World, params: RequestParams, i: CheckInput)
    requires Balanced(Fold(NextTally, r, w.log), w, false)
    ensures var v := StartUpdateCheck(env, w, params, i).world;
            Balanced(Fold(NextTally, r, v.log), v, false)
  {
    hide Fold, InOrder, Steady, PerformUpdateCheck, PersistContext, PersistApps, TakeResult, Announce, WrapU32, WrapI64;
    PerformKeeps(NEW_BOOKS, env, w, params, w.apps, i, false);
    PerformUpdateCheckUnseen(NextTally, r, env, w, params, w.apps, i);
    var s := PerformUpdateCheck(env, w, params, w.apps, i);
    TakeResultCounts(r, s.world, s.value, i, false);
    PersistDataUnseen(NextTally, r, env, Announce(TakeResult(s.world, s.value, i), ResultOf(s.value)), i.persistFaults);
  }

  lemma StartCarries(q: Books, r: Tally, env: Env, w: World, params: RequestParams, i: CheckInput, strict: bool)
    requires strict ==> Clean(i)
    ensures Carries(q, r, w, StartUpdateCheck(env, w, params, i).world, strict)
  {
    hide Fold, InOrder, StartUpdateCheck, Balanced, Tied, Tracks;
    var b, t := Fold(NextBooks, q, w.log), Fold(NextTally, r, w.log);
    if Tracks(b, w) {
      StartTracks(q, env, w, params, i);
    }
    if Balanced(t, w, false) {
      StartBalances(r, env, w, params, i);
    }
    if Tied(q, r) && InOrder(b, w, strict) {
      StartKeeps(q, env, w, params, i, strict);
      if Agrees(b, t, w, strict) {
        StartAgrees(q, r, env, w, params, i, strict);
      }
    }
  }

  lemma StartAgrees(q: Books, r: Tally, env: Env, w: World, params: RequestParams, i: CheckInput, strict: bool)
    requires strict ==> Clean(i)
    requires Tied(q, r) && InOrder(Fold(NextBooks, q, w.log), w, strict)
    requires Agrees(Fold(NextBooks, q, w.log), Fold(NextTally, r, w.log), w, strict)
    ensures var v := StartUpdateCheck(env, w, params, i).world;
            Agrees(Fold(NextBooks, q, v.log), Fold(NextTally, r, v.log), v, strict)
  {
    hide Fold, InOrder, PerformUpdateCheck, PersistData, TakeResult, Announce, WrapU32, WrapI64, InstallsRead,
      FailuresStored, Tied;
    var b, t := Fold(NextBooks, q, w.log), Fold(NextTally, r, w.log);
    TiedFolds(q, r, w.log);
    if strict {
      AgreesIsSteady(b, t, w);
    }
    PerformKeeps(q, env, w, params, w.apps, i, strict);
    PerformUpdateCheckUnseen(NextTally, r, env, w, params, w.apps, i);
    var s := PerformUpdateCheck(env, w, params, w.apps, i);
    SameInstallsRead(w.store.cached, s.world.store.cached);
    TakeResultCounts(r, s.world, s.value, i, strict);
    TakeResultKeeps(q, s.world, s.value, i, strict);
    TakeResultUncommitted(q, s.world, s.value, i);
    var v := Announce(TakeResult(s.world, s.value, i), ResultOf(s.value));
    AnnounceKeeps(q, TakeResult(s.world, s.value, i), ResultOf(s.value), strict);
    PersistCarries(q, r, env, v, i.persistFaults, strict);
  }

  lemma Uncommitted(q: Books)
    ensures forall w: World, a: Act {:trigger Emit(w, a)} :: !a.Committed? ==>
              var b, c := Fold(NextBooks, q, w.log), Fold(NextBooks, q, Emit(w, a).log);
              c.counted == b.counted && c.durable == b.durable
  {
    hide Fold, FailuresThen, InstallsThen, PollThen, StreakThen, SeenThen, IsSafe, IsExact, Paired, FailuresStored,
      InstallsRead;
    EmitFolds(NextBooks, q);
  }

  lemma TakeResultUncommitted(q: Books, w: World, p: Performed, i: CheckInput)
    ensures var b, c := Fold(NextBooks, q, w.log), Fold(NextBooks, q, TakeResult(w, p, i).log);
            c.counted == b.counted && c.durable == b.durable
  {
    hide NextBooks, Fold, InstallVerdict, UpdateApps, WrapI64, WrapU32, WrapU64, ReasonOf;
    Uncommitted(q);
  }

  lemma SameInstallsRead(m: map<string, Value>, n: map<string, Value>)
    requires SameAt(n, m, CONSECUTIVE_FAILED_INSTALL_ATTEMPTS)
    ensures InstallsRead(m) == InstallsRead(n)
  {
  }

  /** Persisting at the end of a check or a ping settles the accounts. */
  lemma PersistCarries(q: Books, r: Tally, env: Env, w: World, faults: Faults, strict: bool)
    requires Tied(q, r) && (strict ==> faults == NO_FAULTS)
    requires InOrder(Fold(NextBooks, q, w.log), w, strict)
    requires strict ==> Fold(NextBooks, q, w.log).counted
    requires var t := Fold(NextTally, r, w.log);
             && t.ok && !t.checkReported && t.installReported.None?
             && w.context.state.consecutiveFailedUpdateChecks == WrapU32(t.failures)
             && (strict ==> t.exact && InstallsRead(w.store.cached) == WrapI64(t.installs))
    ensures var v := PersistData(env, w, faults);
            Agrees(Fold(NextBooks, q, v.log), Fold(NextTally, r, v.log), v, strict)
  {
    hide Fold, PersistData, WrapU32, WrapI64, InstallsRead, FailuresStored, PollOk, StoredPollOk, RESERVED;
    var v := PersistData(env, w, faults);
    PersistDataKeeps(q, env, w, faults, strict);
    PersistDataUnseen(NextTally, r, env, w, faults);
    SameInstallsRead(w.store.cached, v.store.cached);
    TiedFolds(q, r, w.log);
    if strict {
      PersistFailures(env, w);
      PersistCounts(q, env, w);
    }
  }

  /** The snapshot made by persisting is what it leaves in storage. */
  lemma PersistCounts(q: Books, env: Env, w: World)
    ensures var v := PersistData(env, w, NO_FAULTS);
            var b := Fold(NextBooks, q, w.log);
            Fold(NextBooks, q, v.log).counted ==
            (b.counted && FailuresStored(v.store.cached, b.failures) && InstallsRead(v.store.cached) == b.installs)
  {
    hide Fold, PersistContext, PersistApps, FailuresStored, InstallsRead, StoredPollOk, PollStored, StreakStored,
      Paired;
    EmitFolds(NextBooks, q);
  }

  lemma {:induction false} ServedUncounted(arrivals: seq<CheckOptions>)
    ensures forall a, p :: a in Served(arrivals) ==> NextBooks(p, a) == p
    ensures forall a, p :: a in Served(arrivals) ==> NextTally(p, a) == p
  {
    if arrivals != [] {
      ServedUncounted(arrivals[..|arrivals| - 1]);
    }
  }

  lemma ServingCarries(q: Books, r: Tally, env: Env, w: World, params: RequestParams, c: CycleInput, strict: bool)
    requires strict ==> Clean(c.check)
    ensures Carries(q, r, w, CheckWhileServing(env, w, params, c).world, strict)
  {
    hide StartUpdateCheck, Served, Merge, Fold, InOrder, Balanced, Tied, Tracks;
    var alone := w.(log := []);
    var b, t := Fold(NextBooks, q, w.log), Fold(NextTally, r, w.log);
    var s := StartUpdateCheck(env, alone, params, c.check);
    FoldEmpty(NextBooks, b);
    FoldEmpty(NextTally, t);
    StartCarries(b, t, env, alone, params, c.check, strict);
    ServedUncounted(c.arrivals);
    FoldMerge(NextBooks, b, s.world.log, Served(c.arrivals), c.pattern);
    FoldMerge(NextTally, t, s.world.log, Served(c.arrivals), c.pattern);
    FoldConcat(NextBooks, q, w.log, Merge(s.world.log, Served(c.arrivals), c.pattern));
    FoldConcat(NextTally, r, w.log, Merge(s.world.log, Served(c.arrivals), c.pattern));
    LogAside(b, t, w, alone, strict);
    LogAside(b, t, CheckWhileServing(env, w, params, c).world, s.world, strict);
    if Tied(q, r) {
      TiedFolds(q, r, w.log);
    }
  }

  /** The invariants look at the record only through the books and the counts. */
  lemma LogAside(b: Books, t: Tally, w: World, v: World, strict: bool)
    requires v == w.(log := v.log)
    ensures forall x :: InOrder(x, w, strict) <==> InOrder(x, v, strict)
    ensures forall x :: Balanced(x, w, strict) <==> Balanced(x, v, strict)
    ensures forall x :: Balanced(x, w, false) <==> Balanced(x, v, false)
    ensures forall x :: Tracks(x, w) <==> Tracks(x, v)
  {
  }

  predicate CleanPing(p: PingInput) {
    p.request.faults == NO_FAULTS && p.persistFaults == NO_FAULTS
  }

  lemma PingRequestCounts(r: Tally, w: World, request: Intermediate, input: RequestInput)
    requires !Fold(NextTally, r, w.log).checkReported && Fold(NextTally, r, w.log).installReported.None?
    ensures var s := DoRequest(w, ForPing, request, input);
            var t := Fold(NextTally, r, w.log);
            Fold(NextTally, r, s.world.log) ==
            t.(failures := if s.value.Success? && s.value.value.Parsed? then 0 else t.failures + 1)
  {
    hide Fold, NotePollInterval, ParseRetryAfter;
    EmitFolds(NextTally, r);
    if input.reply.Responded? {
      NotePollIntervalUnseen(
        NextTally, r, Emit(w, Sent(ForPing, request)), ParseRetryAfter(input.reply.retryAfter), input.faults);
    }
  }

  /** A successful ping, up to its writing. */
  lemma PingSuccessCarries(q: Books, r: Tally, w: World, response: Response, now: ComplexTime, strict: bool)
    requires InOrder(Fold(NextBooks, q, w.log), w, strict)
    ensures var w1 := TalkedToOmaha(w.WithState(w.context.state.(consecutiveFailedUpdateChecks := 0)), now);
            var w2 := Emit(w1, Yield(ScheduleChange(w1.context.schedule)));
            var v := w2.(apps := UpdateApps(w2.apps, SameAction(response, NoUpdate)));
            && InOrder(Fold(NextBooks, q, v.log), v, strict)
            && Fold(NextTally, r, v.log) == Fold(NextTally, r, w.log)
            && Fold(NextBooks, q, v.log) == Fold(NextBooks, q, w.log)
            && v.store == w.store
  {
    hide Fold, PollOk, StoredPollOk, PollStored, StreakStored, Paired, RESERVED, UpdateApps;
    EmitFolds(NextBooks, q);
    EmitFolds(NextTally, r);
    UpdateAppsFree(w.apps, SameAction(response, NoUpdate));
  }

  lemma CountFailureKeeps(q: Books, w: World, strict: bool)
    requires InOrder(Fold(NextBooks, q, w.log), w, strict)
    ensures InOrder(Fold(NextBooks, q, CountFailure(w).log), CountFailure(w), strict)
  {
    hide Fold, PollOk, StoredPollOk, PollStored, StreakStored, Paired, RESERVED;
  }

  lemma PingAgrees(q: Books, r: Tally, env: Env, w: World, p: PingInput, strict: bool)
    requires strict ==> CleanPing(p)
    requires Tied(q, r) && InOrder(Fold(NextBooks, q, w.log), w, strict)
    ensures var v := PingOmaha(env, w, p);
            && InOrder(Fold(NextBooks, q, v.log), v, strict)
            && (Agrees(Fold(NextBooks, q, w.log), Fold(NextTally, r, w.log), w, strict) ==>
                  Agrees(Fold(NextBooks, q, v.log), Fold(NextTally, r, v.log), v, strict))
  {
    hide Fold, InOrder, DoRequest, RequestOf, PingOps, PersistData, UpdateApps, SameAction, WrapU32, WrapI64,
      InstallsRead, FailuresStored, Tied;
    var b, t := Fold(NextBooks, q, w.log), Fold(NextTally, r, w.log);
    var request := RequestOf(env, PING_PARAMS, PingOps(w.apps), p.sessionId, p.request.requestId);
    var s := DoRequest(w, ForPing, request, p.request);
    PingRequestKeeps(q, w, request, p.request, strict);
    SameInstallsRead(w.store.cached, s.world.store.cached);
    if Agrees(b, t, w, strict) {
      PingRequestCounts(r, w, request, p.request);
      TiedFolds(q, r, w.log);
      if strict {
        AgreesIsSteady(b, t, w);
      }
    }
    WrapZero();
    WrapU32Successor(t.failures);
    match s.value {
      case Success(Parsed(response)) =>
        PingSuccessCarries(q, r, s.world, response, p.endTime, strict);
        var reset := s.world.context.state.(consecutiveFailedUpdateChecks := 0);
        var w1 := TalkedToOmaha(s.world.WithState(reset), p.endTime);
        var w2 := Emit(w1, Yield(ScheduleChange(w1.context.schedule)));
        var v := w2.(apps := UpdateApps(w2.apps, SameAction(response, NoUpdate)));
        PersistDataKeeps(q, env, v, p.persistFaults, strict);
        if Agrees(b, t, w, strict) {
          PersistCarries(q, r, env, v, p.persistFaults, strict);
        }
      case _ =>
        CountFailureKeeps(q, s.world, strict);
        PersistDataKeeps(q, env, CountFailure(s.world), p.persistFaults, strict);
        if Agrees(b, t, w, strict) {
          PersistCarries(q, r, env, CountFailure(s.world), p.persistFaults, strict);
        }
    }
  }

  lemma PingTracks(q: Books, env: Env, w: World, p: PingInput)
    requires Tracks(Fold(NextBooks, q, w.log), w)
    ensures var v := PingOmaha(env, w, p);
            Tracks(Fold(NextBooks, q, v.log), v)
  {
    hide Fold, InOrder, Steady, DoRequest, RequestOf, PingOps, PersistData, UpdateApps, SameAction, WrapU32,
      FailuresThen, InstallsThen, PollThen, StreakThen, SeenThen, IsSafe, IsExact, Paired, FailuresStored, InstallsRead;
    EmitFolds(NextBooks, q);
    var request := RequestOf(env, PING_PARAMS, PingOps(w.apps), p.sessionId, p.request.requestId);
    var s := DoRequest(w, ForPing, request, p.request);
    PingRequestKeeps(q, w, request, p.request, false);
    match s.value {
      case Success(Parsed(response)) =>
        var reset := s.world.context.state.(consecutiveFailedUpdateChecks := 0);
        var w1 := TalkedToOmaha(s.world.WithState(reset), p.endTime);
        var w2 := Emit(w1, Yield(ScheduleChange(w1.context.schedule)));
        PersistDataTracks(q, env, w2.(apps := UpdateApps(w2.apps, SameAction(response, NoUpdate))), p.persistFaults);
      case _ =>
        PersistDataTracks(q, env, CountFailure(s.world), p.persistFaults);
    }
  }

  lemma PingBalances(r: Tally, env: Env, w: World, p: PingInput)
    requires Balanced(Fold(NextTally, r, w.log), w, false)
    ensures var v := PingOmaha(env, w, p);
            Balanced(Fold(NextTally, r, v.log), v, false)
  {
    hide Fold, InOrder, Steady, DoRequest, RequestOf, PingOps, PersistContext, PersistApps, UpdateApps, SameAction,
      WrapU32, WrapI64;
    EmitFolds(NextTally, r);
    var t := Fold(NextTally, r, w.log);
    WrapZero();
    WrapU32Successor(t.failures);
    var request := RequestOf(env, PING_PARAMS, PingOps(w.apps), p.sessionId, p.request.requestId);
    var s := DoRequest(w, ForPing, request, p.request);
    PingRequestKeeps(NEW_BOOKS, w, request, p.request, false);
    PingRequestCounts(r, w, request, p.request);
    match s.value {
      case Success(Parsed(response)) =>
        var reset := s.world.context.state.(consecutiveFailedUpdateChecks := 0);
        var w1 := TalkedToOmaha(s.world.WithState(reset), p.endTime);
        var w2 := Emit(w1, Yield(ScheduleChange(w1.context.schedule)));
        var v := w2.(apps := UpdateApps(w2.apps, SameAction(response, NoUpdate)));
        PersistDataUnseen(NextTally, r, env, v, p.persistFaults);
      case _ =>
        PersistDataUnseen(NextTally, r, env, CountFailure(s.world), p.persistFaults);
    }
  }

  lemma PingCarries(q: Books, r: Tally, env: Env, w: World, p: PingInput, strict: bool)
    requires strict ==> CleanPing(p)
    ensures Carries(q, r, w, PingOmaha(env, w, p), strict)
  {
    hide Fold, InOrder, PingOmaha, Agrees, Balanced, Tied, Tracks;
    if Tracks(Fold(NextBooks, q, w.log), w) {
      PingTracks(q, env, w, p);
    }
    if Balanced(Fold(NextTally, r, w.log), w, false) {
      PingBalances(r, env, w, p);
    }
    if Tied(q, r) && InOrder(Fold(NextBooks, q, w.log), w, strict) {
      PingAgrees(q, r, env, w, p, strict);
    }
  }

  /** Acts that neither the books nor the counts record. */
  predicate Uncounted(a: Act) {
    && OffBooks(a)
    && !(a.Report? && (a.metrics.AttemptsToSuccessfulCheck? || a.metrics.AttemptsToSuccessfulInstall?))
    && !(a.Yield? && a.event.UpdateCheckResult?)
  }

  lemma EmitCarries(q: Books, r: Tally, w: World, a: Act, strict: bool)
    requires Uncounted(a)
    ensures Carries(q, r, w, Emit(w, a), strict)
  {
    hide Fold, InOrder, WrapU32, WrapI64, InstallsRead, FailuresStored, Tied;
    EmitKeeps(q, w, a, strict);
    EmitFolds(NextBooks, q);
    EmitFolds(NextTally, r);
  }

  lemma NextTimeCarries(q: Books, r: Tally, w: World, timing: CheckTiming, strict: bool)
    ensures Carries(q, r, w, UpdateNextUpdateTime(w, timing), strict)
  {
    hide Tied, Fold, PollOk, StoredPollOk, PollStored, StreakStored, Paired, RESERVED, WrapU32, WrapI64, InstallsRead,
      FailuresStored;
    EmitFolds(NextBooks, q);
    EmitFolds(NextTally, r);
  }

  predicate CleanStep(step: RebootStep) {
    step.PingDue? ==> CleanPing(step.ping)
  }

  lemma RoundCarries(
    q: Books, r: Tally, env: Env, w: World, options: CheckOptions, installed: InstallResult, step: RebootStep,
    strict: bool)
    requires strict ==> CleanStep(step)
    ensures Carries(q, r, w, RebootRound(env, w, options, installed, step).world, strict)
  {
    hide Carries, PingOmaha, UpdateNextUpdateTime;
    CarriesIsPreorder(q, r, strict);
    match step {
      case RecheckDue(allowed) =>
        var query := Query(RebootAllowed(options, installed, allowed));
        EmitCarries(q, r, w, query, strict);
        EmitCarries(q, r, Emit(w, query), Waited(ForReboot(CHECK_REBOOT_ALLOWED_INTERVAL)), strict);
      case PingDue(ping, timing) =>
        PingCarries(q, r, env, w, ping, strict);
        NextTimeCarries(q, r, PingOmaha(env, w, ping), timing, strict);
      case AskedToCheck(asked, allowed) =>
        EmitCarries(q, r, w, Received(asked), strict);
        EmitCarries(q, r, Emit(w, Received(asked)), Replied(AlreadyRunning), strict);
        EmitCarries(q, r, Emit(Emit(w, Received(asked)), Replied(AlreadyRunning)),
                    Query(RebootAllowed(options.(source := OnDemand), installed, allowed)), strict);
    }
  }

  lemma CarriesIsPreorder(q: Books, r: Tally, strict: bool)
    ensures forall w: World :: Carries(q, r, w, w, strict)
    ensures forall w: World, v: World, u: World {:trigger Carries(q, r, w, v, strict), Carries(q, r, v, u, strict)} ::
              Carries(q, r, w, v, strict) && Carries(q, r, v, u, strict) ==> Carries(q, r, w, u, strict)
  {
    hide Fold, InOrder, Agrees, Tied;
  }

  lemma {:induction false} RebootLoopCarries(
    q: Books, r: Tally, env: Env, w: World, options: CheckOptions, installed: InstallResult, steps: seq<RebootStep>,
    strict: bool)
    requires strict ==> forall k :: 0 <= k < |steps| ==> CleanStep(steps[k])
    ensures Carries(q, r, w, RebootLoop(env, w, options, installed, steps).world, strict)
    decreases |steps|
  {
    hide Carries, RebootRound;
    CarriesIsPreorder(q, r, strict);
    if steps != [] {
      RoundCarries(q, r, env, w, options, installed, steps[0], strict);
      var round := RebootRound(env, w, options, installed, steps[0]);
      EmitCarries(q, r, round.world, PerformReboot, strict);
      RebootLoopCarries(q, r, env, round.world, round.options, installed, steps[1..], strict);
    }
  }

  predicate CleanReboot(r: RebootInput) {
    forall k :: 0 <= k < |r.steps| ==> CleanStep(r.steps[k])
  }

  lemma WaitForRebootCarries(
    q: Books, r: Tally, env: Env, w: World, options: CheckOptions, installed: InstallResult, input: RebootInput,
    strict: bool)
    requires strict ==> CleanReboot(input)
    ensures Carries(q, r, w, WaitForReboot(env, w, options, installed, input).world, strict)
  {
    hide Carries, RebootLoop, UpdateNextUpdateTime;
    CarriesIsPreorder(q, r, strict);
    var query := Query(RebootAllowed(options, installed, input.allowedAtOnce));
    var pause := Waited(ForReboot(CHECK_REBOOT_ALLOWED_INTERVAL));
    var w1 := Emit(w, query);
    EmitCarries(q, r, w, query, strict);
    EmitCarries(q, r, w1, PerformReboot, strict);
    EmitCarries(q, r, w1, pause, strict);
    NextTimeCarries(q, r, Emit(w1, pause), input.timing, strict);
    RebootLoopCarries(
      q, r, env, UpdateNextUpdateTime(Emit(w1, pause), input.timing), options, installed, input.steps, strict);
  }

  /** No write to storage fails in the cycle. */
  predicate CleanCycle(c: CycleInput) {
    Clean(c.check) && CleanReboot(c.reboot) && c.removeFaults == NO_FAULTS
  }

  lemma AwaitCheckCarries(q: Books, r: Tally, w: World, c: CycleInput, strict: bool)
    ensures Carries(q, r, w, AwaitCheck(w, c), strict)
  {
    hide Carries, UpdateNextUpdateTime;
    CarriesIsPreorder(q, r, strict);
    NextTimeCarries(q, r, w, c.timing, strict);
    var w1 := UpdateNextUpdateTime(w, c.timing);
    var w2 := w1;
    if c.wake.Requested? {
      EmitCarries(q, r, w1, Received(c.wake.options), strict);
      w2 := Emit(w1, Received(c.wake.options));
    }
    var query := Query(UpdateCheckAllowed(OptionsOf(c.wake), c.decision));
    EmitCarries(q, r, w2, query, strict);
    EmitCarries(q, r, Emit(w2, query), Replied(if Positive(c.decision) then Started else Throttled), strict);
  }

  lemma WaitStored(d: Driver, start: Instant, c: CycleInput, key: string)
    requires key !in {UPDATE_FINISH_TIME, TARGET_VERSION}
    ensures SameAt(TryReportWait(d, start, c).world.store.cached, d.world.store.cached, key)
  {
  }

  lemma ReportWaitCarries(q: Books, r: Tally, d: Driver, start: Instant, c: CycleInput, strict: bool)
    requires strict ==> c.removeFaults == NO_FAULTS
    ensures Carries(q, r, d.world, TryReportWait(d, start, c).world, strict)
  {
    hide Fold, PollOk, StoredPollOk, PollStored, StreakStored, Paired, FailuresStored, InstallsRead, RESERVED,
      CONTEXT_KEYS, WrapU32, WrapI64, Store.Remove, Tied;
    EmitFolds(NextBooks, q);
    EmitFolds(NextTally, r);
    KeysDiffer();
    WaitStored(d, start, c, SERVER_DICTATED_POLL_INTERVAL);
    WaitStored(d, start, c, INSTALL_PLAN_ID);
    WaitStored(d, start, c, UPDATE_FIRST_SEEN_TIME);
    WaitStored(d, start, c, CONSECUTIVE_FAILED_INSTALL_ATTEMPTS);
    WaitStored(d, start, c, CONSECUTIVE_FAILED_UPDATE_CHECKS);
    WaitCommits(d, start, c);
    SameAccounts(TryReportWait(d, start, c).world.store.cached, d.world.store.cached);
    SameCounts(TryReportWait(d, start, c).world.store.cached, d.world.store.cached);
    var b, t := Fold(NextBooks, q, d.world.log), Fold(NextTally, r, d.world.log);
    if Tied(q, r) && Agrees(b, t, d.world, strict) && strict {
      TiedFolds(q, r, d.world.log);
      AgreesIsSteady(b, t, d.world);
    }
  }

  lemma WaitCommits(d: Driver, start: Instant, c: CycleInput)
    ensures var s, t := TryReportWait(d, start, c).world.store, d.world.store;
            if c.removeFaults.commit then s.durable == t.durable else s == t || s.durable == s.cached
  {
  }

  lemma CheckAndRebootCarries(q: Books, r: Tally, env: Env, w: World, c: CycleInput, strict: bool)
    requires Positive(c.decision) && (strict ==> CleanCycle(c))
    ensures Carries(q, r, w, CheckAndReboot(env, w, c).world, strict)
  {
    hide Carries, CheckWhileServing, WaitForReboot, Upgraded;
    CarriesIsPreorder(q, r, strict);
    ServingCarries(q, r, env, w, c.decision.params, c, strict);
    var s := CheckWhileServing(env, w, c.decision.params, c);
    match s.value {
      case NotNeeded => EmitCarries(q, r, s.world, ChangeTo(Idle), strict);
      case Needed(installed) =>
        var w1 := Emit(s.world, ChangeTo(WaitingForReboot));
        EmitCarries(q, r, s.world, ChangeTo(WaitingForReboot), strict);
        var options := Upgraded(OptionsOf(c.wake), c.arrivals);
        WaitForRebootCarries(q, r, env, w1, options, installed, c.reboot, strict);
        EmitCarries(q, r, WaitForReboot(env, w1, options, installed, c.reboot).world, ChangeTo(Idle), strict);
    }
  }

  lemma CycleCarries(q: Books, r: Tally, env: Env, d: Driver, start: Instant, c: CycleInput, strict: bool)
    requires strict ==> CleanCycle(c)
    ensures Carries(q, r, d.world, RunCycle(env, d, start, c).world, strict)
  {
    hide Carries, TryReportWait, AwaitCheck, CheckAndReboot;
    CarriesIsPreorder(q, r, strict);
    ReportWaitCarries(q, r, d, start, c, strict);
    var d1 := TryReportWait(d, start, c);
    AwaitCheckCarries(q, r, d1.world, c, strict);
    if Positive(c.decision) {
      CheckAndRebootCarries(q, r, env, AwaitCheck(d1.world, c), c, strict);
    }
  }

  lemma {:induction false} RunCarries(
    q: Books, r: Tally, env: Env, d: Driver, start: Instant, cycles: seq<CycleInput>, strict: bool)
    requires strict ==> forall k :: 0 <= k < |cycles| ==> CleanCycle(cycles[k])
    ensures Carries(q, r, d.world, RunCycles(env, d, start, cycles).world, strict)
    decreases |cycles|
  {
    hide Carries, RunCycle;
    CarriesIsPreorder(q, r, strict);
    if cycles != [] && !d.halted {
      CycleCarries(q, r, env, d, start, cycles[0], strict);
      RunCarries(q, r, env, RunCycle(env, d, start, cycles[0]), start, cycles[1..], strict);
    }
  }

  // Restarts

  /** The apps given to a boot may not have reserved ids. */
  predicate SoundBoot(b: BootInput) {
    forall k :: 0 <= k < |b.presets| ==> b.presets[k].id !in RESERVED
  }

  /** No write to storage fails in this life. */
  predicate CleanLife(b: BootInput) {
    forall k :: 0 <= k < |b.cycles| ==> CleanCycle(b.cycles[k])
  }

  /** Moreover it does not end between a change and its commit. */
  predicate CleanBoot(b: BootInput) {
    CleanLife(b) && !b.ending.Anywhere?
  }

  lemma LoadAppsFree(presets: seq<App>, s: Store, codec: Codec)
    requires IdsFree(presets)
    ensures IdsFree(LoadApps(presets, s, codec))
  {
    hide RESERVED;
  }

  lemma BootKeeps(q: Books, env: Env, w: World, presets: seq<App>, strict: bool)
    requires IdsFree(presets)
    requires InOrder(Fold(NextBooks, q, w.log), w, strict)
    requires strict ==> w.store.cached == w.store.durable
    ensures var v := Boot(env, w, presets);
            InOrder(Fold(NextBooks, q, v.log), v, strict)
  {
    hide Fold, PollOk, StoredPollOk, PollStored, LoadPollInterval, RESERVED, LoadApps, LoadFailures;
    EmitFolds(NextBooks, q);
    LoadAppsFree(presets, w.store.Restart(), env.codec);
    StoredPollLoads(w.store.Restart());
    if strict {
      SameStoredPoll(w.store.Restart(), w.context.state.serverDictatedPollInterval);
    }
  }

  lemma SameStoredPoll(s: Store, poll: Option<Duration>)
    requires PollOk(poll) && PollStored(s.cached, poll)
    ensures LoadPollInterval(s.GetInt(SERVER_DICTATED_POLL_INTERVAL)) == poll
  {
    PollFits(poll, s.cached);
  }

  lemma BootBalances(r: Tally, env: Env, w: World, presets: seq<App>)
    requires Balanced(Fold(NextTally, r, w.log), w, true)
    ensures var v := Boot(env, w, presets);
            Balanced(Fold(NextTally, r, v.log), v, true)
  {
    hide Fold, WrapI64, LoadApps, LoadPollInterval;
    EmitFolds(NextTally, r);
  }

  lemma LifeCarries(q: Books, r: Tally, env: Env, w: World, b: BootInput, strict: bool)
    requires Tied(q, r) && SoundBoot(b) && (strict ==> CleanBoot(b))
    requires InOrder(Fold(NextBooks, q, w.log), w, strict)
    requires strict ==> Agrees(Fold(NextBooks, q, w.log), Fold(NextTally, r, w.log), w, strict)
    ensures var v := Life(env, w, b);
            && InOrder(Fold(NextBooks, q, v.log), v, strict)
            && (strict ==> Agrees(Fold(NextBooks, q, v.log), Fold(NextTally, r, v.log), v, strict))
  {
    hide InOrder, Boot, RunCycles, Fold, WrapU32, WrapI64, InstallsRead, FailuresStored, RESERVED, Tied;
    BootKeeps(q, env, w, b.presets, strict);
    BootCounts(q, env, w, b.presets);
    if strict {
      BootBalances(r, env, w, b.presets);
    }
    var w1 := Boot(env, w, b.presets);
    RunCarries(q, r, env, Driver(w1, PendingReport(env, w1.store), false), b.start, b.cycles, strict);
  }

  lemma BootCounts(q: Books, env: Env, w: World, presets: seq<App>)
    ensures Fold(NextBooks, q, Boot(env, w, presets).log) == Fold(NextBooks, q, w.log)
  {
    hide Fold, LoadApps, LoadContext;
    EmitFolds(NextBooks, q);
  }

  // Lives that end in their midst

  lemma BooksFollow(b: Books, a: Act)
    ensures var c := NextBooks(b, a);
            && c.streak == StreakThen(b.streak, a)
            && c.seen == SeenThen(b.seen, a)
            && c.poll == PollThen(b.poll, a)
            && c.tidy == (b.tidy && !(a.FirstSeen? && a.torn))
            && c.durable == if a.Committed? then a.snapshot else b.durable
  {
    hide FailuresThen, InstallsThen, PollThen, StreakThen, SeenThen, IsSafe, IsExact, Paired, FailuresStored,
      InstallsRead;
  }

  /** What an observer knows of the durable part without looking at it. */
  predicate SoundBooks(b: Books) {
    b.safe && b.paired ==> PollOk(b.poll) && StoredPollOk(b.durable) && (b.tidy ==> Paired(b.seen, b.durable))
  }

  lemma NextIsSound(b: Books, a: Act)
    requires SoundBooks(b)
    ensures SoundBooks(NextBooks(b, a))
    ensures var c := NextBooks(b, a);
            && (c.safe ==> b.safe) && (c.paired ==> b.paired) && (c.exact ==> b.exact) && (c.counted ==> b.counted)
  {
    hide PollOk, StoredPollOk, PollStored, StreakStored, FailuresStored, InstallsRead, InstallVerdict, CheckedMicros,
      PairIn;
  }

  /** The flags of the books, once lowered, stay so; the durable part is what was committed last. */
  lemma {:induction false} BooksOfPrefix(b: Books, acts: seq<Act>, n: nat)
    requires SoundBooks(b) && n <= |acts|
    ensures var c, p := Fold(NextBooks, b, acts), Fold(NextBooks, b, acts[..n]);
            && SoundBooks(p)
            && (c.safe ==> p.safe) && (c.paired ==> p.paired) && (c.exact ==> p.exact) && (c.counted ==> p.counted)
            && p.durable == LastCommitted(b.durable, acts[..n])
  {
    hide NextBooks, SoundBooks, LastCommitted;
    if n < |acts| {
      assert acts[..|acts| - 1][..n] == acts[..n];
      BooksOfPrefix(b, acts[..|acts| - 1], n);
      SoundBooksAfter(b, acts[..|acts| - 1]);
      NextIsSound(Fold(NextBooks, b, acts[..|acts| - 1]), acts[|acts| - 1]);
    } else {
      assert acts[..n] == acts;
      SoundBooksAfter(b, acts);
    }
  }

  lemma {:induction false} SoundBooksAfter(b: Books, acts: seq<Act>)
    requires SoundBooks(b)
    ensures SoundBooks(Fold(NextBooks, b, acts))
    ensures Fold(NextBooks, b, acts).durable == LastCommitted(b.durable, acts)
  {
    hide NextBooks, SoundBooks;
    if acts != [] {
      var before := Fold(NextBooks, b, acts[..|acts| - 1]);
      SoundBooksAfter(b, acts[..|acts| - 1]);
      NextIsSound(before, acts[|acts| - 1]);
      BooksFollow(before, acts[|acts| - 1]);
    }
  }

  lemma {:induction false} TallyOfPrefix(t: Tally, acts: seq<Act>, n: nat)
    requires n <= |acts|
    ensures var u, p := Fold(NextTally, t, acts), Fold(NextTally, t, acts[..n]);
            (u.ok ==> p.ok) && (u.exact ==> p.exact)
    ensures var p := Fold(NextTally, t, acts[..n]);
            n > 0 && acts[n - 1].Committed? && p.ok ==> !p.checkReported && p.installReported.None?
  {
    hide InstallVerdict, WrapU32, WrapI64, WrapU64;
    if n < |acts| {
      assert acts[..|acts| - 1][..n] == acts[..n];
      TallyOfPrefix(t, acts[..|acts| - 1], n);
    } else {
      assert acts[..n] == acts;
    }
  }

  function CommitsIn(acts: seq<Act>, n: nat): nat
    requires n <= |acts|
  {
    if n == 0 then 0 else (if acts[0].Committed? then 1 else 0) + CommitsIn(acts[1..], n - 1)
  }

  lemma {:induction false} UpToThatCommit(acts: seq<Act>, n: nat)
    requires n < |acts| && acts[n].Committed?
    ensures UpToCommit(acts, CommitsIn(acts, n)) == n + 1
  {
    if n > 0 {
      UpToThatCommit(acts[1..], n - 1);
    }
  }

  /** The number of acts up to and with the last commit. */
  function CommittedUpTo(acts: seq<Act>): (n: nat)
    ensures n <= |acts|
    ensures n > 0 ==> acts[n - 1].Committed?
  {
    if acts == [] then 0
    else if acts[|acts| - 1].Committed? then |acts|
    else CommittedUpTo(acts[..|acts| - 1])
  }

  /** Losing power anywhere leaves storage as it was after the last commit before, or, if there was none,
      as it was when the life began. */
  lemma {:induction false} PowerLossFallsBack(durable: map<string, Value>, acts: seq<Act>, n: nat) returns (nth: nat)
    requires n <= |acts|
    ensures var m := CommittedUpTo(acts[..n]);
            && LastCommitted(durable, acts[..n]) == LastCommitted(durable, acts[..m])
            && (m == 0 || m == UpToCommit(acts, nth))
  {
    if n == 0 {
      return 0;
    }
    assert acts[..n][..n - 1] == acts[..n - 1];
    if acts[n - 1].Committed? {
      UpToThatCommit(acts, n - 1);
      return CommitsIn(acts, n - 1);
    }
    nth := PowerLossFallsBack(durable, acts, n - 1);
  }

  /** What is durable at the end of a life is what it committed last, and if it committed nothing, what it
      found. */
  lemma LifeLeavesItsLastCommit(env: Env, w: World, b: BootInput)
    requires w.log == []
    ensures var v := Life(env, w, b);
            v.store.durable == LastCommitted(w.store.durable, v.log)
  {
    hide Fold, Boot, RunCycles, NextBooks;
    var q := NEW_BOOKS.(durable := w.store.durable, safe := false);
    FoldEmpty(NextBooks, q);
    BootCounts(q, env, w, b.presets);
    BootFindsDurable(env, w, b.presets);
    var w1 := Boot(env, w, b.presets);
    RunCarries(q, NEW_TALLY, env, Driver(w1, PendingReport(env, w1.store), false), b.start, b.cycles, false);
    SoundBooksAfter(q, Life(env, w, b).log);
  }

  lemma BootFindsDurable(env: Env, w: World, presets: seq<App>)
    ensures Boot(env, w, presets).store == w.store.Restart()
  {
  }

  /** A life sees nothing of the lives before it but what is durable. */
  lemma LivesAlike(env: Env, w: World, v: World, b: BootInput)
    requires w.store.durable == v.store.durable
    ensures Life(env, w.(log := []), b) == Life(env, v.(log := []), b)
  {
    hide LoadContext, LoadApps, RunCycles;
    assert Boot(env, w.(log := []), b.presets) == Boot(env, v.(log := []), b.presets);
  }

  /** What a commit of a clean life leaves is in order and agrees with the counts of that moment. */
  lemma CutIsInOrder(b: Books, t: Tally, w: World, v: World, n: nat, strict: bool)
    requires Tied(b, t) && InOrder(b, w, strict) && n <= |v.log|
    requires InOrder(Fold(NextBooks, b, v.log), v, strict)
    requires strict ==> Agrees(Fold(NextBooks, b, v.log), Fold(NextTally, t, v.log), v, strict)
    requires strict ==> n > 0 && v.log[n - 1].Committed?
    ensures var u := CutShort(w, v, n);
            && InOrder(Fold(NextBooks, b, u.log), u, strict)
            && (strict ==> Agrees(Fold(NextBooks, b, u.log), Fold(NextTally, t, u.log), u, strict))
  {
    hide Fold, PollOk, StoredPollOk, PollStored, StreakStored, Paired, FailuresStored, InstallsRead, RESERVED, WrapU32,
      WrapI64, LoadPollInterval, LoadFailures, Tied, LastCommitted;
    BooksOfPrefix(b, v.log, n);
    TallyOfPrefix(t, v.log, n);
    TiedFolds(b, t, v.log[..n]);
    var u := CutShort(w, v, n);
    StoredPollLoads(u.store);
    if strict {
      var before := Fold(NextBooks, b, v.log[..n - 1]);
      FoldLast(b, v.log[..n]);
      assert v.log[..n][..n - 1] == v.log[..n - 1];
      CommitWasJudged(before, v.log[n - 1].snapshot);
      var p := Fold(NextBooks, b, v.log[..n]);
      SameStoredPoll(u.store, p.poll);
      StoredFailuresLoad(u.store, p.failures);
      TiedMeans(p, Fold(NextTally, t, v.log[..n]));
    }
  }

  lemma FoldLast(b: Books, acts: seq<Act>)
    requires acts != []
    ensures Fold(NextBooks, b, acts) == NextBooks(Fold(NextBooks, b, acts[..|acts| - 1]), acts[|acts| - 1])
  {
    hide NextBooks;
  }

  lemma CommitWasJudged(b: Books, m: map<string, Value>)
    ensures var c := NextBooks(b, Committed(m));
            && c.durable == m
            && (c.exact ==> PollStored(m, c.poll) && StreakStored(m, c.streak))
            && (c.counted ==> FailuresStored(m, c.failures) && InstallsRead(m) == c.installs)
  {
    hide PollOk, StoredPollOk, PollStored, StreakStored, Paired, FailuresStored, InstallsRead;
  }

  lemma StoredFailuresLoad(s: Store, failures: u32)
    requires FailuresStored(s.cached, failures)
    ensures LoadFailures(s.GetInt(CONSECUTIVE_FAILED_UPDATE_CHECKS)) == failures
  {
  }

  lemma TiedMeans(b: Books, t: Tally)
    requires Tied(b, t)
    ensures b.failures == WrapU32(t.failures) && b.installs == WrapI64(t.installs)
  {
    hide WrapU32, WrapI64;
  }

  lemma BootCarries(q: Books, r: Tally, env: Env, w: World, b: BootInput, strict: bool)
    requires Tied(q, r) && SoundBoot(b) && (strict ==> CleanBoot(b))
    requires InOrder(Fold(NextBooks, q, w.log), w, strict)
    requires strict ==> Agrees(Fold(NextBooks, q, w.log), Fold(NextTally, r, w.log), w, strict)
    ensures var v := RunBoot(env, w, b);
            && InOrder(Fold(NextBooks, q, v.log), v, strict)
            && (strict ==> Agrees(Fold(NextBooks, q, v.log), Fold(NextTally, r, v.log), v, strict))
  {
    hide InOrder, Balanced, Life, Fold, RESERVED, Tied;
    var alone := w.(log := []);
    var books, tally := Fold(NextBooks, q, w.log), Fold(NextTally, r, w.log);
    FoldEmpty(NextBooks, books);
    FoldEmpty(NextTally, tally);
    TiedFolds(q, r, w.log);
    LogAside(books, tally, w, alone, strict);
    LifeCarries(books, tally, env, alone, b, strict);
    var v := Life(env, alone, b);
    var n := ActsOf(v.log, b.ending);
    var u := v;
    if n < |v.log| {
      CutIsInOrder(books, tally, alone, v, n, strict);
      u := CutShort(alone, v, n);
    }
    FoldConcat(NextBooks, q, w.log, u.log);
    FoldConcat(NextTally, r, w.log, u.log);
    LogAside(books, tally, u, u.(log := w.log + u.log), strict);
  }

  lemma {:induction false} HistoryCarries(q: Books, r: Tally, env: Env, w: World, boots: seq<BootInput>, strict: bool)
    requires Tied(q, r)
    requires forall k :: 0 <= k < |boots| ==> SoundBoot(boots[k]) && (strict ==> CleanBoot(boots[k]))
    requires InOrder(Fold(NextBooks, q, w.log), w, strict)
    requires strict ==> Agrees(Fold(NextBooks, q, w.log), Fold(NextTally, r, w.log), w, strict)
    ensures var v := History(env, w, boots);
            && InOrder(Fold(NextBooks, q, v.log), v, strict)
            && (strict ==> Agrees(Fold(NextBooks, q, v.log), Fold(NextTally, r, v.log), v, strict))
    decreases |boots|
  {
    hide InOrder, Balanced, RunBoot, Fold, Tied;
    if boots != [] {
      BootCarries(q, r, env, w, boots[0], strict);
      HistoryCarries(q, r, env, RunBoot(env, w, boots[0]), boots[1..], strict);
    }
  }

  // The theorems, from a device whose storage is empty

  const NO_SCHEDULE := UpdateCheckSchedule(None, None, None)
  const NO_STATE := ProtocolState(None, 0, 0)
  const NEW_DEVICE := World(Context(NO_SCHEDULE, NO_STATE), Store(map[], map[]), [], [])
  const NEW_TALLY := Tally(0, 0, false, None, true, true)

  lemma NewDeviceIsInOrder(strict: bool)
    ensures InOrder(Fold(NextBooks, NEW_BOOKS, NEW_DEVICE.log), NEW_DEVICE, strict)
    ensures Agrees(Fold(NextBooks, NEW_BOOKS, NEW_DEVICE.log), Fold(NextTally, NEW_TALLY, NEW_DEVICE.log),
                   NEW_DEVICE, strict)
    ensures Tied(NEW_BOOKS, NEW_TALLY)
  {
    FoldEmpty(NextBooks, NEW_BOOKS);
    FoldEmpty(NextTally, NEW_TALLY);
  }

  /** Whatever the environment does, storage included, every poll interval ever in force is at most a
      day, and every one ever stored is a whole number of seconds that fits its stored form. */
  lemma PollIntervalsAreBounded(env: Env, boots: seq<BootInput>)
    requires forall k :: 0 <= k < |boots| ==> SoundBoot(boots[k])
    ensures var v := History(env, NEW_DEVICE, boots);
            && PollOk(v.context.state.serverDictatedPollInterval)
            && StoredPollOk(v.store.cached) && StoredPollOk(v.store.durable)
            && forall a :: a in v.log ==>
                 && (a.Yield? && a.event.ProtocolStateChange? ==>
                       PollOk(a.event.protocolState.serverDictatedPollInterval))
                 && (a.Committed? ==> StoredPollOk(a.snapshot))
  {
    hide History, PollOk, StoredPollOk, RESERVED, Balanced;
    NewDeviceIsInOrder(false);
    HistoryCarries(NEW_BOOKS, NEW_TALLY, env, NEW_DEVICE, boots, false);
    SafeBooks(NEW_BOOKS, History(env, NEW_DEVICE, boots).log);
  }

  lemma NextIsSafe(b: Books, a: Act)
    requires NextBooks(b, a).safe
    ensures b.safe
    ensures a.Yield? && a.event.ProtocolStateChange? ==> PollOk(a.event.protocolState.serverDictatedPollInterval)
    ensures a.Committed? ==> StoredPollOk(a.snapshot)
  {
    hide PollOk, StoredPollOk, PollStored, StreakStored, Paired, FailuresStored, InstallsRead, InstallVerdict,
      CheckedMicros;
  }

  lemma {:induction false} SafeBooks(q: Books, log: seq<Act>)
    requires Fold(NextBooks, q, log).safe
    ensures forall a :: a in log ==>
              && (a.Yield? && a.event.ProtocolStateChange? ==> PollOk(a.event.protocolState.serverDictatedPollInterval))
              && (a.Committed? ==> StoredPollOk(a.snapshot))
  {
    hide NextBooks, PollOk, StoredPollOk;
    if log != [] {
      NextIsSafe(Fold(NextBooks, q, log[..|log| - 1]), log[|log| - 1]);
      SafeBooks(q, log[..|log| - 1]);
      assert log == log[..|log| - 1] + [log[|log| - 1]];
    }
  }

  /** Whatever storage does, until a recording of a plan is torn: every snapshot that ever became
      durable that names a plan has with it a time at which that very plan was seen. */
  lemma PlansKeepTheirTimes(env: Env, boots: seq<BootInput>, n: nat)
    requires forall k :: 0 <= k < |boots| ==> SoundBoot(boots[k])
    requires var log := History(env, NEW_DEVICE, boots).log;
             n < |log| && log[n].Committed? && (forall k :: 0 <= k < n && log[k].FirstSeen? ==> !log[k].torn)
    ensures var log := History(env, NEW_DEVICE, boots).log;
            Paired(SeenIn(log[..n]), log[n].snapshot)
  {
    hide History, PollOk, StoredPollOk, RESERVED, Balanced, Paired;
    NewDeviceIsInOrder(false);
    HistoryCarries(NEW_BOOKS, NEW_TALLY, env, NEW_DEVICE, boots, false);
    var log := History(env, NEW_DEVICE, boots).log;
    NewBooksAreSound();
    BooksOfPrefix(NEW_BOOKS, log, n + 1);
    BooksStep(log, n);
    SeenAreInTheBooks(log[..n]);
  }

  lemma NewBooksAreSound()
    ensures SoundBooks(NEW_BOOKS)
  {
  }

  /** The plans that were seen, each with the stored form of the time. */
  function SeenIn(log: seq<Act>): set<(string, Option<i64>)> {
    if log == [] then {} else SeenThen(SeenIn(log[..|log| - 1]), log[|log| - 1])
  }

  lemma {:induction false} SeenAreInTheBooks(log: seq<Act>)
    ensures Fold(NextBooks, NEW_BOOKS, log).seen == SeenIn(log)
    ensures (forall k :: 0 <= k < |log| && log[k].FirstSeen? ==> !log[k].torn) ==> Fold(NextBooks, NEW_BOOKS, log).tidy
  {
    hide NextBooks, SeenThen;
    if log != [] {
      SeenAreInTheBooks(log[..|log| - 1]);
      BooksFollow(Fold(NextBooks, NEW_BOOKS, log[..|log| - 1]), log[|log| - 1]);
    }
  }

  /** Being torn is exactly what breaks the pair: from a sound one, recording a plan leaves a sound one
      unless it is torn and the time left over is not one of the new plan. */
  lemma TornRecordingBreaksThePair(
    w: World, planId: string, now: SystemTime, faults: SeenFaults, seen: set<(string, Option<i64>)>)
    requires Paired(seen, w.store.cached) && (planId, CheckedMicros(now)) in seen
    requires w.store.GetString(INSTALL_PLAN_ID) != Some(planId)
    ensures var v := RecordFirstSeen(w, planId, now, faults).world;
            Paired(seen, v.store.cached) <==>
            !Torn(faults) || (planId, w.store.GetInt(UPDATE_FIRST_SEEN_TIME)) in seen
  {
    hide CheckedMicros, CONTEXT_KEYS;
    KeysDiffer();
  }

  /** While storage does not fail: whenever a request has returned, what is durable is the poll
      interval in force; every snapshot that was ever durable pairs the stored plan with the time it
      was first seen; and each first-seen time given out is the one that began the plan's streak. */
  lemma BooksAreExact(env: Env, boots: seq<BootInput>)
    requires forall k :: 0 <= k < |boots| ==> SoundBoot(boots[k]) && CleanBoot(boots[k])
    ensures var v := History(env, NEW_DEVICE, boots);
            && Fold(NextBooks, NEW_BOOKS, v.log).exact
            && PollStored(v.store.durable, v.context.state.serverDictatedPollInterval)
            && v.context.state.serverDictatedPollInterval == Fold(NextBooks, NEW_BOOKS, v.log).poll
            && StreakStored(v.store.durable, Fold(NextBooks, NEW_BOOKS, v.log).streak)
  {
    hide History, PollOk, StoredPollOk, PollStored, StreakStored, Paired, RESERVED, Fold, WrapU32, WrapI64;
    NewDeviceIsInOrder(true);
    HistoryCarries(NEW_BOOKS, NEW_TALLY, env, NEW_DEVICE, boots, true);
  }

  // The same, read off the record

  /** The plan seen last, and when its current streak began. */
  function StreakIn(log: seq<Act>): Option<Streak> {
    if log == [] then None else StreakThen(StreakIn(log[..|log| - 1]), log[|log| - 1])
  }

  /** The poll interval announced last. */
  function PollIn(log: seq<Act>): Option<Duration> {
    if log == [] then None else PollThen(PollIn(log[..|log| - 1]), log[|log| - 1])
  }

  /** What became durable last. */
  function DurableIn(log: seq<Act>): map<string, Value> {
    LastCommitted(map[], log)
  }

  lemma {:induction false} BooksSumUpTheRecord(log: seq<Act>)
    ensures var b := Fold(NextBooks, NEW_BOOKS, log);
            b.streak == StreakIn(log) && b.poll == PollIn(log) && b.durable == DurableIn(log)
  {
    hide NextBooks, StreakThen, PollThen;
    if log != [] {
      BooksSumUpTheRecord(log[..|log| - 1]);
      BooksFollow(Fold(NextBooks, NEW_BOOKS, log[..|log| - 1]), log[|log| - 1]);
    }
  }

  /** While storage does not fail, across restarts: recording a plan gives the time of the first call in
      its current streak, to the microsecond, whenever a request has concluded the last durable snapshot
      has the poll interval announced last, and every snapshot has the plan seen last with its time. */
  lemma RecordsKeepTheirPromises(env: Env, boots: seq<BootInput>, n: nat)
    requires forall k :: 0 <= k < |boots| ==> SoundBoot(boots[k]) && CleanBoot(boots[k])
    requires n < |History(env, NEW_DEVICE, boots).log|
    ensures var log := History(env, NEW_DEVICE, boots).log;
            var before := log[..n];
            && (log[n].FirstSeen? ==>
                  log[n].since == FirstOf(StreakIn(before), log[n].planId, log[n].now))
            && (log[n].Concluded? ==> PollStored(DurableIn(before), PollIn(before)))
            && (log[n].Committed? ==> StreakStored(log[n].snapshot, StreakIn(before)))
  {
    hide History, PollStored, StreakStored, StoredPollOk, PollOk, Paired, Fold, RESERVED;
    BooksAreExact(env, boots);
    var log := History(env, NEW_DEVICE, boots).log;
    NewBooksAreSound();
    BooksOfPrefix(NEW_BOOKS, log, n + 1);
    BooksSumUpTheRecord(log[..n]);
    BooksStep(log, n);
  }

  lemma BooksStep(log: seq<Act>, n: nat)
    requires n < |log|
    ensures Fold(NextBooks, NEW_BOOKS, log[..n + 1]) == NextBooks(Fold(NextBooks, NEW_BOOKS, log[..n]), log[n])
  {
    hide NextBooks;
    assert log[..n + 1][..n] == log[..n];
  }

  /** While storage does not fail, across any number of restarts: the failure counter is the number
      of failed checks and pings since the last success and the stored install counter the number of
      failed installations since the last successful one, both up to the width of their integers;
      every attempts metric reported one more than these; and a check reported its attempts exactly
      when it succeeded, and installation attempts exactly when it installed or failed to. */
  lemma CountersAreExact(env: Env, boots: seq<BootInput>)
    requires forall k :: 0 <= k < |boots| ==> SoundBoot(boots[k]) && CleanBoot(boots[k])
    ensures var v := History(env, NEW_DEVICE, boots);
            var t := Fold(NextTally, NEW_TALLY, v.log);
            && v.context.state.consecutiveFailedUpdateChecks == t.failures % 0x1_0000_0000
            && LoadFailures(v.store.Restart().GetInt(CONSECUTIVE_FAILED_UPDATE_CHECKS)) == t.failures % 0x1_0000_0000
            && InstallsRead(v.store.durable) == WrapI64(t.installs)
            && t.ok && t.exact
            && v.store.cached == v.store.durable
  {
    hide History, WrapI64, RESERVED, InOrder, Fold;
    NewDeviceIsInOrder(true);
    HistoryCarries(NEW_BOOKS, NEW_TALLY, env, NEW_DEVICE, boots, true);
  }

  /** And every snapshot that ever became durable, also one made in the middle of a check, holds the
      counts of its moment. */
  lemma SnapshotsKeepTheCounts(env: Env, boots: seq<BootInput>, n: nat)
    requires forall k :: 0 <= k < |boots| ==> SoundBoot(boots[k]) && CleanBoot(boots[k])
    requires n < |History(env, NEW_DEVICE, boots).log| && History(env, NEW_DEVICE, boots).log[n].Committed?
    ensures var log := History(env, NEW_DEVICE, boots).log;
            var t := Fold(NextTally, NEW_TALLY, log[..n]);
            && FailuresStored(log[n].snapshot, WrapU32(t.failures))
            && InstallsRead(log[n].snapshot) == WrapI64(t.installs)
  {
    hide History, PollOk, StoredPollOk, RESERVED, Balanced, FailuresStored, InstallsRead, Fold, WrapU32, WrapI64;
    NewDeviceIsInOrder(true);
    HistoryCarries(NEW_BOOKS, NEW_TALLY, env, NEW_DEVICE, boots, true);
    var log := History(env, NEW_DEVICE, boots).log;
    NewBooksAreSound();
    BooksOfPrefix(NEW_BOOKS, log, n + 1);
    BooksStep(log, n);
    var b := Fold(NextBooks, NEW_BOOKS, log[..n]);
    CommitWasJudged(b, log[n].snapshot);
    TiedFolds(NEW_BOOKS, NEW_TALLY, log[..n]);
    TiedMeans(b, Fold(NextTally, NEW_TALLY, log[..n]));
  }

  // Losing power anywhere

  /** The acts of a life whose effect survives it. */
  function SurvivingActs(acts: seq<Act>, ending: Ending): seq<Act> {
    var n := ActsOf(acts, ending);
    if ending.Anywhere? then acts[..CommittedUpTo(acts[..n])] else acts[..n]
  }

  /** The record of a history without what each loss of power undid. */
  function Surviving(env: Env, w: World, boots: seq<BootInput>): seq<Act>
    decreases |boots|
  {
    if boots == [] then []
    else
      SurvivingActs(Life(env, w.(log := []), boots[0]).log, boots[0].ending)
      + Surviving(env, RunBoot(env, w, boots[0]), boots[1..])
  }

  lemma RunBootLeaves(env: Env, w: World, b: BootInput)
    ensures var v := Life(env, w.(log := []), b);
            var acts := v.log[..ActsOf(v.log, b.ending)];
            && RunBoot(env, w, b).store.durable == LastCommitted(w.store.durable, acts)
            && RunBoot(env, w, b).log == w.log + acts
  {
    hide Life, LoadContext, LastCommitted;
    var v := Life(env, w.(log := []), b);
    LifeLeavesItsLastCommit(env, w.(log := []), b);
    assert v.log[..|v.log|] == v.log;
  }

  /** A life that lost its power anywhere is, to the lives after it, one that ended after its last commit,
      or none at all. */
  lemma LossIsCommittedEnd(env: Env, w: World, b: BootInput) returns (kept: Option<BootInput>)
    ensures kept.None? ==> RunBoot(env, w, b).store.durable == w.store.durable
                           && SurvivingActs(Life(env, w.(log := []), b).log, b.ending) == []
    ensures kept.Some? ==>
              && kept.value == b.(ending := kept.value.ending) && !kept.value.ending.Anywhere?
              && RunBoot(env, w, kept.value).store.durable == RunBoot(env, w, b).store.durable
              && RunBoot(env, w, kept.value).log
                 == w.log + SurvivingActs(Life(env, w.(log := []), b).log, b.ending)
  {
    hide RunBoot, LastCommitted, CommittedUpTo, UpToCommit;
    RunBootLeaves(env, w, b);
    if !b.ending.Anywhere? {
      return Some(b);
    }
    var acts := Life(env, w.(log := []), b).log;
    var n := ActsOf(acts, b.ending);
    var nth := PowerLossFallsBack(w.store.durable, acts, n);
    if CommittedUpTo(acts[..n]) == 0 {
      NothingCommitted(w.store.durable);
      return None;
    }
    var c := b.(ending := AfterCommit(nth));
    SameLife(env, w.(log := []), b, c);
    RunBootLeaves(env, w, c);
    return Some(c);
  }

  lemma SameLife(env: Env, w: World, b: BootInput, c: BootInput)
    requires c == b.(ending := c.ending)
    ensures Life(env, w, c) == Life(env, w, b)
  {
    hide Boot, RunCycles;
  }

  lemma NothingCommitted(durable: map<string, Value>)
    ensures LastCommitted(durable, []) == durable
  {
  }

  lemma {:induction false} LossesAreCommittedEnds(env: Env, w: World, u: World, boots: seq<BootInput>)
    returns (kept: seq<BootInput>)
    requires w.store.durable == u.store.durable
    requires forall k :: 0 <= k < |boots| ==> SoundBoot(boots[k]) && CleanLife(boots[k])
    ensures forall k :: 0 <= k < |kept| ==> SoundBoot(kept[k]) && CleanBoot(kept[k])
    ensures History(env, u, kept).store.durable == History(env, w, boots).store.durable
    ensures History(env, u, kept).log == u.log + Surviving(env, w, boots)
    decreases |boots|
  {
    hide RunBoot, Life, SurvivingActs, RESERVED, CleanCycle;
    if boots == [] {
      return [];
    }
    var b := boots[0];
    var acts := SurvivingActs(Life(env, w.(log := []), b).log, b.ending);
    var first := LossIsCommittedEnd(env, w, b);
    var w1 := RunBoot(env, w, b);
    if first.None? {
      kept := LossesAreCommittedEnds(env, w1, u, boots[1..]);
    } else {
      var u1 := RunBoot(env, u, first.value);
      RunsAlike(env, w, u, first.value);
      var rest := LossesAreCommittedEnds(env, w1, u1, boots[1..]);
      kept := [first.value] + rest;
      assert kept[1..] == rest;
      assert u.log + acts + Surviving(env, w1, boots[1..]) == u.log + (acts + Surviving(env, w1, boots[1..]));
    }
  }

  /** The same life on the same durable storage, after different records. */
  lemma RunsAlike(env: Env, w: World, u: World, b: BootInput)
    requires w.store.durable == u.store.durable
    ensures RunBoot(env, w, b).store.durable == RunBoot(env, u, b).store.durable
    ensures forall acts :: RunBoot(env, w, b).log == w.log + acts ==> RunBoot(env, u, b).log == u.log + acts
  {
    hide RunBoot, LastCommitted;
    LivesAlike(env, w, u, b);
    RunBootLeaves(env, w, b);
    RunBootLeaves(env, u, b);
    forall acts | RunBoot(env, w, b).log == w.log + acts
      ensures RunBoot(env, u, b).log == u.log + acts
    {
      assert acts == (w.log + acts)[|w.log|..];
      var v := Life(env, w.(log := []), b);
      assert v.log[..ActsOf(v.log, b.ending)] == (w.log + v.log[..ActsOf(v.log, b.ending)])[|w.log|..];
    }
  }

  /** Wherever the lives of a history end, and while no write fails: durable storage holds the counts, the
      poll interval and the plan with the time of the first call in its streak, all as they follow from
      the record without what the losses of power undid. */
  lemma SurvivingRecordIsExact(env: Env, boots: seq<BootInput>)
    requires forall k :: 0 <= k < |boots| ==> SoundBoot(boots[k]) && CleanLife(boots[k])
    ensures var m := History(env, NEW_DEVICE, boots).store.durable;
            var acts := Surviving(env, NEW_DEVICE, boots);
            var t := Fold(NextTally, NEW_TALLY, acts);
            && LoadFailures(Store(m, m).GetInt(CONSECUTIVE_FAILED_UPDATE_CHECKS)) == t.failures % 0x1_0000_0000
            && InstallsRead(m) == WrapI64(t.installs)
            && PollStored(m, PollIn(acts))
            && StreakStored(m, StreakIn(acts))
  {
    hide History, Surviving, PollStored, StreakStored, RESERVED, CleanCycle, Fold, WrapI64, LoadFailures, InstallsRead;
    var kept := LossesAreCommittedEnds(env, NEW_DEVICE, NEW_DEVICE, boots);
    var acts := Surviving(env, NEW_DEVICE, boots);
    assert NEW_DEVICE.log + acts == acts;
    CountersAreExact(env, kept);
    BooksAreExact(env, kept);
    BooksSumUpTheRecord(acts);
  }

  /** Whatever storage does during one life of the process, and whatever it held before: the failure
      counter in memory is the count at its start, continued by every failed check and ping and reset by
      every successful one; and every attempts metric about checks reported one more than it. */
  lemma CounterIsExactInMemory(env: Env, d: Driver, start: Instant, cycles: seq<CycleInput>)
    requires d.world.log == []
    ensures var v := RunCycles(env, d, start, cycles).world;
            var atStart := d.world.context.state.consecutiveFailedUpdateChecks;
            var t := Fold(NextTally, NEW_TALLY.(failures := atStart), v.log);
            t.ok && v.context.state.consecutiveFailedUpdateChecks == t.failures % 0x1_0000_0000
  {
    hide RunCycles, Fold;
    var r := NEW_TALLY.(failures := d.world.context.state.consecutiveFailedUpdateChecks);
    FoldEmpty(NextTally, r);
    RunCarries(NEW_BOOKS, r, env, d, start, cycles, false);
  }
}
