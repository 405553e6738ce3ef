/** What a check or a ping leaves in storage is what the client knows. */
module Durability {
  import opened Wrappers
  import opened MachineInts
  import opened Clock
  import opened Protocol
  import opened Storage
  import opened CheckContext
  import opened AppSet
  import opened Trace
  import opened UpdateFlow
  import opened ClientRun
  import opened Bookkeeping
  import opened Retry
  import Outcomes

  /** The apps of a boot, when these were the ones written. */
  ghost predicate Refilled(apps: seq<App>, presets: seq<App>, written: seq<App>)
    requires |presets| == |written|
  {
    && |apps| == |presets|
    && forall k :: 0 <= k < |apps| ==> FilledIn(presets[k], Persisted(written[k]), apps[k])
  }

  lemma LoadContextReads(s: Store, t: Store)
    requires forall k :: k in CONTEXT_KEYS ==> SameAt(s.cached, t.cached, k)
    ensures LoadContext(s) == LoadContext(t)
  {
    assert SameAt(s.cached, t.cached, LAST_UPDATE_TIME);
    assert SameAt(s.cached, t.cached, SERVER_DICTATED_POLL_INTERVAL);
    assert SameAt(s.cached, t.cached, CONSECUTIVE_FAILED_UPDATE_CHECKS);
  }

  lemma PollIsStorable(poll: Option<Duration>)
    requires PollOk(poll)
    ensures Storable(poll)
  {
  }

  /** A boot from storage that was just written without faults. */
  lemma WrittenReloads(env: Env, w: World, presets: seq<App>)
    requires env.codec.Faithful() && DistinctIds(w.apps) && IdsFree(w.apps) && SameIds(w.apps, presets)
    requires PollOk(w.context.state.serverDictatedPollInterval)
    ensures var v := PersistData(env, w, NO_FAULTS);
            var b := Boot(env, v, presets);
            && v.store.cached == v.store.durable
            && b.context == Remembered(w.context)
            && Refilled(b.apps, presets, w.apps)
  {
    hide PersistContext, PersistApps, LoadContext, LoadApp, RESERVED, CONTEXT_KEYS, Remembered, PollOk;
    var s := PersistContext(w.store, w.context, NO_FAULTS);
    var t := PersistApps(s, w.apps, env.codec, NO_FAULTS);
    var again := Store(t.cached, t.cached);
    KeysReserved();
    forall k | k in CONTEXT_KEYS
      ensures SameAt(again.cached, s.cached, k)
    {
      PersistAppsForeign(s, w.apps, env.codec, NO_FAULTS, k);
    }
    LoadContextReads(again, s);
    PollIsStorable(w.context.state.serverDictatedPollInterval);
    ContextReloads(w.store, w.context);
    AppsReload(s, w.apps, presets, env.codec);
    forall k | 0 <= k < |presets|
      ensures LoadApp(presets[k], again, env.codec) == LoadApp(presets[k], t, env.codec)
    {
      LoadAppReads(presets[k], again, t, env.codec);
    }
  }

  lemma LoadAppReads(app: App, s: Store, t: Store, codec: Codec)
    requires s.cached == t.cached
    ensures LoadApp(app, s, codec) == LoadApp(app, t, codec)
  {
  }

  lemma {:induction false} PersistAppsIdle(s: Store, apps: seq<App>, codec: Codec)
    requires forall k :: 0 <= k < |apps| ==>
               s.GetString(apps[k].id).Some? && s.GetString(apps[k].id) == codec.encode(Persisted(apps[k]))
    ensures PersistApps(s, apps, codec, NO_FAULTS) == s
  {
    if apps != [] {
      PersistAppsIdle(s, apps[..|apps| - 1], codec);
      var app := apps[|apps| - 1];
      assert s.cached[app.id := Text(s.GetString(app.id).value)] == s.cached;
    }
  }

  lemma PersistContextIdle(s: Store, c: Context)
    requires Holds(s.cached, LAST_UPDATE_TIME, StoredTime(c.schedule.lastUpdateTime))
    requires Holds(s.cached, SERVER_DICTATED_POLL_INTERVAL, StoredPollInterval(c.state.serverDictatedPollInterval))
    requires Holds(s.cached, CONSECUTIVE_FAILED_UPDATE_CHECKS, StoredFailures(c.state.consecutiveFailedUpdateChecks))
    ensures PersistContext(s, c, NO_FAULTS) == s
  {
    hide PersistContext, StoredTime, StoredPollInterval, StoredFailures;
    PersistContextWrites(s, c);
    var t := PersistContext(s, c, NO_FAULTS);
    forall k
      ensures (k in t.cached <==> k in s.cached) && (k in s.cached ==> t.cached[k] == s.cached[k])
    {
      assert k in CONTEXT_KEYS || SameAt(t.cached, s.cached, k);
    }
    assert t.cached == s.cached;
  }

  /** A client that was just loaded has nothing to write. */
  lemma ReloadedWritesNothing(env: Env, w: World, presets: seq<App>)
    requires env.codec.Faithful() && DistinctIds(w.apps) && IdsFree(w.apps) && SameIds(w.apps, presets)
    requires PollOk(w.context.state.serverDictatedPollInterval) && Blank(presets)
    ensures var b := Boot(env, PersistData(env, w, NO_FAULTS), presets);
            PersistData(env, b, NO_FAULTS).store == b.store
  {
    hide PersistContext, PersistApps, LoadContext, LoadApp, RESERVED, CONTEXT_KEYS, StoredTime, StoredPollInterval,
      StoredFailures, PollOk, Remembered;
    WrittenReloads(env, w, presets);
    var v := PersistData(env, w, NO_FAULTS);
    var b := Boot(env, v, presets);
    var s := PersistContext(w.store, w.context, NO_FAULTS);
    KeysReserved();
    ContextKeys();
    PersistContextWrites(w.store, w.context);
    PersistAppsForeign(s, w.apps, env.codec, NO_FAULTS, LAST_UPDATE_TIME);
    PersistAppsForeign(s, w.apps, env.codec, NO_FAULTS, SERVER_DICTATED_POLL_INTERVAL);
    PersistAppsForeign(s, w.apps, env.codec, NO_FAULTS, CONSECUTIVE_FAILED_UPDATE_CHECKS);
    RememberedStoresAlike(w.context);
    PersistContextIdle(b.store, b.context);
    forall k | 0 <= k < |b.apps|
      ensures b.store.GetString(b.apps[k].id).Some?
      ensures b.store.GetString(b.apps[k].id) == env.codec.encode(Persisted(b.apps[k]))
    {
      PersistAppsStores(s, w.apps, env.codec, k);
      assert Persisted(b.apps[k]) == Persisted(w.apps[k]);
    }
    PersistAppsIdle(b.store, b.apps, env.codec);
  }

  lemma ContextKeys()
    ensures {LAST_UPDATE_TIME, SERVER_DICTATED_POLL_INTERVAL, CONSECUTIVE_FAILED_UPDATE_CHECKS} == CONTEXT_KEYS
  {
  }

  lemma RememberedStoresAlike(c: Context)
    ensures var d := Remembered(c);
            && StoredTime(d.schedule.lastUpdateTime) == StoredTime(c.schedule.lastUpdateTime)
            && d.state.serverDictatedPollInterval == c.state.serverDictatedPollInterval
            && d.state.consecutiveFailedUpdateChecks == c.state.consecutiveFailedUpdateChecks
            && Remembered(d) == d
  {
    hide CutPartial, StoredTime;
    CutStoresAlike(c.schedule.lastUpdateTime);
  }

  /** Nothing is left uncommitted; a boot gives back the failure count and poll interval, the last
      update time cut to the microsecond, and for every app what its preset leaves open; saving the
      booted client and booting again changes nothing; and a client whose presets leave everything
      open has nothing to save. */
  ghost predicate Settled(env: Env, v: World, presets: seq<App>)
    requires |presets| == |v.apps|
  {
    var b := Boot(env, v, presets);
    var again := PersistData(env, b, NO_FAULTS);
    && v.store.cached == v.store.durable
    && b.context == Remembered(v.context)
    && Refilled(b.apps, presets, v.apps)
    && Boot(env, again, presets).context == b.context
    && Boot(env, again, presets).apps == b.apps
    && (Blank(presets) ==> again.store == b.store)
  }

  lemma WrittenIsSettled(env: Env, w: World, presets: seq<App>)
    requires env.codec.Faithful() && DistinctIds(w.apps) && IdsFree(w.apps) && SameIds(w.apps, presets)
    requires PollOk(w.context.state.serverDictatedPollInterval)
    ensures Settled(env, PersistData(env, w, NO_FAULTS), presets)
  {
    hide PersistContext, PersistApps, LoadContext, LoadApp, RESERVED, PollOk, Remembered;
    var v := PersistData(env, w, NO_FAULTS);
    var b := Boot(env, v, presets);
    WrittenReloads(env, w, presets);
    RememberedStoresAlike(w.context);
    WrittenReloads(env, b, presets);
    var second := Boot(env, PersistData(env, b, NO_FAULTS), presets);
    assert second.apps == b.apps;
    if Blank(presets) {
      ReloadedWritesNothing(env, w, presets);
    }
  }

  lemma UpdateAppsIds(apps: seq<App>, responses: seq<AppResponse>)
    ensures SameIds(apps, UpdateApps(apps, responses))
  {
  }

  /** However a check went, once it has been written without a fault it survives a restart. */
  lemma CheckIsDurable(env: Env, w: World, params: RequestParams, i: CheckInput, presets: seq<App>)
    requires env.codec.Faithful() && DistinctIds(w.apps) && IdsFree(w.apps) && SameIds(w.apps, presets)
    requires PollOk(w.context.state.serverDictatedPollInterval)
    requires i.persistFaults == NO_FAULTS
    ensures var v := StartUpdateCheck(env, w, params, i).world;
            |v.apps| == |presets| && Settled(env, v, presets)
  {
    hide PerformUpdateCheck, PersistData, Settled, RESERVED, PollOk, InstallVerdict, UpdateApps, WrapU32, WrapI64,
      WrapU64, ReasonOf;
    var s := PerformUpdateCheck(env, w, params, w.apps, i);
    PerformKeeps(NEW_BOOKS, env, w, params, w.apps, i, false);
    var u := Announce(TakeResult(s.world, s.value, i), ResultOf(s.value));
    if s.value.Success? {
      UpdateAppsIds(w.apps, s.value.value.0);
    }
    assert SameIds(u.apps, presets);
    assert IdsFree(u.apps) && DistinctIds(u.apps) by {
      SameIdsKeep(w.apps, u.apps);
    }
    WrittenIsSettled(env, u, presets);
    PersistKeepsApps(env, u, i.persistFaults);
  }

  lemma SameIdsKeep(apps: seq<App>, others: seq<App>)
    requires SameIds(apps, others) && IdsFree(apps) && DistinctIds(apps)
    ensures IdsFree(others) && DistinctIds(others)
  {
    hide RESERVED;
  }

  lemma PersistKeepsApps(env: Env, w: World, faults: Faults)
    ensures PersistData(env, w, faults).apps == w.apps
  {
  }

  /** The same for a ping. */
  lemma PingIsDurable(env: Env, w: World, p: PingInput, presets: seq<App>)
    requires env.codec.Faithful() && DistinctIds(w.apps) && IdsFree(w.apps) && SameIds(w.apps, presets)
    requires PollOk(w.context.state.serverDictatedPollInterval)
    requires p.persistFaults == NO_FAULTS
    ensures var v := PingOmaha(env, w, p);
            |v.apps| == |presets| && Settled(env, v, presets)
  {
    hide DoRequest, RequestOf, PingOps, PersistData, Settled, RESERVED, PollOk, UpdateApps, SameAction, WrapU32;
    var request := RequestOf(env, PING_PARAMS, PingOps(w.apps), p.sessionId, p.request.requestId);
    var s := DoRequest(w, ForPing, request, p.request);
    PingRequestKeeps(NEW_BOOKS, w, request, p.request, false);
    match s.value {
      case Success(Parsed(r)) =>
        var reset := s.world.context.state.(consecutiveFailedUpdateChecks := 0);
        var w1 := TalkedToOmaha(s.world.WithState(reset), p.endTime);
        var w2 := Emit(w1, Yield(ScheduleChange(w1.context.schedule)));
        var u := w2.(apps := UpdateApps(w2.apps, SameAction(r, NoUpdate)));
        UpdateAppsIds(w.apps, SameAction(r, NoUpdate));
        SameIdsKeep(w.apps, u.apps);
        WrittenIsSettled(env, u, presets);
        PersistKeepsApps(env, u, p.persistFaults);
      case _ =>
        WrittenIsSettled(env, CountFailure(s.world), presets);
        PersistKeepsApps(env, CountFailure(s.world), p.persistFaults);
    }
  }

  // When the server was last heard of

  /** Saving without a fault stores the wall time of the last update, and a rebuild finds it. */
  lemma SavedTimeReloads(env: Env, w: World, presets: seq<App>, time: ComplexTime)
    requires IdsFree(w.apps) && w.context.schedule.lastUpdateTime == Some(Complex(time))
    ensures Kept(time.wall, Boot(env, PersistData(env, w, NO_FAULTS), presets).context.schedule.lastUpdateTime)
  {
    hide PersistContext, PersistApps, RESERVED, CheckedMicros, LoadPollInterval, LoadFailures, Kept;
    KeysReserved();
    LastUpdateTimeReloads(w.store, w.context);
    PersistAppsForeign(PersistContext(w.store, w.context, NO_FAULTS), w.apps, env.codec, NO_FAULTS, LAST_UPDATE_TIME);
  }

  /** A check that the server answered, whatever the answer was, is remembered as the last update: after a
      rebuild the last update time is the wall time of its end, to the microsecond. */
  lemma AnsweredCheckIsRemembered(
    env: Env, w: World, params: RequestParams, i: CheckInput, n: nat, presets: seq<App>)
    requires IdsFree(w.apps) && i.persistFaults == NO_FAULTS
    requires StopsAt(w.context.state.serverDictatedPollInterval, i.attempts, n)
    requires var reply := i.attempts.At(n).request.reply;
             reply.Responded? && reply.cupValid && 200 <= reply.status < 300
    ensures var v := StartUpdateCheck(env, w, params, i).world;
            Kept(i.endTime.wall, Boot(env, v, presets).context.schedule.lastUpdateTime)
  {
    hide PerformUpdateCheck, PersistData, InstallVerdict, UpdateApps, WrapU32, WrapI64, WrapU64, ReasonOf, RESERVED,
      StopsAt, Kept, Boot;
    Outcomes.LastUpdateTimeMeansAnswered(env, w, params, i, n);
    var s := PerformUpdateCheck(env, w, params, w.apps, i);
    PerformKeeps(NEW_BOOKS, env, w, params, w.apps, i, false);
    var u := Announce(TakeResult(s.world, s.value, i), ResultOf(s.value));
    PersistKeepsContext(env, u, i.persistFaults);
    if s.value.Success? {
      UpdateAppsFree(w.apps, s.value.value.0);
    }
    SavedTimeReloads(env, u, presets, i.endTime);
  }

  lemma PersistKeepsContext(env: Env, w: World, faults: Faults)
    ensures PersistData(env, w, faults).context == w.context
  {
    hide PersistContext, PersistApps;
  }

  /** The same for a ping whose answer could be read. */
  lemma AnsweredPingIsRemembered(env: Env, w: World, p: PingInput, presets: seq<App>)
    requires IdsFree(w.apps) && p.persistFaults == NO_FAULTS
    requires var reply := p.request.reply;
             reply.Responded? && reply.cupValid && 200 <= reply.status < 300 && reply.body.Parsed?
    ensures Kept(p.endTime.wall, Boot(env, PingOmaha(env, w, p), presets).context.schedule.lastUpdateTime)
  {
    hide DoRequest, RequestOf, PingOps, PersistData, RESERVED, UpdateApps, SameAction, Kept, Boot;
    var request := RequestOf(env, PING_PARAMS, PingOps(w.apps), p.sessionId, p.request.requestId);
    RequestConcludes(w, ForPing, request, p.request);
    var s := DoRequest(w, ForPing, request, p.request);
    var reset := s.world.context.state.(consecutiveFailedUpdateChecks := 0);
    var w1 := TalkedToOmaha(s.world.WithState(reset), p.endTime);
    var w2 := Emit(w1, Yield(ScheduleChange(w1.context.schedule)));
    var responses := SameAction(p.request.reply.body.response, NoUpdate);
    UpdateAppsFree(w.apps, responses);
    SavedTimeReloads(env, w2.(apps := UpdateApps(w2.apps, responses)), presets, p.endTime);
  }
}
