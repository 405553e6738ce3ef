/** What the client remembers between update checks, and how it is kept in storage. */
module CheckContext {
  import opened Wrappers
  import opened MachineInts
  import opened Clock
  import opened Storage

  const CONSECUTIVE_FAILED_UPDATE_CHECKS := "consecutive_failed_update_checks"
  const LAST_UPDATE_TIME := "last_update_time"
  const SERVER_DICTATED_POLL_INTERVAL := "server_dictated_poll_interval"

  datatype CheckTiming = CheckTiming(time: PartialComplexTime, minimumWait: Option<Duration>)

  datatype UpdateCheckSchedule = UpdateCheckSchedule(
    lastUpdateTime: Option<PartialComplexTime>,
    lastUpdateCheckTime: Option<PartialComplexTime>,
    nextUpdateTime: Option<CheckTiming>)

  datatype ProtocolState = ProtocolState(
    serverDictatedPollInterval: Option<Duration>,
    consecutiveFailedUpdateChecks: u32,
    consecutiveProxiedRequests: u32)

  datatype Context = Context(schedule: UpdateCheckSchedule, state: ProtocolState)

  function LoadPollInterval(stored: Option<i64>): Option<Duration> {
    match stored
    case Some(t) => if t >= 0 then Some(FromMicrosDuration(t)) else None
    case None => None
  }

  function LoadFailures(stored: Option<i64>): u32 {
    var n := stored.GetOr(0);
    if 0 <= n <= U32_MAX then n else 0
  }

  function LoadContext(s: Store): Context {
    var last := match s.GetTime(LAST_UPDATE_TIME) case Some(t) => Some(Wall(t)) case None => None;
    Context(
      UpdateCheckSchedule(last, last, None),
      ProtocolState(
        LoadPollInterval(s.GetInt(SERVER_DICTATED_POLL_INTERVAL)),
        LoadFailures(s.GetInt(CONSECUTIVE_FAILED_UPDATE_CHECKS)),
        0))
  }

  function StoredTime(last: Option<PartialComplexTime>): Option<i64> {
    match last
    case Some(t) => PartialToMicros(t)
    case None => None
  }

  function StoredPollInterval(poll: Option<Duration>): Option<i64> {
    match poll
    case Some(d) => if AsMicros(d) <= I64_MAX then Some(AsMicros(d)) else None
    case None => None
  }

  function StoredFailures(failures: u32): Option<i64> {
    if failures == 0 then None else Some(failures)
  }

  function PersistContext(s: Store, c: Context, faults: Faults): Store {
    var s1 := s.SetOptionInt(LAST_UPDATE_TIME, StoredTime(c.schedule.lastUpdateTime), faults);
    var s2 := s1.SetOptionInt(
                SERVER_DICTATED_POLL_INTERVAL, StoredPollInterval(c.state.serverDictatedPollInterval), faults);
    s2.SetOptionInt(
      CONSECUTIVE_FAILED_UPDATE_CHECKS, StoredFailures(c.state.consecutiveFailedUpdateChecks), faults)
  }

  /** `Context::load`. */
  method Load(storage: MemStorage) returns (c: Context)
    ensures c == LoadContext(storage.Contents())
  {
    var time := storage.GetTime(LAST_UPDATE_TIME);
    var last := match time case Some(t) => Some(Wall(t)) case None => None;
    var poll := storage.GetInt(SERVER_DICTATED_POLL_INTERVAL);
    var failures := storage.GetInt(CONSECUTIVE_FAILED_UPDATE_CHECKS);
    c := Context(
      UpdateCheckSchedule(last, last, None),
      ProtocolState(LoadPollInterval(poll), LoadFailures(failures), 0));
  }

  /** `Context::persist`: every value is tried, whatever became of the ones before. */
  method Persist(c: Context, storage: MemStorage, faults: Faults)
    requires storage.Valid()
    modifies storage
    ensures storage.Valid()
    ensures storage.Contents() == PersistContext(old(storage.Contents()), c, faults)
  {
    var _ := storage.SetOptionInt(LAST_UPDATE_TIME, StoredTime(c.schedule.lastUpdateTime), faults);
    var _ := storage.SetOptionInt(
      SERVER_DICTATED_POLL_INTERVAL, StoredPollInterval(c.state.serverDictatedPollInterval), faults);
    var _ := storage.SetOptionInt(
      CONSECUTIVE_FAILED_UPDATE_CHECKS, StoredFailures(c.state.consecutiveFailedUpdateChecks), faults);
  }

  /** The part of a time that storage keeps: the wall time, cut toward the epoch to the microsecond. */
  function CutPartial(t: Option<PartialComplexTime>): Option<PartialComplexTime> {
    match t
    case Some(Wall(w)) => CutWall(w)
    case Some(Complex(c)) => CutWall(c.wall)
    case _ => None
  }

  function CutWall(w: SystemTime): Option<PartialComplexTime> {
    if w <= -0x8000_0000_0000_0000 * 1000 || w >= 0x8000_0000_0000_0000 * 1000 then None
    else Some(Wall(if w >= 0 then w / 1000 * 1000 else -((-w) / 1000 * 1000)))
  }

  lemma CutWallIsStored(w: SystemTime)
    ensures CutWall(w) == (match CheckedMicros(w) case None => None case Some(m) => Some(Wall(FromMicros(m))))
    ensures CutWall(w).Some? ==> CheckedMicros(CutWall(w).value.wall) == CheckedMicros(w)
  {
    hide FromMicros;
    if CheckedMicros(w).Some? {
      FromMicrosScales(CheckedMicros(w).value);
      CheckedMicrosStable(w);
    }
  }

  /** The stored form of a time is that of what storage keeps of it. */
  lemma CutStoresAlike(t: Option<PartialComplexTime>)
    ensures StoredTime(CutPartial(t)) == StoredTime(t) && CutPartial(CutPartial(t)) == CutPartial(t)
    ensures CutPartial(t) == (match StoredTime(t) case None => None case Some(m) => Some(Wall(FromMicros(m))))
  {
    hide CheckedMicros, FromMicros, CutWall;
    match t {
      case Some(Wall(w)) => CutWallTwice(w);
      case Some(Complex(c)) => CutWallTwice(c.wall);
      case _ =>
    }
  }

  lemma CutWallTwice(w: SystemTime)
    ensures CutWall(w) == (match CheckedMicros(w) case None => None case Some(m) => Some(Wall(FromMicros(m))))
    ensures CutWall(w).Some? ==>
              && CutWall(w).value.Wall?
              && CutWall(CutWall(w).value.wall) == CutWall(w)
              && CheckedMicros(CutWall(w).value.wall) == CheckedMicros(w)
  {
    hide CheckedMicros, FromMicros;
    CutWallIsStored(w);
    if CutWall(w).Some? {
      CutWallIsStored(CutWall(w).value.wall);
    }
  }

  const CONTEXT_KEYS := {LAST_UPDATE_TIME, SERVER_DICTATED_POLL_INTERVAL, CONSECUTIVE_FAILED_UPDATE_CHECKS}

  predicate Holds(m: map<string, Value>, key: string, v: Option<i64>) {
    match v
    case None => key !in m
    case Some(n) => key in m && m[key] == Int(n)
  }

  predicate SameAt(m: map<string, Value>, n: map<string, Value>, key: string) {
    (key in m <==> key in n) && (key in m ==> m[key] == n[key])
  }

  /** Without faults a context is written to its three keys, and to no other. */
  lemma PersistContextWrites(s: Store, c: Context)
    ensures var m := PersistContext(s, c, NO_FAULTS).cached;
            && Holds(m, LAST_UPDATE_TIME, StoredTime(c.schedule.lastUpdateTime))
            && Holds(m, SERVER_DICTATED_POLL_INTERVAL, StoredPollInterval(c.state.serverDictatedPollInterval))
            && Holds(m, CONSECUTIVE_FAILED_UPDATE_CHECKS, StoredFailures(c.state.consecutiveFailedUpdateChecks))
            && forall k :: k !in CONTEXT_KEYS ==> SameAt(m, s.cached, k)
    ensures PersistContext(s, c, NO_FAULTS).durable == s.durable
  {
    hide StoredTime, StoredPollInterval, StoredFailures;
  }

  /** Whether or not its writes fail, persisting a context leaves the other keys alone. */
  lemma PersistContextForeign(s: Store, c: Context, faults: Faults)
    ensures PersistContext(s, c, faults).durable == s.durable
    ensures forall k :: k !in CONTEXT_KEYS ==> SameAt(PersistContext(s, c, faults).cached, s.cached, k)
  {
    hide StoredTime, StoredFailures, StoredPollInterval;
  }

  /** The part of a context that outlives the process. */
  function Remembered(c: Context): Context {
    var last := CutPartial(c.schedule.lastUpdateTime);
    Context(
      UpdateCheckSchedule(last, last, None),
      ProtocolState(c.state.serverDictatedPollInterval, c.state.consecutiveFailedUpdateChecks, 0))
  }

  /** A poll interval of whole microseconds that fits the stored form. */
  predicate Storable(poll: Option<Duration>) {
    poll.Some? ==> poll.value % NANOS_PER_MICRO == 0 && AsMicros(poll.value) <= I64_MAX
  }

  /** Writing a context and loading it again gives the failure count and poll interval back
      unchanged and the last update time cut to the microsecond. */
  lemma ContextReloads(s: Store, c: Context)
    requires Storable(c.state.serverDictatedPollInterval)
    ensures LoadContext(PersistContext(s, c, NO_FAULTS)) == Remembered(c)
  {
    hide CutPartial, StoredTime, FromMicros;
    CutStoresAlike(c.schedule.lastUpdateTime);
  }

  /** A wall time that was stored and read back: the same to the microsecond and no further from the epoch,
      and nothing at all when it is 2^63 microseconds or more away. */
  predicate Kept(t: SystemTime, back: Option<PartialComplexTime>) {
    if -0x8000_0000_0000_0000 * 1000 < t < 0x8000_0000_0000_0000 * 1000 then
      && back.Some? && back.value.Wall?
      && var b := back.value.wall;
         if t >= 0 then 0 <= b <= t < b + 1000 else b - 1000 < t <= b <= 0
    else back == None
  }

  /** What a rebuild finds as the last update time is the wall time of what was written; a monotonic time
      alone is not written, and what was written before it is removed. */
  lemma LastUpdateTimeReloads(s: Store, c: Context)
    ensures var t := PersistContext(s, c, NO_FAULTS);
            var back := LoadContext(t).schedule.lastUpdateTime;
            match c.schedule.lastUpdateTime
            case Some(Complex(time)) => Kept(time.wall, back)
            case Some(Wall(time)) => Kept(time, back)
            case Some(Monotonic(_)) => LAST_UPDATE_TIME !in t.cached && back == None
            case None => LAST_UPDATE_TIME !in t.cached && back == None
  {
    hide CheckedMicros, FromMicros, StoredPollInterval, StoredFailures, LoadPollInterval, LoadFailures;
    match c.schedule.lastUpdateTime {
      case Some(Complex(time)) => CheckedMicrosRoundsTowardEpoch(time.wall);
      case Some(Wall(time)) => CheckedMicrosRoundsTowardEpoch(time);
      case _ =>
    }
  }

  /** What each key amounts to when the context is loaded; a value of another type counts as absent. */
  lemma LoadReads(s: Store)
    ensures var c := LoadContext(s);
            var time, poll, failures :=
              s.GetInt("last_update_time"), s.GetInt("server_dictated_poll_interval"),
              s.GetInt("consecutive_failed_update_checks");
            && c.schedule.lastUpdateTime == (if time.Some? then Some(Wall(time.value * 1000)) else None)
            && c.schedule.lastUpdateCheckTime == c.schedule.lastUpdateTime
            && c.schedule.nextUpdateTime == None
            && c.state.serverDictatedPollInterval ==
               (if poll.Some? && poll.value >= 0 then Some(poll.value * 1000) else None)
            && c.state.consecutiveFailedUpdateChecks ==
               (if failures.Some? && 0 <= failures.value < 0x1_0000_0000 then failures.value else 0)
            && c.state.consecutiveProxiedRequests == 0
  {
    hide FromMicros;
    var time := s.GetInt(LAST_UPDATE_TIME);
    if time.Some? {
      FromMicrosScales(time.value);
    }
  }

  /** Doing so once more changes neither the context nor the storage. */
  lemma ContextReloadsOnce(s: Store, c: Context)
    requires Storable(c.state.serverDictatedPollInterval)
    ensures Remembered(Remembered(c)) == Remembered(c)
    ensures var once := PersistContext(s, c, NO_FAULTS);
            PersistContext(once, Remembered(c), NO_FAULTS) == once
  {
    hide CutPartial, StoredTime;
    CutStoresAlike(c.schedule.lastUpdateTime);
    assert StoredTime(Remembered(c).schedule.lastUpdateTime) == StoredTime(c.schedule.lastUpdateTime);
    SameWrites(s, c, Remembered(c));
  }

  /** Contexts with the same stored form are the same to storage. */
  lemma SameWrites(s: Store, c: Context, d: Context)
    requires StoredTime(c.schedule.lastUpdateTime) == StoredTime(d.schedule.lastUpdateTime)
    requires c.state.serverDictatedPollInterval == d.state.serverDictatedPollInterval
    requires c.state.consecutiveFailedUpdateChecks == d.state.consecutiveFailedUpdateChecks
    ensures var once := PersistContext(s, c, NO_FAULTS);
            PersistContext(once, d, NO_FAULTS) == once
  {
    hide PersistContext, StoredTime, StoredPollInterval, StoredFailures;
    var once := PersistContext(s, c, NO_FAULTS);
    PersistContextWrites(s, c);
    PersistContextWrites(once, d);
    var twice := PersistContext(once, d, NO_FAULTS);
    forall k
      ensures (k in twice.cached <==> k in once.cached) && (k in once.cached ==> twice.cached[k] == once.cached[k])
    {
      assert k in CONTEXT_KEYS || SameAt(twice.cached, once.cached, k);
    }
    assert twice.cached == once.cached;
  }
}
