/** Wall and monotonic times, and the microsecond form in which wall times are stored.
    A wall time is a number of nanoseconds since the Unix epoch, negative before it. */
module Clock {
  import opened Wrappers
  import opened MachineInts

  type SystemTime = int
  type Instant = int
  type Duration = nat

  const NANOS_PER_MICRO := 1000
  const NANOS_PER_SECOND := 1_000_000_000

  datatype ComplexTime = ComplexTime(wall: SystemTime, mono: Instant)

  datatype PartialComplexTime =
    | Wall(wall: SystemTime)
    | Monotonic(mono: Instant)
    | Complex(time: ComplexTime)

  function ToSystemTime(t: PartialComplexTime): Option<SystemTime> {
    match t
    case Wall(w) => Some(w)
    case Monotonic(_) => None
    case Complex(c) => Some(c.wall)
  }

  function AsMicros(d: Duration): nat {
    d / NANOS_PER_MICRO
  }

  function FromMicrosDuration(micros: nat): Duration {
    micros * NANOS_PER_MICRO
  }

  function FromSecs(secs: nat): Duration {
    secs * NANOS_PER_SECOND
  }

  /** `checked_system_time_to_micros_from_epoch`. */
  function CheckedMicros(t: SystemTime): Option<i64> {
    if t >= 0 then
      var micros := t / NANOS_PER_MICRO;
      if micros <= I64_MAX then Some(micros) else None
    else
      var micros := (-t) / NANOS_PER_MICRO;
      if micros <= I64_MAX then Some(-micros) else None
  }

  /** `micros_from_epoch_to_system_time`, with its cast to u64 and wrapping negation. */
  function FromMicros(micros: i64): SystemTime {
    if micros > 0 then
      FromMicrosDuration(micros)
    else
      0 - FromMicrosDuration(WrappingNegU64(WrapU64(micros)))
  }

  function PartialToMicros(t: PartialComplexTime): Option<i64> {
    match ToSystemTime(t)
    case None => None
    case Some(w) => CheckedMicros(w)
  }

  /** `ComplexTime::truncate_submicrosecond_walltime`. */
  function TruncateSubmicrosecond(t: ComplexTime): ComplexTime {
    var sub :=
      if t.wall >= 0 then t.wall % NANOS_PER_MICRO
      else NANOS_PER_MICRO - (-t.wall) % NANOS_PER_MICRO;
    t.(wall := t.wall - sub)
  }

  /** The cast and the negation, both modulo 2^64, together amount to a multiplication. */
  lemma FromMicrosScales(micros: i64)
    ensures FromMicros(micros) == micros * NANOS_PER_MICRO
  {
    if micros <= 0 {
      assert WrappingNegU64(WrapU64(micros)) == 0 - micros as int;
    }
  }

  lemma WholeMicros(n: nat)
    ensures (n * NANOS_PER_MICRO) / NANOS_PER_MICRO == n && (n * NANOS_PER_MICRO) % NANOS_PER_MICRO == 0
  {
  }

  /** A time in storage comes back as the same number of microseconds, except the least one. */
  lemma MicrosRoundTrip(micros: i64)
    ensures CheckedMicros(FromMicros(micros)) == if micros == I64_MIN then None else Some(micros)
  {
    hide FromMicros;
    FromMicrosScales(micros);
    var n: int := micros;
    WholeMicros(if n >= 0 then n else -n);
  }

  /** The stored time lies between the epoch and the given one, less than a microsecond away;
      it is absent exactly when the time is 2^63 microseconds or more from the epoch. */
  lemma CheckedMicrosRoundsTowardEpoch(t: SystemTime)
    ensures CheckedMicros(t).None? <==> t >= (I64_MAX + 1) * 1000 || t <= -(I64_MAX + 1) * 1000
    ensures CheckedMicros(t).Some? ==>
              var back := FromMicros(CheckedMicros(t).value);
              if t >= 0 then 0 <= back <= t < back + 1000 else back - 1000 < t <= back <= 0
  {
    hide FromMicros;
    if CheckedMicros(t).Some? {
      FromMicrosScales(CheckedMicros(t).value);
    }
  }

  lemma CheckedMicrosMonotone(t: SystemTime, u: SystemTime)
    requires t <= u
    requires CheckedMicros(t).Some? && CheckedMicros(u).Some?
    ensures CheckedMicros(t).value <= CheckedMicros(u).value
  {
  }

  /** A time that was stored and read once is stored and read again unchanged. */
  lemma CheckedMicrosStable(t: SystemTime)
    requires CheckedMicros(t).Some?
    ensures CheckedMicros(FromMicros(CheckedMicros(t).value)) == CheckedMicros(t)
  {
    MicrosRoundTrip(CheckedMicros(t).value);
  }

  /** Truncation agrees with what storage keeps exactly at or after the epoch; before it,
      truncation always gives the time one microsecond earlier. */
  lemma TruncateAgreesWithStorage(t: ComplexTime)
    requires CheckedMicros(t.wall).Some?
    ensures var stored := FromMicros(CheckedMicros(t.wall).value);
            TruncateSubmicrosecond(t).wall == if t.wall >= 0 then stored else stored - 1000
    ensures TruncateSubmicrosecond(t).mono == t.mono
  {
    hide FromMicros;
    FromMicrosScales(CheckedMicros(t.wall).value);
  }

  /** Truncating twice is truncating once exactly at or after the epoch. */
  lemma TruncateIdempotent(t: ComplexTime)
    ensures TruncateSubmicrosecond(TruncateSubmicrosecond(t)) == TruncateSubmicrosecond(t) <==> t.wall >= 0
  {
    var u := TruncateSubmicrosecond(t).wall;
    if t.wall >= 0 {
      assert u == t.wall / 1000 * 1000;
      WholeMicros(t.wall / 1000);
    } else {
      var n := (-t.wall) / 1000 + 1;
      assert u == -(n * 1000);
      WholeMicros(n);
    }
  }
}
