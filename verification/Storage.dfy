/** Typed key-value storage whose writes stay in a cache until they are committed. */
module Storage {
  import opened Wrappers
  import opened MachineInts
  import opened Clock

  datatype Value = Text(text: string) | Int(number: i64) | Bool(flag: bool)

  /** Which writes of one call the storage implementation reports as failed.  A failed write or
      commit leaves the storage as it was. */
  datatype Faults = Faults(keys: set<string>, commit: bool)

  const NO_FAULTS := Faults({}, false)

  /** What a reader sees, and what a restart finds. */
  datatype Store = Store(cached: map<string, Value>, durable: map<string, Value>) {
    /** A value of another type reads as no value. */
    function GetString(key: string): Option<string> {
      if key in cached && cached[key].Text? then Some(cached[key].text) else None
    }

    function GetInt(key: string): Option<i64> {
      if key in cached && cached[key].Int? then Some(cached[key].number) else None
    }

    function GetTime(key: string): Option<SystemTime> {
      match GetInt(key)
      case None => None
      case Some(micros) => Some(FromMicros(micros))
    }

    function Set(key: string, value: Value, faults: Faults): Store {
      if key in faults.keys then this else this.(cached := cached[key := value])
    }

    function Remove(key: string, faults: Faults): Store {
      if key in faults.keys then this else this.(cached := cached - {key})
    }

    function SetOptionInt(key: string, value: Option<i64>, faults: Faults): Store {
      match value
      case Some(v) => Set(key, Int(v), faults)
      case None => Remove(key, faults)
    }

    function SetTime(key: string, time: SystemTime, faults: Faults): Store {
      SetOptionInt(key, CheckedMicros(time), faults)
    }

    function Commit(faults: Faults): Store {
      if faults.commit then this else this.(durable := cached)
    }

    /** Power is lost: only what was committed is left. */
    function Restart(): Store {
      Store(durable, durable)
    }
  }

  /** `MemStorage`, with the durable contents the trait promises kept beside it. */
  class MemStorage {
    var data: map<string, Value>
    var committed: bool
    ghost var durable: map<string, Value>

    ghost predicate Valid()
      reads this
    {
      committed ==> data == durable
    }

    ghost function Contents(): Store
      reads this
    {
      Store(data, durable)
    }

    constructor ()
      ensures Valid() && committed
      ensures Contents() == Store(map[], map[])
    {
      data := map[];
      committed := true;
      durable := map[];
    }

    method GetString(key: string) returns (r: Option<string>)
      ensures r == Contents().GetString(key)
    {
      if key in data && data[key].Text? {
        r := Some(data[key].text);
      } else {
        r := None;
      }
    }

    method GetInt(key: string) returns (r: Option<i64>)
      ensures r == Contents().GetInt(key)
    {
      if key in data && data[key].Int? {
        r := Some(data[key].number);
      } else {
        r := None;
      }
    }

    method GetTime(key: string) returns (r: Option<SystemTime>)
      ensures r == Contents().GetTime(key)
    {
      var micros := GetInt(key);
      r := match micros case None => None case Some(m) => Some(FromMicros(m));
    }

    method Set(key: string, value: Value, faults: Faults) returns (ok: bool)
      requires Valid()
      modifies this
      ensures Valid()
      ensures ok == (key !in faults.keys)
      ensures Contents() == old(Contents()).Set(key, value, faults)
    {
      ok := key !in faults.keys;
      if ok {
        data := data[key := value];
        committed := false;
      }
    }

    method Remove(key: string, faults: Faults) returns (ok: bool)
      requires Valid()
      modifies this
      ensures Valid()
      ensures ok == (key !in faults.keys)
      ensures Contents() == old(Contents()).Remove(key, faults)
    {
      ok := key !in faults.keys;
      if ok {
        data := data - {key};
        committed := false;
      }
    }

    method Commit(faults: Faults) returns (ok: bool)
      requires Valid()
      modifies this
      ensures Valid()
      ensures ok == !faults.commit
      ensures ok ==> committed
      ensures Contents() == old(Contents()).Commit(faults)
    {
      ok := !faults.commit;
      if ok {
        durable := data;
        committed := true;
      }
    }

    method SetOptionInt(key: string, value: Option<i64>, faults: Faults) returns (ok: bool)
      requires Valid()
      modifies this
      ensures Valid()
      ensures ok == (key !in faults.keys)
      ensures Contents() == old(Contents()).SetOptionInt(key, value, faults)
    {
      match value {
        case Some(v) => ok := Set(key, Int(v), faults);
        case None => ok := Remove(key, faults);
      }
    }

    method SetTime(key: string, time: SystemTime, faults: Faults) returns (ok: bool)
      requires Valid()
      modifies this
      ensures Valid()
      ensures ok == (key !in faults.keys)
      ensures Contents() == old(Contents()).SetTime(key, time, faults)
    {
      ok := SetOptionInt(key, CheckedMicros(time), faults);
    }
  }

  /** A time that was set and not overwritten reads back cut to the microsecond; one too far from
      the epoch reads back as none. */
  lemma TimeReadsBackToTheMicrosecond(s: Store, key: string, time: SystemTime)
    ensures var back := s.SetTime(key, time, NO_FAULTS).GetTime(key);
            back == match CheckedMicros(time) case None => None case Some(m) => Some(FromMicros(m))
    ensures var back := s.SetTime(key, time, NO_FAULTS).GetTime(key);
            back.Some? ==> -1000 < time - back.value < 1000
  {
    CheckedMicrosRoundsTowardEpoch(time);
  }
}
