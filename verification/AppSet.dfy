/** The apps a client updates: taking over what the server answered, and keeping it in storage. */
module AppSet {
  import opened Wrappers
  import opened Protocol
  import opened Storage

  datatype PersistedApp = PersistedApp(cohort: Cohort, userCounting: UserCounting)

  /** What is stored of an app. */
  function Persisted(app: App): PersistedApp {
    PersistedApp(app.cohort, app.userCounting)
  }

  const BLANK := PersistedApp(NO_COHORT, ClientRegulatedByDate(None))

  /** Apps that leave everything open that storage can fill in. */
  predicate Blank(presets: seq<App>) {
    forall k :: 0 <= k < |presets| ==> Persisted(presets[k]) == BLANK
  }

  /** The JSON form of an app's data is not modelled, only that reading undoes writing. */
  datatype Codec = Codec(encode: PersistedApp -> Option<string>, decode: string -> Option<PersistedApp>) {
    ghost predicate Faithful() {
      forall p :: encode(p).Some? && decode(encode(p).value) == Some(p)
    }
  }

  function OrElse<T>(first: Option<T>, second: Option<T>): Option<T> {
    if first.Some? then first else second
  }

  /** What the app already holds wins over what was stored. */
  function FillFrom(app: App, p: PersistedApp): App {
    app.(cohort := Cohort(
           OrElse(app.cohort.id, p.cohort.id),
           OrElse(app.cohort.hint, p.cohort.hint),
           OrElse(app.cohort.name, p.cohort.name)),
         userCounting := if app.userCounting == ClientRegulatedByDate(None) then p.userCounting
                         else app.userCounting)
  }

  /** `App::load`. */
  function LoadApp(app: App, s: Store, codec: Codec): App {
    match s.GetString(app.id)
    case None => app
    case Some(json) =>
      match codec.decode(json)
      case None => app
      case Some(p) => FillFrom(app, p)
  }

  /** The app is the preset one, with what was stored in every field that the preset leaves open. */
  predicate FilledIn(preset: App, stored: PersistedApp, app: App) {
    && app.id == preset.id && app.version == preset.version
    && app.fingerprint == preset.fingerprint && app.extraFields == preset.extraFields
    && app.cohort.id == (if preset.cohort.id.Some? then preset.cohort.id else stored.cohort.id)
    && app.cohort.hint == (if preset.cohort.hint.Some? then preset.cohort.hint else stored.cohort.hint)
    && app.cohort.name == (if preset.cohort.name.Some? then preset.cohort.name else stored.cohort.name)
    && app.userCounting.days ==
       (if preset.userCounting.days.Some? then preset.userCounting.days else stored.userCounting.days)
  }

  /** What is stored under the id of the app, if it can be read. */
  function StoredFor(app: App, s: Store, codec: Codec): Option<PersistedApp> {
    match s.GetString(app.id)
    case None => None
    case Some(json) => codec.decode(json)
  }

  /** Loading an app fills in what the preset leaves open, field by field; when nothing readable is stored
      the app stays as it was given. */
  lemma LoadFillsIn(app: App, s: Store, codec: Codec)
    ensures match StoredFor(app, s, codec)
            case Some(p) => FilledIn(app, p, LoadApp(app, s, codec))
            case None => LoadApp(app, s, codec) == app
  {
  }

  /** `App::persist`. */
  function PersistApp(s: Store, app: App, codec: Codec, faults: Faults): Store {
    match codec.encode(PersistedApp(app.cohort, app.userCounting))
    case None => s
    case Some(json) => s.Set(app.id, Text(json), faults)
  }

  function LoadApps(apps: seq<App>, s: Store, codec: Codec): (r: seq<App>)
    ensures |r| == |apps|
    ensures forall i :: 0 <= i < |apps| ==> r[i] == LoadApp(apps[i], s, codec)
  {
    seq(|apps|, i requires 0 <= i < |apps| => LoadApp(apps[i], s, codec))
  }

  function PersistApps(s: Store, apps: seq<App>, codec: Codec, faults: Faults): Store {
    if apps == [] then s
    else PersistApp(PersistApps(s, apps[..|apps| - 1], codec, faults), apps[|apps| - 1], codec, faults)
  }

  /** The response that concerns an app: the first one with its id. */
  function FirstResponse(responses: seq<AppResponse>, id: string): Option<AppResponse> {
    if responses == [] then None
    else if responses[0].appId == id then Some(responses[0])
    else FirstResponse(responses[1..], id)
  }

  function UpdateApp(app: App, responses: seq<AppResponse>): App {
    match FirstResponse(responses, app.id)
    case None => app
    case Some(r) => app.(cohort := app.cohort.UpdateFromOmaha(r.cohort), userCounting := r.userCounting)
  }

  /** The app after the answer about it: every cohort field the answer has replaces the app's, the user
      counting is the answer's, and all else stays. */
  predicate Answered(app: App, r: AppResponse, after: App) {
    && after.id == app.id && after.version == app.version
    && after.fingerprint == app.fingerprint && after.extraFields == app.extraFields
    && after.cohort.id == (if r.cohort.id.Some? then r.cohort.id else app.cohort.id)
    && after.cohort.hint == (if r.cohort.hint.Some? then r.cohort.hint else app.cohort.hint)
    && after.cohort.name == (if r.cohort.name.Some? then r.cohort.name else app.cohort.name)
    && after.userCounting == r.userCounting
  }

  /** The first response with the id of an app is the one that counts; without one the app stays as it was. */
  lemma {:induction false} FirstAnswerCounts(app: App, responses: seq<AppResponse>, k: nat)
    requires k <= |responses| && forall j :: 0 <= j < k ==> responses[j].appId != app.id
    ensures k == |responses| ==> UpdateApp(app, responses) == app
    ensures k < |responses| && responses[k].appId == app.id ==>
              Answered(app, responses[k], UpdateApp(app, responses))
  {
    if k > 0 {
      FirstAnswerCounts(app, responses[1..], k - 1);
    }
  }

  function UpdateApps(apps: seq<App>, responses: seq<AppResponse>): (r: seq<App>)
    ensures |r| == |apps|
    ensures forall i :: 0 <= i < |apps| ==> r[i] == UpdateApp(apps[i], responses)
  {
    seq(|apps|, i requires 0 <= i < |apps| => UpdateApp(apps[i], responses))
  }

  predicate AllValid(apps: seq<App>) {
    forall i :: 0 <= i < |apps| ==> apps[i].Valid()
  }

  /** `VecAppSet` with the operations of `AppSetExt`; the first app is the system app. */
  class VecAppSet {
    var apps: seq<App>

    constructor (apps: seq<App>)
      requires apps != []
      ensures this.apps == apps
    {
      this.apps := apps;
    }

    method UpdateFromOmaha(responses: seq<AppResponse>)
      modifies this
      ensures apps == UpdateApps(old(apps), responses)
    {
      ghost var before := apps;
      var i := 0;
      while i < |apps|
        invariant 0 <= i <= |apps| == |before|
        invariant forall k :: 0 <= k < i ==> apps[k] == UpdateApp(before[k], responses)
        invariant forall k :: i <= k < |apps| ==> apps[k] == before[k]
      {
        var j := 0;
        while j < |responses| && responses[j].appId != apps[i].id
          invariant 0 <= j <= |responses|
          invariant FirstResponse(responses, apps[i].id) == FirstResponse(responses[j..], apps[i].id)
        {
          assert responses[j..][1..] == responses[j + 1..];
          j := j + 1;
        }
        if j < |responses| {
          var app := apps[i];
          apps := apps[i := app.(cohort := app.cohort.UpdateFromOmaha(responses[j].cohort),
                                 userCounting := responses[j].userCounting)];
        }
        i := i + 1;
      }
    }

    method Load(storage: MemStorage, codec: Codec)
      requires storage.Valid()
      modifies this
      ensures apps == LoadApps(old(apps), storage.Contents(), codec)
      ensures forall k :: 0 <= k < |apps| ==>
                match StoredFor(old(apps)[k], storage.Contents(), codec)
                case Some(p) => FilledIn(old(apps)[k], p, apps[k])
                case None => apps[k] == old(apps)[k]
    {
      ghost var before := apps;
      var i := 0;
      while i < |apps|
        invariant 0 <= i <= |apps| == |before|
        invariant forall k :: 0 <= k < i ==> apps[k] == LoadApp(before[k], storage.Contents(), codec)
        invariant forall k :: i <= k < |apps| ==> apps[k] == before[k]
        invariant storage.Contents() == old(storage.Contents())
      {
        var json := storage.GetString(apps[i].id);
        if json.Some? {
          var persisted := codec.decode(json.value);
          if persisted.Some? {
            apps := apps[i := FillFrom(apps[i], persisted.value)];
          }
        }
        i := i + 1;
      }
    }

    method Persist(storage: MemStorage, codec: Codec, faults: Faults)
      requires storage.Valid()
      modifies storage
      ensures storage.Valid()
      ensures storage.Contents() == PersistApps(old(storage.Contents()), apps, codec, faults)
    {
      var i := 0;
      while i < |apps|
        invariant 0 <= i <= |apps|
        invariant storage.Valid()
        invariant storage.Contents() == PersistApps(old(storage.Contents()), apps[..i], codec, faults)
      {
        assert apps[..i + 1][..i] == apps[..i];
        var json := codec.encode(PersistedApp(apps[i].cohort, apps[i].userCounting));
        if json.Some? {
          var _ := storage.Set(apps[i].id, Text(json.value), faults);
        }
        i := i + 1;
      }
      assert apps[..|apps|] == apps;
    }
  }

  ghost predicate DistinctIds(apps: seq<App>) {
    forall i, j :: 0 <= i < j < |apps| ==> apps[i].id != apps[j].id
  }

  ghost predicate SameIds(apps: seq<App>, others: seq<App>) {
    |apps| == |others| && forall i :: 0 <= i < |apps| ==> apps[i].id == others[i].id
  }

  /** Writing the apps touches their own keys and no other. */
  lemma {:induction false} PersistAppsFrame(s: Store, apps: seq<App>, codec: Codec, faults: Faults, key: string)
    requires forall i :: 0 <= i < |apps| ==> apps[i].id != key
    ensures var t := PersistApps(s, apps, codec, faults);
            t.durable == s.durable && (key in t.cached <==> key in s.cached) &&
            (key in s.cached ==> t.cached[key] == s.cached[key])
  {
    if apps != [] {
      PersistAppsFrame(s, apps[..|apps| - 1], codec, faults, key);
    }
  }

  lemma {:induction false} PersistAppsStores(s: Store, apps: seq<App>, codec: Codec, i: nat)
    requires codec.Faithful() && DistinctIds(apps) && i < |apps|
    ensures var p := PersistedApp(apps[i].cohort, apps[i].userCounting);
            PersistApps(s, apps, codec, NO_FAULTS).GetString(apps[i].id) == codec.encode(p)
  {
    if i < |apps| - 1 {
      PersistAppsStores(s, apps[..|apps| - 1], codec, i);
    }
  }

  /** Loading the apps that were written restores, field by field, what a new app set leaves
      open, and leaves the rest as it was given. */
  lemma AppsReload(s: Store, apps: seq<App>, presets: seq<App>, codec: Codec)
    requires codec.Faithful() && DistinctIds(apps) && SameIds(apps, presets)
    ensures var r := LoadApps(presets, PersistApps(s, apps, codec, NO_FAULTS), codec);
            forall i :: 0 <= i < |apps| ==>
              FilledIn(presets[i], PersistedApp(apps[i].cohort, apps[i].userCounting), r[i])
  {
    hide FilledIn;
    forall i | 0 <= i < |apps|
      ensures FilledIn(presets[i], PersistedApp(apps[i].cohort, apps[i].userCounting),
                       LoadApp(presets[i], PersistApps(s, apps, codec, NO_FAULTS), codec))
    {
      PersistAppsStores(s, apps, codec, i);
      LoadFillsIn(presets[i], PersistApps(s, apps, codec, NO_FAULTS), codec);
    }
  }
}
