/** What the server is sent: every kind of request the client makes, field by field. */
module Requests {
  import opened Wrappers
  import opened MachineInts
  import opened Clock
  import opened Protocol
  import opened AppSet
  import opened RequestBuilder
  import opened Trace
  import opened UpdateFlow
  import Version

  // What every request says

  /** The address, the headers and all of the body but the apps. */
  predicate Framed(
    env: Env, source: InstallSource, sessionId: GUID, requestId: GUID, r: Intermediate)
  {
    && r.uri == env.config.serviceUrl
    && r.headers ==
       [("content-type", "application/json"),
        ("X-Goog-Update-Updater", env.config.updaterName),
        ("X-Goog-Update-Interactivity", if source == OnDemand then "fg" else "bg")]
       + (if r.body.apps == [] then [] else [("X-Goog-Update-AppId", r.body.apps[0].id)])
    && r.body.protocolVersion == "3.0"
    && r.body.updater == env.config.updaterName
    && r.body.updaterVersion == Version.Printed(env.config.updaterVersion)
    && r.body.installSource == source
    && r.body.isMachine
    && r.body.requestId == Some(requestId) && r.body.sessionId == Some(sessionId)
    && r.body.os == env.config.os
  }

  lemma EveryRequestIsFramed(env: Env, params: RequestParams, ops: seq<Op>, sessionId: GUID, requestId: GUID)
    ensures Framed(env, params.source, sessionId, requestId, RequestOf(env, params, ops, sessionId, requestId))
  {
    hide Version.Printed, Version.ToString, ApplyOps;
    Version.PrintedIsToString(env.config.updaterVersion);
  }

  lemma BodyDescribes(env: Env, params: RequestParams, ops: seq<Op>, sessionId: GUID, requestId: GUID, k: nat)
    requires k < |ApplyOps(params, ops)|
    ensures var apps := RequestOf(env, params, ops, sessionId, requestId).body.apps;
            && |apps| == |ApplyOps(params, ops)|
            && var entry := ApplyOps(params, ops)[k];
               var days := entry.app.userCounting.days;
               apps[k] == Describing(entry.app, entry.updateCheck, if entry.ping then Some(Ping(days, days)) else None,
                                     entry.events)
  {
    hide Version.Printed, Version.ToString, Describing, ApplyOps, ToRequestApp;
    EntryDescribes(ApplyOps(params, ops)[k]);
  }

  // Asking for updates, and pinging

  /** An id that no entry has. */
  lemma {:induction false} FindsNothing(entries: seq<AppEntry>, id: string)
    requires forall k :: 0 <= k < |entries| ==> entries[k].app.id != id
    ensures Find(entries, id) == |entries|
  {
    if entries != [] {
      FindsNothing(entries[1..], id);
    }
  }

  lemma NewIdAppends(params: RequestParams, entries: seq<AppEntry>, op: Op)
    requires forall k :: 0 <= k < |entries| ==> entries[k].app.id != op.app.id
    ensures ApplyOp(params, entries, op) == entries + [Modify(params, NewEntry(op.app), op)]
  {
    FindsNothing(entries, op.app.id);
  }

  /** The id that only the last entry has. */
  lemma LastIdModifies(params: RequestParams, entries: seq<AppEntry>, last: AppEntry, op: Op)
    requires forall k :: 0 <= k < |entries| ==> entries[k].app.id != op.app.id
    requires last.app.id == op.app.id
    ensures ApplyOp(params, entries + [last], op) == entries + [Modify(params, last, op)]
  {
    hide Modify;
    FindsNothing(entries, op.app.id);
    FindInAppended(entries, last, op.app.id);
  }

  function CheckEntries(params: RequestParams, apps: seq<App>): seq<AppEntry> {
    seq(|apps|, k requires 0 <= k < |apps| =>
      AppEntry(apps[k], Some(UpdateCheck(params.disableUpdates, params.offerUpdateIfSameVersion)), true, []))
  }

  lemma {:induction false} CheckBuilds(params: RequestParams, apps: seq<App>)
    requires DistinctIds(apps)
    ensures ApplyOps(params, CheckOps(apps)) == CheckEntries(params, apps)
  {
    hide ApplyOp, Find;
    if apps != [] {
      var fewer, app := apps[..|apps| - 1], apps[|apps| - 1];
      CheckBuilds(params, fewer);
      var entries := CheckEntries(params, fewer);
      AfterTwo(params, CheckOps(fewer), AddUpdateCheck(app), AddPing(app));
      var asked := Modify(params, NewEntry(app), AddUpdateCheck(app));
      NewIdAppends(params, entries, AddUpdateCheck(app));
      LastIdModifies(params, entries, asked, AddPing(app));
      assert CheckEntries(params, apps) == entries + [Modify(params, asked, AddPing(app))];
    }
  }

  /** The request of a check: each app of the client, in order, is described as it is, asked about as the
      policy has it, and pinged with its day; and no event is told. */
  lemma CheckRequestAsksForAll(env: Env, params: RequestParams, apps: seq<App>, sessionId: GUID, requestId: GUID)
    requires DistinctIds(apps)
    ensures var asked := RequestOf(env, params, CheckOps(apps), sessionId, requestId).body.apps;
            && |asked| == |apps|
            && forall k :: 0 <= k < |apps| ==>
                 var days := apps[k].userCounting.days;
                 asked[k] == Describing(apps[k],
                                        Some(UpdateCheck(params.disableUpdates, params.offerUpdateIfSameVersion)),
                                        Some(Ping(days, days)), [])
  {
    hide Describing, RequestOf, ApplyOps, CheckOps;
    CheckBuilds(params, apps);
    forall k | 0 <= k < |apps|
      ensures var days := apps[k].userCounting.days;
              var asked := RequestOf(env, params, CheckOps(apps), sessionId, requestId).body.apps;
              |asked| == |apps| &&
              asked[k] == Describing(apps[k],
                                     Some(UpdateCheck(params.disableUpdates, params.offerUpdateIfSameVersion)),
                                     Some(Ping(days, days)), [])
    {
      BodyDescribes(env, params, CheckOps(apps), sessionId, requestId, k);
    }
    OnePerEntry(env, params, CheckOps(apps), sessionId, requestId);
  }

  lemma OnePerEntry(env: Env, params: RequestParams, ops: seq<Op>, sessionId: GUID, requestId: GUID)
    ensures |RequestOf(env, params, ops, sessionId, requestId).body.apps| == |ApplyOps(params, ops)|
  {
    hide ApplyOps, ToRequestApp;
  }

  function PingEntries(apps: seq<App>): seq<AppEntry> {
    seq(|apps|, k requires 0 <= k < |apps| => AppEntry(apps[k], None, true, []))
  }

  lemma {:induction false} PingBuilds(apps: seq<App>)
    requires DistinctIds(apps)
    ensures ApplyOps(PING_PARAMS, PingOps(apps)) == PingEntries(apps)
  {
    hide ApplyOp, Find;
    if apps != [] {
      var fewer, app := apps[..|apps| - 1], apps[|apps| - 1];
      PingBuilds(fewer);
      assert PingOps(apps) == PingOps(fewer) + [AddPing(app)];
      ApplyOpsSnoc(PING_PARAMS, PingOps(fewer), AddPing(app));
      NewIdAppends(PING_PARAMS, PingEntries(fewer), AddPing(app));
      assert PingEntries(apps) == PingEntries(fewer) + [Modify(PING_PARAMS, NewEntry(app), AddPing(app))];
    }
  }

  /** The request of a ping: it is scheduled, and each app of the client, in order, is described as it is and
      pinged with its day; nothing is asked for and no event is told. */
  lemma PingRequestPingsAll(env: Env, apps: seq<App>, sessionId: GUID, requestId: GUID)
    requires DistinctIds(apps)
    ensures var r := RequestOf(env, PING_PARAMS, PingOps(apps), sessionId, requestId);
            && Framed(env, ScheduledTask, sessionId, requestId, r)
            && |r.body.apps| == |apps|
            && forall k :: 0 <= k < |apps| ==>
                 var days := apps[k].userCounting.days;
                 r.body.apps[k] == Describing(apps[k], None, Some(Ping(days, days)), [])
  {
    hide Describing, Framed, RequestOf, ApplyOps, PingOps;
    PingBuilds(apps);
    EveryRequestIsFramed(env, PING_PARAMS, PingOps(apps), sessionId, requestId);
    forall k | 0 <= k < |apps|
      ensures var days := apps[k].userCounting.days;
              var pinged := RequestOf(env, PING_PARAMS, PingOps(apps), sessionId, requestId).body.apps;
              |pinged| == |apps| && pinged[k] == Describing(apps[k], None, Some(Ping(days, days)), [])
    {
      BodyDescribes(env, PING_PARAMS, PingOps(apps), sessionId, requestId, k);
    }
    OnePerEntry(env, PING_PARAMS, PingOps(apps), sessionId, requestId);
  }

  // Telling events

  /** The server offers an update of the app. */
  predicate Offers(x: ResponseApp) {
    x.updateCheck.Some? && x.updateCheck.value.status == StatusOk
  }

  /** The entries of a response that offer an update, in order. */
  function Updates(apps: seq<ResponseApp>): seq<ResponseApp> {
    if apps == [] then []
    else if Offers(apps[0]) then [apps[0]] + Updates(apps[1..])
    else Updates(apps[1..])
  }

  lemma {:induction false} UpdatesAreOffered(apps: seq<ResponseApp>)
    ensures AppsWithUpdate(apps) == Updates(apps)
    ensures |Updates(apps)| == CountUpdates(apps)
  {
    hide AppsWithUpdate;
    if apps == [] {
      assert AppsWithUpdate([]) == [] by {
        CountAppsWithUpdate([]);
      }
    } else {
      AppsWithUpdateFromTheFront(apps);
      UpdatesAreOffered(apps[1..]);
    }
  }

  /** The version that an entry of a response names. */
  function VersionOffered(x: ResponseApp): Option<string> {
    if x.updateCheck.Some? then x.updateCheck.value.manifestVersion else None
  }

  /** The last entry of a response for an app. */
  function OffersLast(updates: seq<ResponseApp>, id: string): Option<ResponseApp> {
    if updates == [] then None
    else if updates[|updates| - 1].id == id then Some(updates[|updates| - 1])
    else OffersLast(updates[..|updates| - 1], id)
  }

  lemma {:induction false} VersionsAreTheLast(updates: seq<ResponseApp>, id: string)
    ensures id in VersionsOf(updates) <==> OffersLast(updates, id).Some?
    ensures id in VersionsOf(updates) ==> VersionsOf(updates)[id] == VersionOffered(OffersLast(updates, id).value)
  {
    if updates != [] {
      VersionsAreTheLast(updates[..|updates| - 1], id);
    }
  }

  /** A duration in milliseconds, unless it needs more than 64 bits. */
  function Millis(d: Option<Duration>): Option<u64> {
    if d.Some? && d.value < 0x1_0000_0000_0000_0000 * 1_000_000 then Some(d.value / 1_000_000) else None
  }

  /** An event about an app: what happened, from which version, to which, and how long the download took. */
  function About(
    app: App, t: EventType, r: EventResult, code: Option<EventErrorCode>, next: Option<string>, d: Option<Duration>):
    Event
  {
    Event(t, r, code, Some(Version.Printed(app.version)), next, Millis(d))
  }

  lemma FilledEventIsAbout(event: Event, app: App, next: Option<string>, d: Option<Duration>)
    ensures FillEvent(event, app, next, d) ==
            About(app, event.eventType, event.eventResult, event.errorcode, next, d)
  {
    hide Version.Printed, Version.ToString;
    Version.PrintedIsToString(app.version);
  }

  /** The apps of the client that are told about when this is offered, each with the one event. */
  function Telling(
    apps: seq<App>, updates: seq<ResponseApp>, t: EventType, r: EventResult, code: Option<EventErrorCode>,
    d: Option<Duration>): seq<RequestApp>
  {
    if apps == [] then []
    else
      var app := apps[|apps| - 1];
      Telling(apps[..|apps| - 1], updates, t, r, code, d) +
      if OffersLast(updates, app.id).None? then []
      else
        [Describing(app, None, None, [About(app, t, r, code, VersionOffered(OffersLast(updates, app.id).value), d)])]
  }

  function EventEntries(event: Event, apps: seq<App>, next: NextVersions, d: Option<Duration>): seq<AppEntry> {
    if apps == [] then []
    else
      var app := apps[|apps| - 1];
      EventEntries(event, apps[..|apps| - 1], next, d) +
      if app.id in next then
        [AppEntry(app, None, false,
                  [About(app, event.eventType, event.eventResult, event.errorcode, next[app.id], d)])]
      else []
  }

  lemma {:induction false} EventEntriesFrom(event: Event, apps: seq<App>, next: NextVersions, d: Option<Duration>)
    ensures forall k :: 0 <= k < |EventEntries(event, apps, next, d)| ==>
              EventEntries(event, apps, next, d)[k].app in apps
  {
    if apps != [] {
      EventEntriesFrom(event, apps[..|apps| - 1], next, d);
    }
  }

  lemma {:induction false} EventsBuild(
    params: RequestParams, event: Event, apps: seq<App>, next: NextVersions, d: Option<Duration>)
    requires DistinctIds(apps)
    ensures ApplyOps(params, EventOps(event, apps, next, d)) == EventEntries(event, apps, next, d)
  {
    hide About, ApplyOp, Find, FillEvent;
    if apps != [] {
      var fewer, app := apps[..|apps| - 1], apps[|apps| - 1];
      EventsBuild(params, event, fewer, next, d);
      var ops := EventOps(event, fewer, next, d);
      if app.id in next {
        var op := AddEvent(app, FillEvent(event, app, next[app.id], d));
        FilledEventIsAbout(event, app, next[app.id], d);
        ApplyOpsSnoc(params, ops, op);
        EventEntriesFrom(event, fewer, next, d);
        NewIdAppends(params, EventEntries(event, fewer, next, d), op);
        assert Modify(params, NewEntry(app), op) == AppEntry(app, None, false, [op.event]);
        assert EventOps(event, apps, next, d) == ops + [op];
      } else {
        assert EventOps(event, apps, next, d) == ops;
      }
    }
  }

  function Described(entries: seq<AppEntry>): seq<RequestApp> {
    seq(|entries|, k requires 0 <= k < |entries| => Describing(entries[k].app, None, None, entries[k].events))
  }

  lemma {:induction false} TellingDescribes(
    event: Event, apps: seq<App>, updates: seq<ResponseApp>, d: Option<Duration>)
    ensures Described(EventEntries(event, apps, VersionsOf(updates), d))
         == Telling(apps, updates, event.eventType, event.eventResult, event.errorcode, d)
  {
    hide About, Version.Printed;
    if apps != [] {
      TellingDescribes(event, apps[..|apps| - 1], updates, d);
      VersionsAreTheLast(updates, apps[|apps| - 1].id);
    }
  }

  lemma {:induction false} EventEntriesOnlyTell(event: Event, apps: seq<App>, next: NextVersions, d: Option<Duration>)
    ensures forall k :: 0 <= k < |EventEntries(event, apps, next, d)| ==>
              var entry := EventEntries(event, apps, next, d)[k];
              entry.updateCheck == None && !entry.ping
  {
    if apps != [] {
      EventEntriesOnlyTell(event, apps[..|apps| - 1], next, d);
    }
  }

  /** The apps of a report of this event are these. */
  lemma EventsDescribe(
    env: Env, params: RequestParams, event: Event, apps: seq<App>, next: NextVersions, d: Option<Duration>,
    sessionId: GUID, requestId: GUID)
    requires DistinctIds(apps)
    ensures RequestOf(env, params, EventOps(event, apps, next, d), sessionId, requestId).body.apps
         == Described(EventEntries(event, apps, next, d))
  {
    hide Describing, RequestOf, ApplyOps, EventOps, EventEntries;
    var ops := EventOps(event, apps, next, d);
    EventsBuild(params, event, apps, next, d);
    EventEntriesOnlyTell(event, apps, next, d);
    OnePerEntry(env, params, ops, sessionId, requestId);
    var entries := EventEntries(event, apps, next, d);
    forall k | 0 <= k < |entries|
      ensures RequestOf(env, params, ops, sessionId, requestId).body.apps[k]
           == Describing(entries[k].app, None, None, entries[k].events)
    {
      BodyDescribes(env, params, ops, sessionId, requestId, k);
    }
  }

  /** A report of one event: it tells of exactly the client's apps that are offered an update, in the client's
      order, each with this event, its version and the version offered last; nothing is asked for. */
  lemma EventReportTells(
    env: Env, params: RequestParams, event: Event, apps: seq<App>, updates: seq<ResponseApp>, d: Option<Duration>,
    sessionId: GUID, requestId: GUID)
    requires DistinctIds(apps)
    ensures RequestOf(env, params, EventOps(event, apps, VersionsOf(updates), d), sessionId, requestId).body.apps
         == Telling(apps, updates, event.eventType, event.eventResult, event.errorcode, d)
  {
    hide RequestOf, EventOps, Telling, Described;
    EventsDescribe(env, params, event, apps, VersionsOf(updates), d, sessionId, requestId);
    TellingDescribes(event, apps, updates, d);
  }

  lemma {:induction false} NoVersionsIsNone(apps: seq<App>, id: string)
    ensures id in NoVersions(apps) <==> exists k :: 0 <= k < |apps| && apps[k].id == id
    ensures id in NoVersions(apps) ==> NoVersions(apps)[id] == None
  {
    if apps != [] {
      var fewer := apps[..|apps| - 1];
      NoVersionsIsNone(fewer, id);
      assert forall k :: 0 <= k < |fewer| ==> fewer[k] == apps[k];
      assert apps[|apps| - 1].id == id ==> id in NoVersions(apps);
    }
  }

  lemma {:induction false} UnversionedEntries(
    event: Event, apps: seq<App>, all: seq<App>, k: nat)
    requires forall app :: app in apps ==> app in all
    requires k < |apps|
    ensures var entries := EventEntries(event, apps, NoVersions(all), None);
            && |entries| == |apps|
            && entries[k] == AppEntry(apps[k], None, false,
                                      [About(apps[k], event.eventType, event.eventResult, event.errorcode, None, None)])
  {
    hide About;
    var fewer, last := apps[..|apps| - 1], apps[|apps| - 1];
    NoVersionsIsNone(all, last.id);
    assert last in all;
    if fewer != [] {
      UnversionedEntries(event, fewer, all, if k < |fewer| then k else 0);
    }
  }

  /** The report that a response could not be read tells it of every app, with its version and no other. */
  lemma UnreadableIsToldOfAll(
    env: Env, params: RequestParams, apps: seq<App>, sessionId: GUID, requestId: GUID)
    requires DistinctIds(apps)
    ensures var ops := EventOps(ErrorEvent(ParseResponse), apps, NoVersions(apps), None);
            var told := RequestOf(env, params, ops, sessionId, requestId).body.apps;
            && |told| == |apps|
            && forall k :: 0 <= k < |apps| ==>
                 told[k] == Describing(apps[k], None, None,
                                       [About(apps[k], UpdateComplete, ErrorResult, Some(ParseResponse), None, None)])
  {
    hide RequestOf, EventOps, About, Describing, EventEntries;
    var event := ErrorEvent(ParseResponse);
    EventsDescribe(env, params, event, apps, NoVersions(apps), None, sessionId, requestId);
    forall k | 0 <= k < |apps|
      ensures var entries := EventEntries(event, apps, NoVersions(apps), None);
              && |entries| == |apps|
              && entries[k] == AppEntry(apps[k], None, false,
                                        [About(apps[k], UpdateComplete, ErrorResult, Some(ParseResponse), None, None)])
    {
      UnversionedEntries(event, apps, apps, k);
    }
    if apps == [] {
      NoEntries(event, NoVersions(apps));
    }
  }

  lemma NoEntries(event: Event, next: NextVersions)
    ensures EventEntries(event, [], next, None) == []
  {
  }

  // Telling what was installed

  /** What the server is told of one update of an app, by the installer's result. */
  function InstallNews(app: App, x: ResponseApp, result: AppInstallResult, d: Option<Duration>): Event {
    match result
    case Installed => About(app, UpdateDownloadFinished, SuccessResult, None, VersionOffered(x), d)
    case Deferred => About(app, UpdateComplete, UpdateDeferred, None, VersionOffered(x), d)
    case Failed(_) => About(app, UpdateComplete, ErrorResult, Some(Installation), VersionOffered(x), d)
  }

  lemma NewsAreFilled(app: App, x: ResponseApp, result: AppInstallResult, d: Option<Duration>)
    ensures FillEvent(InstallEvent(result), app, x.ManifestVersion(), d) == InstallNews(app, x, result, d)
  {
    hide FillEvent, About;
    FilledEventIsAbout(InstallEvent(result), app, x.ManifestVersion(), d);
  }

  /** The app of the client with this id. */
  ghost predicate Known(apps: seq<App>, id: string, app: App) {
    app in apps && app.id == id
  }

  lemma {:induction false} FindAppFinds(apps: seq<App>, id: string)
    ensures match FindApp(apps, id)
            case Some(app) => Known(apps, id, app)
            case None => forall app :: app in apps ==> app.id != id
  {
    if apps != [] && apps[0].id != id {
      FindAppFinds(apps[1..], id);
    }
  }

  /** The news of an installation, in the order of the response: of each update of a known app. */
  function AllNews(
    apps: seq<App>, updates: seq<ResponseApp>, results: seq<AppInstallResult>, d: Option<Duration>): seq<Op>
    requires |updates| == |results|
  {
    if updates == [] then []
    else
      var rest := AllNews(apps, updates[1..], results[1..], d);
      match FindApp(apps, updates[0].id)
      case None => rest
      case Some(app) => [AddEvent(app, InstallNews(app, updates[0], results[0], d))] + rest
  }

  lemma {:induction false} InstallOpsAreTheNews(
    apps: seq<App>, updates: seq<ResponseApp>, results: seq<AppInstallResult>, d: Option<Duration>)
    requires |updates| == |results|
    ensures InstallOps(apps, updates, results, d) == AllNews(apps, updates, results, d)
    decreases |updates|
  {
    hide FindApp, FillEvent, InstallEvent, InstallNews;
    if updates != [] {
      InstallOpsAreTheNews(apps, updates[1..], results[1..], d);
      if FindApp(apps, updates[0].id).Some? {
        NewsAreFilled(FindApp(apps, updates[0].id).value, updates[0], results[0], d);
      }
    }
  }

  /** What an installation tells: of each app of the client that a result is about one entry, in the order of
      the first results about them, with all the news of the app in their order; and nothing is asked for. */
  lemma InstallReportTells(
    env: Env, params: RequestParams, apps: seq<App>, updates: seq<ResponseApp>, results: seq<AppInstallResult>,
    d: Option<Duration>, sessionId: GUID, requestId: GUID, k: nat)
    requires |updates| == |results|
    requires k < |Ids(AllNews(apps, updates, results, d))|
    ensures var news := AllNews(apps, updates, results, d);
            var told := RequestOf(env, params, InstallOps(apps, updates, results, d), sessionId, requestId).body.apps;
            && |told| == |Ids(news)|
            && Mentions(news, Ids(news)[k])
            && told[k] == Describing(FirstApp(news, Ids(news)[k]), None, None, EventsOf(news, Ids(news)[k]))
  {
    hide RequestOf, InstallOps, Describing, AllNews, ApplyOps, Mentions, FirstApp, EventsOf, Ids;
    var news := AllNews(apps, updates, results, d);
    InstallOpsAreTheNews(apps, updates, results, d);
    BuilderGroups(params, news);
    NewsOnlyTell(apps, updates, results, d);
    OnlyTold(news, Ids(news)[k]);
    BodyDescribes(env, params, news, sessionId, requestId, k);
  }

  lemma {:induction false} NewsOnlyTell(
    apps: seq<App>, updates: seq<ResponseApp>, results: seq<AppInstallResult>, d: Option<Duration>)
    requires |updates| == |results|
    ensures forall op :: op in AllNews(apps, updates, results, d) ==> op.AddEvent?
    decreases |updates|
  {
    if updates != [] {
      NewsOnlyTell(apps, updates[1..], results[1..], d);
    }
  }

  lemma OnlyTold(ops: seq<Op>, id: string)
    requires forall op :: op in ops ==> op.AddEvent?
    ensures !Checks(ops, id) && !Pings(ops, id)
  {
    assert forall k :: 0 <= k < |ops| ==> ops[k] in ops;
  }

  /** The apps of which it is told that their download finished. */
  function Finished(news: seq<Op>): seq<App> {
    if news == [] then []
    else if news[0].AddEvent? && news[0].event.eventType == UpdateDownloadFinished then
      [news[0].app] + Finished(news[1..])
    else Finished(news[1..])
  }

  /** The completion of an update is reported for the apps of which it was told that the download finished. */
  lemma {:induction false} CompletionFollowsDownload(
    apps: seq<App>, updates: seq<ResponseApp>, results: seq<AppInstallResult>, d: Option<Duration>)
    requires |updates| == |results|
    ensures InstalledApps(apps, updates, results) == Finished(AllNews(apps, updates, results, d))
    decreases |updates|
  {
    hide Version.Printed, Millis, FindApp;
    if updates != [] {
      CompletionFollowsDownload(apps, updates[1..], results[1..], d);
      assert AllNews(apps, updates, results, d) ==
        (match FindApp(apps, updates[0].id)
         case None => []
         case Some(app) => [AddEvent(app, InstallNews(app, updates[0], results[0], d))])
        + AllNews(apps, updates[1..], results[1..], d);
    }
  }

  /** The losses when a report of this news fails, one for each event. */
  function Losses(news: seq<Op>): seq<Act> {
    if news == [] then []
    else (if news[0].AddEvent? then [Report(OmahaEventLost(news[0].event))] else []) + Losses(news[1..])
  }

  /** The day of an answer, as the server counts days. */
  function DayOf(r: Response): Option<u32> {
    if r.daystart.Some? then r.daystart.value.elapsedDays else None
  }

  /** What the client makes of an answer when nothing is installed: an entry per app, all with this action. */
  function Answers(r: Response, action: Action): seq<AppResponse> {
    seq(|r.apps|, k requires 0 <= k < |r.apps| =>
      AppResponse(r.apps[k].id, r.apps[k].cohort, ClientRegulatedByDate(DayOf(r)), action))
  }

  lemma SameActionAnswers(r: Response, action: Action)
    ensures SameAction(r, action) == Answers(r, action)
  {
  }
}
