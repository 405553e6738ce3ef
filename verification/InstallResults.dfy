/** Which install result belongs to which app, and the three ways the client computes whether an
    installation succeeded. */
module InstallResults {
  import opened Wrappers
  import opened Clock
  import opened Protocol
  import opened RequestBuilder
  import opened Trace
  import opened UpdateFlow
  import opened Requests

  /** What a result makes of an app. */
  function ActionFor(result: AppInstallResult): Action {
    match result
    case Installed => Updated
    case Deferred => DeferredByPolicy
    case Failed(_) => InstallPlanExecutionError
  }

  /** Taking results from the front, app by app, never runs out, and gives each app with an update
      the result that stands beside it in the list of apps with an update. */
  lemma {:induction false} WalkPairs(
    apps: seq<ResponseApp>, results: seq<AppInstallResult>, counting: UserCounting, j: nat)
    requires |results| == CountUpdates(apps) && j < |apps|
    ensures |AppsWithUpdate(apps)| == |results|
    ensures var responses := WalkResults(apps, results, counting);
            var m := CountUpdates(apps[..j]);
            && |responses| == |apps|
            && responses[j].appId == apps[j].id
            && responses[j].cohort == apps[j].cohort
            && responses[j].userCounting == counting
            && if Offers(apps[j])
               then m < |results| && AppsWithUpdate(apps)[m] == apps[j]
                    && responses[j].result == ActionFor(results[m])
               else responses[j].result == NoUpdate
  {
    hide WalkResults, CountUpdates, AppsWithUpdate;
    CountAppsWithUpdate(apps);
    AppsWithUpdateFromTheFront(apps);
    WalkStep(apps, results, counting);
    var rest := if apps[0].HasUpdate() then results[1..] else results;
    if apps[1..] == [] {
      WalkEnd(rest, counting);
    } else {
      WalkPairs(apps[1..], rest, counting, if j > 0 then j - 1 else 0);
    }
    CountOfPrefix(apps, j);
  }

  lemma CountOfPrefix(apps: seq<ResponseApp>, j: nat)
    requires j < |apps|
    ensures CountUpdates(apps[..j]) ==
            if j == 0 then 0 else (if apps[0].HasUpdate() then 1 else 0) + CountUpdates(apps[1..][..j - 1])
  {
    if j > 0 {
      assert apps[..j][1..] == apps[1..][..j - 1];
    }
  }

  /** The converse: every result was given to some app. */
  lemma {:induction false} EveryResultIsGiven(apps: seq<ResponseApp>, m: nat) returns (j: nat)
    requires m < CountUpdates(apps)
    ensures j < |apps| && apps[j].HasUpdate() && CountUpdates(apps[..j]) == m
  {
    if apps[0].HasUpdate() && m == 0 {
      j := 0;
    } else {
      var k := EveryResultIsGiven(apps[1..], if apps[0].HasUpdate() then m - 1 else m);
      j := k + 1;
      assert apps[..j][1..] == apps[1..][..k];
    }
  }

  /** The event the server is told, by what the app's response says. */
  function EventOfAction(app: App, action: Action, next: Option<string>, d: Option<Duration>): Event {
    match action
    case Updated => About(app, UpdateDownloadFinished, SuccessResult, None, next, d)
    case InstallPlanExecutionError => About(app, UpdateComplete, ErrorResult, Some(Installation), next, d)
    case _ => About(app, UpdateComplete, UpdateDeferred, None, next, d)
  }

  lemma {:induction false} OpsPairUp(
    apps: seq<App>, updates: seq<ResponseApp>, results: seq<AppInstallResult>, d: Option<Duration>, op: Op)
    requires |updates| == |results|
    ensures op in InstallOps(apps, updates, results, d) <==>
            exists m :: 0 <= m < |updates| && FindApp(apps, updates[m].id).Some?
                        && op == OpAt(apps, updates, results, d, m)
    decreases |updates|
  {
    hide FillEvent, InstallEvent, InstallNews, FindApp;
    if updates != [] {
      OpsPairUp(apps, updates[1..], results[1..], d, op);
      var app := FindApp(apps, updates[0].id);
      if app.Some? {
        NewsAreFilled(app.value, updates[0], results[0], d);
      }
      assert forall m :: 1 <= m < |updates| ==>
          OpAt(apps, updates, results, d, m) == OpAt(apps, updates[1..], results[1..], d, m - 1)
          && updates[m] == updates[1..][m - 1];
    }
  }

  function OpAt(
    apps: seq<App>, updates: seq<ResponseApp>, results: seq<AppInstallResult>, d: Option<Duration>, m: nat): Op
    requires m < |updates| == |results|
  {
    var unknown := App("", [0, 0, 0, 0], None, NO_COHORT, ClientRegulatedByDate(None), map[]);
    var app := FindApp(apps, updates[m].id).GetOr(unknown);
    AddEvent(app, InstallNews(app, updates[m], results[m], d))
  }

  /** The server is told of exactly the apps of its response that have an update and that the client
      knows, and of each the same outcome that its response records. */
  lemma EventsMatchResponses(
    apps: seq<App>, r: Response, results: seq<AppInstallResult>, counting: UserCounting, d: Option<Duration>, op: Op)
    requires |results| == CountUpdates(r.apps)
    ensures op in InstallOps(apps, AppsWithUpdate(r.apps), results, d) <==>
            exists j :: 0 <= j < |r.apps| && Told(apps, r, WalkResults(r.apps, results, counting), d, op, j)
  {
    hide InstallOps, WalkResults, CountUpdates, AppsWithUpdate, FindApp, Told;
    CountAppsWithUpdate(r.apps);
    var updates := AppsWithUpdate(r.apps);
    OpsPairUp(apps, updates, results, d, op);
    if op in InstallOps(apps, updates, results, d) {
      var m :| 0 <= m < |updates| && FindApp(apps, updates[m].id).Some? && op == OpAt(apps, updates, results, d, m);
      var j := EventHasResponse(apps, r, results, counting, d, m);
    }
    if j :| 0 <= j < |r.apps| && Told(apps, r, WalkResults(r.apps, results, counting), d, op, j) {
      ResponseHasEvent(apps, r, results, counting, d, op, j);
    }
  }

  lemma EventHasResponse(
    apps: seq<App>, r: Response, results: seq<AppInstallResult>, counting: UserCounting, d: Option<Duration>, m: nat)
    returns (j: nat)
    requires |results| == CountUpdates(r.apps) == |AppsWithUpdate(r.apps)| && m < |results|
    requires FindApp(apps, AppsWithUpdate(r.apps)[m].id).Some?
    ensures j < |r.apps|
    ensures var op := OpAt(apps, AppsWithUpdate(r.apps), results, d, m);
            Told(apps, r, WalkResults(r.apps, results, counting), d, op, j)
  {
    hide WalkResults, CountUpdates, AppsWithUpdate, FindApp, About;
    j := EveryResultIsGiven(r.apps, m);
    WalkPairs(r.apps, results, counting, j);
  }

  lemma ResponseHasEvent(
    apps: seq<App>, r: Response, results: seq<AppInstallResult>, counting: UserCounting, d: Option<Duration>, op: Op,
    j: nat)
    requires |results| == CountUpdates(r.apps) && j < |r.apps|
    requires Told(apps, r, WalkResults(r.apps, results, counting), d, op, j)
    ensures op in InstallOps(apps, AppsWithUpdate(r.apps), results, d)
  {
    hide InstallOps, WalkResults, CountUpdates, AppsWithUpdate, FindApp, About;
    CountAppsWithUpdate(r.apps);
    OpsPairUp(apps, AppsWithUpdate(r.apps), results, d, op);
    WalkPairs(r.apps, results, counting, j);
    assert op == OpAt(apps, AppsWithUpdate(r.apps), results, d, CountUpdates(r.apps[..j]));
  }

  /** The event is about app `j` of the response, and says what became of it. */
  predicate Told(apps: seq<App>, r: Response, responses: seq<AppResponse>, d: Option<Duration>, op: Op, j: nat)
    requires j < |r.apps|
  {
    && Offers(r.apps[j]) && j < |responses|
    && FindApp(apps, r.apps[j].id).Some?
    && var app := FindApp(apps, r.apps[j].id).value;
       op == AddEvent(app, EventOfAction(app, responses[j].result, VersionOffered(r.apps[j]), d))
  }

  // Did it succeed?

  predicate Has(responses: seq<AppResponse>, action: Action) {
    exists j :: 0 <= j < |responses| && responses[j].result == action
  }

  /** The verdict is "failed" when some app failed, "succeeded" when none failed and one was updated,
      and nothing otherwise, so the order of the apps does not matter. */
  lemma {:induction false} VerdictMeans(responses: seq<AppResponse>)
    ensures InstallVerdict(responses) ==
            if Has(responses, InstallPlanExecutionError) then Some(false)
            else if Has(responses, Updated) then Some(true)
            else None
  {
    if responses != [] {
      var before := responses[..|responses| - 1];
      VerdictMeans(before);
      assert forall j :: 0 <= j < |before| ==> responses[j] == before[j];
      assert Has(responses, InstallPlanExecutionError) <==>
        Has(before, InstallPlanExecutionError) || responses[|responses| - 1].result == InstallPlanExecutionError;
      assert Has(responses, Updated) <==> Has(before, Updated) || responses[|responses| - 1].result == Updated;
    }
  }

  lemma VerdictIgnoresOrder(a: seq<AppResponse>, b: seq<AppResponse>)
    requires multiset(a) == multiset(b)
    ensures InstallVerdict(a) == InstallVerdict(b)
  {
    VerdictMeans(a);
    VerdictMeans(b);
    HasInMultiset(a, b);
    HasInMultiset(b, a);
  }

  lemma HasInMultiset(a: seq<AppResponse>, b: seq<AppResponse>)
    requires multiset(a) == multiset(b)
    ensures forall action :: Has(a, action) ==> Has(b, action)
  {
    forall action | Has(a, action)
      ensures Has(b, action)
    {
      var j :| 0 <= j < |a| && a[j].result == action;
      assert a[j] in multiset(a);
      assert a[j] in b;
    }
  }

  lemma {:induction false} ErrorsAreTheFailures(results: seq<AppInstallResult>)
    ensures ErrorsOf(results) == [] <==> NoAppsFailed(results)
  {
    if results != [] {
      ErrorsAreTheFailures(results[1..]);
      assert NoAppsFailed(results) <==> !results[0].Failed? && NoAppsFailed(results[1..]) by {
        assert forall k :: 1 <= k < |results| ==> results[k] == results[1..][k - 1];
      }
    }
  }

  lemma HasComesFromResults(
    apps: seq<ResponseApp>, results: seq<AppInstallResult>, counting: UserCounting, action: Action)
    requires |results| == CountUpdates(apps) && action != NoUpdate
    ensures Has(WalkResults(apps, results, counting), action) <==>
            exists m :: 0 <= m < |results| && ActionFor(results[m]) == action
  {
    hide WalkResults, CountUpdates, AppsWithUpdate;
    var responses := WalkResults(apps, results, counting);
    if apps == [] {
      WalkEnd(results, counting);
    } else {
      WalkPairs(apps, results, counting, 0);
    }
    if Has(responses, action) {
      var j :| 0 <= j < |responses| && responses[j].result == action;
      WalkPairs(apps, results, counting, j);
      assert ActionFor(results[CountUpdates(apps[..j])]) == action;
    }
    if m :| 0 <= m < |results| && ActionFor(results[m]) == action {
      var j := EveryResultIsGiven(apps, m);
      WalkPairs(apps, results, counting, j);
    }
  }

  /** The three computations agree: no app failed, no error was collected, and the verdict over the
      responses is not "failed"; and it is "succeeded" exactly when moreover some app was installed. */
  lemma SuccessComputationsAgree(apps: seq<ResponseApp>, results: seq<AppInstallResult>, counting: UserCounting)
    requires |results| == CountUpdates(apps)
    ensures var verdict := InstallVerdict(WalkResults(apps, results, counting));
            && (NoAppsFailed(results) <==> ErrorsOf(results) == [])
            && (NoAppsFailed(results) <==> verdict != Some(false))
            && (verdict == Some(true) <==> NoAppsFailed(results) && Installed in results)
  {
    hide WalkResults, CountUpdates, InstallVerdict, ErrorsOf;
    ErrorsAreTheFailures(results);
    VerdictMeans(WalkResults(apps, results, counting));
    HasComesFromResults(apps, results, counting, InstallPlanExecutionError);
    HasComesFromResults(apps, results, counting, Updated);
    assert !NoAppsFailed(results) <==>
      exists m :: 0 <= m < |results| && ActionFor(results[m]) == InstallPlanExecutionError;
    assert Installed in results <==> exists m :: 0 <= m < |results| && ActionFor(results[m]) == Updated;
  }

  /** What an installation returns, read off the installer's results: it always counts as a
      successful check, and a reboot is wanted only if no app failed and the policy says so. */
  lemma InstallationReturns(
    env: Env, w: World, params: RequestParams, apps: seq<App>, plan: Plan, r: Response, i: CheckInput)
    ensures var results := i.install(r).results;
            var p := InstallUpdate(env, w, params, apps, plan, r, i).value;
            && p.Success?
            && |results| == CountUpdates(r.apps)
            && p.value.0 == WalkResults(r.apps, results, ToUserCounting(r.daystart))
            && (InstallVerdict(p.value.0) == Some(false) <==> !NoAppsFailed(results))
            && (InstallVerdict(p.value.0) == Some(true) <==> NoAppsFailed(results) && Installed in results)
            && p.value.1 == if NoAppsFailed(results) && i.rebootNeeded then Needed(i.install(r).installResult)
                            else NotNeeded
  {
    hide ReportEvent, RecordFirstSeen, ReportInstalls, VersionsOf, AppsWithUpdate, NoAppsFailed, WalkResults,
      InstallVerdict, RecordFinish, ErrorsOf;
    CountAppsWithUpdate(r.apps);
    SuccessComputationsAgree(r.apps, i.install(r).results, ToUserCounting(r.daystart));
  }
}
