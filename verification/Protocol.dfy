/** The parts of the Omaha protocol that the client builds or inspects. */
module Protocol {
  import opened Wrappers
  import opened MachineInts
  import Version

  datatype InstallSource = OnDemand | ScheduledTask

  datatype RequestParams = RequestParams(
    source: InstallSource,
    useConfiguredProxies: bool,
    disableUpdates: bool,
    offerUpdateIfSameVersion: bool)

  datatype Cohort = Cohort(id: Option<string>, hint: Option<string>, name: Option<string>) {
    /** Every field the server sent replaces the client's, even by the empty string. */
    function UpdateFromOmaha(omaha: Cohort): Cohort {
      Cohort(
        if omaha.id.Some? then omaha.id else id,
        if omaha.hint.Some? then omaha.hint else hint,
        if omaha.name.Some? then omaha.name else name)
    }
  }

  const NO_COHORT := Cohort(None, None, None)

  /** Taking two updates in turn is taking their overlay, and an empty update changes nothing. */
  lemma CohortOverlayIsMonoid(a: Cohort, b: Cohort, c: Cohort)
    ensures a.UpdateFromOmaha(b).UpdateFromOmaha(c) == a.UpdateFromOmaha(b.UpdateFromOmaha(c))
    ensures a.UpdateFromOmaha(NO_COHORT) == a == NO_COHORT.UpdateFromOmaha(a)
  {
  }

  datatype UserCounting = ClientRegulatedByDate(days: Option<u32>)

  datatype App = App(
    id: string,
    version: Version.Version,
    fingerprint: Option<string>,
    cohort: Cohort,
    userCounting: UserCounting,
    extraFields: map<string, string>)
  {
    predicate Valid() {
      id != "" && version != Version.Pad([0])
    }
  }

  // Requests

  datatype EventType =
    | UnknownEvent
    | DownloadComplete
    | InstallComplete
    | UpdateComplete
    | UpdateDownloadStarted
    | UpdateDownloadFinished
    | RebootedAfterUpdate

  datatype EventResult =
    | ErrorResult
    | SuccessResult
    | SuccessAndRestartRequired
    | SuccessAndAppRestartRequired
    | Cancelled
    | ErrorInSystemInstaller
    | UpdateDeferred

  datatype EventErrorCode = ParseResponse | ConstructInstallPlan | Installation | DeniedByPolicy

  datatype Event = Event(
    eventType: EventType,
    eventResult: EventResult,
    errorcode: Option<EventErrorCode>,
    previousVersion: Option<string>,
    nextVersion: Option<string>,
    downloadTimeMs: Option<u64>)

  function SuccessEvent(t: EventType): Event {
    Event(t, SuccessResult, None, None, None, None)
  }

  function ErrorEvent(code: EventErrorCode): Event {
    Event(UpdateComplete, ErrorResult, Some(code), None, None, None)
  }

  const DEFERRED_EVENT := Event(UpdateComplete, UpdateDeferred, None, None, None, None)

  datatype UpdateCheck = UpdateCheck(disabled: bool, offerUpdateIfSameVersion: bool)

  datatype Ping = Ping(dateLastActive: Option<u32>, dateLastRollCall: Option<u32>)

  datatype RequestApp = RequestApp(
    id: string,
    version: string,
    fingerprint: Option<string>,
    cohort: Option<Cohort>,
    updateCheck: Option<UpdateCheck>,
    events: seq<Event>,
    ping: Option<Ping>,
    extraFields: map<string, string>)

  datatype OS = OS(platform: string, version: string, servicePack: string, arch: string)

  datatype Config = Config(
    updaterName: string,
    updaterVersion: Version.Version,
    os: OS,
    serviceUrl: string)

  type GUID = nat

  datatype Request = Request(
    protocolVersion: string,
    updater: string,
    updaterVersion: string,
    installSource: InstallSource,
    isMachine: bool,
    requestId: Option<GUID>,
    sessionId: Option<GUID>,
    os: OS,
    apps: seq<RequestApp>)

  /** A request before it is serialized: URI, headers and body. */
  datatype Intermediate = Intermediate(uri: string, headers: seq<(string, string)>, body: Request)

  // Responses

  datatype OmahaStatus = StatusOk | Restricted | NoUpdateStatus | StatusError(text: string)

  datatype UpdateCheckResponse = UpdateCheckResponse(status: OmahaStatus, manifestVersion: Option<string>)

  datatype ResponseApp = ResponseApp(
    id: string,
    cohort: Cohort,
    updateCheck: Option<UpdateCheckResponse>)
  {
    predicate HasUpdate() {
      updateCheck.Some? && updateCheck.value.status.StatusOk?
    }

    function ManifestVersion(): Option<string> {
      if updateCheck.Some? then updateCheck.value.manifestVersion else None
    }
  }

  datatype DayStart = DayStart(elapsedDays: Option<u32>, elapsedSeconds: Option<u32>)

  datatype Response = Response(daystart: Option<DayStart>, apps: seq<ResponseApp>)

  function ToUserCounting(daystart: Option<DayStart>): UserCounting {
    match daystart
    case Some(d) => ClientRegulatedByDate(d.elapsedDays)
    case None => ClientRegulatedByDate(None)
  }

  // What a check made of the response, app by app

  datatype Action =
    | NoUpdate
    | DeferredByPolicy
    | DeniedByPolicyAction
    | InstallPlanExecutionError
    | Updated

  datatype AppResponse = AppResponse(
    appId: string,
    cohort: Cohort,
    userCounting: UserCounting,
    result: Action)
}
