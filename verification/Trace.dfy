/** What an observer of the client can record, entry by entry, and how a record is judged. */
module Trace {
  import opened Wrappers
  import opened MachineInts
  import opened Clock
  import opened Protocol
  import opened Storage
  import opened CheckContext

  datatype State =
    | Idle
    | CheckingForUpdates(source: InstallSource)
    | ErrorCheckingForUpdate
    | NoUpdateAvailable
    | InstallationDeferredByPolicy
    | InstallingUpdate
    | WaitingForReboot
    | InstallationError

  /** The ways in which a request to Omaha fails, and, with the parser and the installer, the ways
      in which an update check fails. */
  datatype RequestError =
    | JsonError
    | HttpBuilderError
    | CupDecorationError
    | CupValidationError
    | HttpTransport(user: bool)
    | HttpStatus(status: nat)

  datatype CheckError =
    | OmahaRequest(error: RequestError)
    | ResponseParser
    | InstallPlanError

  type CheckResult = Result<seq<AppResponse>, CheckError>

  datatype InstallError = InstallError(code: int)

  datatype StateMachineEvent =
    | StateChange(state: State)
    | ScheduleChange(schedule: UpdateCheckSchedule)
    | ProtocolStateChange(protocolState: ProtocolState)
    | UpdateCheckResult(result: CheckResult)
    | InstallProgressChange(progress: real)
    | OmahaServerResponse(response: Response)
    | InstallerError(error: InstallError)

  datatype ClockType = MonotonicClock | WallClock

  datatype FailureReason = OmahaReason | NetworkReason | InternalReason

  datatype Metrics =
    | UpdateCheckResponseTime(responseTime: Duration, successful: bool)
    | UpdateCheckInterval(interval: Duration, clock: ClockType, installSource: InstallSource)
    | SuccessfulUpdateDuration(duration: Duration)
    | SuccessfulUpdateFromFirstSeen(duration: Duration)
    | FailedUpdateDuration(duration: Duration)
    | UpdateCheckFailureReason(reason: FailureReason)
    | RequestsPerCheck(requests: nat, successful: bool)
    | AttemptsToSuccessfulCheck(attempts: u64)
    | AttemptsToSuccessfulInstall(count: u64, successful: bool)
    | WaitedForRebootDuration(duration: Duration)
    | OmahaEventLost(event: Event)

  datatype CheckOptions = CheckOptions(source: InstallSource)

  datatype CheckDecision =
    | CheckOk(params: RequestParams)
    | CheckOkUpdateDeferred(params: RequestParams)
    | TooSoon
    | ThrottledByPolicy
    | CheckDeniedByPolicy

  datatype UpdateDecision = UpdateOk | UpdateDeferredByPolicy | UpdateDeniedByPolicy

  datatype Plan = Plan(id: string)

  type InstallResult = int

  datatype AppInstallResult = Installed | Deferred | Failed(error: InstallError)

  datatype PolicyQuery =
    | NextUpdateTime(timing: CheckTiming)
    | UpdateCheckAllowed(options: CheckOptions, decision: CheckDecision)
    | UpdateCanStart(plan: Plan, verdict: UpdateDecision)
    | RebootNeeded(rebootPlan: Plan, needed: bool)
    | RebootAllowed(rebootOptions: CheckOptions, installResult: InstallResult, allowed: bool)

  datatype ControlResponse = Started | AlreadyRunning | Throttled

  datatype Purpose = ForCheck | ForEvent | ForPing

  /** A response body as far as the client looks into it. */
  datatype Body = Malformed | Parsed(response: Response)

  type RequestResult = Result<Body, RequestError>

  datatype Wait = Backoff(millis: nat) | ForReboot(duration: Duration) | ForNextCheck(timing: CheckTiming)

  /** One observable act of the client. */
  datatype Act =
    | Yield(event: StateMachineEvent)
    | Report(metrics: Metrics)
    | Query(query: PolicyQuery)
    | Sent(sentFor: Purpose, request: Intermediate)
    | Concluded(concludedFor: Purpose, result: RequestResult)
    | Waited(wait: Wait)
    | FirstSeen(planId: string, now: SystemTime, since: SystemTime, torn: bool)
    | PerformedInstall(plan: Plan, installResult: InstallResult, results: seq<AppInstallResult>)
    | Committed(snapshot: map<string, Value>)
    | Received(options: CheckOptions)
    | Replied(response: ControlResponse)
    | PerformReboot
    | Booted

  function ChangeTo(s: State): Act {
    Yield(StateChange(s))
  }

  /** The state that an observer reaches who starts in `q` and reads the record in order. */
  ghost function Fold<Q>(next: (Q, Act) -> Q, q: Q, log: seq<Act>): Q {
    if log == [] then q else next(Fold(next, q, log[..|log| - 1]), log[|log| - 1])
  }

  lemma FoldEmpty<Q>(next: (Q, Act) -> Q, q: Q)
    ensures Fold(next, q, []) == q
  {
  }

  lemma {:induction false} FoldConcat<Q>(next: (Q, Act) -> Q, q: Q, a: seq<Act>, b: seq<Act>)
    ensures Fold(next, q, a + b) == Fold(next, Fold(next, q, a), b)
  {
    if b == [] {
      assert a + b == a;
    } else {
      assert (a + b)[..|a + b| - 1] == a + b[..|b| - 1];
      FoldConcat(next, q, a, b[..|b| - 1]);
    }
  }

  /** Acts that an observer ignores leave it where it was. */
  lemma {:induction false} FoldIgnores<Q>(next: (Q, Act) -> Q, q: Q, log: seq<Act>)
    requires forall a :: a in log ==> next(q, a) == q
    ensures Fold(next, q, log) == q
  {
    if log != [] {
      FoldIgnores(next, q, log[..|log| - 1]);
    }
  }

  /** Any way of interleaving two records, each keeping its own order: the scheduler picks the
      second where the pattern says so, until one of them is exhausted. */
  function Merge(a: seq<Act>, b: seq<Act>, pattern: seq<bool>): seq<Act>
    decreases |a| + |b|
  {
    if a == [] then b
    else if b == [] then a
    else if pattern != [] && pattern[0] then [b[0]] + Merge(a, b[1..], pattern[1..])
    else [a[0]] + Merge(a[1..], b, if pattern == [] then [] else pattern[1..])
  }

  lemma FoldCons<Q>(next: (Q, Act) -> Q, q: Q, a: Act, log: seq<Act>)
    ensures Fold(next, q, [a] + log) == Fold(next, next(q, a), log)
  {
    FoldConcat(next, q, [a], log);
    assert [a][..0] == [];
    assert Fold(next, q, [a]) == next(q, a);
  }

  /** An observer who ignores one of the two records sees only the other. */
  lemma {:induction false} FoldMerge<Q(!new)>(
    next: (Q, Act) -> Q, q: Q, a: seq<Act>, b: seq<Act>, pattern: seq<bool>)
    ensures (forall x, p :: x in b ==> next(p, x) == p) ==>
              Fold(next, q, Merge(a, b, pattern)) == Fold(next, q, a)
    ensures (forall x, p :: x in a ==> next(p, x) == p) ==>
              Fold(next, q, Merge(a, b, pattern)) == Fold(next, q, b)
    decreases |a| + |b|
  {
    if a == [] || b == [] {
      if forall x, p :: x in b ==> next(p, x) == p {
        FoldIgnores(next, q, b);
      }
      if forall x, p :: x in a ==> next(p, x) == p {
        FoldIgnores(next, q, a);
      }
    } else if pattern != [] && pattern[0] {
      FoldCons(next, q, b[0], Merge(a, b[1..], pattern[1..]));
      FoldCons(next, q, b[0], b[1..]);
      assert b == [b[0]] + b[1..];
      FoldMerge(next, next(q, b[0]), a, b[1..], pattern[1..]);
    } else {
      var rest := if pattern == [] then [] else pattern[1..];
      FoldCons(next, q, a[0], Merge(a[1..], b, rest));
      FoldCons(next, q, a[0], a[1..]);
      assert a == [a[0]] + a[1..];
      FoldMerge(next, next(q, a[0]), a[1..], b, rest);
    }
  }
}
