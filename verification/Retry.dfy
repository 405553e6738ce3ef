/** How often a check asks the server, and how long it waits in between: the request loop in closed
    form, as a function of the replies alone. */
module Retry {
  import opened Wrappers
  import opened MachineInts
  import opened Clock
  import opened Protocol
  import opened Storage
  import opened CheckContext
  import opened AppSet
  import opened RequestBuilder
  import opened Trace
  import opened UpdateFlow
  import opened Observers
  import Text

  /** What a reply amounts to: a verified response is a success when its status is in the two hundreds. */
  function ResultFor(reply: Reply): RequestResult {
    match reply
    case BuildFailed(JsonFails) => Failure(JsonError)
    case BuildFailed(HttpFails) => Failure(HttpBuilderError)
    case BuildFailed(CupFails) => Failure(CupDecorationError)
    case TransportFailed(user) => Failure(HttpTransport(user))
    case Responded(cupValid, status, _, body) =>
      if !cupValid then Failure(CupValidationError)
      else if status < 200 || status >= 300 then Failure(HttpStatus(status))
      else Success(body)
  }

  /** The interval that a header dictates: its number of seconds, but at most a day. */
  function Dictated(header: Option<string>): Option<Duration> {
    match header
    case None => None
    case Some(text) =>
      match Text.ParseUnsigned(text, 0xFFFF_FFFF_FFFF_FFFF)
      case None => None
      case Some(seconds) => Some(1_000_000_000 * if seconds > 86400 then 86400 else seconds)
  }

  /** A number of seconds is the interval, cut to a day; a number of more than 64 bits is none. */
  lemma DictatedSeconds(seconds: nat)
    ensures Dictated(Some(Text.PrintNat(seconds))) ==
            if seconds <= 86400 then Some(seconds * 1_000_000_000)
            else if seconds < 0x1_0000_0000_0000_0000 then Some(86_400_000_000_000)
            else None
  {
    Text.ParsePrinted(seconds, 0xFFFF_FFFF_FFFF_FFFF);
  }

  /** There is no interval exactly when there is no header, or it is no numeral of 64 bits. */
  lemma DictatedUnlessNoNumeral(header: Option<string>)
    ensures Dictated(header).None? <==>
            header.None? || forall n :: n < 0x1_0000_0000_0000_0000 ==> !Text.IsNumeral(header.value, n)
  {
    if header.Some? {
      forall n: nat
        ensures Text.ParseUnsigned(header.value, 0xFFFF_FFFF_FFFF_FFFF) == Some(n)
                <==> n <= 0xFFFF_FFFF_FFFF_FFFF && Text.IsNumeral(header.value, n)
      {
        Text.ParseUnsignedMeans(header.value, 0xFFFF_FFFF_FFFF_FFFF, n);
      }
    }
  }

  lemma HeaderIsHeeded(header: Option<string>)
    ensures ParseRetryAfter(header) == Dictated(header)
  {
  }

  /** Only a verified response says anything about the poll interval, and it always does. */
  function PollAfter(poll: Option<Duration>, reply: Reply): Option<Duration> {
    if reply.Responded? && reply.cupValid then Dictated(reply.retryAfter) else poll
  }

  function PollBefore(poll: Option<Duration>, a: Attempts, k: nat): Option<Duration> {
    if k <= 1 then poll else PollAfter(PollBefore(poll, a, k - 1), a.At(k - 1).request.reply)
  }

  /** The failures that another attempt might cure. */
  predicate Transient(reply: Reply) {
    || (reply.TransportFailed? && !reply.user)
    || (reply.Responded? && reply.cupValid && (reply.status < 200 || reply.status >= 300))
  }

  /** Whether attempt `k` is followed by another, with this interval in force before the first. */
  predicate Continues(poll: Option<Duration>, a: Attempts, k: nat) {
    && k < 3
    && Transient(a.At(k).request.reply)
    && PollBefore(poll, a, k + 1).None?
  }

  /** The last attempt is the first that nothing follows. */
  predicate StopsAt(poll: Option<Duration>, a: Attempts, n: nat) {
    && 1 <= n <= 3
    && (forall k :: 1 <= k < n ==> Continues(poll, a, k))
    && !Continues(poll, a, n)
  }

  /** What an observer of the traffic notices. */
  predicate OfTraffic(a: Act) {
    || (a.Sent? && a.sentFor.ForCheck?)
    || (a.Waited? && a.wait.Backoff?)
    || (a.Report? && a.metrics.RequestsPerCheck?)
  }

  function Notice(seen: seq<Act>, a: Act): seq<Act> {
    if OfTraffic(a) then seen + [a] else seen
  }

  /** The request of attempt `k`; of all its fields only the request id depends on the attempt. */
  function RequestAt(env: Env, params: RequestParams, ops: seq<Op>, i: CheckInput, k: nat): Intermediate {
    RequestOf(env, params, ops, i.sessionId, i.attempts.At(k).request.requestId)
  }

  /** A request that cannot be built is not sent. */
  function Sending(env: Env, params: RequestParams, ops: seq<Op>, i: CheckInput, k: nat): seq<Act> {
    if i.attempts.At(k).request.reply.BuildFailed? then []
    else [Sent(ForCheck, RequestAt(env, params, ops, i, k))]
  }

  function Pause(i: CheckInput, k: nat): Act
    requires k >= 1
  {
    Waited(Backoff(BackoffMillis(k, i.attempts.At(k).random)))
  }

  /** Attempts `k` to `n`, with the pauses between them. */
  function Script(env: Env, params: RequestParams, ops: seq<Op>, i: CheckInput, k: nat, n: nat): seq<Act>
    requires 1 <= k <= n
    decreases n - k
  {
    Sending(env, params, ops, i, k) +
    if k == n then [] else [Pause(i, k)] + Script(env, params, ops, i, k + 1, n)
  }

  lemma NotePollIntervalSets(w: World, poll: Option<Duration>, faults: Faults)
    ensures NotePollInterval(w, poll, faults).context.state.serverDictatedPollInterval == poll
  {
  }

  /** What a request does, read off its reply alone: how it ends, the interval in force after it, and every
      act on the way; a change of the interval is announced and committed before the request ends. */
  lemma RequestConcludes(w: World, purpose: Purpose, request: Intermediate, input: RequestInput)
    ensures var s := DoRequest(w, purpose, request, input);
            var poll := PollAfter(w.context.state.serverDictatedPollInterval, input.reply);
            && s.value == ResultFor(input.reply)
            && s.world.context == w.context.(state := w.context.state.(serverDictatedPollInterval := poll))
            && s.world.apps == w.apps
            && s.world.log ==
               w.log + (if input.reply.BuildFailed? then [] else [Sent(purpose, request)])
               + (if poll == w.context.state.serverDictatedPollInterval then []
                  else [Yield(ProtocolStateChange(s.world.context.state))]
                       + if input.faults.commit then [] else [Committed(s.world.store.durable)])
               + [Concluded(purpose, ResultFor(input.reply))]
  {
    hide ParseRetryAfter, Dictated, PersistContext;
    if input.reply.Responded? {
      HeaderIsHeeded(input.reply.retryAfter);
    }
  }

  lemma RequestNoticed(
    q: seq<Act>, w: World, purpose: Purpose, request: Intermediate, input: RequestInput)
    ensures var s := DoRequest(w, purpose, request, input);
            && s.value == ResultFor(input.reply)
            && s.world.context.state.serverDictatedPollInterval
               == PollAfter(w.context.state.serverDictatedPollInterval, input.reply)
            && Fold(Notice, q, s.world.log) == Fold(Notice, q, w.log)
               + if purpose.ForCheck? && !input.reply.BuildFailed? then [Sent(purpose, request)] else []
  {
    hide Fold, NotePollInterval, ParseRetryAfter, Dictated;
    EmitFolds(Notice, q);
    match input.reply {
      case Responded(_, _, retryAfter, _) =>
        HeaderIsHeeded(retryAfter);
        var poll := ParseRetryAfter(retryAfter);
        NotePollIntervalSets(Emit(w, Sent(purpose, request)), poll, input.faults);
        NotePollIntervalUnseen(Notice, q, Emit(w, Sent(purpose, request)), poll, input.faults);
      case _ =>
    }
  }

  lemma AttemptNoticed(
    q: seq<Act>, env: Env, w: World, params: RequestParams, ops: seq<Op>, i: CheckInput, k: nat)
    ensures var s := Attempt(env, w, params, ops, i, k);
            var reply := i.attempts.At(k).request.reply;
            && s.value == ResultFor(reply)
            && s.world.context.state.serverDictatedPollInterval
               == PollAfter(w.context.state.serverDictatedPollInterval, reply)
            && Fold(Notice, q, s.world.log) == Fold(Notice, q, w.log) + Sending(env, params, ops, i, k)
  {
    hide Fold, DoRequest, RequestOf, ResultFor, PollAfter;
    EmitFolds(Notice, q);
    RequestNoticed(q, w, ForCheck, RequestAt(env, params, ops, i, k), i.attempts.At(k).request);
  }

  /** The loop from attempt `k` on, when `poll` was in force before the first. */
  lemma {:induction false} AttemptsFollowScript(
    q: seq<Act>, env: Env, w: World, params: RequestParams, ops: seq<Op>, i: CheckInput, k: nat,
    poll: Option<Duration>)
    requires 1 <= k <= MAX_OMAHA_REQUEST_ATTEMPTS
    requires forall j :: 1 <= j < k ==> Continues(poll, i.attempts, j)
    requires w.context.state.serverDictatedPollInterval == PollBefore(poll, i.attempts, k)
    ensures var s := AttemptLoop(env, w, params, ops, i, k);
            && s.value.0 >= k && StopsAt(poll, i.attempts, s.value.0)
            && s.value.1 == ResultFor(i.attempts.At(s.value.0).request.reply)
            && Fold(Notice, q, s.world.log) == Fold(Notice, q, w.log) + Script(env, params, ops, i, k, s.value.0)
    decreases MAX_OMAHA_REQUEST_ATTEMPTS - k
  {
    hide Fold, Attempt, BackoffMillis, Sending, PollAfter;
    EmitFolds(Notice, q);
    AttemptNoticed(q, env, w, params, ops, i, k);
    var s := Attempt(env, w, params, ops, i, k);
    if Retries(s.value, k, s.world.context.state.serverDictatedPollInterval) {
      AttemptsFollowScript(q, env, Emit(s.world, Pause(i, k)), params, ops, i, k + 1, poll);
    }
  }

  /** What the traffic of a check looks like when its last attempt is number `n`. */
  function TrafficOf(env: Env, params: RequestParams, ops: seq<Op>, i: CheckInput, n: nat): seq<Act>
    requires n >= 1
  {
    Script(env, params, ops, i, 1, n) +
    [Report(RequestsPerCheck(n, ResultFor(i.attempts.At(n).request.reply).Success?))]
  }

  lemma HandlingUnnoticed(seen: seq<Act>, apps: seq<App>, foreign: map<string, Value>)
    ensures IgnoresHandling(Notice, seen, apps, foreign) && IgnoresReporting(Notice, seen, apps, foreign)
  {
  }

  lemma PerformFollowsScript(
    q: seq<Act>, env: Env, w: World, params: RequestParams, apps: seq<App>, i: CheckInput, n: nat)
    requires StopsAt(w.context.state.serverDictatedPollInterval, i.attempts, n)
    ensures var s := PerformUpdateCheck(env, w, params, apps, i);
            Fold(Notice, q, s.world.log) == Fold(Notice, q, w.log) + TrafficOf(env, params, CheckOps(apps), i, n)
  {
    hide Fold, AttemptLoop, HandleResponse, ReportEvent, CheckOps, NoVersions, Script, ResultFor, Continues;
    EmitFolds(Notice, q);
    var poll := w.context.state.serverDictatedPollInterval;
    var w1 := Emit(w, ChangeTo(CheckingForUpdates(params.source)));
    var w2 := ReportCheckInterval(w1, i.checkTime, params.source);
    AttemptsFollowScript(q, env, w2, params, CheckOps(apps), i, 1, poll);
    var s := AttemptLoop(env, w2, params, CheckOps(apps), i, 1);
    LastAttemptIsUnique(poll, i.attempts, s.value.0, n);
    var w3 := Emit(s.world, Report(RequestsPerCheck(s.value.0, s.value.1.Success?)));
    HandlingUnnoticed(Fold(Notice, q, w3.log), apps, Foreign(w3));
    HandlingUnnoticed(Fold(Notice, q, Emit(w3, ChangeTo(ErrorCheckingForUpdate)).log), apps, Foreign(w3));
    match s.value.1 {
      case Failure(_) =>
      case Success(Malformed) =>
        var w4 := Emit(w3, ChangeTo(ErrorCheckingForUpdate));
        ReportEventUnseen(Notice, q, env, w4, params, ErrorEvent(ParseResponse), apps, i.sessionId,
                          NoVersions(apps), None, i.events.first);
      case Success(Parsed(r)) =>
        HandleResponseUnseen(Notice, q, env, w3, params, apps, r, i);
    }
  }

  lemma LastAttemptIsUnique(poll: Option<Duration>, a: Attempts, n: nat, m: nat)
    requires StopsAt(poll, a, n) && StopsAt(poll, a, m)
    ensures n == m
  {
    hide Continues;
    assert !(n < m) && !(m < n);
  }

  lemma TakeResultUnnoticed(q: seq<Act>, w: World, r: Performed, i: CheckInput)
    ensures Fold(Notice, q, TakeResult(w, r, i).log) == Fold(Notice, q, w.log)
  {
    hide Fold, InstallVerdict, UpdateApps, WrapI64, WrapU32, WrapU64, ReasonOf;
    EmitFolds(Notice, q);
  }

  /** The whole traffic of a check, told from the poll interval before it and the replies: a request
      for each attempt up to the first that nothing follows, a pause between any two, and then the
      number of attempts. */
  lemma CheckFollowsScript(env: Env, w: World, params: RequestParams, i: CheckInput, n: nat)
    requires w.log == [] && StopsAt(w.context.state.serverDictatedPollInterval, i.attempts, n)
    ensures Fold(Notice, [], StartUpdateCheck(env, w, params, i).world.log)
         == TrafficOf(env, params, CheckOps(w.apps), i, n)
  {
    hide Fold, PerformUpdateCheck, TakeResult, PersistData, TrafficOf, StopsAt, CheckOps;
    EmitFolds(Notice, []);
    FoldEmpty(Notice, []);
    PerformFollowsScript([], env, w, params, w.apps, i, n);
    var s := PerformUpdateCheck(env, w, params, w.apps, i);
    TakeResultUnnoticed([], s.world, s.value, i);
    var w1 := TakeResult(s.world, s.value, i);
    PersistDataUnseen(Notice, [], env, Announce(w1, ResultOf(s.value)), i.persistFaults);
  }

  /** There always is a last attempt, so the loop ends after at most three requests. */
  lemma SomeAttemptIsLast(poll: Option<Duration>, a: Attempts) returns (n: nat)
    ensures StopsAt(poll, a, n)
  {
    n := if !Continues(poll, a, 1) then 1 else if !Continues(poll, a, 2) then 2 else 3;
  }

  function CountSent(acts: seq<Act>): nat {
    if acts == [] then 0 else (if acts[0].Sent? then 1 else 0) + CountSent(acts[1..])
  }

  /** The metric counts attempts.  It is the number of requests sent exactly when the last of them
      could be built, and otherwise one more. */
  lemma {:induction false} RequestsSent(
    env: Env, params: RequestParams, ops: seq<Op>, i: CheckInput, poll: Option<Duration>, k: nat, n: nat)
    requires StopsAt(poll, i.attempts, n) && 1 <= k <= n
    ensures CountSent(Script(env, params, ops, i, k, n)) ==
            n + 1 - k - if i.attempts.At(n).request.reply.BuildFailed? then 1 else 0
    decreases n - k
  {
    hide RequestOf, BackoffMillis, PollBefore;
    var rest := if k == n then [] else [Pause(i, k)] + Script(env, params, ops, i, k + 1, n);
    var script := Script(env, params, ops, i, k, n);
    if k < n {
      RequestsSent(env, params, ops, i, poll, k + 1, n);
      assert Continues(poll, i.attempts, k);
      assert script[1..] == rest && rest[1..] == Script(env, params, ops, i, k + 1, n);
    } else if !i.attempts.At(n).request.reply.BuildFailed? {
      assert script[1..] == [];
    }
  }

  /** The pause after the first attempt lasts half a second to one and a half, that after the second one and
      a half to two and a half, as the random number says. */
  predicate PauseFor(i: CheckInput, j: nat, pause: Act) {
    pause == Waited(Backoff((if j == 1 then 500 else 1500) + i.attempts.At(j).random % 1000))
  }

  /** Attempt `k + 1` is preceded by a pause around a second, doubled each time; as there are three
      attempts at most, the third pause, of four seconds, never comes. */
  lemma {:induction false} PausesDouble(
    env: Env, params: RequestParams, ops: seq<Op>, i: CheckInput, k: nat, n: nat, m: nat)
    requires 1 <= k <= n <= MAX_OMAHA_REQUEST_ATTEMPTS
    requires m < |Script(env, params, ops, i, k, n)| && Script(env, params, ops, i, k, n)[m].Waited?
    ensures var pause := Script(env, params, ops, i, k, n)[m];
            exists j :: k <= j < n && j <= 2 && PauseFor(i, j, pause)
    decreases n - k
  {
    hide RequestOf;
    var first := Sending(env, params, ops, i, k);
    if k < n {
      assert ShiftOne(0) == 1 && ShiftOne(1) == 2;
      assert PauseFor(i, k, Pause(i, k));
      if m > |first| {
        var rest := Script(env, params, ops, i, k + 1, n);
        assert Script(env, params, ops, i, k, n) == first + [Pause(i, k)] + rest;
        assert Script(env, params, ops, i, k, n)[m] == rest[m - |first| - 1];
        PausesDouble(env, params, ops, i, k + 1, n, m - |first| - 1);
      } else {
        assert Script(env, params, ops, i, k, n)[m] == Pause(i, k);
      }
    }
  }
}
