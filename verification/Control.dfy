/** Control requests: each is answered once, by what the client was doing, and raises the running
    cycle to on demand. */
module Control {
  import opened Wrappers
  import opened Protocol
  import opened Storage
  import opened CheckContext
  import opened Trace
  import opened UpdateFlow
  import opened ClientRun
  import opened Observers

  datatype Phase = Waiting | Decided(positive: bool) | Busy

  /** `pending`: a request was received and not yet answered.  `onDemand`: the cycle was begun by an
      on-demand request, or one has been received in it. */
  datatype Desk = Desk(phase: Phase, pending: bool, onDemand: bool) | Violated

  const OPEN := Desk(Waiting, false, false)

  function NextDesk(d: Desk, a: Act): Desk {
    if d.Violated? then d
    else
      match a
      case Received(options) =>
        if d.pending || d.phase.Decided? then Violated
        else d.(pending := true, onDemand := d.onDemand || options.source.OnDemand?)
      case Query(UpdateCheckAllowed(options, decision)) =>
        if d.phase != Waiting || options.source.OnDemand? != d.onDemand then Violated
        else if d.pending then d.(phase := Decided(Positive(decision)))
        else if Positive(decision) then d.(phase := Busy) else OPEN
      case Replied(response) =>
        if !d.pending then Violated
        else
          (match d.phase
           case Waiting => Violated
           case Decided(positive) =>
             if response != (if positive then Started else Throttled) then Violated
             else if positive then Desk(Busy, false, d.onDemand) else OPEN
           case Busy => if response == AlreadyRunning then d.(pending := false) else Violated)
      case Query(RebootAllowed(options, _, _)) =>
        if d.phase != Busy || d.pending || options.source.OnDemand? != d.onDemand then Violated else d
      case Yield(StateChange(Idle)) =>
        if d.phase != Busy || d.pending then Violated else OPEN
      case _ => d
  }

  ghost function Watch(log: seq<Act>): Desk {
    Fold(NextDesk, OPEN, log)
  }

  predicate BusyWith(d: Desk, options: CheckOptions) {
    d == Desk(Busy, false, options.source.OnDemand?)
  }

  lemma {:induction false} ServedKeepsTheDesk(d: Desk, options: CheckOptions, arrivals: seq<CheckOptions>)
    requires BusyWith(d, options)
    ensures BusyWith(Fold(NextDesk, d, Served(arrivals)), Upgraded(options, arrivals))
  {
    hide Fold;
    FoldEmpty(NextDesk, d);
    if arrivals != [] {
      var before, last := arrivals[..|arrivals| - 1], arrivals[|arrivals| - 1];
      ServedKeepsTheDesk(d, options, before);
      var w := World(Context(UpdateCheckSchedule(None, None, None), ProtocolState(None, 0, 0)),
                     Store(map[], map[]), [], Served(before));
      EmitFolds(NextDesk, d);
      assert Served(arrivals) == Emit(Emit(w, Received(last)), Replied(AlreadyRunning)).log;
    }
  }

  lemma CheckKeepsTheDesk(
    env: Env, d: Desk, w: World, params: RequestParams, options: CheckOptions, c: CycleInput)
    requires BusyWith(Fold(NextDesk, d, w.log), options)
    ensures BusyWith(Fold(NextDesk, d, CheckWhileServing(env, w, params, c).world.log), Upgraded(options, c.arrivals))
  {
    hide StartUpdateCheck, Served, Upgraded, Merge;
    var now := Fold(NextDesk, d, w.log);
    var check := StartUpdateCheck(env, w.(log := []), params, c.check).world.log;
    CheckShowsOnlyChecks(env, w.(log := []), params, c.check);
    FoldMerge(NextDesk, now, check, Served(c.arrivals), c.pattern);
    FoldConcat(NextDesk, d, w.log, Merge(check, Served(c.arrivals), c.pattern));
    ServedKeepsTheDesk(now, options, c.arrivals);
  }

  lemma NextTimeKeepsTheDesk(d: Desk, w: World, timing: CheckTiming)
    ensures Fold(NextDesk, d, UpdateNextUpdateTime(w, timing).log) == Fold(NextDesk, d, w.log)
  {
    hide Fold;
    EmitFolds(NextDesk, d);
  }

  lemma RebootRoundKeepsTheDesk(
    env: Env, d: Desk, w: World, options: CheckOptions, installed: InstallResult, step: RebootStep)
    requires BusyWith(Fold(NextDesk, d, w.log), options)
    ensures var r := RebootRound(env, w, options, installed, step);
            BusyWith(Fold(NextDesk, d, r.world.log), r.options)
  {
    hide Fold, PingOmaha, UpdateNextUpdateTime;
    EmitFolds(NextDesk, d);
    if step.PingDue? {
      PingUnseen(NextDesk, d, env, w, step.ping);
      NextTimeKeepsTheDesk(d, PingOmaha(env, w, step.ping), step.timing);
    }
  }

  lemma {:induction false} RebootLoopKeepsTheDesk(
    env: Env, d: Desk, w: World, options: CheckOptions, installed: InstallResult, steps: seq<RebootStep>)
    requires BusyWith(Fold(NextDesk, d, w.log), options)
    ensures var after := Fold(NextDesk, d, RebootLoop(env, w, options, installed, steps).world.log);
            after.Desk? && after.phase == Busy && !after.pending
    decreases |steps|
  {
    hide Fold, RebootRound;
    if steps != [] {
      RebootRoundKeepsTheDesk(env, d, w, options, installed, steps[0]);
      var r := RebootRound(env, w, options, installed, steps[0]);
      if r.allowed {
        EmitFolds(NextDesk, d);
      } else {
        RebootLoopKeepsTheDesk(env, d, r.world, r.options, installed, steps[1..]);
      }
    }
  }

  lemma WaitForRebootKeepsTheDesk(
    env: Env, d: Desk, w: World, options: CheckOptions, installed: InstallResult, r: RebootInput)
    requires BusyWith(Fold(NextDesk, d, w.log), options)
    ensures var after := Fold(NextDesk, d, WaitForReboot(env, w, options, installed, r).world.log);
            after.Desk? && after.phase == Busy && !after.pending
  {
    hide Fold, RebootLoop, UpdateNextUpdateTime;
    EmitFolds(NextDesk, d);
    if !r.allowedAtOnce {
      var w1 := Emit(w, Query(RebootAllowed(options, installed, r.allowedAtOnce)));
      var w2 := Emit(w1, Waited(ForReboot(CHECK_REBOOT_ALLOWED_INTERVAL)));
      NextTimeKeepsTheDesk(d, w2, r.timing);
      RebootLoopKeepsTheDesk(env, d, UpdateNextUpdateTime(w2, r.timing), options, installed, r.steps);
    }
  }

  lemma ReportWaitKeepsTheDesk(d: Desk, dr: Driver, start: int, c: CycleInput)
    ensures Fold(NextDesk, d, TryReportWait(dr, start, c).world.log) == Fold(NextDesk, d, dr.world.log)
  {
    hide Fold;
    EmitFolds(NextDesk, d);
  }

  /** Where a record may stop: between two turns, or in the middle of waiting for a reboot. */
  predicate Quiet(d: Desk, halted: bool) {
    if halted then d.Desk? && d.phase == Busy && !d.pending else d == OPEN
  }

  lemma AwaitCheckKeepsTheDesk(d: Desk, w: World, c: CycleInput)
    requires Fold(NextDesk, d, w.log) == OPEN
    ensures var after := Fold(NextDesk, d, AwaitCheck(w, c).log);
            if Positive(c.decision) then BusyWith(after, OptionsOf(c.wake)) else after == OPEN
  {
    hide Fold, UpdateNextUpdateTime;
    EmitFolds(NextDesk, d);
    NextTimeKeepsTheDesk(d, w, c.timing);
  }

  lemma CheckAndRebootKeepsTheDesk(env: Env, d: Desk, w: World, c: CycleInput)
    requires Positive(c.decision) && BusyWith(Fold(NextDesk, d, w.log), OptionsOf(c.wake))
    ensures var s := CheckAndReboot(env, w, c);
            Quiet(Fold(NextDesk, d, s.world.log), !s.value)
  {
    hide Fold, CheckWhileServing, WaitForReboot, Upgraded;
    EmitFolds(NextDesk, d);
    var options := Upgraded(OptionsOf(c.wake), c.arrivals);
    CheckKeepsTheDesk(env, d, w, c.decision.params, OptionsOf(c.wake), c);
    var s := CheckWhileServing(env, w, c.decision.params, c);
    if s.value.Needed? {
      var w1 := Emit(s.world, ChangeTo(WaitingForReboot));
      WaitForRebootKeepsTheDesk(env, d, w1, options, s.value.installResult, c.reboot);
    }
  }

  lemma CycleKeepsTheDesk(env: Env, dr: Driver, start: int, c: CycleInput)
    requires Fold(NextDesk, OPEN, dr.world.log) == OPEN && !dr.halted
    ensures var after := RunCycle(env, dr, start, c);
            Quiet(Fold(NextDesk, OPEN, after.world.log), after.halted)
  {
    hide AwaitCheck, CheckAndReboot;
    ReportWaitKeepsTheDesk(OPEN, dr, start, c);
    var d1 := TryReportWait(dr, start, c);
    AwaitCheckKeepsTheDesk(OPEN, d1.world, c);
    if Positive(c.decision) {
      CheckAndRebootKeepsTheDesk(env, OPEN, AwaitCheck(d1.world, c), c);
    }
  }

  lemma {:induction false} RunKeepsTheDesk(env: Env, dr: Driver, start: int, cycles: seq<CycleInput>)
    requires Quiet(Fold(NextDesk, OPEN, dr.world.log), dr.halted)
    ensures var after := RunCycles(env, dr, start, cycles);
            Quiet(Fold(NextDesk, OPEN, after.world.log), after.halted)
    decreases |cycles|
  {
    hide RunCycle;
    if cycles != [] && !dr.halted {
      CycleKeepsTheDesk(env, dr, start, cycles[0]);
      RunKeepsTheDesk(env, RunCycle(env, dr, start, cycles[0]), start, cycles[1..]);
    }
  }

  /** In every run, whatever the schedule, requests are answered one by one, Started or Throttled
      as the policy decided when idle and AlreadyRunning otherwise, and every question whether to
      reboot carries on demand exactly when the cycle is one. */
  lemma EveryRunServesItsRequests(env: Env, dr: Driver, start: int, cycles: seq<CycleInput>)
    requires dr.world.log == [] && !dr.halted
    ensures var after := RunCycles(env, dr, start, cycles);
            Quiet(Watch(after.world.log), after.halted)
    ensures var log := RunCycles(env, dr, start, cycles).world.log;
            CountReceived(log) == CountReplied(log)
  {
    hide RunCycles;
    RunKeepsTheDesk(env, dr, start, cycles);
    var log := RunCycles(env, dr, start, cycles).world.log;
    RepliesMatchRequests(log);
  }

  function CountReceived(log: seq<Act>): nat {
    if log == [] then 0
    else CountReceived(log[..|log| - 1]) + if log[|log| - 1].Received? then 1 else 0
  }

  function CountReplied(log: seq<Act>): nat {
    if log == [] then 0
    else CountReplied(log[..|log| - 1]) + if log[|log| - 1].Replied? then 1 else 0
  }

  /** A record that keeps the rules has one reply per request, apart from the one under way. */
  lemma {:induction false} RepliesMatchRequests(log: seq<Act>)
    requires Watch(log).Desk?
    ensures CountReceived(log) == CountReplied(log) + if Watch(log).pending then 1 else 0
  {
    if log != [] {
      RepliesMatchRequests(log[..|log| - 1]);
    }
  }

  function LastCheckQuery(log: seq<Act>): Option<CheckOptions> {
    if log == [] then None
    else
      match log[|log| - 1]
      case Query(UpdateCheckAllowed(options, _)) => Some(options)
      case _ => LastCheckQuery(log[..|log| - 1])
  }

  predicate ReceivedOnDemandSinceCheckQuery(log: seq<Act>) {
    if log == [] then false
    else
      match log[|log| - 1]
      case Query(UpdateCheckAllowed(_, _)) => false
      case Received(options) => options.source.OnDemand? || ReceivedOnDemandSinceCheckQuery(log[..|log| - 1])
      case _ => ReceivedOnDemandSinceCheckQuery(log[..|log| - 1])
  }

  predicate CycleOnDemand(log: seq<Act>) {
    (LastCheckQuery(log).Some? && LastCheckQuery(log).value.source.OnDemand?) || ReceivedOnDemandSinceCheckQuery(log)
  }

  lemma {:induction false} DeskKnowsOnDemand(log: seq<Act>)
    requires Watch(log).Desk? && Watch(log).phase == Busy
    ensures Watch(log).onDemand == CycleOnDemand(log)
  {
    var before, last := log[..|log| - 1], log[|log| - 1];
    if Watch(before).phase == Busy {
      DeskKnowsOnDemand(before);
    } else if last.Replied? {
      DeskDecidedOnDemand(before);
    }
  }

  lemma {:induction false} DeskDecidedOnDemand(log: seq<Act>)
    requires Watch(log).Desk? && Watch(log).phase.Decided?
    ensures Watch(log).onDemand == CycleOnDemand(log)
  {
    var before, last := log[..|log| - 1], log[|log| - 1];
    if Watch(before).phase.Decided? {
      DeskDecidedOnDemand(before);
    }
  }

  /** Read off the record itself: a question whether to reboot says on demand exactly when the last
      check was asked for on demand or an on-demand request has been received since. */
  lemma RebootQueriesCarryOnDemand(log: seq<Act>, n: nat)
    requires Watch(log).Desk? && n < |log|
    requires log[n].Query? && log[n].query.RebootAllowed?
    ensures log[n].query.rebootOptions.source.OnDemand? == CycleOnDemand(log[..n])
  {
    WatchPrefix(log, n + 1);
    assert log[..n + 1][..n] == log[..n];
    DeskKnowsOnDemand(log[..n]);
  }

  lemma {:induction false} WatchPrefix(log: seq<Act>, n: nat)
    requires Watch(log).Desk? && n <= |log|
    ensures Watch(log[..n]).Desk?
  {
    if n < |log| {
      assert log[..|log| - 1][..n] == log[..n];
      WatchPrefix(log[..|log| - 1], n);
    } else {
      assert log[..n] == log;
    }
  }

  // No request is lost

  function Hear(heard: seq<CheckOptions>, a: Act): seq<CheckOptions> {
    if a.Received? then heard + [a.options] else heard
  }

  predicate StepAllows(step: RebootStep) {
    match step
    case RecheckDue(allowed) => allowed
    case PingDue(_, _) => false
    case AskedToCheck(asked, allowed) => asked.source.OnDemand? && allowed
  }

  /** With the requests made while waiting for a reboot, up to the step that allows it. */
  function WithAsked(heard: seq<CheckOptions>, steps: seq<RebootStep>): seq<CheckOptions>
    decreases |steps|
  {
    if steps == [] then heard
    else
      var h := if steps[0].AskedToCheck? then heard + [steps[0].options] else heard;
      if StepAllows(steps[0]) then h else WithAsked(h, steps[1..])
  }

  /** With the requests made in one turn: the one that woke the client, those that came during the
      check, and those that came during the wait for a reboot. */
  function WithAskedInCycle(heard: seq<CheckOptions>, c: CycleInput, needed: bool): seq<CheckOptions> {
    var woken := heard + if c.wake.Requested? then [c.wake.options] else [];
    if !Positive(c.decision) then woken
    else if needed && !c.reboot.allowedAtOnce then WithAsked(woken + c.arrivals, c.reboot.steps)
    else woken + c.arrivals
  }

  lemma {:induction false} ServedAreHeard(heard: seq<CheckOptions>, arrivals: seq<CheckOptions>)
    ensures Fold(Hear, heard, Served(arrivals)) == heard + arrivals
  {
    if arrivals == [] {
      FoldEmpty(Hear, heard);
    } else {
      var before, last := arrivals[..|arrivals| - 1], arrivals[|arrivals| - 1];
      ServedAreHeard(heard, before);
      FoldConcat(Hear, heard, Served(before), [Received(last), Replied(AlreadyRunning)]);
      FoldCons(Hear, heard + before, Received(last), [Replied(AlreadyRunning)]);
      FoldCons(Hear, heard + before + [last], Replied(AlreadyRunning), []);
      assert [Received(last)] + [Replied(AlreadyRunning)] == [Received(last), Replied(AlreadyRunning)];
      assert [Replied(AlreadyRunning)] + [] == [Replied(AlreadyRunning)];
    }
  }

  lemma CheckHears(heard: seq<CheckOptions>, env: Env, w: World, params: RequestParams, c: CycleInput)
    ensures Fold(Hear, heard, CheckWhileServing(env, w, params, c).world.log) == Fold(Hear, heard, w.log) + c.arrivals
  {
    hide StartUpdateCheck, Served, Merge, Fold;
    var now := Fold(Hear, heard, w.log);
    var check := StartUpdateCheck(env, w.(log := []), params, c.check).world.log;
    CheckShowsOnlyChecks(env, w.(log := []), params, c.check);
    FoldMerge(Hear, now, check, Served(c.arrivals), c.pattern);
    FoldConcat(Hear, heard, w.log, Merge(check, Served(c.arrivals), c.pattern));
    ServedAreHeard(now, c.arrivals);
  }

  lemma RebootRoundHears(
    heard: seq<CheckOptions>, env: Env, w: World, options: CheckOptions, installed: InstallResult, step: RebootStep)
    ensures var r := RebootRound(env, w, options, installed, step);
            var before := Fold(Hear, heard, w.log);
            && Fold(Hear, heard, r.world.log) == (if step.AskedToCheck? then before + [step.options] else before)
            && r.allowed == StepAllows(step)
  {
    hide Fold, PingOmaha, UpdateNextUpdateTime;
    EmitFolds(Hear, heard);
    if step.PingDue? {
      PingUnseen(Hear, heard, env, w, step.ping);
      NextTimeHears(heard, PingOmaha(env, w, step.ping), step.timing);
    }
  }

  lemma {:induction false} RebootLoopHears(
    heard: seq<CheckOptions>, env: Env, w: World, options: CheckOptions, installed: InstallResult,
    steps: seq<RebootStep>)
    ensures Fold(Hear, heard, RebootLoop(env, w, options, installed, steps).world.log)
         == WithAsked(Fold(Hear, heard, w.log), steps)
    decreases |steps|
  {
    hide Fold, RebootRound, StepAllows;
    if steps != [] {
      EmitFolds(Hear, heard);
      RebootRoundHears(heard, env, w, options, installed, steps[0]);
      var r := RebootRound(env, w, options, installed, steps[0]);
      if !r.allowed {
        RebootLoopHears(heard, env, r.world, r.options, installed, steps[1..]);
      }
    }
  }

  lemma WaitForRebootHears(
    heard: seq<CheckOptions>, env: Env, w: World, options: CheckOptions, installed: InstallResult, r: RebootInput)
    ensures Fold(Hear, heard, WaitForReboot(env, w, options, installed, r).world.log)
         == if r.allowedAtOnce then Fold(Hear, heard, w.log) else WithAsked(Fold(Hear, heard, w.log), r.steps)
  {
    hide Fold, RebootLoop, UpdateNextUpdateTime;
    EmitFolds(Hear, heard);
    if !r.allowedAtOnce {
      var w1 := Emit(w, Query(RebootAllowed(options, installed, r.allowedAtOnce)));
      var w2 := Emit(w1, Waited(ForReboot(CHECK_REBOOT_ALLOWED_INTERVAL)));
      NextTimeHears(heard, w2, r.timing);
      RebootLoopHears(heard, env, UpdateNextUpdateTime(w2, r.timing), options, installed, r.steps);
    }
  }

  lemma AwaitCheckHears(heard: seq<CheckOptions>, d: Driver, start: int, c: CycleInput)
    ensures Fold(Hear, heard, AwaitCheck(TryReportWait(d, start, c).world, c).log)
         == Fold(Hear, heard, d.world.log) + if c.wake.Requested? then [c.wake.options] else []
  {
    hide Fold, UpdateNextUpdateTime;
    EmitFolds(Hear, heard);
    NextTimeHears(heard, TryReportWait(d, start, c).world, c.timing);
  }

  /** Every request made during a turn of the loop is received, in the order in which it was made
      within the check and within the wait, and nothing else is. */
  lemma EveryRequestIsReceived(env: Env, d: Driver, start: int, c: CycleInput)
    ensures var w := AwaitCheck(TryReportWait(d, start, c).world, c);
            var needed := Positive(c.decision) && CheckWhileServing(env, w, c.decision.params, c).value.Needed?;
            Fold(Hear, [], RunCycle(env, d, start, c).world.log)
            == WithAskedInCycle(Fold(Hear, [], d.world.log), c, needed)
  {
    hide Fold, CheckWhileServing, WaitForReboot, Upgraded, AwaitCheck, TryReportWait, WithAsked;
    EmitFolds(Hear, []);
    AwaitCheckHears([], d, start, c);
    var w := AwaitCheck(TryReportWait(d, start, c).world, c);
    if Positive(c.decision) {
      CheckHears([], env, w, c.decision.params, c);
      var s := CheckWhileServing(env, w, c.decision.params, c);
      if s.value.Needed? {
        var w1 := Emit(s.world, ChangeTo(WaitingForReboot));
        var options := Upgraded(OptionsOf(c.wake), c.arrivals);
        WaitForRebootHears([], env, w1, options, s.value.installResult, c.reboot);
      }
    }
  }

  lemma NextTimeHears(heard: seq<CheckOptions>, w: World, timing: CheckTiming)
    ensures Fold(Hear, heard, UpdateNextUpdateTime(w, timing).log) == Fold(Hear, heard, w.log)
  {
    hide Fold;
    EmitFolds(Hear, heard);
  }
}
