/** A stream made of a task that yields items through a one-slot channel and then returns. */
module AsyncGenerator {
  import opened Wrappers

  datatype GeneratorState<I, R> = Yielded(item: I) | Complete(result: R)

  datatype Poll<T> = Pending | Ready(value: T)

  type Output<I, R> = Poll<Option<GeneratorState<I, R>>>

  /** What a task does between two points where it may be suspended.  Yielding an item puts it into
      the slot and then waits until it is taken; a yield that was abandoned after the first half is a
      `Put` without its `Drain`. */
  datatype Step<I> =
    | Put(item: I)
    | Drain
    | Pause
    | DropSender

  /** A generator: the steps the task has still to do and what it returns, if it ever does; the slot
      and the two ends of the channel; and the result saved until the stream is drained. */
  datatype State<I, R> = State(
    steps: seq<Step<I>>,
    ends: Option<R>,
    taskLive: bool,
    slot: Option<I>,
    senderOpen: bool,
    streamLive: bool,
    res: Option<R>)
  {
    predicate TaskTerminated() {
      !taskLive
    }

    predicate IsTerminated() {
      !taskLive && !streamLive && res.None?
    }
  }

  function Items<I>(steps: seq<Step<I>>): seq<I> {
    if steps == [] then []
    else (if steps[0].Put? then [steps[0].item] else []) + Items(steps[1..])
  }

  function CountPauses<I>(steps: seq<Step<I>>): nat {
    if steps == [] then 0 else (if steps[0].Pause? then 1 else 0) + CountPauses(steps[1..])
  }

  /** A task that has given up its sender does not yield any more. */
  predicate SoundSteps<I>(steps: seq<Step<I>>, open: bool) {
    if steps == [] then true
    else if steps[0].Put? then open && SoundSteps(steps[1..], open)
    else SoundSteps(steps[1..], open && !steps[0].DropSender?)
  }

  /** `generate`. */
  function Generate<I, R>(steps: seq<Step<I>>, ends: Option<R>): State<I, R> {
    State(steps, ends, true, None, true, true, None)
  }

  /** Running the task until it waits for the slot, pauses or returns. */
  function RunTask<I, R>(s: State<I, R>): State<I, R>
    decreases |s.steps|
  {
    if s.steps == [] then s
    else
      var next := s.(steps := s.steps[1..]);
      match s.steps[0]
      case Put(item) => if s.slot.None? then RunTask(next.(slot := Some(item))) else s
      case Drain => if s.slot.None? then RunTask(next) else s
      case Pause => next
      case DropSender => RunTask(next.(senderOpen := false))
  }

  /** Whether the task, polled in this state, returns: it was not suspended on the way. */
  predicate Returns<I, R>(s: State<I, R>)
    decreases |s.steps|
  {
    if s.steps == [] then s.ends.Some?
    else
      var next := s.(steps := s.steps[1..]);
      match s.steps[0]
      case Put(item) => s.slot.None? && Returns(next.(slot := Some(item)))
      case Drain => s.slot.None? && Returns(next)
      case Pause => false
      case DropSender => Returns(next.(senderOpen := false))
  }

  /** Polling the fused task; a task that returns drops its sender. */
  function PollTask<I, R>(s: State<I, R>): (State<I, R>, Poll<R>) {
    if !s.taskLive then (s, Pending)
    else
      var t := RunTask(s);
      if Returns(s) then (ReturnedSteps(s); (t.(taskLive := false, senderOpen := false), Ready(t.ends.value)))
      else (t, Pending)
  }

  lemma {:induction false} ReturnedSteps<I, R>(s: State<I, R>)
    requires Returns(s)
    ensures RunTask(s).steps == [] && RunTask(s).ends == s.ends && s.ends.Some?
    decreases |s.steps|
  {
    if s.steps != [] {
      var next := s.(steps := s.steps[1..]);
      match s.steps[0] {
        case Put(item) => ReturnedSteps(next.(slot := Some(item)));
        case Drain => ReturnedSteps(next);
        case DropSender => ReturnedSteps(next.(senderOpen := false));
      }
    }
  }

  /** Polling the receiver: the item in the slot, or the end when no sender is left. */
  function PollStream<I, R>(s: State<I, R>): (State<I, R>, Poll<Option<I>>) {
    if s.slot.Some? then (s.(slot := None), Ready(s.slot))
    else if s.senderOpen then (s, Pending)
    else (s.(streamLive := false), Ready(None))
  }

  function Finish<I, R>(s: State<I, R>, taskDone: bool): (State<I, R>, Output<I, R>) {
    if !taskDone then (s, Pending)
    else if s.res.Some? then (s.(res := None), Ready(Some(Complete(s.res.value))))
    else (s, Ready(None))
  }

  /** The task first, to make progress; what it returned is saved, as the stream may not be ready for it. */
  function AfterTask<I, R>(s: State<I, R>): State<I, R> {
    var (t, returned) := PollTask(s);
    if returned.Ready? then t.(res := Some(returned.value)) else t
  }

  /** `poll_next`; the task is done if it was before or has just returned. */
  function Advance<I, R>(s: State<I, R>): (State<I, R>, Output<I, R>) {
    var taskDone := s.TaskTerminated() || PollTask(s).1.Ready?;
    var t := AfterTask(s);
    if !t.streamLive then Finish(t, taskDone)
    else
      var (u, received) := PollStream(t);
      match received
      case Pending => (u, Pending)
      case Ready(Some(item)) => (u, Ready(Some(Yielded(item))))
      case Ready(None) => Finish(u, taskDone)
  }

  class Generator<I, R> {
    var state: State<I, R>

    /** The saved result has its place to itself: the task returns once, into an empty place, and the
        place stays full until the result is given out. */
    ghost predicate Valid()
      reads this
    {
      Sound(state)
    }

    constructor (steps: seq<Step<I>>, ends: Option<R>)
      requires SoundSteps(steps, true)
      ensures Valid() && state == Generate(steps, ends)
    {
      state := Generate(steps, ends);
    }

    method PollNext() returns (output: Output<I, R>)
      requires Valid()
      modifies this
      ensures Valid()
      ensures (state, output) == Advance(old(state))
    {
      AdvanceDelivers(state);
      TaskKeepsDue(state);
      if state.taskLive {
        RunTaskKeepsItems(state);
      }
      var taskDone := state.TaskTerminated();
      var (polled, returned) := PollTask(state);
      state := polled;
      if returned.Ready? {
        assert state.res.None?;
        state := state.(res := Some(returned.value));
        taskDone := true;
      }
      if state.streamLive {
        var (drained, received) := PollStream(state);
        state := drained;
        match received {
          case Pending => return Pending;
          case Ready(Some(item)) => return Ready(Some(Yielded(item)));
          case Ready(None) =>
        }
      }
      if !taskDone {
        return Pending;
      }
      match state.res {
        case Some(result) =>
          state := state.(res := None);
          return Ready(Some(Complete(result)));
        case None =>
          return Ready(None);
      }
    }
  }

  // What a generator owes

  ghost predicate Sound<I, R>(s: State<I, R>) {
    && SoundSteps(s.steps, s.senderOpen)
    && (s.taskLive ==> s.res.None?)
    && (!s.taskLive ==> s.steps == [] && s.ends.Some? && !s.senderOpen)
    && (!s.taskLive && s.streamLive ==> s.res.Some?)
    && (!s.streamLive ==> s.slot.None? && !s.senderOpen)
    && (s.res.Some? ==> s.res == s.ends)
  }

  function Yields<I, R>(items: seq<I>): seq<GeneratorState<I, R>> {
    if items == [] then [] else [Yielded(items[0])] + Yields(items[1..])
  }

  function InSlot<I>(slot: Option<I>): seq<I> {
    if slot.Some? then [slot.value] else []
  }

  function Final<I, R>(result: Option<R>): seq<GeneratorState<I, R>> {
    if result.Some? then [Complete(result.value)] else []
  }

  /** Everything the stream has still to give out. */
  function Due<I, R>(s: State<I, R>): seq<GeneratorState<I, R>> {
    Yields(InSlot(s.slot) + Items(s.steps)) + Final(if s.taskLive then s.ends else s.res)
  }

  /** Running the task moves items into the slot, one at a time, and loses none. */
  lemma {:induction false} RunTaskKeepsItems<I, R>(s: State<I, R>)
    requires SoundSteps(s.steps, s.senderOpen)
    ensures var t := RunTask(s);
            && InSlot(t.slot) + Items(t.steps) == InSlot(s.slot) + Items(s.steps)
            && SoundSteps(t.steps, t.senderOpen)
            && t == s.(steps := t.steps, slot := t.slot, senderOpen := t.senderOpen)
            && (t.senderOpen ==> s.senderOpen)
            && (!s.senderOpen && s.slot.None? ==> t.slot.None?)
            && CountPauses(t.steps) <= CountPauses(s.steps)
            && (!Returns(s) && t.slot.None? && s.ends.Some? ==> CountPauses(t.steps) < CountPauses(s.steps))
    decreases |s.steps|
  {
    if s.steps != [] {
      var next := s.(steps := s.steps[1..]);
      match s.steps[0] {
        case Put(item) =>
          if s.slot.None? {
            RunTaskKeepsItems(next.(slot := Some(item)));
            assert InSlot(s.slot) + Items(s.steps) == InSlot(Some(item)) + Items(s.steps[1..]);
          }
        case Drain =>
          if s.slot.None? {
            RunTaskKeepsItems(next);
          }
        case Pause =>
        case DropSender => RunTaskKeepsItems(next.(senderOpen := false));
      }
    }
  }

  lemma TaskKeepsDue<I, R>(s: State<I, R>)
    requires Sound(s)
    ensures var t := AfterTask(s);
            && Sound(t) && t.ends == s.ends && Due(t) == Due(s)
            && (!t.taskLive <==> s.TaskTerminated() || PollTask(s).1.Ready?)
            && (if s.taskLive then t.taskLive || t.res.Some? else t == s)
            && CountPauses(t.steps) <= CountPauses(s.steps)
            && (t.taskLive && t.slot.None? && s.ends.Some? ==> CountPauses(t.steps) < CountPauses(s.steps))
  {
    hide Yields;
    if s.taskLive {
      RunTaskKeepsItems(s);
      if Returns(s) {
        ReturnedSteps(s);
      }
    }
  }

  lemma TakingKeepsDue<I, R>(s: State<I, R>)
    requires Sound(s) && s.slot.Some?
    ensures Due(s) == [Yielded(s.slot.value)] + Due(s.(slot := None))
  {
    assert (InSlot(s.slot) + Items(s.steps))[1..] == InSlot(None) + Items(s.steps);
  }

  lemma FinishDelivers<I, R>(s: State<I, R>)
    requires Sound(s) && s.slot.None? && !s.senderOpen
    ensures var (t, output) := Finish(s.(streamLive := false), !s.taskLive);
            && Sound(t) && t.ends == s.ends && t.steps == s.steps
            && match output
               case Pending => s.taskLive && t == s.(streamLive := false)
               case Ready(Some(x)) => Due(s) == [x] + Due(t) && Due(t) == [] && x.Complete?
               case Ready(None) => t == s && Due(s) == [] && s.IsTerminated()
  {
  }

  /** What one poll does to what is due, and when it waits. */
  lemma AdvanceDelivers<I, R>(s: State<I, R>)
    requires Sound(s)
    ensures var (t, output) := Advance(s);
            && Sound(t) && t.ends == s.ends
            && match output
               case Pending =>
                 Due(t) == Due(s) && (s.ends.Some? ==> CountPauses(t.steps) < CountPauses(s.steps))
               case Ready(Some(x)) =>
                 Due(s) == [x] + Due(t) && CountPauses(t.steps) <= CountPauses(s.steps)
                   && (x.Complete? ==> Due(t) == [])
               case Ready(None) =>
                 Due(s) == [] && t == s && s.IsTerminated()
  {
    hide AfterTask, PollTask, Items, Yields, CountPauses, SoundSteps, InSlot, Final;
    TaskKeepsDue(s);
    var t := AfterTask(s);
    if t.slot.Some? {
      TakingKeepsDue(t);
    } else if !t.senderOpen {
      FinishDelivers(t);
    }
  }

  // Any number of polls

  /** The state after `n` polls, and the outputs on the way. */
  function Polls<I, R>(s: State<I, R>, n: nat): (State<I, R>, seq<Output<I, R>>) {
    if n == 0 then (s, [])
    else
      var (t, outputs) := Polls(s, n - 1);
      var (u, output) := Advance(t);
      (u, outputs + [output])
  }

  /** The items of the stream, leaving out the polls that had to wait and those after its end. */
  function Emitted<I, R>(outputs: seq<Output<I, R>>): seq<GeneratorState<I, R>> {
    if outputs == [] then []
    else
      Emitted(outputs[..|outputs| - 1]) +
      match outputs[|outputs| - 1] case Ready(Some(x)) => [x] case _ => []
  }

  function CountPending<I, R>(outputs: seq<Output<I, R>>): nat {
    if outputs == [] then 0
    else CountPending(outputs[..|outputs| - 1]) + if outputs[|outputs| - 1].Pending? then 1 else 0
  }

  lemma {:induction false} PollsConserve<I, R>(s: State<I, R>, n: nat)
    requires Sound(s)
    ensures var (t, outputs) := Polls(s, n);
            && Sound(t) && t.ends == s.ends && |outputs| == n
            && Due(s) == Emitted(outputs) + Due(t)
            && (s.ends.Some? ==> CountPending(outputs) + CountPauses(t.steps) <= CountPauses(s.steps))
            && (Due(t) != [] ==> n == |Emitted(outputs)| + CountPending(outputs))
  {
    hide Advance, Due, Sound, CountPauses;
    if n > 0 {
      PollsConserve(s, n - 1);
      var (t, outputs) := Polls(s, n - 1);
      AdvanceDelivers(t);
      assert (outputs + [Advance(t).1])[..n - 1] == outputs;
    }
  }

  /** What the stream of a task is to be: its items in order, and then what it returned. */
  function Promised<I, R>(steps: seq<Step<I>>, ends: Option<R>): seq<GeneratorState<I, R>> {
    Yields(Items(steps)) + Final(ends)
  }

  lemma StartOwesAll<I, R>(steps: seq<Step<I>>, ends: Option<R>)
    requires SoundSteps(steps, true)
    ensures Sound(Generate(steps, ends)) && Due(Generate(steps, ends)) == Promised(steps, ends)
  {
    assert InSlot(None) + Items(steps) == Items(steps);
  }

  /** However often a generator is polled, it has given out the first of the items sent, in order and
      each once, then the task's result, and nothing after that; and if the task returns, it has given
      out everything after one poll for each item, one for the result and one for each pause. */
  lemma StreamIsItemsThenResult<I, R>(steps: seq<Step<I>>, ends: Option<R>, n: nat)
    requires SoundSteps(steps, true)
    ensures var (_, outputs) := Polls(Generate(steps, ends), n);
            && Emitted(outputs) <= Promised(steps, ends)
            && (ends.Some? && n >= |Promised(steps, ends)| + CountPauses(steps) ==>
                  Emitted(outputs) == Promised(steps, ends))
  {
    hide Advance, Due, Sound, CountPauses, Promised, Polls, Emitted, CountPending, Items;
    StartOwesAll(steps, ends);
    PollsConserve(Generate(steps, ends), n);
    var (t, outputs) := Polls(Generate(steps, ends), n);
    assert Emitted(outputs) == Promised(steps, ends)[..|Emitted(outputs)|];
    if Due(t) == [] {
      assert Emitted(outputs) == Promised(steps, ends);
    }
  }

  /** A poll after all others tells from its output where the stream is: None only once the result was
      given out, and then always; and the stream calls itself terminated exactly from then on. */
  lemma TerminatedFromResultOn<I, R>(steps: seq<Step<I>>, ends: Option<R>, n: nat)
    requires SoundSteps(steps, true)
    ensures var (t, outputs) := Polls(Generate(steps, ends), n);
            && (t.IsTerminated() <==> ends.Some? && Emitted(outputs) == Promised(steps, ends))
            && (t.IsTerminated() <==> Advance(t).1 == Ready(None))
            && (t.IsTerminated() ==> Advance(t).0 == t)
  {
    hide Advance, Due, Sound, CountPauses, Promised, Polls, Emitted, CountPending, Items;
    StartOwesAll(steps, ends);
    PollsConserve(Generate(steps, ends), n);
    var (t, outputs) := Polls(Generate(steps, ends), n);
    AdvanceDelivers(t);
    TerminatedOwesNothing(t);
    if t.IsTerminated() {
      TerminatedStays(t);
    }
    assert Emitted(outputs) == Promised(steps, ends) <==> Due(t) == [] by {
      assert |Promised(steps, ends)| == |Emitted(outputs)| + |Due(t)|;
    }
  }

  lemma TerminatedOwesNothing<I, R>(s: State<I, R>)
    requires Sound(s)
    ensures s.IsTerminated() <==> s.ends.Some? && Due(s) == []
  {
  }

  lemma TerminatedStays<I, R>(s: State<I, R>)
    requires Sound(s) && s.IsTerminated()
    ensures Advance(s) == (s, Ready(None))
  {
  }

  // The adapters

  /** `into_yielded`, `into_complete` and `into_try_stream`, on the items of the stream. */
  function IntoYielded<I, R>(states: seq<GeneratorState<I, R>>): seq<I> {
    if states == [] then []
    else (if states[0].Yielded? then [states[0].item] else []) + IntoYielded(states[1..])
  }

  function IntoComplete<I, R>(states: seq<GeneratorState<I, R>>): Option<R> {
    if states == [] then None
    else if states[0].Complete? then Some(states[0].result)
    else IntoComplete(states[1..])
  }

  function IntoTryStream<I, E>(states: seq<GeneratorState<I, Result<(), E>>>): seq<Result<I, E>> {
    if states == [] then []
    else
      (match states[0]
       case Yielded(item) => [Success(item)]
       case Complete(Success(_)) => []
       case Complete(Failure(e)) => [Failure(e)])
      + IntoTryStream(states[1..])
  }

  function Successes<I, E>(items: seq<I>): seq<Result<I, E>> {
    if items == [] then [] else [Success(items[0])] + Successes(items[1..])
  }

  /** Each adapter keeps its part of a stream, finished or not: the items, the result if there is one yet, and
      both. */
  lemma {:induction false} AdaptersKeepTheirPart<I, R>(items: seq<I>, result: Option<R>)
    ensures var states: seq<GeneratorState<I, R>> := Yields(items) + Final(result);
            && IntoYielded(states) == items
            && IntoComplete(states) == result
  {
    var states: seq<GeneratorState<I, R>> := Yields(items) + Final(result);
    if items != [] {
      AdaptersKeepTheirPart(items[1..], result);
      assert states[1..] == Yields(items[1..]) + Final(result);
    } else if result.Some? {
      assert states[1..] == [];
    }
  }

  lemma {:induction false} TryStreamKeepsBoth<I, E>(items: seq<I>, result: Option<Result<(), E>>)
    ensures IntoTryStream(Yields(items) + Final(result))
         == Successes(items) + if result.Some? && result.value.Failure? then [Failure(result.value.error)] else []
  {
    var states: seq<GeneratorState<I, Result<(), E>>> := Yields(items) + Final(result);
    if items != [] {
      TryStreamKeepsBoth(items[1..], result);
      assert states[1..] == Yields(items[1..]) + Final(result);
    } else if result.Some? {
      assert states[1..] == [];
    }
  }
}
