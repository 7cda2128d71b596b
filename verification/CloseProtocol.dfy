/**
 * Closing a connection: Close waits, in one select, for the shutdown goroutine's send on an
 * unbuffered channel, for a timer and for the context, and closes the channel when it returns.
 * Times are in milliseconds.
 */
module CloseProtocol {
  import opened Wrappers

  const TIME_LEFT := 1000
  const GRACE := 10

  datatype Outcome = NoError | TimedOut | ContextError(cancelled: bool)

  datatype Closer =
    | Begin                        // about to read the clock
    | Computed(left: int)          // closeTimeLeft known, goroutine not started
    | Started(left: int)           // goroutine started, timer not made
    | Selecting(fireAt: int)
    | Chosen(outcome: Outcome)     // a branch was taken, the deferred close is still to run
    | Returned(outcome: Outcome)

  datatype Sender =
    | NotStarted
    | Disconnecting
    | Sending
    | Sent
    | Panicked                     // a send on a closed channel

  datatype State = State(
    now: nat,
    deadline: Option<nat>,
    cancelled: bool,
    closer: Closer,
    sender: Sender,
    channelClosed: bool,
    computedAt: nat,               // when closeTimeLeft was computed
    chosenAt: nat)                 // when the select resolved

  datatype Action =
    | Tick(dt: nat)
    | Cancel
    | ReadClock
    | StartSender
    | MakeTimer
    | Disconnected                 // with or without an error
    | Rendezvous
    | TakeTimer
    | TakeContext
    | CloseChannel
    | SendOnClosed

  function Initial(now: nat, deadline: Option<nat>, cancelled: bool): State {
    State(now, deadline, cancelled, Begin, NotStarted, false, 0, 0)
  }

  predicate ContextDone(s: State) {
    s.cancelled || (s.deadline.Some? && s.deadline.value <= s.now)
  }

  predicate Enabled(s: State, a: Action) {
    match a
    case Tick(_) => true
    case Cancel => !ContextDone(s)
    case ReadClock => s.closer.Begin?
    case StartSender => s.closer.Computed?
    case MakeTimer => s.closer.Started?
    case Disconnected => s.sender.Disconnecting?
    case Rendezvous => s.closer.Selecting? && s.sender.Sending? && !s.channelClosed
    case TakeTimer => s.closer.Selecting? && s.closer.fireAt <= s.now
    case TakeContext => s.closer.Selecting? && ContextDone(s)
    case CloseChannel => s.closer.Chosen?
    case SendOnClosed => s.sender.Sending? && s.channelClosed
  }

  function Apply(s: State, a: Action): State
    requires Enabled(s, a)
  {
    match a
    case Tick(dt) => s.(now := s.now + dt)
    case Cancel => s.(cancelled := true)
    case ReadClock =>
      s.(closer := Computed(if s.deadline.Some? then s.deadline.value - s.now + GRACE else TIME_LEFT),
         computedAt := s.now)
    case StartSender => s.(closer := Started(s.closer.left), sender := Disconnecting)
    // a timer with no time left fires at once
    case MakeTimer => s.(closer := Selecting(s.now + if s.closer.left < 0 then 0 else s.closer.left))
    case Disconnected => s.(sender := Sending)
    case Rendezvous => s.(closer := Chosen(NoError), sender := Sent, chosenAt := s.now)
    case TakeTimer => s.(closer := Chosen(TimedOut), chosenAt := s.now)
    case TakeContext => s.(closer := Chosen(ContextError(s.cancelled)), chosenAt := s.now)
    case CloseChannel => s.(closer := Returned(s.closer.outcome), channelClosed := true)
    case SendOnClosed => s.(sender := Panicked)
  }

  predicate Valid(s: State, acts: seq<Action>)
    decreases |acts|
  {
    acts == [] || (Enabled(s, acts[0]) && Valid(Apply(s, acts[0]), acts[1..]))
  }

  function Run(s: State, acts: seq<Action>): State
    requires Valid(s, acts)
    decreases |acts|
  {
    if acts == [] then s else Run(Apply(s, acts[0]), acts[1..])
  }

  /** The outcome of the select, once it is resolved. */
  function Resolved(s: State): Option<Outcome> {
    match s.closer
    case Chosen(outcome) => Some(outcome)
    case Returned(outcome) => Some(outcome)
    case _ => None
  }

  ghost predicate Inv(s: State) {
    && (s.channelClosed <==> s.closer.Returned?)
    && (s.sender.NotStarted? <==> s.closer.Begin? || s.closer.Computed?)
    && (s.sender.Sent? <==> Resolved(s) == Some(NoError))
    && (s.sender.Panicked? ==> s.channelClosed)
    && TimerLate(s) && TimerExact(s)
  }

  /** The time left is what the clock said when it was computed. */
  predicate TimerExact(s: State) {
    (match s.closer
     case Computed(left) => left == LeftAt(s) && s.computedAt <= s.now
     case Started(left) => left == LeftAt(s) && s.computedAt <= s.now
     case _ => true)
  }

  function LeftAt(s: State): int {
    if s.deadline.Some? then s.deadline.value - s.computedAt + GRACE else TIME_LEFT
  }

  /** With a deadline, the timer is due no earlier than GRACE after it, however late the timer is made. */
  ghost predicate TimerLate(s: State) {
    && (Resolved(s).Some? ==> s.chosenAt <= s.now)
    && (s.deadline.Some? ==>
          match s.closer
          case Begin => true
          case Computed(left) => s.now + left >= s.deadline.value + GRACE
          case Started(left) => s.now + left >= s.deadline.value + GRACE
          case Selecting(fireAt) => fireAt >= s.deadline.value + GRACE
          case _ => Resolved(s) == Some(TimedOut) ==> s.chosenAt >= s.deadline.value + GRACE)
    && (s.deadline.None? ==>
          match s.closer
          case Begin => true
          case Computed(left) => left == TIME_LEFT && s.computedAt <= s.now
          case Started(left) => left == TIME_LEFT && s.computedAt <= s.now
          case Selecting(fireAt) => fireAt >= s.computedAt + TIME_LEFT
          case _ => Resolved(s) == Some(TimedOut) ==> s.chosenAt >= s.computedAt + TIME_LEFT)
    && (match Resolved(s)
        case Some(ContextError(cancelled)) =>
          if cancelled then s.cancelled else s.deadline.Some? && s.deadline.value <= s.chosenAt
        case _ => true)
  }

  lemma InvStep(s: State, a: Action)
    requires Inv(s) && Enabled(s, a)
    ensures Inv(Apply(s, a)) && Apply(s, a).deadline == s.deadline
  {
  }

  lemma {:induction false} InvRun(s: State, acts: seq<Action>)
    requires Inv(s) && Valid(s, acts)
    ensures Inv(Run(s, acts)) && Run(s, acts).deadline == s.deadline
    decreases |acts|
  {
    if acts != [] {
      InvStep(s, acts[0]);
      hide Apply, Enabled, Inv;
      InvRun(Apply(s, acts[0]), acts[1..]);
    }
  }

  /** Nothing is left to happen but the passing of time. */
  predicate Final(s: State) {
    s.closer.Returned? && (s.sender.Sent? || s.sender.Panicked?)
  }

  /**
   * Over all interleavings: Close returns nil exactly when it has received shutdown's one send; a
   * send meets a closed channel only after a timeout or context error, and by the end always then.
   */
  lemma CloseProtocol(now: nat, deadline: Option<nat>, cancelled: bool, acts: seq<Action>)
    requires Valid(Initial(now, deadline, cancelled), acts)
    ensures var s := Run(Initial(now, deadline, cancelled), acts);
            && (s.closer == Returned(NoError) <==> s.sender.Sent? && s.closer.Returned?)
            && (s.sender.Panicked? ==> s.closer.Returned? && s.closer.outcome != NoError)
            && (Final(s) ==> (s.sender.Panicked? <==> s.closer.outcome != NoError))
  {
    InvRun(Initial(now, deadline, cancelled), acts);
  }

  /** What is left to do, apart from time passing. */
  function StepsLeft(s: State): nat {
    (match s.closer
     case Begin => 5
     case Computed(_) => 4
     case Started(_) => 3
     case Selecting(_) => 2
     case Chosen(_) => 1
     case Returned(_) => 0)
    + (match s.sender
       case NotStarted => 3
       case Disconnecting => 2
       case Sending => 1
       case _ => 0)
    + (if ContextDone(s) then 0 else 1)
  }

  /** The time until a select that nothing else resolves is resolved by its timer. */
  function TimeLeft(s: State): nat {
    if s.closer.Selecting? && s.closer.fireAt > s.now then s.closer.fireAt - s.now else 0
  }

  lemma StepDecreases(s: State, a: Action)
    requires Inv(s) && Enabled(s, a)
    ensures if a.Tick? then StepsLeft(Apply(s, a)) <= StepsLeft(s) else StepsLeft(Apply(s, a)) < StepsLeft(s)
  {
  }

  lemma Progress(s: State) returns (a: Action)
    requires Inv(s) && !Final(s)
    ensures !a.Tick? && !a.Rendezvous? && Enabled(Apply(s, Tick(TimeLeft(s))), a)
  {
    a := match s.closer
      case Begin => ReadClock
      case Computed(_) => StartSender
      case Started(_) => MakeTimer
      case Selecting(_) => TakeTimer
      case Chosen(_) => CloseChannel
      case Returned(_) => if s.sender.Disconnecting? then Disconnected else SendOnClosed;
  }

  /**
   * Every run that lets time pass and Disconnect return comes to an end: at most 9 steps other
   * than ticks are ever taken, and in a state that is not final one is possible once the timer is due.
   */
  lemma CloseTerminates(now: nat, deadline: Option<nat>, cancelled: bool, acts: seq<Action>)
    requires Valid(Initial(now, deadline, cancelled), acts)
    ensures Steps(acts) <= 9
    ensures var s := Run(Initial(now, deadline, cancelled), acts);
            !Final(s) ==> exists a: Action :: !a.Tick? && Enabled(Apply(s, Tick(TimeLeft(s))), a)
  {
    var s0 := Initial(now, deadline, cancelled);
    InvRun(s0, acts);
    StepsBounded(s0, acts);
    if !Final(Run(s0, acts)) {
      var a := Progress(Run(s0, acts));
    }
  }

  function Steps(acts: seq<Action>): nat {
    if acts == [] then 0 else (if acts[0].Tick? then 0 else 1) + Steps(acts[1..])
  }

  lemma {:induction false} StepsBounded(s: State, acts: seq<Action>)
    requires Inv(s) && Valid(s, acts)
    ensures Steps(acts) + StepsLeft(Run(s, acts)) <= StepsLeft(s)
    decreases |acts|
  {
    if acts != [] {
      StepDecreases(s, acts[0]);
      InvStep(s, acts[0]);
      hide Apply, Enabled, Inv, StepsLeft;
      StepsBounded(Apply(s, acts[0]), acts[1..]);
    }
  }

  lemma RunTwo(s: State, a: Action, b: Action, rest: seq<Action>)
    requires Enabled(s, a) && Enabled(Apply(s, a), b) && Valid(Apply(Apply(s, a), b), rest)
    ensures Valid(s, [a, b] + rest) && Run(s, [a, b] + rest) == Run(Apply(Apply(s, a), b), rest)
  {
    assert ([a, b] + rest)[1..] == [b] + rest;
    assert ([b] + rest)[1..] == rest;
  }

  /** Unless the value has been received, a run from here ends in the panic: Disconnect is slower than all else. */
  lemma {:induction false} PanicAhead(s: State) returns (acts: seq<Action>)
    requires Inv(s) && !s.sender.Sent?
    ensures Valid(s, acts) && Final(Run(s, acts)) && Run(s, acts).sender.Panicked?
    decreases StepsLeft(s)
  {
    if Final(s) {
      return [];
    }
    var a := Progress(s);
    var s1 := Apply(s, Tick(TimeLeft(s)));
    InvStep(s, Tick(TimeLeft(s)));
    InvStep(s1, a);
    StepDecreases(s, Tick(TimeLeft(s)));
    StepDecreases(s1, a);
    var rest := PanicAhead(Apply(s1, a));
    RunTwo(s, Tick(TimeLeft(s)), a, rest);
    acts := [Tick(TimeLeft(s)), a] + rest;
  }

  /** Unless a timeout or the context has been chosen, a run from here returns nil. */
  lemma {:induction false} NilAhead(s: State) returns (acts: seq<Action>)
    requires Inv(s) && Resolved(s) in {None, Some(NoError)}
    ensures Valid(s, acts) && Final(Run(s, acts)) && Run(s, acts).closer == Returned(NoError)
    decreases StepsLeft(s)
  {
    if s.closer.Returned? {
      return [];
    }
    var a := match s.closer
      case Begin => ReadClock
      case Computed(_) => StartSender
      case Started(_) => MakeTimer
      case Selecting(_) => if s.sender.Disconnecting? then Disconnected else Rendezvous
      case Chosen(_) => CloseChannel;
    InvStep(s, a);
    StepDecreases(s, a);
    var rest := NilAhead(Apply(s, a));
    assert ([a] + rest)[1..] == rest;
    acts := [a] + rest;
  }

  lemma {:induction false} Settled(s: State, acts: seq<Action>)
    requires Inv(s) && Valid(s, acts)
    ensures Resolved(s).Some? ==> Resolved(Run(s, acts)) == Resolved(s)
    decreases |acts|
  {
    if acts != [] {
      InvStep(s, acts[0]);
      assert Resolved(s).Some? ==> Resolved(Apply(s, acts[0])) == Resolved(s);
      hide Apply, Enabled, Inv;
      Settled(Apply(s, acts[0]), acts[1..]);
    }
  }

  ghost predicate MayPanic(s: State) {
    exists acts :: Valid(s, acts) && Final(Run(s, acts)) && Run(s, acts).sender.Panicked?
  }

  ghost predicate MayReturnNil(s: State) {
    exists acts :: Valid(s, acts) && Final(Run(s, acts)) && Run(s, acts).closer == Returned(NoError)
  }

  /**
   * At every point of every run, the panic is ruled out exactly if the value has been received, and
   * nil exactly if the timer or the context has been chosen. So for no deadline and no context is
   * either ruled out when Close is called.
   */
  lemma OutcomeIsOpen(now: nat, deadline: Option<nat>, cancelled: bool, acts: seq<Action>)
    requires Valid(Initial(now, deadline, cancelled), acts)
    ensures var s := Run(Initial(now, deadline, cancelled), acts);
            && (MayPanic(s) <==> !s.sender.Sent?)
            && (MayReturnNil(s) <==> Resolved(s) in {None, Some(NoError)})
  {
    InvRun(Initial(now, deadline, cancelled), acts);
    var s := Run(Initial(now, deadline, cancelled), acts);
    forall more | Valid(s, more)
      ensures Resolved(s).Some? ==> Resolved(Run(s, more)) == Resolved(s)
      ensures Inv(Run(s, more))
    {
      Settled(s, more);
      InvRun(s, more);
    }
    if !s.sender.Sent? {
      var more := PanicAhead(s);
    }
    if Resolved(s) in {None, Some(NoError)} {
      var more := NilAhead(s);
    }
  }

  /**
   * The hard-coded timeout error means that the select was resolved at least 10 ms after the
   * deadline, however the goroutine was scheduled and even if the deadline had passed before Close.
   */
  lemma DeadlineBeatsTimer(now: nat, deadline: Option<nat>, cancelled: bool, acts: seq<Action>)
    requires Valid(Initial(now, deadline, cancelled), acts)
    ensures var s := Run(Initial(now, deadline, cancelled), acts);
            && (deadline.Some? && s.closer.Selecting? ==> s.closer.fireAt >= deadline.value + 10)
            && (deadline.Some? && Resolved(s) == Some(TimedOut) ==> s.chosenAt >= deadline.value + 10)
            && (deadline.None? && Resolved(s) == Some(TimedOut) ==> s.chosenAt >= s.computedAt + 1000)
            && (Resolved(s) == Some(ContextError(false)) ==> deadline.Some? && s.chosenAt >= deadline.value)
  {
    InvRun(Initial(now, deadline, cancelled), acts);
  }

  function Later(a: int, b: int): int { if a < b then b else a }

  /**
   * The timer is due exactly 1 s after it was made, or with a deadline as much after it (or after now,
   * if that is later) as 10 ms and the delay between reading the clock and making the timer come to.
   */
  lemma TimerIsExact(now: nat, deadline: Option<nat>, cancelled: bool, acts: seq<Action>)
    requires Valid(Initial(now, deadline, cancelled), acts)
    ensures var s := Run(Initial(now, deadline, cancelled), acts);
            Enabled(s, MakeTimer) ==>
              && s.computedAt <= s.now
              && Apply(s, MakeTimer).closer ==
                 match deadline
                 case None => Selecting(s.now + 1000)
                 case Some(d) => Selecting(Later(s.now, d + 10 + (s.now - s.computedAt)))
  {
    InvRun(Initial(now, deadline, cancelled), acts);
  }

  /** Without delays, it is due 1 s after the call, or 10 ms after the deadline if that is not past. */
  lemma PromptTimer(now: nat, deadline: Option<nat>, cancelled: bool)
    ensures var s := Initial(now, deadline, cancelled);
            var acts := [ReadClock, StartSender, MakeTimer];
            && Valid(s, acts) && Run(s, acts).now == now
            && Run(s, acts).closer ==
               match deadline
               case None => Selecting(now + 1000)
               case Some(d) => Selecting(Later(now, d + 10))
  {
    var s := Initial(now, deadline, cancelled);
    var s1 := Apply(s, ReadClock);
    var s2 := Apply(s1, StartSender);
    RunTwo(s, ReadClock, StartSender, [MakeTimer]);
    assert Run(s2, [MakeTimer]) == Apply(s2, MakeTimer);
    assert [ReadClock, StartSender] + [MakeTimer] == [ReadClock, StartSender, MakeTimer];
  }

  /** The branches that a select can take: the timer's once it is due, the context's once it is done. */
  lemma BranchesReady(s: State)
    requires s.closer.Selecting?
    ensures Enabled(s, TakeTimer) <==> s.now >= s.closer.fireAt
    ensures Enabled(s, TakeContext) <==> s.cancelled || (s.deadline.Some? && s.now >= s.deadline.value)
    ensures Enabled(s, Rendezvous) ==> s.sender.Sending? && Apply(s, Rendezvous).closer == Chosen(NoError)
    ensures Enabled(s, TakeTimer) ==> Apply(s, TakeTimer).closer == Chosen(TimedOut)
    ensures Enabled(s, TakeContext) ==> Apply(s, TakeContext).closer == Chosen(ContextError(s.cancelled))
  {
  }

  // ---------------------------------------------------------------------------------------
  // The method

  lemma {:induction false} RunAppend(s: State, acts: seq<Action>, more: seq<Action>)
    requires Valid(s, acts) && Valid(Run(s, acts), more)
    ensures Valid(s, acts + more) && Run(s, acts + more) == Run(Run(s, acts), more)
    decreases |acts|
  {
    if acts == [] {
      assert acts + more == more;
    } else {
      assert (acts + more)[1..] == acts[1..] + more;
      RunAppend(Apply(s, acts[0]), acts[1..], more);
    }
  }

  /** What happens outside the closing goroutine. */
  predicate Outside(acts: seq<Action>) {
    forall i :: 0 <= i < |acts| ==> acts[i].Tick? || acts[i].Cancel? || acts[i].Disconnected? || acts[i].SendOnClosed?
  }

  lemma {:induction false} OutsideRun(s: State, acts: seq<Action>)
    requires Valid(s, acts) && Outside(acts)
    ensures Run(s, acts).closer == s.closer && Run(s, acts).deadline == s.deadline
    decreases |acts|
  {
    if acts != [] {
      OutsideRun(Apply(s, acts[0]), acts[1..]);
    }
  }

  class MongoConnection {
    var s: State

    /** One action of the closing goroutine, and then any actions outside it. */
    method Do(a: Action) returns (run: seq<Action>)
      requires Enabled(s, a)
      modifies this
      ensures Valid(old(s), run) && s == Run(old(s), run)
      ensures s.closer == Apply(old(s), a).closer && s.deadline == old(s.deadline)
    {
      s := Apply(s, a);
      var others: seq<Action> := *;
      if !(Valid(s, others) && Outside(others)) {
        others := [];
      }
      OutsideRun(s, others);
      s := Run(s, others);
      run := [a] + others;
      assert run[1..] == others;
    }

    /** The select, blocked until a branch is ready; any ready branch may be taken. */
    method Select() returns (run: seq<Action>)
      requires s.closer.Selecting? && Inv(s)
      modifies this
      ensures Valid(old(s), run) && s == Run(old(s), run) && s.closer.Chosen?
    {
      run := [];
      if !Enabled(s, Rendezvous) && !Enabled(s, TakeContext) && !Enabled(s, TakeTimer) {
        run := PassTime(s.closer.fireAt - s.now);
      }
      var a: Action := *;
      if !(a in {Rendezvous, TakeContext, TakeTimer} && Enabled(s, a)) {
        a := if Enabled(s, Rendezvous) then Rendezvous else if Enabled(s, TakeContext) then TakeContext else TakeTimer;
      }
      var taken := Do(a);
      RunAppend(old(s), run, taken);
      run := run + taken;
    }

    /** Time passes until the timer is due. */
    method PassTime(dt: nat) returns (run: seq<Action>)
      modifies this
      ensures run == [Tick(dt)] && Valid(old(s), run) && s == Run(old(s), run) && s == Apply(old(s), Tick(dt))
    {
      s := Apply(s, Tick(dt));
      run := [Tick(dt)];
    }

    method Close() returns (outcome: Outcome, run: seq<Action>)
      requires s == Initial(s.now, s.deadline, s.cancelled)
      modifies this
      ensures Valid(old(s), run) && s == Run(old(s), run)
      ensures s.closer == Returned(outcome) && (outcome == NoError <==> s.sender.Sent?)
    {
      var s0 := s;
      var left := TIME_LEFT;
      if s.deadline.Some? {
        left := s.deadline.value - s.now + GRACE;
      }
      run := Do(ReadClock);
      assert s.closer == Computed(left);
      var more := Do(StartSender);
      RunAppend(s0, run, more);
      run := run + more;
      more := Do(MakeTimer);
      RunAppend(s0, run, more);
      run := run + more;
      InvRun(s0, run);
      more := Select();
      RunAppend(s0, run, more);
      run := run + more;
      outcome := s.closer.outcome;
      more := Do(CloseChannel);
      RunAppend(s0, run, more);
      run := run + more;
      CloseProtocol(s0.now, s0.deadline, s0.cancelled, run);
    }
  }
}
