/**
 * The select that all four waits share: a timer against other channels, where the branch of
 * another channel stops the timer and, if Stop says false, reads the timer's channel. Up to
 * Go 1.22 a timer's channel buffers its value; since Go 1.23 it is synchronous, and Stop takes
 * back a value that nobody has received. The select is safe under both.
 */
module Timer {

  datatype Semantics = Buffered | Synchronous

  /** Expired: the runtime has taken the timer off its heap but has not delivered the value yet. */
  datatype Timer = Armed | Expired | Delivered | Received | Stopped

  datatype Pc = Selecting | Stopping | Draining | TimerBranch | OtherBranch

  datatype State = State(timer: Timer, pc: Pc, otherReady: bool)

  datatype Action = Expire | Deliver | MakeOtherReady | TakeTimer | TakeOther | Stop | Drain

  const INITIAL := State(Armed, Selecting, false)

  /** A receive from the timer's channel can proceed. */
  predicate Receivable(s: State) {
    s.timer.Delivered?
  }

  /** What Timer.Stop returns. */
  function StopResult(sem: Semantics, timer: Timer): bool {
    timer.Armed? || (sem.Synchronous? && (timer.Expired? || timer.Delivered?))
  }

  predicate Enabled(s: State, a: Action) {
    match a
    case Expire => s.timer.Armed?
    case Deliver => s.timer.Expired?
    case MakeOtherReady => !s.otherReady
    case TakeTimer => s.pc.Selecting? && Receivable(s)
    case TakeOther => s.pc.Selecting? && s.otherReady
    case Stop => s.pc.Stopping?
    case Drain => s.pc.Draining? && Receivable(s)
  }

  function Apply(sem: Semantics, s: State, a: Action): State
    requires Enabled(s, a)
  {
    match a
    case Expire => s.(timer := Expired)
    case Deliver => s.(timer := Delivered)
    case MakeOtherReady => s.(otherReady := true)
    case TakeTimer => s.(timer := Received, pc := TimerBranch)
    case TakeOther => s.(pc := Stopping)
    case Stop =>
      if StopResult(sem, s.timer) then s.(timer := Stopped, pc := OtherBranch) else s.(pc := Draining)
    case Drain => s.(timer := Received, pc := OtherBranch)
  }

  predicate Valid(sem: Semantics, s: State, acts: seq<Action>)
    decreases |acts|
  {
    acts == [] || (Enabled(s, acts[0]) && Valid(sem, Apply(sem, s, acts[0]), acts[1..]))
  }

  function Run(sem: Semantics, s: State, acts: seq<Action>): State
    requires Valid(sem, s, acts)
    decreases |acts|
  {
    if acts == [] then s else Run(sem, Apply(sem, s, acts[0]), acts[1..])
  }

  predicate Done(s: State) {
    s.pc.TimerBranch? || s.pc.OtherBranch?
  }

  /** The timer's value has been received only by the timer branch or a finished drain. */
  predicate Inv(sem: Semantics, s: State) {
    match s.pc
    case Selecting => s.timer in {Armed, Expired, Delivered}
    case Stopping => s.timer in {Armed, Expired, Delivered}
    case Draining => sem.Buffered? && s.timer in {Expired, Delivered}
    case TimerBranch => s.timer.Received?
    case OtherBranch => s.timer in {Stopped, Received}
  }

  /** Another channel's branch is taken only once that channel is ready. */
  predicate OtherIsReady(s: State) {
    s.pc in {Stopping, Draining, OtherBranch} ==> s.otherReady
  }

  /** An upper bound on the steps still to come. */
  function Rank(s: State): nat {
    (match s.timer case Armed => 2 case Expired => 1 case _ => 0)
    + (match s.pc case Selecting => 3 case Stopping => 2 case Draining => 1 case _ => 0)
    + (if s.otherReady then 0 else 1)
  }

  lemma {:induction false} InvRun(sem: Semantics, s: State, acts: seq<Action>)
    requires Inv(sem, s) && OtherIsReady(s) && Valid(sem, s, acts)
    ensures Inv(sem, Run(sem, s, acts)) && OtherIsReady(Run(sem, s, acts))
    ensures |acts| + Rank(Run(sem, s, acts)) <= Rank(s)
    decreases |acts|
  {
    if acts != [] {
      InvRun(sem, Apply(sem, s, acts[0]), acts[1..]);
    }
  }

  lemma {:induction false} DeliveredInRun(sem: Semantics, s: State, acts: seq<Action>)
    requires Valid(sem, s, acts) && s.timer !in {Delivered, Received}
    ensures Run(sem, s, acts).timer in {Delivered, Received} ==> Deliver in acts
    decreases |acts|
  {
    if acts != [] && acts[0] != Deliver {
      DeliveredInRun(sem, Apply(sem, s, acts[0]), acts[1..]);
    }
  }

  /** A drain that cannot proceed now can after one more delivery, which is under way. */
  lemma DrainNeverBlocks(sem: Semantics, acts: seq<Action>)
    requires Valid(sem, INITIAL, acts)
    ensures var s := Run(sem, INITIAL, acts);
            && (s.pc in {Stopping, Draining} ==> s.timer !in {Received, Stopped})
            && (s.pc.Draining? ==>
                  Enabled(s, Drain) || (Enabled(s, Deliver) && Enabled(Apply(sem, s, Deliver), Drain)))
            && (sem.Synchronous? ==> !s.pc.Draining?)
  {
    InvRun(sem, INITIAL, acts);
  }

  /**
   * Every run is at most six steps long, and one that cannot go on has taken a branch: the timer's
   * with its value, or another ready one with the timer stopped or its value drained.
   */
  lemma SelectCompletes(sem: Semantics, acts: seq<Action>)
    requires Valid(sem, INITIAL, acts)
    ensures |acts| <= 6
    ensures var s := Run(sem, INITIAL, acts);
            && ((forall a :: !Enabled(s, a)) ==> Done(s))
            && (s.pc.TimerBranch? ==> s.timer.Received? && Deliver in acts)
            && (s.pc.OtherBranch? ==> s.otherReady && s.timer in {Stopped, Received})
  {
    InvRun(sem, INITIAL, acts);
    DeliveredInRun(sem, INITIAL, acts);
    var s := Run(sem, INITIAL, acts);
    if !Done(s) {
      assert || Enabled(s, Expire) || Enabled(s, Deliver) || Enabled(s, TakeTimer)
             || Enabled(s, Stop) || Enabled(s, Drain);
    }
  }

  /** With a buffered channel a drain can come before its value, which then ends it. */
  lemma DrainMayWait()
    ensures var acts := [Expire, MakeOtherReady, TakeOther, Stop];
            && Valid(Buffered, INITIAL, acts)
            && Run(Buffered, INITIAL, acts) == State(Expired, Draining, true)
            && !Enabled(State(Expired, Draining, true), Drain)
            && Valid(Buffered, State(Expired, Draining, true), [Deliver, Drain])
            && Run(Buffered, State(Expired, Draining, true), [Deliver, Drain]) == State(Received, OtherBranch, true)
  {
    var acts := [Expire, MakeOtherReady, TakeOther, Stop];
    RunsThrough(Buffered, acts,
                [INITIAL, State(Expired, Selecting, false), State(Expired, Selecting, true),
                 State(Expired, Stopping, true), State(Expired, Draining, true)]);
    RunsThrough(Buffered, [Deliver, Drain],
                [State(Expired, Draining, true), State(Delivered, Draining, true), State(Received, OtherBranch, true)]);
  }

  /** With a synchronous one Stop takes the value back. */
  lemma StopTakesBack()
    ensures var acts := [Expire, Deliver, MakeOtherReady, TakeOther, Stop];
            && Valid(Synchronous, INITIAL, acts)
            && Run(Synchronous, INITIAL, acts) == State(Stopped, OtherBranch, true)
  {
    var acts := [Expire, Deliver, MakeOtherReady, TakeOther, Stop];
    RunsThrough(Synchronous, acts,
                [INITIAL, State(Expired, Selecting, false), State(Delivered, Selecting, false),
                 State(Delivered, Selecting, true), State(Delivered, Stopping, true),
                 State(Stopped, OtherBranch, true)]);
  }

  lemma {:induction false} RunsThrough(sem: Semantics, acts: seq<Action>, states: seq<State>)
    requires |states| == |acts| + 1
    requires forall i :: 0 <= i < |acts| ==>
               Enabled(states[i], acts[i]) && states[i + 1] == Apply(sem, states[i], acts[i])
    ensures Valid(sem, states[0], acts) && Run(sem, states[0], acts) == states[|acts|]
    decreases |acts|
  {
    if acts != [] {
      RunsThrough(sem, acts[1..], states[1..]);
    }
  }

  /**
   * The same drain in the timer's own branch would block forever: the value is gone, Stop says
   * false, and no action can make the channel receivable again.
   */
  lemma {:induction false} DrainAfterReceiveBlocks(sem: Semantics, s: State, acts: seq<Action>)
    requires s.timer.Received? && s.pc in {Stopping, Draining} && Valid(sem, s, acts)
    ensures !StopResult(sem, s.timer)
    ensures !Receivable(Run(sem, s, acts)) && !Done(Run(sem, s, acts))
    decreases |acts|
  {
    if acts != [] {
      DrainAfterReceiveBlocks(sem, Apply(sem, s, acts[0]), acts[1..]);
    }
  }
}
