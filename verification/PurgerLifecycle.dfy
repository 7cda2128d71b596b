/** The purger goroutine, its WaitGroup, and Close, from Init to the one Close. */
module PurgerLifecycle {

  datatype Goroutine =
    | Purging      // about to call Purge
    | Arming       // about to make a new timer
    | FirstLook    // evaluating its select for the first time
    | Blocked      // parked in the select
    | Leaving      // returning, Done not called yet
    | Exited

  datatype Closer = NotCalled | InWait | Returned

  datatype State = State(
    waitGroup: int,
    purger: Goroutine,
    fired: bool,           // the timer in use has a value to receive
    closed: bool,
    closer: Closer,
    purgesAfterClose: nat, // Purge calls begun after the channel was closed
    lateLooks: nat)        // first evaluations that found channel closed and timer fired

  datatype Action =
    | BeginPurge
    | NewTimer
    | Fire
    | Look(timer: bool)    // evaluate the select; if both are ready, timer says which is taken
    | Wake(timer: bool)
    | Done
    | CloseChannel
    | WaitReturns

  /** As Init leaves it: the goroutine is counted before it starts. */
  const INITIAL := State(1, Purging, false, false, NotCalled, 0, 0)

  predicate Live(s: State) { !s.purger.Exited? }

  predicate Enabled(s: State, a: Action) {
    match a
    case BeginPurge => s.purger.Purging?
    case NewTimer => s.purger.Arming?
    case Fire => (s.purger.FirstLook? || s.purger.Blocked?) && !s.fired
    case Look(timer) => s.purger.FirstLook? && (timer ==> s.fired) && (!timer ==> s.closed || !s.fired)
    case Wake(timer) => s.purger.Blocked? && (if timer then s.fired else s.closed)
    case Done => s.purger.Leaving?
    case CloseChannel => s.closer.NotCalled?
    case WaitReturns => s.closer.InWait? && s.waitGroup == 0
  }

  function Apply(s: State, a: Action): State
    requires Enabled(s, a)
  {
    match a
    case BeginPurge =>
      s.(purger := Arming, purgesAfterClose := s.purgesAfterClose + if s.closed then 1 else 0)
    case NewTimer => s.(purger := FirstLook, fired := false)
    case Fire => s.(fired := true)
    case Look(timer) =>
      s.(purger := if timer then Purging else if s.closed then Leaving else Blocked,
         lateLooks := s.lateLooks + if s.closed && s.fired then 1 else 0)
    case Wake(timer) => s.(purger := if timer then Purging else Leaving)
    case Done => s.(purger := Exited, waitGroup := s.waitGroup - 1)
    case CloseChannel => s.(closed := true, closer := InWait)
    case WaitReturns => s.(closer := Returned)
  }

  predicate Valid(s: State, acts: seq<Action>)
    decreases |acts|
  {
    acts == [] || (Enabled(s, acts[0]) && Valid(Apply(s, acts[0]), acts[1..]))
  }

  function Run(s: State, acts: seq<Action>): State
    requires Valid(s, acts)
    decreases |acts|
  {
    if acts == [] then s else Run(Apply(s, acts[0]), acts[1..])
  }

  /** One purge may still begin before the purger's next first look at the closed channel. */
  function PurgesToCome(s: State): nat {
    if s.purger.Purging? || s.purger.Blocked? then 1 else 0
  }

  predicate Inv(s: State) {
    && s.waitGroup == (if Live(s) then 1 else 0)
    && (s.closed <==> !s.closer.NotCalled?)
    && (s.closer.Returned? || s.purger.Leaving? || s.purger.Exited? ==> s.closed)
    && (s.closer.Returned? ==> s.purger.Exited?)
    && (if s.closed then s.purgesAfterClose + PurgesToCome(s) <= 1 + s.lateLooks
        else s.purgesAfterClose == 0 && s.lateLooks == 0)
  }

  lemma {:induction false} InvRun(s: State, acts: seq<Action>)
    requires Inv(s) && Valid(s, acts)
    ensures Inv(Run(s, acts))
    decreases |acts|
  {
    if acts != [] {
      InvRun(Apply(s, acts[0]), acts[1..]);
    }
  }

  /** What every run from Init to one Close keeps. */
  lemma Lifecycle(acts: seq<Action>)
    requires Valid(INITIAL, acts)
    ensures var s := Run(INITIAL, acts);
            && s.waitGroup in {0, 1} && (s.waitGroup == 1 <==> Live(s))
            && (s.closer.Returned? ==> s.closed && s.purger.Exited?)
            && s.purgesAfterClose <= 1 + s.lateLooks
            && (s.lateLooks == 0 ==> s.purgesAfterClose <= 1)
  {
    InvRun(INITIAL, acts);
  }

  function Begun(acts: seq<Action>): nat {
    if acts == [] then 0 else (if acts[0].BeginPurge? then 1 else 0) + Begun(acts[1..])
  }

  /** How often the timer's branch was taken. */
  function Woken(acts: seq<Action>): nat {
    if acts == [] then 0 else (if acts[0] in {Look(true), Wake(true)} then 1 else 0) + Woken(acts[1..])
  }

  function Fired(acts: seq<Action>): nat {
    if acts == [] then 0 else (if acts[0].Fire? then 1 else 0) + Fired(acts[1..])
  }

  /** The purge and the wake-up that the state still owes. */
  function PurgeDue(s: State): nat { if s.purger.Purging? then 1 else 0 }

  function WakeDue(s: State): nat { if s.fired && (s.purger.FirstLook? || s.purger.Blocked?) then 1 else 0 }

  lemma {:induction false} PurgesCount(s: State, acts: seq<Action>)
    requires Valid(s, acts)
    ensures Begun(acts) + PurgeDue(Run(s, acts)) == PurgeDue(s) + Woken(acts)
    ensures Woken(acts) + WakeDue(Run(s, acts)) <= WakeDue(s) + Fired(acts)
    decreases |acts|
  {
    if acts != [] {
      PurgesCount(Apply(s, acts[0]), acts[1..]);
    }
  }

  /** One purge at the start and one for each firing of a timer whose branch is taken, and no other. */
  lemma OnePurgePerFiring(acts: seq<Action>)
    requires Valid(INITIAL, acts)
    ensures Begun(acts) + PurgeDue(Run(INITIAL, acts)) == 1 + Woken(acts)
    ensures Woken(acts) <= Fired(acts)
  {
    PurgesCount(INITIAL, acts);
  }

  /** Once the channel is closed, what is left to do if no first look is late. */
  function StepsLeft(s: State): nat {
    (match s.purger
     case Purging => 14
     case Arming => 12
     case FirstLook => 10
     case Blocked => 16
     case Leaving => 4
     case Exited => 2)
    + (if s.fired then 0 else 1)
    + (if s.closer.Returned? then 0 else 1)
  }

  /**
   * Close returns: after the channel is closed some step is possible until it has, and every step
   * in which no first look is late brings it closer.
   */
  lemma CloseReturns(acts: seq<Action>, a: Action)
    requires Valid(INITIAL, acts)
    ensures var s := Run(INITIAL, acts);
            && (s.closed && !s.closer.Returned? ==> exists b :: Enabled(s, b))
            && (s.closed && Enabled(s, a) && Apply(s, a).lateLooks == s.lateLooks ==>
                  StepsLeft(Apply(s, a)) < StepsLeft(s))
  {
    InvRun(INITIAL, acts);
    var s := Run(INITIAL, acts);
    if s.closed && !s.closer.Returned? {
      assert Enabled(s, BeginPurge) || Enabled(s, NewTimer) || Enabled(s, Look(s.fired)) || Enabled(s, Wake(false))
             || Enabled(s, Done) || Enabled(s, WaitReturns);
    }
  }

  const LATE_ROUND := [BeginPurge, NewTimer, Fire, Look(true)]

  function Rounds(n: nat): seq<Action> {
    if n == 0 then [] else LATE_ROUND + Rounds(n - 1)
  }

  lemma LateRound(s: State, rest: seq<Action>)
    requires s.purger.Purging? && s.closed
    ensures var s' := s.(fired := true, purgesAfterClose := s.purgesAfterClose + 1, lateLooks := s.lateLooks + 1);
            && (Valid(s', rest) ==> Valid(s, LATE_ROUND + rest) && Run(s, LATE_ROUND + rest) == Run(s', rest))
  {
    var s1 := Apply(s, BeginPurge);
    var s2 := Apply(s1, NewTimer);
    var s3 := Apply(s2, Fire);
    var acts := LATE_ROUND + rest;
    assert acts[1..][1..][1..][1..] == rest;
    assert acts[1..][0] == NewTimer && acts[1..][1..][0] == Fire && acts[1..][1..][1..][0] == Look(true);
    if Valid(Apply(s3, Look(true)), rest) {
      assert Valid(s3, acts[1..][1..][1..]);
      assert Valid(s2, acts[1..][1..]);
      assert Valid(s1, acts[1..]);
      assert Run(s, acts) == Run(s1, acts[1..]) == Run(s2, acts[1..][1..]) == Run(s3, acts[1..][1..][1..]);
    }
  }

  lemma {:induction false} RoundsRun(s: State, n: nat)
    requires s.purger.Purging? && s.closed
    ensures Valid(s, Rounds(n))
    ensures var s' := Run(s, Rounds(n));
            && s'.purger.Purging? && s'.closed
            && s'.purgesAfterClose == s.purgesAfterClose + n && s'.lateLooks == s.lateLooks + n
    decreases n
  {
    if n > 0 {
      var s' := s.(fired := true, purgesAfterClose := s.purgesAfterClose + 1, lateLooks := s.lateLooks + 1);
      RoundsRun(s', n - 1);
      LateRound(s, Rounds(n - 1));
    }
  }

  /** The bound is met for every number of late looks, so without one there can be any number of purges. */
  lemma LateLooksCostPurges(n: nat)
    ensures exists acts :: Valid(INITIAL, acts)
              && Run(INITIAL, acts).lateLooks == n && Run(INITIAL, acts).purgesAfterClose == 1 + n
  {
    var s := Apply(INITIAL, CloseChannel);
    RoundsRun(s, n);
    var acts := [CloseChannel] + Rounds(n) + [BeginPurge];
    RunAppend(s, Rounds(n), [BeginPurge]);
    assert acts[1..] == Rounds(n) + [BeginPurge];
    var s' := Run(s, Rounds(n));
    assert Run(s', [BeginPurge]) == Apply(s', BeginPurge);
    assert Valid(INITIAL, acts) && Run(INITIAL, acts) == Apply(s', BeginPurge);
  }

  lemma {:induction false} RunAppend(s: State, acts: seq<Action>, more: seq<Action>)
    requires Valid(s, acts)
    ensures Valid(s, acts + more) <==> Valid(Run(s, acts), more)
    ensures Valid(s, acts + more) ==> Run(s, acts + more) == Run(Run(s, acts), more)
    decreases |acts|
  {
    if acts == [] {
      assert acts + more == more;
    } else {
      assert (acts + more)[1..] == acts[1..] + more;
      RunAppend(Apply(s, acts[0]), acts[1..], more);
    }
  }

  // ---------------------------------------------------------------------------------------
  // Init and Close

  /** The purger's own actions and its timer's. */
  predicate OfPurger(a: Action) {
    !a.CloseChannel? && !a.WaitReturns?
  }

  predicate AllOfPurger(acts: seq<Action>) {
    forall i :: 0 <= i < |acts| ==> OfPurger(acts[i])
  }

  lemma {:induction false} PurgerRun(s: State, acts: seq<Action>)
    requires Valid(s, acts) && AllOfPurger(acts)
    ensures Run(s, acts).closer == s.closer && Run(s, acts).closed == s.closed
    decreases |acts|
  {
    if acts != [] {
      PurgerRun(Apply(s, acts[0]), acts[1..]);
    }
  }

  /** A next action of the purger once the channel is closed: a ready closer is taken. */
  function PurgerNext(s: State): Action {
    match s.purger
    case Purging => BeginPurge
    case Arming => NewTimer
    case FirstLook => Look(false)
    case Blocked => Wake(false)
    case _ => Done
  }

  lemma PurgerNextStep(s: State)
    requires Inv(s) && s.closer.InWait? && s.waitGroup != 0
    ensures Enabled(s, PurgerNext(s)) && Inv(Apply(s, PurgerNext(s)))
    ensures Apply(s, PurgerNext(s)).closer.InWait? && StepsLeft(Apply(s, PurgerNext(s))) < StepsLeft(s)
    ensures Valid(s, [PurgerNext(s)]) && Run(s, [PurgerNext(s)]) == Apply(s, PurgerNext(s))
  {
  }

  class Lock {
    var s: State

    /** Init: the purger's count is added before the goroutine starts; then it runs for as long as it likes. */
    constructor Init()
      ensures Inv(s) && Live(s) && s.closer.NotCalled? && !s.closed
    {
      s := INITIAL;
      var others: seq<Action> := *;
      new;
      if Valid(s, others) && AllOfPurger(others) {
        PurgerRun(s, others);
        InvRun(s, others);
        s := Run(s, others);
      }
    }

    /** Close: it returns only once the purger has exited, however the purger was scheduled meanwhile. */
    method Close() returns (run: seq<Action>)
      requires Inv(s) && s.closer.NotCalled?
      modifies this
      ensures Valid(old(s), run) && s == Run(old(s), run) && Inv(s)
      ensures s.closer.Returned? && s.purger.Exited? && s.waitGroup == 0 && s.closed
    {
      ghost var s0 := s;
      s := Apply(s, CloseChannel);
      run := [CloseChannel];
      var others: seq<Action> := *;
      if Valid(s, others) && AllOfPurger(others) {
        PurgerRun(s, others);
        RunAppend(s0, run, others);
        s, run := Run(s, others), run + others;
      }
      InvRun(s0, run);
      while s.waitGroup != 0
        invariant Valid(s0, run) && s == Run(s0, run) && Inv(s)
        invariant s.closer.InWait?
        decreases StepsLeft(s)
      {
        var a := PurgerNext(s);
        PurgerNextStep(s);
        RunAppend(s0, run, [a]);
        s, run := Apply(s, a), run + [a];
      }
      RunAppend(s0, run, [WaitReturns]);
      s, run := Apply(s, WaitReturns), run + [WaitReturns];
    }
  }
}
