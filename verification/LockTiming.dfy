/** Bounds in time: how long a row can stay, and how long Acquire and Unlock can wait. */
module LockTiming {
  import opened LockId
  import opened LockProtocol

  // ---------------------------------------------------------------------------------------
  // Row lifetime

  /** Process p's purger is live, wakes when its timer is due, and its purges succeed. */
  ghost predicate PurgerServes(s: State, a: Action, p: ProcessId) {
    && p in s.processes
    && (a.Tick? ==> s.processes[p].purger.Sleeping? && s.now + a.dt <= s.processes[p].purger.until)
    && (a.Purge? && a.p == p ==> a.ok)
    && a != PurgerCloser(p)
  }

  ghost predicate PurgerServesRun(cfg: Config, s: State, acts: seq<Action>, p: ProcessId)
    requires Valid(cfg, s, acts)
    decreases |acts|
  {
    acts == [] || (PurgerServes(s, acts[0], p) && PurgerServesRun(cfg, Apply(cfg, s, acts[0]), acts[1..], p))
  }

  /** A sleeping purger has left no row that had expired when it last purged. */
  ghost predicate PurgedUpTo(s: State, p: ProcessId) {
    && p in s.processes
    && (match s.processes[p].purger
        case AtPurge => forall n :: n in s.rows ==> s.now <= s.rows[n].Expires() + PURGER_PERIOD
        case Sleeping(until) =>
          && s.now <= until <= s.now + PURGER_PERIOD
          && forall n :: n in s.rows ==> until <= s.rows[n].Expires() + PURGER_PERIOD
        case Exited => false)
  }

  lemma PurgedUpToStep(cfg: Config, s: State, a: Action, p: ProcessId)
    requires PurgedUpTo(s, p) && Enabled(s, a) && PurgerServes(s, a, p)
    ensures PurgedUpTo(Apply(cfg, s, a), p)
  {
  }

  lemma {:induction false} PurgedUpToRun(cfg: Config, s: State, acts: seq<Action>, p: ProcessId)
    requires PurgedUpTo(s, p) && Valid(cfg, s, acts) && PurgerServesRun(cfg, s, acts, p)
    ensures PurgedUpTo(Run(cfg, s, acts), p)
    decreases |acts|
  {
    if acts != [] {
      PurgedUpToStep(cfg, s, acts[0], p);
      hide Apply, Enabled;
      PurgedUpToRun(cfg, Apply(cfg, s, acts[0]), acts[1..], p);
    }
  }

  /** Whatever becomes of its holder and of any Unlock, a row is gone 30 s and 5 min after its creation. */
  lemma RowLifetime(cfg: Config, s: State, acts: seq<Action>, p: ProcessId)
    requires Initial(s) && Valid(cfg, s, acts) && PurgerServesRun(cfg, s, acts, p) && p in s.processes
    ensures var s' := Run(cfg, s, acts);
            forall n :: n in s'.rows ==> s'.now <= s'.rows[n].created + 330_000
  {
    PurgedUpToRun(cfg, s, acts, p);
  }

  /** A row that expires at the very instant of a purge, which may leave it for the next one. */
  const OLDEST := PURGER_PERIOD - TTL

  function LongestLife(name: string, t: nat): seq<Action> {
    [Purge(0, {}, true), Tick(OLDEST), CallAcquire(0, name), Generate(0, t), XLock(0, Granted)]
    + [Tick(TTL), PurgerTimer(0), Purge(0, {}, true), Tick(PURGER_PERIOD)]
  }

  /** The state after the first five actions. */
  function Created(name: string, t: nat): State {
    State(OLDEST, map[name := Row(IdFor(name, t), OLDEST)],
          map[0 := Client(0, Holding(name, t, OLDEST)), 1 := Client(0, Idle)],
          map[0 := Process(false, Sleeping(PURGER_PERIOD))])
  }

  lemma {:induction false} ServedThrough(cfg: Config, acts: seq<Action>, states: seq<State>, p: ProcessId)
    requires |states| == |acts| + 1
    requires forall i :: 0 <= i < |acts| ==>
               && Enabled(states[i], acts[i]) && states[i + 1] == Apply(cfg, states[i], acts[i])
               && PurgerServes(states[i], acts[i], p)
    ensures Valid(cfg, states[0], acts) && PurgerServesRun(cfg, states[0], acts, p)
    ensures Run(cfg, states[0], acts) == states[|acts|]
    decreases |acts|
  {
    hide Apply, Enabled, PurgerServes;
    if acts != [] {
      ServedThrough(cfg, acts[1..], states[1..], p);
    }
  }

  lemma {:induction false} ServedAppend(cfg: Config, s: State, acts: seq<Action>, more: seq<Action>, p: ProcessId)
    requires Valid(cfg, s, acts) && PurgerServesRun(cfg, s, acts, p)
    requires Valid(cfg, Run(cfg, s, acts), more) && PurgerServesRun(cfg, Run(cfg, s, acts), more, p)
    ensures Valid(cfg, s, acts + more) && PurgerServesRun(cfg, s, acts + more, p)
    ensures Run(cfg, s, acts + more) == Run(cfg, Run(cfg, s, acts), more)
    decreases |acts|
  {
    hide Apply, Enabled, PurgerServes;
    if acts == [] {
      assert acts + more == more;
    } else {
      assert (acts + more)[1..] == acts[1..] + more;
      ServedAppend(cfg, Apply(cfg, s, acts[0]), acts[1..], more, p);
    }
  }

  lemma RunToCreated(cfg: Config, name: string, t: nat)
    ensures var acts := LongestLife(name, t)[..5];
            && Valid(cfg, START, acts) && PurgerServesRun(cfg, START, acts, 0)
            && Run(cfg, START, acts) == Created(name, t)
  {
    var acts := [Purge(0, {}, true), Tick(OLDEST), CallAcquire(0, name), Generate(0, t), XLock(0, Granted)];
    var s1 := START.(processes := map[0 := Process(false, Sleeping(PURGER_PERIOD))]);
    var s2 := s1.(now := OLDEST);
    var s3 := WithPc(s2, 0, Ready(name, 0));
    var s4 := WithPc(s2, 0, Attempting(name, 0, t));
    assert s1 == Apply(cfg, START, acts[0]);
    assert s4 == Apply(cfg, s3, acts[3]);
    assert Created(name, t) == Apply(cfg, s4, acts[4]);
    ServedThrough(cfg, acts, [START, s1, s2, s3, s4, Created(name, t)], 0);
    assert LongestLife(name, t)[..5] == acts;
  }

  lemma PurgeOfNothing(cfg: Config, s: State, s': State)
    requires s.processes == map[0 := Process(false, AtPurge)]
    requires s' == s.(processes := map[0 := Process(false, Sleeping(s.now + PURGER_PERIOD))])
    requires forall n <- s.rows.Keys :: s.now <= s.rows[n].Expires()
    ensures Enabled(s, Purge(0, {}, true)) && Apply(cfg, s, Purge(0, {}, true)) == s'
  {
    assert s.rows - {} == s.rows;
  }

  lemma RunFromCreated(cfg: Config, name: string, t: nat)
    ensures var acts := LongestLife(name, t)[5..];
            && Valid(cfg, Created(name, t), acts) && PurgerServesRun(cfg, Created(name, t), acts, 0)
            && Run(cfg, Created(name, t), acts).now == OLDEST + TTL + PURGER_PERIOD
            && Run(cfg, Created(name, t), acts).rows == Created(name, t).rows
  {
    var acts := [Tick(TTL), PurgerTimer(0), Purge(0, {}, true), Tick(PURGER_PERIOD)];
    var s0 := Created(name, t);
    var s1 := s0.(now := OLDEST + TTL);
    var s2 := s1.(processes := map[0 := Process(false, AtPurge)]);
    var s3 := s1.(processes := map[0 := Process(false, Sleeping(s1.now + PURGER_PERIOD))]);
    var s4 := s3.(now := s3.now + PURGER_PERIOD);
    assert s2 == Apply(cfg, s1, acts[1]);
    PurgeOfNothing(cfg, s2, s3);
    ServedThrough(cfg, acts, [s0, s1, s2, s3, s4], 0);
    assert LongestLife(name, t)[5..] == acts;
  }

  /** The bound of RowLifetime is met exactly. */
  lemma RowLifetimeIsMet(cfg: Config, name: string, t: nat)
    ensures var acts := LongestLife(name, t);
            && Initial(START) && Valid(cfg, START, acts) && PurgerServesRun(cfg, START, acts, 0)
            && var s := Run(cfg, START, acts);
               name in s.rows && s.now == s.rows[name].created + 330_000
  {
    var acts := LongestLife(name, t);
    RunToCreated(cfg, name, t);
    RunFromCreated(cfg, name, t);
    ServedAppend(cfg, START, acts[..5], acts[5..], 0);
    assert acts[..5] + acts[5..] == acts;
  }

  // ---------------------------------------------------------------------------------------
  // Purges

  /** How far off the purger's next purge is at least; never again once it has exited. */
  function UntilPurge(s: State, p: ProcessId): nat {
    if p !in s.processes || s.processes[p].purger.Exited? then PURGER_PERIOD
    else if s.processes[p].purger.AtPurge? then 0
    else Max0(s.processes[p].purger.until - s.now)
  }

  function Purges(acts: seq<Action>, p: ProcessId): nat {
    if acts == [] then 0 else (if acts[0].Purge? && acts[0].p == p then 1 else 0) + Purges(acts[1..], p)
  }

  lemma PurgesStep(cfg: Config, s: State, a: Action, p: ProcessId)
    requires UntilPurge(s, p) <= PURGER_PERIOD && Enabled(s, a)
    ensures var s' := Apply(cfg, s, a);
            && UntilPurge(s', p) <= PURGER_PERIOD
            && (if a.Purge? && a.p == p then PURGER_PERIOD else 0) + UntilPurge(s, p)
               <= s'.now - s.now + UntilPurge(s', p)
  {
  }

  lemma {:induction false} PurgesRun(cfg: Config, s: State, acts: seq<Action>, p: ProcessId)
    requires UntilPurge(s, p) <= PURGER_PERIOD && Valid(cfg, s, acts)
    ensures var s' := Run(cfg, s, acts);
            && UntilPurge(s', p) <= PURGER_PERIOD
            && Periods(Purges(acts, p), PURGER_PERIOD) + UntilPurge(s, p) <= s'.now - s.now + UntilPurge(s', p)
    decreases |acts|
  {
    if acts != [] {
      PurgesStep(cfg, s, acts[0], p);
      hide Apply, Enabled, UntilPurge;
      PurgesRun(cfg, Apply(cfg, s, acts[0]), acts[1..], p);
    }
  }

  /** One process purges every 5 minutes at most, the first time at once. */
  lemma PurgesAreSpaced(cfg: Config, s: State, acts: seq<Action>, p: ProcessId)
    requires Initial(s) && Valid(cfg, s, acts)
    ensures Purges(acts, p) * 300_000 <= Run(cfg, s, acts).now - s.now + 300_000
  {
    PurgesRun(cfg, s, acts, p);
    PeriodsIsProduct(Purges(acts, p), PURGER_PERIOD);
  }

  // ---------------------------------------------------------------------------------------
  // Waiting, at most

  function Max0(n: int): nat { if n < 0 then 0 else n }

  /** The time that passes in a step while c is in a select. */
  ghost function StepWait(s: State, a: Action, c: ClientId): nat {
    if a.Tick? && c in s.clients && s.clients[c].pc.InSelect() then a.dt else 0
  }

  /** The part of it after the select's timer is due, by which the wake-up is late. */
  ghost function StepOverdue(s: State, a: Action, c: ClientId): nat {
    if StepWait(s, a, c) == 0 then 0
    else
      var left := Max0(s.clients[c].pc.until - s.now);
      Max0(a.dt - left)
  }

  ghost function Waited(cfg: Config, s: State, acts: seq<Action>, c: ClientId): nat
    requires Valid(cfg, s, acts)
    decreases |acts|
  {
    if acts == [] then 0 else StepWait(s, acts[0], c) + Waited(cfg, Apply(cfg, s, acts[0]), acts[1..], c)
  }

  ghost function Overdue(cfg: Config, s: State, acts: seq<Action>, c: ClientId): nat
    requires Valid(cfg, s, acts)
    decreases |acts|
  {
    if acts == [] then 0 else StepOverdue(s, acts[0], c) + Overdue(cfg, Apply(cfg, s, acts[0]), acts[1..], c)
  }

  /** The waiting that n timers of one period can do. */
  function Periods(n: nat, period: nat): nat {
    if n == 0 then 0 else period + Periods(n - 1, period)
  }

  lemma {:induction false} PeriodsIsProduct(n: nat, period: nat)
    ensures Periods(n, period) == n * period
  {
    if n > 0 {
      PeriodsIsProduct(n - 1, period);
    }
  }

  /** The waiting that a call which begins with this action may do. */
  ghost function StepAllowance(cfg: Config, a: Action, c: ClientId): nat {
    if a.CallAcquire? && a.c == c then Periods(Max0(cfg.acquireMaxRetries), cfg.acquirePeriod)
    else if a.CallUnlock? && a.c == c then Periods(Max0(cfg.unlockMaxRetries), cfg.unlockPeriod)
    else 0
  }

  ghost function Allowance(cfg: Config, acts: seq<Action>, c: ClientId): nat {
    if acts == [] then 0 else StepAllowance(cfg, acts[0], c) + Allowance(cfg, acts[1..], c)
  }

  /** The retry counters stay within their maxima. */
  ghost predicate RetriesSound(cfg: Config, s: State, c: ClientId) {
    c in s.clients ==>
      match s.clients[c].pc
      case Ready(_, r) => r <= Max0(cfg.acquireMaxRetries)
      case Attempting(_, r, _) => r <= Max0(cfg.acquireMaxRetries)
      case Waiting(_, r, _) => r <= Max0(cfg.acquireMaxRetries)
      case Releasing(_, r) => r <= Max0(cfg.unlockMaxRetries)
      case ReleaseWaiting(_, r, _) => r <= Max0(cfg.unlockMaxRetries)
      case _ => true
  }

  /** The waiting that a client's current call can still do. */
  ghost function WaitLeft(cfg: Config, s: State, c: ClientId): nat
    requires RetriesSound(cfg, s, c)
  {
    if c !in s.clients then 0
    else
      match s.clients[c].pc
      case Ready(_, r) => Periods(Max0(cfg.acquireMaxRetries) - r, cfg.acquirePeriod)
      case Attempting(_, r, _) => Periods(Max0(cfg.acquireMaxRetries) - r, cfg.acquirePeriod)
      case Waiting(_, r, until) =>
        Max0(until - s.now) + Periods(Max0(cfg.acquireMaxRetries) - r, cfg.acquirePeriod)
      case Releasing(_, r) => Periods(Max0(cfg.unlockMaxRetries) - r, cfg.unlockPeriod)
      case ReleaseWaiting(_, r, until) =>
        Max0(until - s.now) + Periods(Max0(cfg.unlockMaxRetries) - r, cfg.unlockPeriod)
      case _ => 0
  }

  lemma WaitStep(cfg: Config, s: State, a: Action, c: ClientId)
    requires RetriesSound(cfg, s, c) && Enabled(s, a)
    ensures var s' := Apply(cfg, s, a);
            && RetriesSound(cfg, s', c)
            && StepWait(s, a, c) + WaitLeft(cfg, s', c)
               <= WaitLeft(cfg, s, c) + StepAllowance(cfg, a, c) + StepOverdue(s, a, c)
  {
    if a.OfClient(c) {
      OwnWaitStep(cfg, s, a, c);
    }
  }

  lemma OwnWaitStep(cfg: Config, s: State, a: Action, c: ClientId)
    requires RetriesSound(cfg, s, c) && Enabled(s, a) && a.OfClient(c)
    ensures var s' := Apply(cfg, s, a);
            && RetriesSound(cfg, s', c)
            && WaitLeft(cfg, s', c) <= WaitLeft(cfg, s, c) + StepAllowance(cfg, a, c)
  {
  }

  lemma {:induction false} WaitRun(cfg: Config, s: State, acts: seq<Action>, c: ClientId)
    requires RetriesSound(cfg, s, c) && Valid(cfg, s, acts)
    ensures Waited(cfg, s, acts, c) <= WaitLeft(cfg, s, c) + Allowance(cfg, acts, c) + Overdue(cfg, s, acts, c)
    decreases |acts|
  {
    if acts != [] {
      WaitStep(cfg, s, acts[0], c);
      WaitRun(cfg, Apply(cfg, s, acts[0]), acts[1..], c);
    }
  }

  /** c begins no call here. */
  predicate CallFree(acts: seq<Action>, c: ClientId) {
    forall i :: 0 <= i < |acts| && acts[i].OfClient(c) ==> !acts[i].CallAcquire? && !acts[i].CallUnlock?
  }

  /** The actions of one call of Acquire by c, with whatever others do meanwhile. */
  predicate OneAcquire(acts: seq<Action>, c: ClientId) {
    |acts| > 0 && acts[0].CallAcquire? && acts[0].c == c && CallFree(acts[1..], c)
  }

  predicate OneUnlock(acts: seq<Action>, c: ClientId) {
    |acts| > 0 && acts[0].CallUnlock? && acts[0].c == c && CallFree(acts[1..], c)
  }

  /**
   * A call of Acquire, however it ends, waits for at most acquireMaxRetries periods in all, and by
   * as much longer as its timers were overdue when it woke.
   */
  lemma AcquireWaits(cfg: Config, s: State, acts: seq<Action>, c: ClientId)
    requires Valid(cfg, s, acts) && OneAcquire(acts, c)
    ensures Waited(cfg, s, acts, c)
            <= Max0(cfg.acquireMaxRetries) * cfg.acquirePeriod + Overdue(cfg, s, acts, c)
    ensures cfg == DEFAULTS ==> Waited(cfg, s, acts, c) <= 2500 + Overdue(cfg, s, acts, c)
  {
    WaitRun(cfg, s, acts, c);
    NoCalls(cfg, acts[1..], c);
    PeriodsIsProduct(Max0(cfg.acquireMaxRetries), cfg.acquirePeriod);
  }

  lemma UnlockWaits(cfg: Config, s: State, acts: seq<Action>, c: ClientId)
    requires Valid(cfg, s, acts) && OneUnlock(acts, c)
    ensures Waited(cfg, s, acts, c)
            <= Max0(cfg.unlockMaxRetries) * cfg.unlockPeriod + Overdue(cfg, s, acts, c)
    ensures cfg == DEFAULTS ==> Waited(cfg, s, acts, c) <= 500 + Overdue(cfg, s, acts, c)
  {
    WaitRun(cfg, s, acts, c);
    NoCalls(cfg, acts[1..], c);
    PeriodsIsProduct(Max0(cfg.unlockMaxRetries), cfg.unlockPeriod);
  }

  lemma {:induction false} NoCalls(cfg: Config, acts: seq<Action>, c: ClientId)
    requires CallFree(acts, c)
    ensures Allowance(cfg, acts, c) == 0
  {
    if acts != [] {
      NoCalls(cfg, acts[1..], c);
    }
  }

  // ---------------------------------------------------------------------------------------
  // Waiting, at least

  /** How often c's timer fires. */
  function Fires(acts: seq<Action>, c: ClientId): nat {
    if acts == [] then 0 else (if acts[0] == TimerFires(c) then 1 else 0) + Fires(acts[1..], c)
  }

  /** c is in Unlock, or in Acquire; in neither when it is idle or holds its lock. */
  predicate InCall(pc: Pc, unlocking: bool) {
    match pc
    case Ready(_, _) => !unlocking
    case Attempting(_, _, _) => !unlocking
    case Waiting(_, _, _) => !unlocking
    case Releasing(_, _) => unlocking
    case ReleaseWaiting(_, _, _) => unlocking
    case _ => true
  }

  function PeriodOf(cfg: Config, unlocking: bool): nat {
    if unlocking then cfg.unlockPeriod else cfg.acquirePeriod
  }

  /** How much of its period c's armed timer has run. */
  ghost function Served(cfg: Config, s: State, c: ClientId, unlocking: bool): nat {
    if c in s.clients && s.clients[c].pc.InSelect()
    then Max0(PeriodOf(cfg, unlocking) - Max0(s.clients[c].pc.until - s.now))
    else 0
  }

  lemma ServedStep(cfg: Config, s: State, a: Action, c: ClientId, unlocking: bool)
    requires c in s.clients && InCall(s.clients[c].pc, unlocking) && Enabled(s, a)
    requires a.OfClient(c) ==> !a.CallAcquire? && !a.CallUnlock?
    ensures var s' := Apply(cfg, s, a);
            && c in s'.clients && InCall(s'.clients[c].pc, unlocking)
            && (if a == TimerFires(c) then PeriodOf(cfg, unlocking) else 0) + Served(cfg, s', c, unlocking)
               <= StepWait(s, a, c) + Served(cfg, s, c, unlocking)
  {
  }

  lemma {:induction false} ServedRun(cfg: Config, s: State, acts: seq<Action>, c: ClientId, unlocking: bool)
    requires c in s.clients && InCall(s.clients[c].pc, unlocking) && Valid(cfg, s, acts) && CallFree(acts, c)
    ensures Periods(Fires(acts, c), PeriodOf(cfg, unlocking)) <= Waited(cfg, s, acts, c) + Served(cfg, s, c, unlocking)
    decreases |acts|
  {
    if acts != [] {
      ServedStep(cfg, s, acts[0], c, unlocking);
      hide Apply, Enabled, Served, StepWait, InCall;
      ServedRun(cfg, Apply(cfg, s, acts[0]), acts[1..], c, unlocking);
    }
  }

  lemma {:induction false} WaitedIsElapsed(cfg: Config, s: State, acts: seq<Action>, c: ClientId)
    requires Valid(cfg, s, acts)
    ensures Waited(cfg, s, acts, c) <= Run(cfg, s, acts).now - s.now
    decreases |acts|
  {
    if acts != [] {
      WaitedIsElapsed(cfg, Apply(cfg, s, acts[0]), acts[1..], c);
    }
  }

  /** A call of Acquire waits for a whole period each time that its timer fires, and time passes meanwhile. */
  lemma AcquireWaitsAtLeast(cfg: Config, s: State, acts: seq<Action>, c: ClientId)
    requires Valid(cfg, s, acts) && OneAcquire(acts, c)
    ensures Fires(acts, c) * cfg.acquirePeriod <= Waited(cfg, s, acts, c) <= Run(cfg, s, acts).now - s.now
  {
    ServedRun(cfg, Apply(cfg, s, acts[0]), acts[1..], c, false);
    PeriodsIsProduct(Fires(acts, c), cfg.acquirePeriod);
    WaitedIsElapsed(cfg, s, acts, c);
  }

  lemma UnlockWaitsAtLeast(cfg: Config, s: State, acts: seq<Action>, c: ClientId)
    requires Valid(cfg, s, acts) && OneUnlock(acts, c)
    ensures Fires(acts, c) * cfg.unlockPeriod <= Waited(cfg, s, acts, c) <= Run(cfg, s, acts).now - s.now
  {
    ServedRun(cfg, Apply(cfg, s, acts[0]), acts[1..], c, true);
    PeriodsIsProduct(Fires(acts, c), cfg.unlockPeriod);
    WaitedIsElapsed(cfg, s, acts, c);
  }
}
