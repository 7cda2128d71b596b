/**
 * The distributed lock as a transition system. Any number of clients, in any number of
 * processes, share one lock collection; every action below is atomic and any enabled action
 * may come next. Times are in milliseconds.
 */
module LockProtocol {
  import opened LockId

  const TTL := 30_000
  const PURGER_PERIOD := 300_000

  type ClientId = nat
  type ProcessId = nat

  datatype Config = Config(
    acquirePeriod: nat, acquireMaxRetries: int,
    unlockPeriod: nat, unlockMaxRetries: int)

  /** The values that the package variables start with. */
  const DEFAULTS := Config(250, 10, 5, 100)

  /** A row of the lock collection; rows are keyed by lock name. */
  datatype Row = Row(lockId: string, created: nat) {
    function Expires(): nat { created + TTL }
  }

  /**
   * Where a client stands. A client is one caller with at most one lock: code that holds several
   * locks, or unlocks with an ID from elsewhere meanwhile, is several clients.
   */
  datatype Pc =
    | Idle
    | Ready(name: string, retries: nat)                                  // top of Acquire's loop
    | Attempting(name: string, retries: nat, time: nat)                  // lock ID printed, XLock under way
    | Waiting(name: string, retries: nat, until: nat)                    // in Acquire's select
    | Holding(name: string, time: nat, since: nat)                       // Acquire returned nil
    | Releasing(lockId: string, retries: nat)                            // top of Unlock's loop
    | ReleaseWaiting(lockId: string, retries: nat, until: nat)           // in Unlock's select
  {
    /** A client that holds an ID with which it may still call the store's Unlock. */
    predicate Live() { Holding? || Releasing? || ReleaseWaiting? }

    function Id(): string
      requires Live()
    {
      if Holding? then IdFor(name, time) else lockId
    }

    predicate InSelect() { Waiting? || ReleaseWaiting? }
  }

  datatype Client = Client(process: ProcessId, pc: Pc)

  datatype Purger = AtPurge | Sleeping(until: nat) | Exited

  datatype Process = Process(closed: bool, purger: Purger)

  datatype State = State(
    now: nat,
    rows: map<string, Row>,
    clients: map<ClientId, Client>,
    processes: map<ProcessId, Process>)

  /** A failed XLock may have inserted the row; its client does not learn whether. */
  datatype XLockReply = Granted | AlreadyLocked | Failed | FailedInserted {
    predicate Inserts() { Granted? || FailedInserted? }
  }

  /** A failed Unlock may or may not have reached the store. */
  datatype UnlockReply = Deleted | FailedUntouched | FailedDeleted

  datatype Action =
    | Tick(dt: nat)
    | CallAcquire(c: ClientId, name: string)
    | Generate(c: ClientId, time: nat)
    | XLock(c: ClientId, reply: XLockReply)
    | CallUnlock(c: ClientId, lockId: string)
    | UnlockRow(c: ClientId, outcome: UnlockReply)
    | TimerFires(c: ClientId)
    | SeesCloser(c: ClientId)
    | Purge(p: ProcessId, removed: set<string>, ok: bool)
    | PurgerTimer(p: ProcessId)
    | PurgerCloser(p: ProcessId)
    | Close(p: ProcessId)
  {
    predicate OfClient(k: ClientId) {
      match this
      case CallAcquire(c, _) => c == k
      case Generate(c, _) => c == k
      case XLock(c, _) => c == k
      case CallUnlock(c, _) => c == k
      case UnlockRow(c, _) => c == k
      case TimerFires(c) => c == k
      case SeesCloser(c) => c == k
      case _ => false
    }
  }

  predicate ClosedFor(s: State, c: ClientId)
    requires c in s.clients
  {
    s.clients[c].process in s.processes && s.processes[s.clients[c].process].closed
  }

  predicate Enabled(s: State, a: Action) {
    match a
    case Tick(_) => true
    case CallAcquire(c, _) => c in s.clients && s.clients[c].pc.Idle?
    case Generate(c, _) => c in s.clients && s.clients[c].pc.Ready?
    case XLock(c, reply) =>
      && c in s.clients && s.clients[c].pc.Attempting?
      && (reply.Inserts() ==> s.clients[c].pc.name !in s.rows)
      && (reply.AlreadyLocked? ==> s.clients[c].pc.name in s.rows)
    case CallUnlock(c, lockId) =>
      c in s.clients && (s.clients[c].pc.Idle? || (s.clients[c].pc.Holding? && s.clients[c].pc.Id() == lockId))
    case UnlockRow(c, _) => c in s.clients && s.clients[c].pc.Releasing?
    case TimerFires(c) => c in s.clients && s.clients[c].pc.InSelect() && s.clients[c].pc.until <= s.now
    case SeesCloser(c) => c in s.clients && s.clients[c].pc.InSelect() && ClosedFor(s, c)
    case Purge(p, removed, ok) =>
      && p in s.processes && s.processes[p].purger.AtPurge?
      && removed <= s.rows.Keys
      && (forall n <- removed :: s.rows[n].Expires() <= s.now)
      && (ok ==> forall n <- s.rows.Keys :: s.rows[n].Expires() < s.now ==> n in removed)
    case PurgerTimer(p) =>
      p in s.processes && s.processes[p].purger.Sleeping? && s.processes[p].purger.until <= s.now
    case PurgerCloser(p) =>
      p in s.processes && s.processes[p].purger.Sleeping? && s.processes[p].closed
    case Close(p) => p in s.processes && !s.processes[p].closed
  }

  function WithPc(s: State, c: ClientId, pc: Pc): State
    requires c in s.clients
  {
    s.(clients := s.clients[c := s.clients[c].(pc := pc)])
  }

  function WithPurger(s: State, p: ProcessId, purger: Purger): State
    requires p in s.processes
  {
    s.(processes := s.processes[p := s.processes[p].(purger := purger)])
  }

  /** The rows that do not carry a lock ID. */
  function Without(rows: map<string, Row>, lockId: string): map<string, Row> {
    map n | n in rows && rows[n].lockId != lockId :: rows[n]
  }

  function Apply(cfg: Config, s: State, a: Action): State
    requires Enabled(s, a)
  {
    match a
    case Tick(dt) => s.(now := s.now + dt)
    case CallAcquire(c, name) => WithPc(s, c, Ready(name, 0))
    case Generate(c, time) =>
      var pc := s.clients[c].pc;
      WithPc(s, c, Attempting(pc.name, pc.retries, time))
    case XLock(c, reply) =>
      var pc := s.clients[c].pc;
      var inserted := s.(rows := s.rows[pc.name := Row(IdFor(pc.name, pc.time), s.now)]);
      (match reply
       case Granted => WithPc(inserted, c, Holding(pc.name, pc.time, s.now))
       case Failed => WithPc(s, c, Idle)
       case FailedInserted => WithPc(inserted, c, Idle)
       case AlreadyLocked =>
         if pc.retries >= cfg.acquireMaxRetries then WithPc(s, c, Idle)
         else WithPc(s, c, Waiting(pc.name, pc.retries + 1, s.now + cfg.acquirePeriod)))
    case CallUnlock(c, lockId) => WithPc(s, c, Releasing(lockId, 0))
    case UnlockRow(c, outcome) =>
      var pc := s.clients[c].pc;
      var s' := if outcome.FailedUntouched? then s
                else s.(rows := Without(s.rows, pc.lockId));
      if outcome.Deleted? || pc.retries >= cfg.unlockMaxRetries then WithPc(s', c, Idle)
      else WithPc(s', c, ReleaseWaiting(pc.lockId, pc.retries + 1, s.now + cfg.unlockPeriod))
    case TimerFires(c) =>
      var pc := s.clients[c].pc;
      if pc.Waiting? then WithPc(s, c, Ready(pc.name, pc.retries))
      else WithPc(s, c, Releasing(pc.lockId, pc.retries))
    case SeesCloser(c) => WithPc(s, c, Idle)
    case Purge(p, removed, _) => WithPurger(s.(rows := s.rows - removed), p, Sleeping(s.now + PURGER_PERIOD))
    case PurgerTimer(p) => WithPurger(s, p, AtPurge)
    case PurgerCloser(p) => WithPurger(s, p, Exited)
    case Close(p) => s.(processes := s.processes[p := s.processes[p].(closed := true)])
  }

  /** An action sequence each of whose actions is enabled in turn. */
  predicate Valid(cfg: Config, s: State, acts: seq<Action>)
    decreases |acts|
  {
    acts == [] || (Enabled(s, acts[0]) && Valid(cfg, Apply(cfg, s, acts[0]), acts[1..]))
  }

  function Run(cfg: Config, s: State, acts: seq<Action>): State
    requires Valid(cfg, s, acts)
    decreases |acts|
  {
    if acts == [] then s else Run(cfg, Apply(cfg, s, acts[0]), acts[1..])
  }

  lemma {:induction false} RunAppend(cfg: Config, s: State, acts: seq<Action>, more: seq<Action>)
    requires Valid(cfg, s, acts)
    ensures Valid(cfg, s, acts + more) <==> Valid(cfg, Run(cfg, s, acts), more)
    ensures Valid(cfg, s, acts + more) ==> Run(cfg, s, acts + more) == Run(cfg, Run(cfg, s, acts), more)
    decreases |acts|
  {
    if acts == [] {
      assert acts + more == more;
    } else {
      assert (acts + more)[1..] == acts[1..] + more;
      RunAppend(cfg, Apply(cfg, s, acts[0]), acts[1..], more);
    }
  }

  /** Every process has just started, and nobody has asked for a lock. */
  predicate Initial(s: State) {
    && s.rows == map[]
    && (forall c <- s.clients :: s.clients[c].pc.Idle?)
    && (forall p <- s.processes :: s.processes[p] == Process(false, AtPurge))
  }

  /** Two clients of one process that has just started. */
  const START := State(0, map[], map[0 := Client(0, Idle), 1 := Client(0, Idle)], map[0 := Process(false, AtPurge)])

  /** A list of states, each the result of the next action on the one before it, is a run. */
  lemma {:induction false} RunsThrough(cfg: Config, acts: seq<Action>, states: seq<State>)
    requires |states| == |acts| + 1
    requires forall i :: 0 <= i < |acts| ==>
               Enabled(states[i], acts[i]) && states[i + 1] == Apply(cfg, states[i], acts[i])
    ensures Valid(cfg, states[0], acts)
    ensures (forall i :: 0 <= i < |acts| ==> Fresh(states[i], acts[i])) ==> FreshRun(cfg, states[0], acts)
    ensures Run(cfg, states[0], acts) == states[|acts|]
    decreases |acts|
  {
    hide Apply, Enabled, Fresh;
    if acts != [] {
      RunsThrough(cfg, acts[1..], states[1..]);
    }
  }

  /** No timer was armed for longer than its period. */
  ghost predicate TimersSound(cfg: Config, s: State) {
    forall c :: c in s.clients && s.clients[c].pc.InSelect() ==>
      s.clients[c].pc.until <= s.now + if s.clients[c].pc.Waiting? then cfg.acquirePeriod else cfg.unlockPeriod
  }

  lemma {:induction false} TimersSoundRun(cfg: Config, s: State, acts: seq<Action>)
    requires TimersSound(cfg, s) && Valid(cfg, s, acts)
    ensures TimersSound(cfg, Run(cfg, s, acts))
    decreases |acts|
  {
    if acts != [] {
      assert TimersSound(cfg, Apply(cfg, s, acts[0]));
      TimersSoundRun(cfg, Apply(cfg, s, acts[0]), acts[1..]);
    }
  }

  // ---------------------------------------------------------------------------------------
  // Mutual exclusion

  /** A client that holds a lock it was granted less than TTL ago. */
  predicate InTime(s: State, c: ClientId) {
    c in s.clients && s.clients[c].pc.Holding? && s.now < s.clients[c].pc.since + TTL
  }

  predicate HoldsInTime(s: State, c: ClientId, name: string) {
    InTime(s, c) && s.clients[c].pc.name == name
  }

  ghost predicate Exclusive(s: State) {
    forall c, d, name :: HoldsInTime(s, c, name) && HoldsInTime(s, d, name) ==> c == d
  }

  predicate LiveWith(s: State, d: ClientId, lockId: string) {
    d in s.clients && s.clients[d].pc.Live() && s.clients[d].pc.Id() == lockId
  }

  /**
   * The freshness hypothesis: a granted lock ID is not one with which another client may still
   * call Unlock, and a client that holds no lock does not call Unlock with the ID of one that does,
   * in time. Every other action is unconstrained.
   */
  ghost predicate Fresh(s: State, a: Action)
    requires Enabled(s, a)
  {
    match a
    case XLock(c, Granted) => forall d :: !LiveWith(s, d, IdFor(s.clients[c].pc.name, s.clients[c].pc.time))
    case CallUnlock(c, lockId) => s.clients[c].pc.Idle? ==> forall d :: InTime(s, d) ==> !LiveWith(s, d, lockId)
    case _ => true
  }

  /** For a grant, only time IDs printed for the same name matter. */
  lemma FreshIsPerName(s: State, c: ClientId)
    requires Enabled(s, XLock(c, Granted))
    ensures var pc := s.clients[c].pc;
            Fresh(s, XLock(c, Granted)) <==>
            forall d, name, t: nat :: LiveWith(s, d, IdFor(name, t)) && name == pc.name ==> t != pc.time
  {
    var pc := s.clients[c].pc;
    forall name, t: nat
      ensures IdFor(name, t) == IdFor(pc.name, pc.time) <==> name == pc.name && t == pc.time
    {
      LockIdsInjective(name, t, pc.name, pc.time);
    }
    if !Fresh(s, XLock(c, Granted)) {
      var d :| LiveWith(s, d, IdFor(pc.name, pc.time));
    }
  }

  ghost predicate FreshRun(cfg: Config, s: State, acts: seq<Action>)
    requires Valid(cfg, s, acts)
    decreases |acts|
  {
    acts == [] || (Fresh(s, acts[0]) && FreshRun(cfg, Apply(cfg, s, acts[0]), acts[1..]))
  }

  /** The store's row for a holder's name is the holder's own until its TTL has passed. */
  ghost predicate RowsBackHolders(s: State) {
    forall c :: c in s.clients && s.clients[c].pc.Holding? ==>
      var pc := s.clients[c].pc;
      && pc.since <= s.now
      && (s.now < pc.since + TTL ==> pc.name in s.rows && s.rows[pc.name] == Row(pc.Id(), pc.since))
  }

  /** Nobody else may call Unlock with the ID of a client that holds its lock in time. */
  ghost predicate HeldIdsUnique(s: State) {
    forall c, d :: InTime(s, c) && LiveWith(s, d, s.clients[c].pc.Id()) ==> c == d
  }

  ghost predicate Inv(s: State) {
    RowsBackHolders(s) && HeldIdsUnique(s)
  }

  /** An Unlock leaves the row of every other client that holds its lock in time. */
  lemma UnlockSparesOthers(cfg: Config, s: State, d: ClientId, outcome: UnlockReply)
    requires Inv(s) && Enabled(s, UnlockRow(d, outcome))
    ensures RowsBackHolders(Apply(cfg, s, UnlockRow(d, outcome)))
  {
    forall c | InTime(s, c)
      ensures s.clients[c].pc.Id() != s.clients[d].pc.lockId
    {
      assert LiveWith(s, d, s.clients[d].pc.lockId);
    }
  }

  lemma InvStep(cfg: Config, s: State, a: Action)
    requires Inv(s) && Enabled(s, a) && Fresh(s, a)
    ensures Inv(Apply(cfg, s, a))
  {
    RowsBackHoldersStep(cfg, s, a);
    HeldIdsUniqueStep(cfg, s, a);
  }

  lemma RowsBackHoldersStep(cfg: Config, s: State, a: Action)
    requires Inv(s) && Enabled(s, a)
    ensures RowsBackHolders(Apply(cfg, s, a))
  {
    if a.UnlockRow? {
      UnlockSparesOthers(cfg, s, a.c, a.outcome);
    }
  }

  /** An ID with which a client can newly call Unlock is not one that is held in time. */
  lemma NewIdsSpareHolders(cfg: Config, s: State, a: Action, d: ClientId, id: string)
    requires Enabled(s, a) && Fresh(s, a) && LiveWith(Apply(cfg, s, a), d, id)
    ensures LiveWith(s, d, id) || forall c :: InTime(s, c) ==> !LiveWith(s, c, id)
  {
  }

  lemma HeldIdsUniqueStep(cfg: Config, s: State, a: Action)
    requires Inv(s) && Enabled(s, a) && Fresh(s, a)
    ensures HeldIdsUnique(Apply(cfg, s, a))
  {
    var s' := Apply(cfg, s, a);
    forall c, d | InTime(s', c) && LiveWith(s', d, s'.clients[c].pc.Id())
      ensures c == d
    {
      var id := s'.clients[c].pc.Id();
      if InTime(s, c) {
        assert LiveWith(s, c, id);
        NewIdsSpareHolders(cfg, s, a, d, id);
      } else {
        assert a == XLock(c, Granted);
        assert c == d || LiveWith(s, d, id);
      }
    }
  }

  lemma {:induction false} InvRun(cfg: Config, s: State, acts: seq<Action>)
    requires Inv(s) && Valid(cfg, s, acts) && FreshRun(cfg, s, acts)
    ensures Inv(Run(cfg, s, acts))
    decreases |acts|
  {
    if acts != [] {
      InvStep(cfg, s, acts[0]);
      InvRun(cfg, Apply(cfg, s, acts[0]), acts[1..]);
    }
  }

  lemma InvExclusive(s: State)
    requires Inv(s)
    ensures Exclusive(s)
  {
    forall c, d, name | HoldsInTime(s, c, name) && HoldsInTime(s, d, name)
      ensures c == d
    {
      assert s.rows[name].lockId == s.clients[c].pc.Id() == s.clients[d].pc.Id();
      assert LiveWith(s, d, s.clients[c].pc.Id());
    }
  }

  /**
   * No interleaving of any number of clients, purges, ticks and Close calls breaks exclusion: of two
   * clients that hold one name, one was granted it 30 seconds ago or more.
   */
  lemma MutualExclusion(cfg: Config, s: State, acts: seq<Action>)
    requires Initial(s) && Valid(cfg, s, acts) && FreshRun(cfg, s, acts)
    ensures var s' := Run(cfg, s, acts);
            forall c, d :: c in s'.clients && d in s'.clients && c != d ==>
              var x, y := s'.clients[c].pc, s'.clients[d].pc;
              x.Holding? && y.Holding? && x.name == y.name ==>
                s'.now - x.since >= 30_000 || s'.now - y.since >= 30_000
  {
    InvRun(cfg, s, acts);
    var s' := Run(cfg, s, acts);
    InvExclusive(s');
    forall c, d | c in s'.clients && d in s'.clients && s'.clients[c].pc.Holding? && s'.clients[d].pc.Holding?
      ensures HoldsInTime(s', c, s'.clients[c].pc.name) && HoldsInTime(s', d, s'.clients[c].pc.name) ==> c == d
    {
    }
  }

  /** A row can be purged from 30 seconds after its creation on, and must be after that. */
  lemma PurgeableFrom(s: State, p: ProcessId, n: string, removed: set<string>, ok: bool)
    requires p in s.processes && s.processes[p].purger.AtPurge? && n in s.rows
    ensures Enabled(s, Purge(p, removed, ok)) ==>
              && (n in removed ==> s.now - s.rows[n].created >= 30_000)
              && (ok && s.now - s.rows[n].created > 30_000 ==> n in removed)
    ensures s.now - s.rows[n].created >= 30_000 ==> Enabled(s, Purge(p, {n}, false))
  {
  }

  // ---------------------------------------------------------------------------------------
  // Closing

  lemma {:induction false} ClosedRun(cfg: Config, s: State, acts: seq<Action>, c: ClientId)
    requires Valid(cfg, s, acts) && c in s.clients
    ensures var s' := Run(cfg, s, acts);
            && c in s'.clients && s'.clients[c].process == s.clients[c].process
            && (ClosedFor(s', c) <==> ClosedFor(s, c) || Close(s.clients[c].process) in acts)
    decreases |acts|
  {
    if acts != [] {
      var s1 := Apply(cfg, s, acts[0]);
      assert s1.clients[c].process == s.clients[c].process;
      assert ClosedFor(s1, c) <==> ClosedFor(s, c) || acts[0] == Close(s.clients[c].process);
      hide Apply, Enabled, ClosedFor;
      ClosedRun(cfg, s1, acts[1..], c);
    }
  }

  /** A client in a select can leave it by the closer's branch exactly if Close was called in its process. */
  lemma CloserNeedsClose(cfg: Config, s: State, acts: seq<Action>, c: ClientId)
    requires Initial(s) && Valid(cfg, s, acts) && c in s.clients
    ensures var s' := Run(cfg, s, acts);
            && c in s'.clients && s'.clients[c].process == s.clients[c].process
            && (Enabled(s', SeesCloser(c)) <==>
                  s'.clients[c].pc.InSelect() && Close(s.clients[c].process) in acts)
  {
    ClosedRun(cfg, s, acts, c);
  }

  // ---------------------------------------------------------------------------------------
  // Whose row an Unlock can delete

  /** Every row carries an ID that was printed for its own name. */
  ghost predicate RowsNamed(s: State) {
    forall n :: n in s.rows ==> NamedFor(n, s.rows[n].lockId)
  }

  ghost predicate NamedFor(name: string, lockId: string) {
    exists t: nat :: lockId == IdFor(name, t)
  }

  lemma {:induction false} RowsNamedRun(cfg: Config, s: State, acts: seq<Action>)
    requires RowsNamed(s) && Valid(cfg, s, acts)
    ensures RowsNamed(Run(cfg, s, acts))
    decreases |acts|
  {
    if acts != [] {
      if acts[0].XLock? && acts[0].reply.Inserts() {
        var pc := s.clients[acts[0].c].pc;
        assert NamedFor(pc.name, IdFor(pc.name, pc.time));
      }
      assert RowsNamed(Apply(cfg, s, acts[0]));
      RowsNamedRun(cfg, Apply(cfg, s, acts[0]), acts[1..]);
    }
  }

  /** In any run, an Unlock deletes the row of its own name or none, even if time IDs repeat. */
  lemma UnlockDeletesOwnRowOnly(cfg: Config, s: State, acts: seq<Action>, name: string, time: nat)
    requires Initial(s) && Valid(cfg, s, acts)
    ensures var rows := Run(cfg, s, acts).rows;
            Without(rows, IdFor(name, time)) ==
            if name in rows && rows[name].lockId == IdFor(name, time) then rows - {name} else rows
  {
    RowsNamedRun(cfg, s, acts);
    var rows := Run(cfg, s, acts).rows;
    forall n | n in rows && rows[n].lockId == IdFor(name, time)
      ensures n == name
    {
      var t: nat :| rows[n].lockId == IdFor(n, t);
      LockIdsInjective(n, t, name, time);
    }
  }
}
