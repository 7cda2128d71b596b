/** Acquire and Unlock as the loops they are, run against the shared lock collection. */
module LockClient {
  import opened LockId
  import opened LockProtocol
  import opened LockTiming

  datatype AcquireError = NoError | StoreError | AcquireMaxRetries | MongoDbClosing

  /** What a client's call sees: the store's replies and the ends of its waits. */
  datatype Event = Replied(reply: XLockReply) | UnlockReplied(outcome: UnlockReply) | Elapsed | Closing

  function EventsOf(a: Action, c: ClientId): seq<Event> {
    match a
    case XLock(k, reply) => if k == c then [Replied(reply)] else []
    case UnlockRow(k, outcome) => if k == c then [UnlockReplied(outcome)] else []
    case TimerFires(k) => if k == c then [Elapsed] else []
    case SeesCloser(k) => if k == c then [Closing] else []
    case _ => []
  }

  function Events(acts: seq<Action>, c: ClientId): seq<Event> {
    if acts == [] then [] else EventsOf(acts[0], c) + Events(acts[1..], c)
  }

  /** A change of the lock collection made by one action. */
  datatype Change = Change(before: map<string, Row>, after: map<string, Row>)

  /** The changes that c's own actions make. */
  function ChangesOf(cfg: Config, s: State, a: Action, c: ClientId): seq<Change>
    requires Enabled(s, a)
  {
    if a.OfClient(c) && Apply(cfg, s, a).rows != s.rows then [Change(s.rows, Apply(cfg, s, a).rows)] else []
  }

  function Changes(cfg: Config, s: State, acts: seq<Action>, c: ClientId): seq<Change>
    requires Valid(cfg, s, acts)
    decreases |acts|
  {
    if acts == [] then []
    else ChangesOf(cfg, s, acts[0], c) + Changes(cfg, Apply(cfg, s, acts[0]), acts[1..], c)
  }

  /** A run from s0 to s, with the events and the changes it holds for c. */
  ghost predicate Traced(
    cfg: Config, s0: State, run: seq<Action>, s: State, c: ClientId, events: seq<Event>, changes: seq<Change>) {
    && Valid(cfg, s0, run) && Run(cfg, s0, run) == s
    && Events(run, c) == events && Changes(cfg, s0, run, c) == changes
  }

  lemma {:induction false} EventsAppend(acts: seq<Action>, more: seq<Action>, c: ClientId)
    ensures Events(acts + more, c) == Events(acts, c) + Events(more, c)
  {
    if acts == [] {
      assert acts + more == more;
    } else {
      assert (acts + more)[1..] == acts[1..] + more;
      EventsAppend(acts[1..], more, c);
    }
  }

  lemma {:induction false} ChangesAppend(cfg: Config, s: State, acts: seq<Action>, more: seq<Action>, c: ClientId)
    requires Valid(cfg, s, acts) && Valid(cfg, Run(cfg, s, acts), more) && Valid(cfg, s, acts + more)
    ensures Changes(cfg, s, acts + more, c) == Changes(cfg, s, acts, c) + Changes(cfg, Run(cfg, s, acts), more, c)
    decreases |acts|
  {
    hide Apply, Enabled, ChangesOf;
    if acts == [] {
      assert acts + more == more;
    } else {
      assert (acts + more)[1..] == acts[1..] + more;
      ChangesAppend(cfg, Apply(cfg, s, acts[0]), acts[1..], more, c);
    }
  }

  lemma TracedAppend(
    cfg: Config, s0: State, run: seq<Action>, s1: State, more: seq<Action>, s2: State, c: ClientId,
    events: seq<Event>, changes: seq<Change>, events': seq<Event>, changes': seq<Change>)
    requires Traced(cfg, s0, run, s1, c, events, changes)
    requires Traced(cfg, s1, more, s2, c, events', changes')
    ensures Traced(cfg, s0, run + more, s2, c, events + events', changes + changes')
  {
    RunAppend(cfg, s0, run, more);
    EventsAppend(run, more, c);
    ChangesAppend(cfg, s0, run, more, c);
  }

  lemma TracedOne(cfg: Config, s: State, a: Action, c: ClientId)
    requires Enabled(s, a)
    ensures Traced(cfg, s, [a], Apply(cfg, s, a), c, EventsOf(a, c), ChangesOf(cfg, s, a, c))
  {
    assert [a][1..] == [];
  }

  /** Actions of others only. */
  predicate Foreign(acts: seq<Action>, c: ClientId) {
    forall i :: 0 <= i < |acts| ==> !acts[i].OfClient(c)
  }

  lemma {:induction false} ForeignRun(cfg: Config, s: State, acts: seq<Action>, c: ClientId)
    requires Valid(cfg, s, acts) && Foreign(acts, c) && c in s.clients
    ensures var s' := Run(cfg, s, acts);
            && c in s'.clients && s'.clients[c] == s.clients[c] && s.now <= s'.now
            && Traced(cfg, s, acts, s', c, [], [])
    decreases |acts|
  {
    if acts != [] {
      ForeignRun(cfg, Apply(cfg, s, acts[0]), acts[1..], c);
    }
  }

  /**
   * The lock collection and everyone who uses it. The code of one client acts through Do; around
   * its actions, Others lets any actions of the other clients, the purgers and the clock happen.
   */
  class Cluster {
    const cfg: Config
    var s: State

    constructor (cfg: Config, s: State)
      ensures this.cfg == cfg && this.s == s
    {
      this.cfg := cfg;
      this.s := s;
    }

    method Do(a: Action)
      requires Enabled(s, a)
      modifies this
      ensures s == Apply(cfg, old(s), a)
    {
      s := Apply(cfg, s, a);
    }

    method Others(c: ClientId) returns (acts: seq<Action>)
      modifies this
      ensures Foreign(acts, c) && Valid(cfg, old(s), acts) && s == Run(cfg, old(s), acts)
    {
      acts := *;
      if !(Foreign(acts, c) && Valid(cfg, s, acts)) {
        acts := [];
      }
      s := Run(cfg, s, acts);
    }

    predicate Selectable(c: ClientId)
      reads this
      requires c in s.clients && s.clients[c].pc.InSelect()
    {
      s.clients[c].pc.until <= s.now || ClosedFor(s, c)
    }

    /** Others act until a branch of c's select is ready, as the timer's is in the end. */
    method Await(c: ClientId) returns (acts: seq<Action>)
      requires c in s.clients && s.clients[c].pc.InSelect()
      modifies this
      ensures Foreign(acts, c) && Valid(cfg, old(s), acts) && s == Run(cfg, old(s), acts)
      ensures c in s.clients && s.clients[c] == old(s.clients[c]) && Selectable(c)
    {
      ghost var s0 := s;
      acts := Others(c);
      ForeignRun(cfg, s0, acts, c);
      if !Selectable(c) {
        var tick := [Tick(s.clients[c].pc.until - s.now)];
        RunAppend(cfg, s0, acts, tick);
        Do(tick[0]);
        acts := acts + tick;
      }
    }
  }

  // ---------------------------------------------------------------------------------------
  // What the loops are to do

  /** The first n rounds of a call each end in a refusal or failure and then a full wait. */
  predicate Retried(events: seq<Event>, n: nat, refusal: Event -> bool) {
    && 2 * n <= |events|
    && (forall i :: 0 <= i < n ==> refusal(events[2 * i]))
    && (forall i :: 0 <= i < n ==> events[2 * i + 1] == Elapsed)
  }

  const REFUSED := (e: Event) => e == Replied(AlreadyLocked)
  const UNLOCK_FAILED := (e: Event) => e.UnlockReplied? && e.outcome != Deleted

  /** How Acquire's last round, after n refused ones, is to be answered. */
  predicate AnswersLast(last: seq<Event>, n: nat, maxRetries: int, err: AcquireError) {
    match err
    case NoError => last == [Replied(Granted)]
    case StoreError => last in {[Replied(Failed)], [Replied(FailedInserted)]}
    case AcquireMaxRetries => n >= maxRetries && last == [Replied(AlreadyLocked)]
    case MongoDbClosing => n < maxRetries && last == [Replied(AlreadyLocked), Closing]
  }

  ghost predicate AnswersAfter(events: seq<Event>, n: nat, maxRetries: int, err: AcquireError) {
    && Retried(events, n, REFUSED) && (n == 0 || n <= maxRetries)
    && AnswersLast(events[2 * n..], n, maxRetries, err)
  }

  /** Acquire's answer to a call with these events. */
  ghost predicate Answers(events: seq<Event>, maxRetries: int, err: AcquireError) {
    exists n: nat :: AnswersAfter(events, n, maxRetries, err)
  }

  /** The call has seen a grant, or a failure that had inserted its row. */
  predicate Inserts(events: seq<Event>) {
    Replied(Granted) in events || Replied(FailedInserted) in events
  }

  /** Each answer, by what the call has seen; so the events determine the answer. */
  lemma AnswersMeaning(events: seq<Event>, maxRetries: int, err: AcquireError)
    requires Answers(events, maxRetries, err)
    ensures err == NoError <==> Replied(Granted) in events
    ensures err == StoreError <==> Replied(Failed) in events || Replied(FailedInserted) in events
    ensures err == MongoDbClosing <==> Closing in events
    ensures err == AcquireMaxRetries <==>
            && Closing !in events
            && forall e <- events :: e.Replied? ==> e.reply == AlreadyLocked
  {
    var n: nat :| AnswersAfter(events, n, maxRetries, err);
    forall e
      ensures e in events[2 * n..] ==> e in events
      ensures e in events ==> e in events[2 * n..] || e == Replied(AlreadyLocked) || e == Elapsed
    {
      RetriedMembers(events, n, e);
    }
    hide Retried;
  }

  /** There are at most maxRetries + 1 attempts, and exactly as many when the retries run out. */
  lemma AnswersLength(events: seq<Event>, maxRetries: int, err: AcquireError)
    requires Answers(events, maxRetries, err)
    ensures err == AcquireMaxRetries ==> |events| == 2 * (if maxRetries < 0 then 0 else maxRetries) + 1
    ensures |events| <= 2 * (if maxRetries < 0 then 0 else maxRetries) + 1
  {
    var n: nat :| AnswersAfter(events, n, maxRetries, err);
    assert |events| == 2 * n + |events[2 * n..]|;
  }

  /**
   * A call of Unlock ends with a deletion, on the closer, or when the retries run out; it makes at
   * most maxRetries + 1 attempts, and exactly as many in the last case.
   */
  lemma UnlocksMeaning(events: seq<Event>, maxRetries: int)
    requires Unlocks(events, maxRetries)
    ensures |events| <= 2 * (if maxRetries < 0 then 0 else maxRetries) + 1
    ensures UnlockReplied(Deleted) in events <==> |events| > 0 && events[|events| - 1] == UnlockReplied(Deleted)
    ensures Closing in events <==> |events| > 0 && events[|events| - 1] == Closing
    ensures UnlockReplied(Deleted) !in events && Closing !in events ==>
              |events| == 2 * (if maxRetries < 0 then 0 else maxRetries) + 1
  {
    var n: nat :| UnlocksAfter(events, n, maxRetries);
    var last := events[2 * n..];
    assert |events| == 2 * n + |last| && events[|events| - 1] == last[|last| - 1];
    forall i | 0 <= i < 2 * n
      ensures events[i] != Closing && events[i] != UnlockReplied(Deleted)
    {
      assert i == 2 * (i / 2) || i == 2 * (i / 2) + 1;
    }
    forall e | e in events && e !in last
      ensures e != Closing && e != UnlockReplied(Deleted)
    {
      var i :| 0 <= i < |events| && events[i] == e;
      assert events == events[..2 * n] + last;
    }
    hide Retried;
  }

  /** Refused rounds hold refusals and full waits only. */
  lemma RetriedMembers(events: seq<Event>, n: nat, e: Event)
    requires Retried(events, n, REFUSED)
    ensures e in events[2 * n..] ==> e in events
    ensures e in events ==> e in events[2 * n..] || e == Replied(AlreadyLocked) || e == Elapsed
  {
    if e in events && e !in events[2 * n..] {
      var i :| 0 <= i < |events| && events[i] == e;
      assert events == events[..2 * n] + events[2 * n..];
      assert i == 2 * (i / 2) || i == 2 * (i / 2) + 1;
    }
  }

  /** Unlock's last round, after n failed ones. */
  predicate UnlocksLast(last: seq<Event>, n: nat, maxRetries: int) {
    || last == [UnlockReplied(Deleted)]
    || (n >= maxRetries && |last| == 1 && UNLOCK_FAILED(last[0]))
    || (n < maxRetries && |last| == 2 && UNLOCK_FAILED(last[0]) && last[1] == Closing)
  }

  ghost predicate UnlocksAfter(events: seq<Event>, n: nat, maxRetries: int) {
    && Retried(events, n, UNLOCK_FAILED) && (n == 0 || n <= maxRetries)
    && UnlocksLast(events[2 * n..], n, maxRetries)
  }

  /** The events of a call of Unlock that has returned. */
  ghost predicate Unlocks(events: seq<Event>, maxRetries: int) {
    exists n: nat :: UnlocksAfter(events, n, maxRetries)
  }

  lemma RoundDone(events: seq<Event>, n: nat, refusal: Event -> bool, round: seq<Event>)
    requires Retried(events, n, refusal) && |events| == 2 * n
    requires |round| == 2 && refusal(round[0]) && round[1] == Elapsed
    ensures Retried(events + round, n + 1, refusal) && |events + round| == 2 * (n + 1)
  {
  }

  lemma LastRound(events: seq<Event>, n: nat, refusal: Event -> bool, last: seq<Event>)
    requires Retried(events, n, refusal) && |events| == 2 * n
    ensures Retried(events + last, n, refusal) && (events + last)[2 * n..] == last
  {
  }

  lemma AnswersAtLast(events: seq<Event>, n: nat, maxRetries: int, last: seq<Event>, err: AcquireError)
    requires Retried(events, n, REFUSED) && |events| == 2 * n && (n == 0 || n <= maxRetries)
    requires AnswersLast(last, n, maxRetries, err)
    ensures Answers(events + last, maxRetries, err)
    ensures Inserts(events + last) <==> Inserts(last)
  {
    LastRound(events, n, REFUSED, last);
    forall e
      ensures e in events + last ==> e in last || e == Replied(AlreadyLocked) || e == Elapsed
    {
      RetriedMembers(events + last, n, e);
    }
    assert AnswersAfter(events + last, n, maxRetries, err);
  }

  lemma UnlocksAtLast(events: seq<Event>, n: nat, maxRetries: int, last: seq<Event>)
    requires Retried(events, n, UNLOCK_FAILED) && |events| == 2 * n && (n == 0 || n <= maxRetries)
    requires UnlocksLast(last, n, maxRetries)
    ensures Unlocks(events + last, maxRetries)
    ensures UnlockReplied(Deleted) in events + last ==> last == [UnlockReplied(Deleted)]
    ensures Closing in events + last ==> Closing in last
  {
    LastRound(events, n, UNLOCK_FAILED, last);
    assert UnlocksAfter(events + last, n, maxRetries);
    forall i | 0 <= i < 2 * n
      ensures events[i] != UnlockReplied(Deleted) && events[i] != Closing
    {
      assert i == 2 * (i / 2) || i == 2 * (i / 2) + 1;
    }
  }

  /** One change, which adds the row for a name, with a lock ID. */
  predicate AddsRow(changes: seq<Change>, name: string, lockId: string) {
    && |changes| == 1 && name !in changes[0].before && name in changes[0].after
    && changes[0].after[name].lockId == lockId
    && changes[0].after == changes[0].before[name := changes[0].after[name]]
  }

  /** The lock collection's part in a call of Acquire, and what the caller is left with. */
  predicate AcquireEffect(
    name: string, pc: Pc, lockId: string, granted: bool, inserted: bool, changes: seq<Change>)
  {
    && (if inserted then AddsRow(changes, name, lockId) else changes == [])
    && (granted ==>
          && pc.Holding? && pc.name == name && pc.Id() == lockId
          && inserted && changes[0].after[name].created == pc.since)
  }

  /** What one XLock does to the lock collection and to its client. */
  lemma XLockEffect(cfg: Config, s: State, c: ClientId, reply: XLockReply)
    requires Enabled(s, XLock(c, reply))
    ensures var s' := Apply(cfg, s, XLock(c, reply));
            var before, pc := s.clients[c].pc, s'.clients[c].pc;
            && AcquireEffect(before.name, pc, IdFor(before.name, before.time), reply.Granted?, reply.Inserts(),
                             ChangesOf(cfg, s, XLock(c, reply), c))
            && (reply in {Failed, FailedInserted} ==> pc == Idle)
            && (reply.AlreadyLocked? ==>
                  && before.name in s.rows
                  && if before.retries >= cfg.acquireMaxRetries then pc == Idle
                  else pc.Waiting? && pc.name == before.name && pc.retries == before.retries + 1)
  {
  }

  /** The same for one Unlock. */
  lemma UnlockEffect(cfg: Config, s: State, c: ClientId, outcome: UnlockReply)
    requires Enabled(s, UnlockRow(c, outcome))
    ensures var s' := Apply(cfg, s, UnlockRow(c, outcome));
            var before, pc := s.clients[c].pc, s'.clients[c].pc;
            && OnlyRemoves(ChangesOf(cfg, s, UnlockRow(c, outcome), c), before.lockId)
            && (outcome.Deleted? ==> NoRowWith(s', before.lockId))
            && (if outcome.Deleted? || before.retries >= cfg.unlockMaxRetries then pc == Idle
                else pc.ReleaseWaiting? && pc.lockId == before.lockId && pc.retries == before.retries + 1)
  {
  }

  /** Others act, and then c does. */
  lemma OthersThen(cfg: Config, s: State, others: seq<Action>, c: ClientId, a: Action)
    requires Valid(cfg, s, others) && Foreign(others, c) && c in s.clients
    requires Enabled(Run(cfg, s, others), a) && !a.CallAcquire? && !a.CallUnlock?
    ensures var s1 := Run(cfg, s, others);
            && Traced(cfg, s, others + [a], Apply(cfg, s1, a), c, EventsOf(a, c), ChangesOf(cfg, s1, a, c))
            && CallFree(others + [a], c)
  {
    ForeignRun(cfg, s, others, c);
    var s1 := Run(cfg, s, others);
    TracedOne(cfg, s1, a, c);
    TracedAppend(cfg, s, others, s1, [a], Apply(cfg, s1, a), c, [], [], EventsOf(a, c), ChangesOf(cfg, s1, a, c));
    assert [] + EventsOf(a, c) == EventsOf(a, c) && [] + ChangesOf(cfg, s1, a, c) == ChangesOf(cfg, s1, a, c);
  }

  predicate NoRowWith(s: State, lockId: string) {
    forall n <- s.rows :: s.rows[n].lockId != lockId
  }

  /** Changes that each remove exactly the rows with one lock ID. */
  ghost predicate OnlyRemoves(changes: seq<Change>, lockId: string) {
    forall i :: 0 <= i < |changes| ==> Removes(changes[i].before, changes[i].after, lockId)
  }

  ghost predicate Removes(before: map<string, Row>, after: map<string, Row>, lockId: string) {
    && (forall n :: n in after <==> n in before && before[n].lockId != lockId)
    && (forall n :: n in after ==> after[n] == before[n])
  }

  lemma RemovesAppend(changes: seq<Change>, more: seq<Change>, lockId: string)
    requires OnlyRemoves(changes, lockId) && OnlyRemoves(more, lockId)
    ensures OnlyRemoves(changes + more, lockId)
  {
  }

  // ---------------------------------------------------------------------------------------
  // How long the loops take

  function Elapses(events: seq<Event>): nat {
    if events == [] then 0 else (if events[0] == Elapsed then 1 else 0) + Elapses(events[1..])
  }

  lemma {:induction false} FiresAreElapses(acts: seq<Action>, c: ClientId)
    ensures Fires(acts, c) == Elapses(Events(acts, c))
  {
    if acts != [] {
      FiresAreElapses(acts[1..], c);
      var first := EventsOf(acts[0], c);
      assert |first| == 1 ==> (first + Events(acts[1..], c))[1..] == Events(acts[1..], c);
      assert first == [] ==> first + Events(acts[1..], c) == Events(acts[1..], c);
    }
  }

  lemma {:induction false} RetriedElapses(events: seq<Event>, n: nat, refusal: Event -> bool)
    requires Retried(events, n, refusal)
    ensures Elapses(events) >= n
  {
    if n > 0 {
      forall i | 0 <= i < n - 1
        ensures refusal(events[2..][2 * i]) && events[2..][2 * i + 1] == Elapsed
      {
        assert refusal(events[2 * (i + 1)]) && events[2 * (i + 1) + 1] == Elapsed;
      }
      assert Retried(events[2..], n - 1, refusal);
      RetriedElapses(events[2..], n - 1, refusal);
      assert events[2 * 0 + 1] == Elapsed && events[1..][1..] == events[2..];
    }
  }

  lemma MorePeriods(n: nat, m: nat, period: nat)
    requires n <= m
    ensures n * period <= m * period
  {
  }

  /** n whole periods pass in a call of Acquire with n retries, so the retries cannot run out before that. */
  lemma AcquireTakesTime(cfg: Config, s: State, acts: seq<Action>, c: ClientId, err: AcquireError)
    requires Valid(cfg, s, acts) && OneAcquire(acts, c) && Answers(Events(acts, c), cfg.acquireMaxRetries, err)
    ensures Elapses(Events(acts, c)) * cfg.acquirePeriod <= Run(cfg, s, acts).now - s.now
    ensures err == AcquireMaxRetries ==>
              Run(cfg, s, acts).now - s.now >= Max0(cfg.acquireMaxRetries) * cfg.acquirePeriod
    ensures err == AcquireMaxRetries && cfg == DEFAULTS ==>
              |Events(acts, c)| == 21 && Run(cfg, s, acts).now - s.now >= 2500
  {
    AcquireWaitsAtLeast(cfg, s, acts, c);
    AnswersLength(Events(acts, c), cfg.acquireMaxRetries, err);
    FiresAreElapses(acts, c);
    var n: nat :| AnswersAfter(Events(acts, c), n, cfg.acquireMaxRetries, err);
    RetriedElapses(Events(acts, c), n, REFUSED);
    if err == AcquireMaxRetries {
      MorePeriods(Max0(cfg.acquireMaxRetries), Elapses(Events(acts, c)), cfg.acquirePeriod);
    }
  }

  lemma UnlockTakesTime(cfg: Config, s: State, acts: seq<Action>, c: ClientId)
    requires Valid(cfg, s, acts) && OneUnlock(acts, c) && Unlocks(Events(acts, c), cfg.unlockMaxRetries)
    ensures Elapses(Events(acts, c)) * cfg.unlockPeriod <= Run(cfg, s, acts).now - s.now
    ensures UnlockReplied(Deleted) !in Events(acts, c) && Closing !in Events(acts, c) ==>
              && Run(cfg, s, acts).now - s.now >= Max0(cfg.unlockMaxRetries) * cfg.unlockPeriod
              && (cfg == DEFAULTS ==> |Events(acts, c)| == 201 && Run(cfg, s, acts).now - s.now >= 500)
  {
    UnlockWaitsAtLeast(cfg, s, acts, c);
    UnlocksMeaning(Events(acts, c), cfg.unlockMaxRetries);
    FiresAreElapses(acts, c);
    var n: nat :| UnlocksAfter(Events(acts, c), n, cfg.unlockMaxRetries);
    RetriedElapses(Events(acts, c), n, UNLOCK_FAILED);
    if UnlockReplied(Deleted) !in Events(acts, c) && Closing !in Events(acts, c) {
      var last := Events(acts, c)[2 * n..];
      assert |last| > 0 && last[|last| - 1] in Events(acts, c);
      assert n >= Max0(cfg.unlockMaxRetries);
      MorePeriods(Max0(cfg.unlockMaxRetries), Elapses(Events(acts, c)), cfg.unlockPeriod);
    }
  }

  /** A lock ID that this kind of resource prints, with a time ID of the default generator. */
  ghost predicate PrintedFor(lockId: string, resource: string, id: string) {
    exists t: nat :: t < 1_000_000_000 && lockId == PrintLockId(resource, id, t)
  }

  // ---------------------------------------------------------------------------------------
  // The loops

  /** A lock on one kind of resource, used by the clients of one process. */
  class Lock {
    const cluster: Cluster
    const resource: string

    constructor (cluster: Cluster, resource: string)
      ensures this.cluster == cluster && this.resource == resource
    {
      this.cluster := cluster;
      this.resource := resource;
    }

    /** The nanosecond within the current second. */
    method GenerateTimeId() returns (t: nat)
      ensures t < 1_000_000_000
    {
      t := *;
      t := t % 1_000_000_000;
    }

    /** One call of the store's XLock, with others acting before it. */
    method CallXLock(c: ClientId) returns (reply: XLockReply, run: seq<Action>)
      requires c in cluster.s.clients && cluster.s.clients[c].pc.Attempting?
      modifies cluster
      ensures c in cluster.s.clients && Valid(cluster.cfg, old(cluster.s), run) && CallFree(run, c)
      ensures var before := old(cluster.s.clients[c].pc);
              var pc := cluster.s.clients[c].pc;
              var changes := Changes(cluster.cfg, old(cluster.s), run, c);
              && Traced(cluster.cfg, old(cluster.s), run, cluster.s, c, [Replied(reply)], changes)
              && AcquireEffect(before.name, pc, IdFor(before.name, before.time), reply.Granted?, reply.Inserts(),
                               changes)
              && (reply in {Failed, FailedInserted} ==> pc == Idle)
              && (reply.AlreadyLocked? ==>
                    if before.retries >= cluster.cfg.acquireMaxRetries then pc == Idle
                    else pc.Waiting? && pc.name == before.name && pc.retries == before.retries + 1)
    {
      var cfg := cluster.cfg;
      ghost var s0 := cluster.s;
      var others := cluster.Others(c);
      ForeignRun(cfg, s0, others, c);
      ghost var s1 := cluster.s;
      reply := *;
      if !Enabled(cluster.s, XLock(c, reply)) {
        reply := if cluster.s.clients[c].pc.name in cluster.s.rows then AlreadyLocked else Granted;
      }
      cluster.Do(XLock(c, reply));
      XLockEffect(cfg, s1, c, reply);
      OthersThen(cfg, s0, others, c, XLock(c, reply));
      run := others + [XLock(c, reply)];
      hide Apply, Enabled, Valid, Run, Events, Changes, ChangesOf;
    }

    /** One attempt: a new lock ID and one XLock call, with others acting in between. */
    method TryLock(c: ClientId, id: string) returns (lockId: string, reply: XLockReply, run: seq<Action>)
      requires c in cluster.s.clients && cluster.s.clients[c].pc.Ready?
      requires cluster.s.clients[c].pc.name == LockName(resource, id)
      modifies cluster
      ensures Valid(cluster.cfg, old(cluster.s), run) && cluster.s == Run(cluster.cfg, old(cluster.s), run)
      ensures Events(run, c) == [Replied(reply)] && c in cluster.s.clients && CallFree(run, c)
      ensures PrintedFor(lockId, resource, id)
      ensures var pc := cluster.s.clients[c].pc;
              var retries := old(cluster.s.clients[c].pc.retries);
              && AcquireEffect(LockName(resource, id), pc, lockId, reply.Granted?, reply.Inserts(),
                               Changes(cluster.cfg, old(cluster.s), run, c))
              && (reply in {Failed, FailedInserted} ==> pc == Idle)
              && (reply.AlreadyLocked? ==>
                    if retries >= cluster.cfg.acquireMaxRetries then pc == Idle
                    else pc.Waiting? && pc.name == LockName(resource, id) && pc.retries == retries + 1)
    {
      var cfg := cluster.cfg;
      ghost var s0 := cluster.s;
      var t := GenerateTimeId();
      lockId := IdFor(LockName(resource, id), t);
      assert lockId == PrintLockId(resource, id, t);
      cluster.Do(Generate(c, t));
      TracedOne(cfg, s0, Generate(c, t), c);
      hide Enabled, Valid, Run, Events, Changes;
      ghost var s1 := cluster.s;
      var call;
      reply, call := CallXLock(c);
      ghost var changes := Changes(cfg, s1, call, c);
      TracedAppend(cfg, s0, [Generate(c, t)], s1, call, cluster.s, c, [], [], [Replied(reply)], changes);
      assert [] + changes == changes;
      run := [Generate(c, t)] + call;
    }

    /** Any caller may unlock with any lock ID; one that holds a lock here does so with its own. */
    static predicate MayUnlock(pc: Pc, lockId: string) {
      pc.Idle? || (pc.Holding? && pc.Id() == lockId)
    }

    /** The call itself: c comes to the top of its loop. */
    method Enter(c: ClientId, call: Action) returns (run: seq<Action>)
      requires c in cluster.s.clients
      requires (call.CallAcquire? && call.c == c && cluster.s.clients[c].pc.Idle?)
            || (call.CallUnlock? && call.c == c && MayUnlock(cluster.s.clients[c].pc, call.lockId))
      modifies cluster
      ensures c in cluster.s.clients && Traced(cluster.cfg, old(cluster.s), run, cluster.s, c, [], [])
      ensures cluster.s.clients[c].pc == if call.CallAcquire? then Ready(call.name, 0) else Releasing(call.lockId, 0)
      ensures run == [call]
    {
      TracedOne(cluster.cfg, cluster.s, call, c);
      cluster.Do(call);
      run := [call];
    }

    /** The select at the foot of both loops: the timer's branch or, if it is ready, the closer's. */
    method Select(c: ClientId) returns (closing: bool, run: seq<Action>)
      requires c in cluster.s.clients && cluster.s.clients[c].pc.InSelect()
      modifies cluster
      ensures c in cluster.s.clients && CallFree(run, c) && (closing ==> ClosedFor(cluster.s, c))
      ensures Traced(cluster.cfg, old(cluster.s), run, cluster.s, c, [if closing then Closing else Elapsed], [])
      ensures var pc := old(cluster.s.clients[c].pc);
              cluster.s.clients[c].pc ==
                if closing then Idle
                else if pc.Waiting? then Ready(pc.name, pc.retries)
                else Releasing(pc.lockId, pc.retries)
    {
      var cfg := cluster.cfg;
      ghost var s0 := cluster.s;
      var others := cluster.Await(c);
      ForeignRun(cfg, s0, others, c);
      ghost var s1 := cluster.s;
      var choice: bool := *;
      closing := ClosedFor(cluster.s, c) && (choice || cluster.s.now < cluster.s.clients[c].pc.until);
      var a := if closing then SeesCloser(c) else TimerFires(c);
      cluster.Do(a);
      OthersThen(cfg, s0, others, c, a);
      run := others + [a];
    }

    /** One pass through Acquire's loop body: it returns an error to the caller, or is to be repeated. */
    method AcquirePass(c: ClientId, id: string, retries: nat)
      returns (lockId: string, done: bool, err: AcquireError, run: seq<Action>, ghost last: seq<Event>)
      requires c in cluster.s.clients && cluster.s.clients[c].pc == Ready(LockName(resource, id), retries)
      modifies cluster
      ensures c in cluster.s.clients && Valid(cluster.cfg, old(cluster.s), run)
      ensures var changes := Changes(cluster.cfg, old(cluster.s), run, c);
              && Traced(cluster.cfg, old(cluster.s), run, cluster.s, c, last, changes)
              && AcquireEffect(LockName(resource, id), cluster.s.clients[c].pc, lockId, done && err.NoError?,
                               Inserts(last), changes)
      ensures if done then AnswersLast(last, retries, cluster.cfg.acquireMaxRetries, err)
              else retries < cluster.cfg.acquireMaxRetries && last == [Replied(AlreadyLocked), Elapsed]
      ensures !done ==> cluster.s.clients[c].pc == Ready(LockName(resource, id), retries + 1)
      ensures done && !err.NoError? ==> cluster.s.clients[c].pc == Idle
      ensures done && err in {AcquireMaxRetries, MongoDbClosing} ==> lockId == ""
      ensures done && err in {NoError, StoreError} ==> PrintedFor(lockId, resource, id)
      ensures CallFree(run, c) && (done && err == MongoDbClosing ==> ClosedFor(cluster.s, c))
    {
      hide Apply, Enabled, Valid, Run, Events, Changes;
      ghost var s0 := cluster.s;
      var reply;
      lockId, reply, run := TryLock(c, id);
      last := [Replied(reply)];
      if reply != AlreadyLocked {
        return lockId, true, if reply.Granted? then NoError else StoreError, run, last;
      }
      if retries >= cluster.cfg.acquireMaxRetries {
        return "", true, AcquireMaxRetries, run, last;
      }
      ghost var s1 := cluster.s;
      var closing, wait := Select(c);
      last := [Replied(reply), if closing then Closing else Elapsed];
      TracedAppend(cluster.cfg, s0, run, s1, wait, cluster.s, c, [Replied(reply)], [], [last[1]], []);
      return "", closing, MongoDbClosing, run + wait, last;
    }

    /**
     * Acquire. Its events are answered as they must be; the call makes at most one change, which
     * adds the row with the returned ID: exactly if it returns nil, or a failure of the store that
     * had inserted the row. The second row is nobody's.
     */
    method Acquire(c: ClientId, id: string) returns (lockId: string, err: AcquireError, run: seq<Action>)
      requires c in cluster.s.clients && cluster.s.clients[c].pc.Idle?
      modifies cluster
      ensures Valid(cluster.cfg, old(cluster.s), run) && cluster.s == Run(cluster.cfg, old(cluster.s), run)
      ensures c in cluster.s.clients
      ensures Answers(Events(run, c), cluster.cfg.acquireMaxRetries, err)
      ensures AcquireEffect(LockName(resource, id), cluster.s.clients[c].pc, lockId, err.NoError?,
                            Inserts(Events(run, c)), Changes(cluster.cfg, old(cluster.s), run, c))
      ensures err != NoError ==> cluster.s.clients[c].pc == Idle
      ensures err in {AcquireMaxRetries, MongoDbClosing} ==> lockId == ""
      ensures err in {NoError, StoreError} ==> PrintedFor(lockId, resource, id)
      ensures err == MongoDbClosing ==> ClosedFor(cluster.s, c)
      ensures OneAcquire(run, c) && run[0] == CallAcquire(c, LockName(resource, id))
      ensures err == AcquireMaxRetries ==>
                cluster.s.now >= old(cluster.s.now) + Max0(cluster.cfg.acquireMaxRetries) * cluster.cfg.acquirePeriod
    {
      hide Apply, Enabled, Valid, Run, Events, Changes;
      var cfg := cluster.cfg;
      ghost var s0 := cluster.s;
      var name := LockName(resource, id);
      run := Enter(c, CallAcquire(c, name));
      var retries := 0;
      ghost var events: seq<Event> := [];
      while true
        invariant c in cluster.s.clients && cluster.s.clients[c].pc == Ready(name, retries)
        invariant retries == 0 || retries <= cfg.acquireMaxRetries
        invariant Traced(cfg, s0, run, cluster.s, c, events, [])
        invariant Retried(events, retries, REFUSED) && |events| == 2 * retries
        invariant OneAcquire(run, c) && run[0] == CallAcquire(c, name)
        decreases cfg.acquireMaxRetries - retries
      {
        ghost var s1 := cluster.s;
        var done, pass;
        ghost var last;
        lockId, done, err, pass, last := AcquirePass(c, id, retries);
        TracedAppend(cfg, s0, run, s1, pass, cluster.s, c, events, [], last, Changes(cfg, s1, pass, c));
        run := run + pass;
        if done {
          AnswersAtLast(events, retries, cfg.acquireMaxRetries, last, err);
          AcquireTakesTime(cfg, s0, run, c, err);
          return;
        }
        RoundDone(events, retries, REFUSED, last);
        events := events + last;
        retries := retries + 1;
      }
    }

    /** One call of the store's Unlock, with others acting before it. */
    method TryUnlock(c: ClientId) returns (outcome: UnlockReply, run: seq<Action>)
      requires c in cluster.s.clients && cluster.s.clients[c].pc.Releasing?
      modifies cluster
      ensures c in cluster.s.clients && Valid(cluster.cfg, old(cluster.s), run) && CallFree(run, c)
      ensures var pc := old(cluster.s.clients[c].pc);
              var changes := Changes(cluster.cfg, old(cluster.s), run, c);
              && Traced(cluster.cfg, old(cluster.s), run, cluster.s, c, [UnlockReplied(outcome)], changes)
              && OnlyRemoves(changes, pc.lockId)
              && (outcome.Deleted? ==> NoRowWith(cluster.s, pc.lockId))
              && var after := cluster.s.clients[c].pc;
                 if outcome.Deleted? || pc.retries >= cluster.cfg.unlockMaxRetries then after == Idle
                 else after.ReleaseWaiting? && after.lockId == pc.lockId && after.retries == pc.retries + 1
    {
      var cfg := cluster.cfg;
      ghost var s0 := cluster.s;
      var others := cluster.Others(c);
      ForeignRun(cfg, s0, others, c);
      ghost var s1 := cluster.s;
      outcome := *;
      cluster.Do(UnlockRow(c, outcome));
      UnlockEffect(cfg, s1, c, outcome);
      OthersThen(cfg, s0, others, c, UnlockRow(c, outcome));
      run := others + [UnlockRow(c, outcome)];
      hide Apply, Enabled, Valid, Run, Events, Changes, ChangesOf;
    }

    /** One pass through Unlock's loop body. */
    method UnlockPass(c: ClientId, retries: nat)
      returns (done: bool, run: seq<Action>, ghost last: seq<Event>)
      requires c in cluster.s.clients && cluster.s.clients[c].pc.Releasing?
      requires cluster.s.clients[c].pc.retries == retries
      modifies cluster
      ensures c in cluster.s.clients && Valid(cluster.cfg, old(cluster.s), run) && CallFree(run, c)
      ensures var pc := old(cluster.s.clients[c].pc);
              var changes := Changes(cluster.cfg, old(cluster.s), run, c);
              && Traced(cluster.cfg, old(cluster.s), run, cluster.s, c, last, changes)
              && OnlyRemoves(changes, pc.lockId)
              && (last == [UnlockReplied(Deleted)] ==> NoRowWith(cluster.s, pc.lockId))
              && (!done ==> cluster.s.clients[c].pc == Releasing(pc.lockId, retries + 1))
      ensures if done then UnlocksLast(last, retries, cluster.cfg.unlockMaxRetries)
              else retries < cluster.cfg.unlockMaxRetries && |last| == 2 && UNLOCK_FAILED(last[0]) && last[1] == Elapsed
      ensures done ==> cluster.s.clients[c].pc == Idle
      ensures Closing in last ==> ClosedFor(cluster.s, c)
    {
      ghost var s0 := cluster.s;
      var outcome;
      outcome, run := TryUnlock(c);
      last := [UnlockReplied(outcome)];
      if outcome == Deleted || retries >= cluster.cfg.unlockMaxRetries {
        return true, run, last;
      }
      ghost var s1 := cluster.s;
      ghost var changes := Changes(cluster.cfg, s0, run, c);
      var closing, wait := Select(c);
      last := [UnlockReplied(outcome), if closing then Closing else Elapsed];
      TracedAppend(cluster.cfg, s0, run, s1, wait, cluster.s, c, [UnlockReplied(outcome)], changes, [last[1]], []);
      assert changes + [] == changes;
      return closing, run + wait, last;
    }

    /** Unlock. It removes no row but those that carry its lock ID, and all of those if the store says so. */
    method Unlock(c: ClientId, lockId: string) returns (run: seq<Action>)
      requires c in cluster.s.clients && MayUnlock(cluster.s.clients[c].pc, lockId)
      modifies cluster
      ensures Valid(cluster.cfg, old(cluster.s), run) && cluster.s == Run(cluster.cfg, old(cluster.s), run)
      ensures c in cluster.s.clients && cluster.s.clients[c].pc == Idle
      ensures Unlocks(Events(run, c), cluster.cfg.unlockMaxRetries)
      ensures OnlyRemoves(Changes(cluster.cfg, old(cluster.s), run, c), lockId)
      ensures UnlockReplied(Deleted) in Events(run, c) ==> NoRowWith(cluster.s, lockId)
      ensures Closing in Events(run, c) ==> ClosedFor(cluster.s, c)
      ensures OneUnlock(run, c) && run[0] == CallUnlock(c, lockId)
      ensures UnlockReplied(Deleted) !in Events(run, c) && Closing !in Events(run, c) ==>
                cluster.s.now >= old(cluster.s.now) + Max0(cluster.cfg.unlockMaxRetries) * cluster.cfg.unlockPeriod
    {
      hide Apply, Enabled, Valid, Run, Events, Changes;
      var cfg := cluster.cfg;
      ghost var s0 := cluster.s;
      run := Enter(c, CallUnlock(c, lockId));
      var retries := 0;
      ghost var events: seq<Event> := [];
      ghost var changes: seq<Change> := [];
      while true
        invariant c in cluster.s.clients && cluster.s.clients[c].pc == Releasing(lockId, retries)
        invariant retries == 0 || retries <= cfg.unlockMaxRetries
        invariant Traced(cfg, s0, run, cluster.s, c, events, changes) && OnlyRemoves(changes, lockId)
        invariant Retried(events, retries, UNLOCK_FAILED) && |events| == 2 * retries
        invariant OneUnlock(run, c) && run[0] == CallUnlock(c, lockId)
        decreases cfg.unlockMaxRetries - retries
      {
        ghost var s1 := cluster.s;
        var done, pass;
        ghost var last;
        done, pass, last := UnlockPass(c, retries);
        ghost var more := Changes(cfg, s1, pass, c);
        TracedAppend(cfg, s0, run, s1, pass, cluster.s, c, events, changes, last, more);
        RemovesAppend(changes, more, lockId);
        run, changes := run + pass, changes + more;
        if done {
          UnlocksAtLast(events, retries, cfg.unlockMaxRetries, last);
          UnlockTakesTime(cfg, s0, run, c);
          return;
        }
        RoundDone(events, retries, UNLOCK_FAILED, last);
        events := events + last;
        retries := retries + 1;
      }
    }
  }
}
