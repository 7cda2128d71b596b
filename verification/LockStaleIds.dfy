/** What the freshness of lock IDs is worth: without it a run breaks exclusion, and only without it. */
module LockStaleIds {
  import opened LockId
  import opened LockProtocol

  /** Another client that may still call Unlock with the ID that c is about to be granted. */
  predicate StaleFor(s: State, c: ClientId, d: ClientId) {
    && c in s.clients && s.clients[c].pc.Attempting?
    && LiveWith(s, d, IdFor(s.clients[c].pc.name, s.clients[c].pc.time))
  }

  /** d comes to the top of Unlock's loop, wherever it stands. */
  function ToUnlock(s: State, d: ClientId): seq<Action>
    requires d in s.clients && s.clients[d].pc.Live()
  {
    match s.clients[d].pc
    case Holding(_, _, _) => [CallUnlock(d, s.clients[d].pc.Id())]
    case ReleaseWaiting(_, _, until) => [Tick(if s.now < until then until - s.now else 0), TimerFires(d)]
    case _ => []
  }

  /** d finishes its Unlock and acquires a name, with time ID t. */
  function Take(d: ClientId, name: string, t: nat): seq<Action> {
    [UnlockRow(d, Deleted), CallAcquire(d, name), Generate(d, t), XLock(d, Granted)]
  }

  function Theft(s: State, d: ClientId, name: string, t: nat): seq<Action>
    requires d in s.clients && s.clients[d].pc.Live()
  {
    ToUnlock(s, d) + Take(d, name, t)
  }

  lemma ToUnlockRuns(cfg: Config, s: State, d: ClientId) returns (r: nat)
    requires d in s.clients && s.clients[d].pc.Live() && TimersSound(cfg, s)
    ensures Valid(cfg, s, ToUnlock(s, d)) && FreshRun(cfg, s, ToUnlock(s, d))
    ensures var pc := s.clients[d].pc; var s' := Run(cfg, s, ToUnlock(s, d));
            && s'.now <= s.now + cfg.unlockPeriod && s'.rows == s.rows
            && s'.clients == s.clients[d := s.clients[d].(pc := Releasing(pc.Id(), r))]
  {
    var pc := s.clients[d].pc;
    r := if pc.Holding? then 0 else pc.retries;
    if pc.Holding? {
      assert Run(cfg, s, [CallUnlock(d, pc.Id())]) == WithPc(s, d, Releasing(pc.Id(), 0));
    } else if pc.ReleaseWaiting? {
      var dt := if s.now < pc.until then pc.until - s.now else 0;
      var s1 := Apply(cfg, s, Tick(dt));
      RunsThrough(cfg, ToUnlock(s, d), [s, s1, WithPc(s1, d, Releasing(pc.lockId, pc.retries))]);
    } else {
      assert s.clients == s.clients[d := s.clients[d].(pc := Releasing(pc.lockId, pc.retries))];
    }
  }

  /** d unlocks with the ID that c's row carries, and takes the name while c is still in time. */
  lemma SecondGrant(cfg: Config, s: State, c: ClientId, d: ClientId, t: nat)
    requires d in s.clients && s.clients[d].pc.Releasing?
    requires InTime(s, c) && s.clients[c].pc.Id() == s.clients[d].pc.lockId
    requires var name := s.clients[c].pc.name;
             name in s.rows ==> s.rows[name].lockId == s.clients[d].pc.lockId
    ensures var name := s.clients[c].pc.name;
            && Valid(cfg, s, Take(d, name, t)) && !Exclusive(Run(cfg, s, Take(d, name, t)))
            && (NoLiveTime(s, d, name, t) ==> FreshRun(cfg, s, Take(d, name, t)))
  {
    var name := s.clients[c].pc.name;
    var acts := Take(d, name, t);
    var s1 := Apply(cfg, s, acts[0]);
    var s2 := Apply(cfg, s1, acts[1]);
    var s3 := Apply(cfg, s2, acts[2]);
    var s4 := Apply(cfg, s3, acts[3]);
    assert HoldsInTime(s4, c, name) && HoldsInTime(s4, d, name);
    if NoLiveTime(s, d, name, t) {
      assert forall e :: LiveWith(s3, e, IdFor(name, t)) ==> e != d && LiveWith(s, e, IdFor(name, t));
      assert Fresh(s3, acts[3]);
    }
    hide Apply, Enabled, Fresh, Exclusive;
    RunsThrough(cfg, acts, [s, s1, s2, s3, s4]);
  }

  /** No live client other than d has the lock ID of the name and time ID t. */
  ghost predicate NoLiveTime(s: State, d: ClientId, name: string, t: nat) {
    forall e :: LiveWith(s, e, IdFor(name, t)) ==> e == d
  }

  lemma FreshAppend(cfg: Config, s: State, acts: seq<Action>, more: seq<Action>)
    requires Valid(cfg, s, acts) && FreshRun(cfg, s, acts)
    requires Valid(cfg, Run(cfg, s, acts), more) && FreshRun(cfg, Run(cfg, s, acts), more)
    ensures Valid(cfg, s, acts + more) && FreshRun(cfg, s, acts + more)
    decreases |acts|
  {
    if acts == [] {
      assert acts + more == more;
    } else {
      assert (acts + more)[1..] == acts[1..] + more;
      FreshAppend(cfg, Apply(cfg, s, acts[0]), acts[1..], more);
    }
  }

  /**
   * In any state where a stale ID is granted, whatever t is, the earlier holder's own Unlock and
   * next Acquire leave two clients holding the name in time.
   */
  lemma StaleGrantBreaksExclusion(cfg: Config, s: State, c: ClientId, d: ClientId, t: nat)
    requires StaleFor(s, c, d) && Enabled(s, XLock(c, Granted))
    requires TimersSound(cfg, s) && cfg.unlockPeriod < TTL
    ensures var name := s.clients[c].pc.name; var s1 := Apply(cfg, s, XLock(c, Granted));
            && d in s1.clients && s1.clients[d].pc.Live()
            && Valid(cfg, s1, Theft(s1, d, name, t)) && !Exclusive(Run(cfg, s1, Theft(s1, d, name, t)))
            && (NoLiveTime(s1, d, name, t) ==> FreshRun(cfg, s1, Theft(s1, d, name, t)))
  {
    var s1 := Apply(cfg, s, XLock(c, Granted));
    var name := s.clients[c].pc.name;
    var front := ToUnlock(s1, d);
    var r := ToUnlockRuns(cfg, s1, d);
    var s2 := Run(cfg, s1, front);
    SecondGrant(cfg, s2, c, d, t);
    RunAppend(cfg, s1, front, Take(d, name, t));
    if NoLiveTime(s1, d, name, t) {
      assert forall e :: LiveWith(s2, e, IdFor(name, t)) && e != d ==> LiveWith(s1, e, IdFor(name, t));
      FreshAppend(cfg, s1, front, Take(d, name, t));
    }
  }

  /** The same for a client that, holding no lock, unlocks with the ID of one that does. */
  lemma StrayUnlockBreaksExclusion(cfg: Config, s: State, c: ClientId, d: ClientId, t: nat)
    requires Inv(s) && InTime(s, c) && d in s.clients && s.clients[d].pc.Idle?
    ensures var s1 := Apply(cfg, s, CallUnlock(d, s.clients[c].pc.Id()));
            var acts := Take(d, s.clients[c].pc.name, t);
            && Valid(cfg, s1, acts) && !Exclusive(Run(cfg, s1, acts))
            && (NoLiveTime(s1, d, s.clients[c].pc.name, t) ==> FreshRun(cfg, s1, acts))
  {
    SecondGrant(cfg, Apply(cfg, s, CallUnlock(d, s.clients[c].pc.Id())), c, d, t);
  }

  /** Of more time IDs than clients, one is live with none of them. */
  lemma {:induction false} UnusedBy(s: State, clients: set<ClientId>, name: string, bound: nat) returns (t: nat)
    requires |clients| < bound
    ensures t < bound && forall e <- clients :: !LiveWith(s, e, IdFor(name, t))
    decreases bound
  {
    t := bound - 1;
    if e :| e in clients && LiveWith(s, e, IdFor(name, bound - 1)) {
      t := UnusedBy(s, clients - {e}, name, bound - 1);
      LockIdsInjective(name, t, name, bound - 1);
    }
  }

  lemma UnusedTime(s: State, d: ClientId, name: string, bound: nat) returns (t: nat)
    requires d in s.clients && |s.clients| <= bound
    ensures t < bound && NoLiveTime(s, d, name, t)
  {
    assert |s.clients.Keys| == |s.clients|;
    t := UnusedBy(s, s.clients.Keys - {d}, name, bound);
  }

  /** Actions in which every time ID is one of a generator's. */
  ghost predicate TimesBelow(acts: seq<Action>, bound: nat) {
    forall i :: 0 <= i < |acts| && acts[i].Generate? ==> acts[i].time < bound
  }

  /** No fresh run from here leads to two holders in time, if time IDs stay below a bound. */
  ghost predicate StaysExclusive(cfg: Config, s: State, bound: nat) {
    forall acts :: TimesBelow(acts, bound) && Valid(cfg, s, acts) && FreshRun(cfg, s, acts) ==>
      Exclusive(Run(cfg, s, acts))
  }

  lemma SameClients(cfg: Config, s: State, a: Action)
    requires Enabled(s, a)
    ensures Apply(cfg, s, a).clients.Keys == s.clients.Keys && |Apply(cfg, s, a).clients| == |s.clients|
  {
    var s' := Apply(cfg, s, a);
    assert |s'.clients| == |s'.clients.Keys| == |s.clients.Keys| == |s.clients|;
  }

  lemma StaleActionBreaksExclusion(cfg: Config, s: State, a: Action, bound: nat)
    requires Inv(s) && TimersSound(cfg, s) && cfg.unlockPeriod < TTL
    requires Enabled(s, a) && !Fresh(s, a) && |s.clients| <= bound
    ensures !StaysExclusive(cfg, Apply(cfg, s, a), bound)
  {
    var s1 := Apply(cfg, s, a);
    SameClients(cfg, s, a);
    if a.XLock? {
      var name := s.clients[a.c].pc.name;
      var d :| LiveWith(s, d, IdFor(name, s.clients[a.c].pc.time));
      var t := UnusedTime(s1, d, name, bound);
      StaleGrantBreaksExclusion(cfg, s, a.c, d, t);
      assert TimesBelow(Theft(s1, d, name, t), bound) && !Exclusive(Run(cfg, s1, Theft(s1, d, name, t)));
    } else {
      var c :| InTime(s, c) && LiveWith(s, c, a.lockId);
      var name := s.clients[c].pc.name;
      var t := UnusedTime(s1, a.c, name, bound);
      StrayUnlockBreaksExclusion(cfg, s, c, a.c, t);
      assert TimesBelow(Take(a.c, name, t), bound) && !Exclusive(Run(cfg, s1, Take(a.c, name, t)));
    }
  }

  /**
   * Freshness is the exact condition: an action keeps every further fresh run exclusive if and
   * only if it is fresh. The generator needs no more time IDs than there are clients.
   */
  lemma FreshnessIsExact(cfg: Config, s: State, a: Action, bound: nat)
    requires Inv(s) && TimersSound(cfg, s) && cfg.unlockPeriod < TTL && Enabled(s, a)
    requires |s.clients| <= bound
    ensures Fresh(s, a) <==> StaysExclusive(cfg, Apply(cfg, s, a), bound)
  {
    var s1 := Apply(cfg, s, a);
    if Fresh(s, a) {
      InvStep(cfg, s, a);
      forall acts | Valid(cfg, s1, acts) && FreshRun(cfg, s1, acts)
        ensures Exclusive(Run(cfg, s1, acts))
      {
        InvRun(cfg, s1, acts);
        InvExclusive(Run(cfg, s1, acts));
      }
    } else {
      StaleActionBreaksExclusion(cfg, s, a, bound);
    }
  }

  /** Client 0 outlives its TTL, its row is purged, and client 1 generates the same time ID. */
  function RepeatedId(name: string, t: nat): seq<Action> {
    [CallAcquire(0, name), Generate(0, t), XLock(0, Granted), Tick(TTL)]
    + [Purge(0, {name}, true), CallAcquire(1, name), Generate(1, t)]
  }

  function Expired(name: string, t: nat): State {
    WithPc(START, 0, Holding(name, t, 0)).(now := TTL, rows := map[name := Row(IdFor(name, t), 0)])
  }

  lemma RunToExpiry(cfg: Config, name: string, t: nat)
    ensures var acts := RepeatedId(name, t)[..4];
            Valid(cfg, START, acts) && FreshRun(cfg, START, acts) && Run(cfg, START, acts) == Expired(name, t)
  {
    var acts := [CallAcquire(0, name), Generate(0, t), XLock(0, Granted), Tick(TTL)];
    var s1 := WithPc(START, 0, Ready(name, 0));
    var s2 := WithPc(START, 0, Attempting(name, 0, t));
    var s3 := Expired(name, t).(now := 0);
    assert s2 == Apply(cfg, s1, acts[1]);
    RunsThrough(cfg, acts, [START, s1, s2, s3, Expired(name, t)]);
    assert RepeatedId(name, t)[..4] == acts;
  }

  lemma RunToRepeat(cfg: Config, name: string, t: nat)
    ensures var acts := RepeatedId(name, t)[4..];
            && Valid(cfg, Expired(name, t), acts) && FreshRun(cfg, Expired(name, t), acts)
            && StaleFor(Run(cfg, Expired(name, t), acts), 1, 0)
            && Enabled(Run(cfg, Expired(name, t), acts), XLock(1, Granted))
  {
    var acts := [Purge(0, {name}, true), CallAcquire(1, name), Generate(1, t)];
    var s4 := Expired(name, t);
    var s5 := Apply(cfg, s4, acts[0]);
    assert s5.rows == map[];
    var s6 := Apply(cfg, s5, acts[1]);
    var s7 := Apply(cfg, s6, acts[2]);
    RunsThrough(cfg, acts, [s4, s5, s6, s7]);
    assert RepeatedId(name, t)[4..] == acts;
  }

  /** Time IDs do repeat: they are nanoseconds within a second. The state a grant then starts from is reachable. */
  lemma StaleGrantIsReachable(cfg: Config, name: string, t: nat)
    ensures Initial(START) && Valid(cfg, START, RepeatedId(name, t)) && FreshRun(cfg, START, RepeatedId(name, t))
    ensures var s := Run(cfg, START, RepeatedId(name, t));
            StaleFor(s, 1, 0) && Enabled(s, XLock(1, Granted)) && TimersSound(cfg, s)
  {
    var acts := RepeatedId(name, t);
    RunToExpiry(cfg, name, t);
    RunToRepeat(cfg, name, t);
    FreshAppend(cfg, START, acts[..4], acts[4..]);
    RunAppend(cfg, START, acts[..4], acts[4..]);
    assert acts[..4] + acts[4..] == acts;
    TimersSoundRun(cfg, START, acts);
  }
}
