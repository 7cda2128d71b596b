/**
 * Transactions without retries, over a server with snapshot reads and write-conflict detection.
 * The server is its log: every entry is one atomic set of writes, by a transaction that committed
 * or by a single write from outside any transaction. Any number of calls of RunTransaction
 * interleave, each with a body of its own.
 */
module Transaction {
  import opened Wrappers

  type Key = string
  type CallId = nat
  type Writes = map<Key, int>

  /** call is the RunTransaction call that committed the writes, if one did. */
  datatype Entry = Entry(call: Option<CallId>, writes: Writes)

  /** One operation of a transaction body, and what the body then sees. */
  datatype Op = Get(key: Key) | Put(key: Key, value: int) | Return(result: int) | Raise(result: int, message: string)
  datatype Seen =
    | Got(key: Key, found: Option<int>)
    | Stored(key: Key, value: int)
    | Conflicted(key: Key)
    | Failed(key: Key, stored: Option<int>)      // stored: what a failed Put did store, if it did

  /** A transaction function: what it does next, given all it has seen. It need not ever return. */
  type Body = seq<Seen> -> Op

  /** What a body sees of its operations: a Put that failed but was stored looks like one that was not. */
  function Visible(seen: seq<Seen>): (visible: seq<Seen>)
    ensures |visible| == |seen|
    ensures forall i :: 0 <= i < |seen| ==>
              visible[i] == if seen[i].Failed? then Failed(seen[i].key, None) else seen[i]
  {
    seq(|seen|, i requires 0 <= i < |seen| => if seen[i].Failed? then Failed(seen[i].key, None) else seen[i])
  }

  function NextOp(body: Body, seen: seq<Seen>): Op {
    body(Visible(seen))
  }

  datatype Error = BodyError(message: string) | SessionError | StartError | AbortError | CommitError

  datatype Pc =
    | Called
    | SessionStarted
    | Running(start: nat, doomed: bool)          // start: the length of the log at the snapshot
    | Aborting(start: nat, message: string)      // the body has raised an error
    | Committing(start: nat, doomed: bool)       // the body has returned
    | Finished(start: nat, error: Option<Error>)

  datatype Session = Session(body: Body, pc: Pc, seen: seq<Seen>)

  datatype State = State(log: seq<Entry>, sessions: map<CallId, Session>)

  /** With its acknowledgement lost, a commit takes effect but the client is told it failed. */
  datatype CommitReply = Committed | Refused | AckLost

  /**
   * An operation succeeds, is refused for a conflict with another transaction's write, open or
   * committed, or fails otherwise; a Put that fails may have been stored.
   */
  datatype OpReply = Done | Conflict | NotDone | DoneUnheard

  datatype Action =
    | Call(c: CallId, body: Body)
    | StartSession(c: CallId, ok: bool)
    | StartTransaction(c: CallId, ok: bool)
    | TakeSnapshot(c: CallId)              // until the first operation
    | Step(c: CallId, outcome: OpReply)    // one operation of the body
    | Abort(c: CallId, ok: bool)
    | Commit(c: CallId, reply: CommitReply)
    | OutsideWrite(key: Key, value: int)
  {
    predicate OfCall(k: CallId) {
      !OutsideWrite? && c == k
    }
  }

  // ---------------------------------------------------------------------------------------
  // The server

  /** The value of a key after the entries of a log. */
  function ValueAt(log: seq<Entry>, key: Key): Option<int> {
    if log == [] then None
    else
      var last := log[|log| - 1];
      if key in last.writes then Some(last.writes[key]) else ValueAt(log[..|log| - 1], key)
  }

  /** The writes of a body that were stored, the last one to a key winning. */
  function WritesOf(seen: seq<Seen>): Writes {
    if seen == [] then map[]
    else
      var last := seen[|seen| - 1];
      var before := WritesOf(seen[..|seen| - 1]);
      match last
      case Stored(key, value) => before[key := value]
      case Failed(key, Some(value)) => before[key := value]
      case _ => before
  }

  /** A read in a transaction: its own write, or else the value in its snapshot. */
  function ReadIn(snapshot: seq<Entry>, seen: seq<Seen>, key: Key): Option<int> {
    if key in WritesOf(seen) then Some(WritesOf(seen)[key]) else ValueAt(snapshot, key)
  }

  /** The part of a log that a snapshot shows. */
  function Snapshot(log: seq<Entry>, start: nat): seq<Entry> {
    if start <= |log| then log[..start] else log
  }

  predicate WrittenSince(log: seq<Entry>, start: nat, key: Key) {
    exists i :: start <= i < |log| && key in log[i].writes
  }

  predicate ConflictFree(log: seq<Entry>, start: nat, writes: Writes) {
    forall k <- writes :: !WrittenSince(log, start, k)
  }

  // ---------------------------------------------------------------------------------------
  // Steps

  predicate Enabled(s: State, a: Action) {
    match a
    case OutsideWrite(_, _) => true
    case Call(c, _) => c !in s.sessions
    case StartSession(c, _) => c in s.sessions && s.sessions[c].pc.Called?
    case StartTransaction(c, _) => c in s.sessions && s.sessions[c].pc.SessionStarted?
    case TakeSnapshot(c) => c in s.sessions && s.sessions[c].pc.Running? && s.sessions[c].seen == []
    case Step(c, outcome) =>
      && c in s.sessions && s.sessions[c].pc.Running?
      && var op := NextOp(s.sessions[c].body, s.sessions[c].seen);
         (match outcome
          case Done => true
          case NotDone => op.Get? || op.Put?
          case _ => op.Put?)
    case Abort(c, _) => c in s.sessions && s.sessions[c].pc.Aborting?
    case Commit(c, reply) =>
      && c in s.sessions && s.sessions[c].pc.Committing?
      && (!reply.Refused? ==>
            && !s.sessions[c].pc.doomed
            && ConflictFree(s.log, s.sessions[c].pc.start, WritesOf(s.sessions[c].seen)))
  }

  function WithSession(s: State, c: CallId, session: Session): State {
    s.(sessions := s.sessions[c := session])
  }

  function Stepped(s: State, session: Session, outcome: OpReply): Session
    requires session.pc.Running?
  {
    var start, seen := session.pc.start, session.seen;
    match NextOp(session.body, seen)
    case Get(key) =>
      var found := ReadIn(Snapshot(s.log, start), seen, key);
      session.(seen := seen + [if outcome.Done? then Got(key, found) else Failed(key, None)])
    case Put(key, value) =>
      (match outcome
       case Done => session.(seen := seen + [Stored(key, value)])
       case Conflict => session.(seen := seen + [Conflicted(key)], pc := Running(start, true))
       case NotDone => session.(seen := seen + [Failed(key, None)])
       case DoneUnheard => session.(seen := seen + [Failed(key, Some(value))]))
    case Return(_) => session.(pc := Committing(start, session.pc.doomed))
    case Raise(_, message) => session.(pc := Aborting(start, message))
  }

  function Apply(s: State, a: Action): State
    requires Enabled(s, a)
  {
    match a
    case OutsideWrite(key, value) => s.(log := s.log + [Entry(None, map[key := value])])
    case Call(c, body) => WithSession(s, c, Session(body, Called, []))
    case StartSession(c, ok) =>
      var pc := if ok then SessionStarted else Finished(|s.log|, Some(SessionError));
      WithSession(s, c, s.sessions[c].(pc := pc))
    case StartTransaction(c, ok) =>
      var pc := if ok then Running(|s.log|, false) else Finished(|s.log|, Some(StartError));
      WithSession(s, c, s.sessions[c].(pc := pc))
    case TakeSnapshot(c) => WithSession(s, c, s.sessions[c].(pc := Running(|s.log|, s.sessions[c].pc.doomed)))
    case Step(c, outcome) => WithSession(s, c, Stepped(s, s.sessions[c], outcome))
    case Abort(c, ok) =>
      var pc := s.sessions[c].pc;
      var error := if ok then BodyError(pc.message) else AbortError;
      WithSession(s, c, s.sessions[c].(pc := Finished(pc.start, Some(error))))
    case Commit(c, reply) =>
      var session := s.sessions[c];
      var s' := if reply.Refused? then s else s.(log := s.log + [Entry(Some(c), WritesOf(session.seen))]);
      var error := if reply.Committed? then None else Some(CommitError);
      WithSession(s', c, session.(pc := Finished(session.pc.start, error)))
  }

  predicate Valid(s: State, acts: seq<Action>)
    decreases |acts|
  {
    acts == [] || (Enabled(s, acts[0]) && Valid(Apply(s, acts[0]), acts[1..]))
  }

  function Run(s: State, acts: seq<Action>): State
    requires Valid(s, acts)
    decreases |acts|
  {
    if acts == [] then s else Run(Apply(s, acts[0]), acts[1..])
  }

  lemma {:induction false} RunAppend(s: State, acts: seq<Action>, more: seq<Action>)
    requires Valid(s, acts) && Valid(Run(s, acts), more)
    ensures Valid(s, acts + more) && Run(s, acts + more) == Run(Run(s, acts), more)
    decreases |acts|
  {
    if acts == [] {
      assert acts + more == more;
    } else {
      assert (acts + more)[1..] == acts[1..] + more;
      RunAppend(Apply(s, acts[0]), acts[1..], more);
    }
  }

  /** A server with some history and no calls yet. */
  predicate Initial(s: State) {
    s.sessions == map[] && forall i :: 0 <= i < |s.log| ==> s.log[i].call.None?
  }

  // ---------------------------------------------------------------------------------------
  // Atomicity

  /** seen is what becomes of a body when it runs by itself on a snapshot, but for conflicts and failures. */
  ghost predicate Faithful(body: Body, snapshot: seq<Entry>, seen: seq<Seen>) {
    forall i :: 0 <= i < |seen| ==> FaithfulAt(body, snapshot, seen[..i], seen[i])
  }

  ghost predicate FaithfulAt(body: Body, snapshot: seq<Entry>, before: seq<Seen>, next: Seen) {
    match NextOp(body, before)
    case Get(key) => next in {Got(key, ReadIn(snapshot, before, key)), Failed(key, None)}
    case Put(key, value) =>
      next in {Stored(key, value), Conflicted(key), Failed(key, None), Failed(key, Some(value))}
    case _ => false
  }

  /** No entry of the log is by this call. */
  ghost predicate NothingBy(log: seq<Entry>, c: CallId) {
    forall i :: 0 <= i < |log| ==> log[i].call != Some(c)
  }

  /** The call's writes are one entry, and nobody wrote one of its keys between its snapshot and that entry. */
  ghost predicate AppliedAt(log: seq<Entry>, c: CallId, session: Session, start: nat, i: nat) {
    && start <= i < |log| && log[i] == Entry(Some(c), WritesOf(session.seen))
    && ConflictFree(log[..i], start, WritesOf(session.seen))
    && (forall j :: 0 <= j < |log| && log[j].call == Some(c) ==> j == i)
    && Faithful(session.body, log[..start], session.seen) && NextOp(session.body, session.seen).Return?
    && NoConflict(session.seen)
  }

  predicate NoConflict(seen: seq<Seen>) {
    forall r :: 0 <= r < |seen| ==> !seen[r].Conflicted?
  }

  ghost predicate Applied(log: seq<Entry>, c: CallId, session: Session, start: nat) {
    exists i: nat :: AppliedAt(log, c, session, start, i)
  }

  /** A session's body has ended with this error. */
  predicate Raises(session: Session, message: string) {
    var op := NextOp(session.body, session.seen);
    op.Raise? && op.message == message
  }

  ghost predicate SessionSound(log: seq<Entry>, c: CallId, session: Session) {
    match session.pc
    case Called => session.seen == [] && NothingBy(log, c)
    case SessionStarted => session.seen == [] && NothingBy(log, c)
    case Running(start, doomed) =>
      && start <= |log| && NothingBy(log, c) && Faithful(session.body, log[..start], session.seen)
      && (!doomed ==> NoConflict(session.seen))
    case Aborting(start, message) =>
      && start <= |log| && NothingBy(log, c)
      && Raises(session, message)
    case Committing(start, doomed) =>
      && start <= |log| && NothingBy(log, c) && (!doomed ==> NoConflict(session.seen))
      && Faithful(session.body, log[..start], session.seen) && NextOp(session.body, session.seen).Return?
    case Finished(start, error) =>
      match error
      case None => Applied(log, c, session, start)
      case Some(CommitError) => NothingBy(log, c) || Applied(log, c, session, start)
      case Some(BodyError(message)) =>
        NothingBy(log, c) && Raises(session, message)
      case Some(_) => NothingBy(log, c)
  }

  ghost predicate Inv(s: State) {
    && (forall c :: c in s.sessions ==> SessionSound(s.log, c, s.sessions[c]))
    && (forall i :: 0 <= i < |s.log| && s.log[i].call.Some? ==> s.log[i].call.value in s.sessions)
  }

  lemma SoundAfterEntry(log: seq<Entry>, e: Entry, c: CallId, session: Session)
    requires SessionSound(log, c, session) && e.call != Some(c)
    ensures SessionSound(log + [e], c, session)
  {
    if !session.pc.Called? && !session.pc.SessionStarted? && session.pc.start <= |log| {
      assert (log + [e])[..session.pc.start] == log[..session.pc.start];
    }
    if session.pc.Finished? && Applied(log, c, session, session.pc.start) {
      var i: nat :| AppliedAt(log, c, session, session.pc.start, i);
      assert (log + [e])[..i] == log[..i];
      assert AppliedAt(log + [e], c, session, session.pc.start, i);
    }
  }

  lemma SoundAfterStep(s: State, c: CallId, outcome: OpReply)
    requires Inv(s) && Enabled(s, Step(c, outcome))
    ensures SessionSound(s.log, c, Stepped(s, s.sessions[c], outcome))
  {
    var session := s.sessions[c];
    var next := Stepped(s, session, outcome);
    if next.seen != session.seen {
      var snapshot := s.log[..session.pc.start];
      forall i | 0 <= i < |next.seen|
        ensures FaithfulAt(session.body, snapshot, next.seen[..i], next.seen[i])
      {
        assert next.seen[..i] == session.seen[..i];
        assert session.seen[..|session.seen|] == session.seen;
      }
    }
  }

  lemma SoundAfterCommit(s: State, c: CallId, reply: CommitReply)
    requires Inv(s) && Enabled(s, Commit(c, reply)) && !reply.Refused?
    ensures var s' := Apply(s, Commit(c, reply)); SessionSound(s'.log, c, s'.sessions[c])
  {
    var s' := Apply(s, Commit(c, reply));
    var start := s.sessions[c].pc.start;
    assert s'.log[..start] == s.log[..start] && s'.log[..|s.log|] == s.log;
    assert AppliedAt(s'.log, c, s'.sessions[c], start, |s.log|);
  }

  lemma InvStep(s: State, a: Action)
    requires Inv(s) && Enabled(s, a)
    ensures Inv(Apply(s, a))
  {
    var s' := Apply(s, a);
    forall c | c in s'.sessions
      ensures SessionSound(s'.log, c, s'.sessions[c])
    {
      if a.OutsideWrite? || (a.Commit? && a.c != c && !a.reply.Refused?) {
        SoundAfterEntry(s.log, s'.log[|s.log|], c, s.sessions[c]);
      } else if a.Step? && a.c == c {
        SoundAfterStep(s, c, a.outcome);
      } else if a.Commit? && a.c == c && !a.reply.Refused? {
        SoundAfterCommit(s, c, a.reply);
      }
    }
  }

  lemma {:induction false} InvRun(s: State, acts: seq<Action>)
    requires Inv(s) && Valid(s, acts)
    ensures Inv(Run(s, acts))
    decreases |acts|
  {
    if acts != [] {
      InvStep(s, acts[0]);
      InvRun(Apply(s, acts[0]), acts[1..]);
    }
  }

  // In terms of the body's operations alone

  /** An operation that stored a value. */
  predicate StoresTo(e: Seen, key: Key, value: int) {
    e == Stored(key, value) || e == Failed(key, Some(value))
  }

  ghost predicate NoStore(seen: seq<Seen>, from: nat, key: Key) {
    forall j, value :: from <= j < |seen| ==> !StoresTo(seen[j], key, value)
  }

  ghost predicate LastStore(seen: seq<Seen>, i: nat, key: Key, value: int) {
    i < |seen| && StoresTo(seen[i], key, value) && NoStore(seen, i + 1, key)
  }

  ghost predicate StoredLast(seen: seq<Seen>, key: Key, value: int) {
    exists i: nat :: LastStore(seen, i, key, value)
  }

  predicate Maps(writes: Writes, key: Key, value: int) {
    key in writes && writes[key] == value
  }

  /** The writes of a body are the last stores to each key, and no others. */
  lemma {:induction false} WritesOfIs(seen: seq<Seen>, key: Key)
    ensures key !in WritesOf(seen) <==> NoStore(seen, 0, key)
    ensures key in WritesOf(seen) ==> exists i: nat :: LastStore(seen, i, key, WritesOf(seen)[key])
  {
    if seen != [] {
      var n := |seen| - 1;
      WritesOfIs(seen[..n], key);
      assert seen[n].Stored? ==> StoresTo(seen[n], seen[n].key, seen[n].value);
      assert seen[n].Failed? && seen[n].stored.Some? ==> StoresTo(seen[n], seen[n].key, seen[n].stored.value);
      if value :| StoresTo(seen[n], key, value) {
        assert LastStore(seen, n, key, value);
      } else if key in WritesOf(seen) {
        var i: nat :| LastStore(seen[..n], i, key, WritesOf(seen)[key]);
        assert seen[i] == seen[..n][i] && forall j :: i < j < n ==> seen[j] == seen[..n][j];
        assert LastStore(seen, i, key, WritesOf(seen)[key]);
      } else {
        assert forall j :: 0 <= j < n ==> seen[j] == seen[..n][j];
      }
    }
  }

  lemma LastStoreUnique(seen: seq<Seen>, i: nat, j: nat, key: Key, value: int, value': int)
    requires LastStore(seen, i, key, value) && LastStore(seen, j, key, value')
    ensures i == j && value == value'
  {
  }

  /** The last entry of a log that writes a key writes this value. */
  predicate LastWrite(log: seq<Entry>, i: nat, key: Key, value: int) {
    && i < |log| && key in log[i].writes && log[i].writes[key] == value
    && forall j :: i < j < |log| ==> key !in log[j].writes
  }

  lemma {:induction false} ValueAtIs(log: seq<Entry>, key: Key)
    ensures ValueAt(log, key).None? <==> forall j :: 0 <= j < |log| ==> key !in log[j].writes
    ensures ValueAt(log, key).Some? ==> exists i: nat :: LastWrite(log, i, key, ValueAt(log, key).value)
  {
    if log != [] {
      var n := |log| - 1;
      if key in log[n].writes {
        assert LastWrite(log, n, key, log[n].writes[key]);
      } else {
        ValueAtIs(log[..n], key);
        if ValueAt(log, key).Some? {
          var i: nat :| LastWrite(log[..n], i, key, ValueAt(log, key).value);
          assert LastWrite(log, i, key, ValueAt(log, key).value);
        } else {
          assert forall j :: 0 <= j < n ==> log[j] == log[..n][j];
        }
      }
    }
  }

  /** What a read finds: the body's own last store to the key, and without one what the snapshot has. */
  ghost predicate Finds(snapshot: seq<Entry>, before: seq<Seen>, key: Key, found: Option<int>) {
    && (forall i: nat, value :: LastStore(before, i, key, value) ==> found == Some(value))
    && (NoStore(before, 0, key) ==>
          if found.None? then forall j :: 0 <= j < |snapshot| ==> key !in snapshot[j].writes
          else exists j: nat :: LastWrite(snapshot, j, key, found.value))
  }

  lemma ReadFinds(snapshot: seq<Entry>, before: seq<Seen>, key: Key)
    ensures Finds(snapshot, before, key, ReadIn(snapshot, before, key))
  {
    WritesOfIs(before, key);
    ValueAtIs(snapshot, key);
    forall i: nat, value | LastStore(before, i, key, value)
      ensures ReadIn(snapshot, before, key) == Some(value)
    {
      var j: nat :| LastStore(before, j, key, WritesOf(before)[key]);
      LastStoreUnique(before, i, j, key, value, WritesOf(before)[key]);
    }
  }

  /** e can come of the body's next operation. */
  predicate Follows(body: Body, before: seq<Seen>, e: Seen) {
    match NextOp(body, before)
    case Get(key) => (e.Got? && e.key == key) || e == Failed(key, None)
    case Put(key, value) => e in {Stored(key, value), Conflicted(key), Failed(key, None), Failed(key, Some(value))}
    case _ => false
  }

  /**
   * One run of the body, on a snapshot of the first start entries, is entry i of the log and no
   * other: the last store to each key and nothing else. It met no conflict and has returned, and no
   * entry since the snapshot writes a key of it.
   */
  ghost predicate AppliedOnce(log: seq<Entry>, c: CallId, session: Session, start: nat, i: nat) {
    && start <= i < |log| && (forall j :: 0 <= j < |log| ==> (log[j].call == Some(c) <==> j == i))
    && (forall key, value :: Maps(log[i].writes, key, value) <==> StoredLast(session.seen, key, value))
    && (forall j, key :: start <= j < i && key in log[j].writes ==> key !in log[i].writes)
    && (forall r :: 0 <= r < |session.seen| ==>
          var before, e := session.seen[..r], session.seen[r];
          && Follows(session.body, before, e) && !e.Conflicted?
          && (e.Got? ==> Finds(log[..start], before, e.key, e.found)))
    && NextOp(session.body, session.seen).Return?
  }

  lemma StoredIsWritten(seen: seq<Seen>, key: Key, value: int)
    ensures Maps(WritesOf(seen), key, value) <==> StoredLast(seen, key, value)
  {
    WritesOfIs(seen, key);
    if i: nat :| LastStore(seen, i, key, value) {
      var j: nat :| LastStore(seen, j, key, WritesOf(seen)[key]);
      LastStoreUnique(seen, i, j, key, value, WritesOf(seen)[key]);
    }
  }

  lemma AppliedAtOnce(log: seq<Entry>, c: CallId, session: Session, start: nat, i: nat)
    requires AppliedAt(log, c, session, start, i)
    ensures AppliedOnce(log, c, session, start, i)
  {
    forall key, value
      ensures Maps(log[i].writes, key, value) <==> StoredLast(session.seen, key, value)
    {
      StoredIsWritten(session.seen, key, value);
    }
    forall j, key | start <= j < i && key in log[j].writes
      ensures key !in log[i].writes
    {
      assert key in log[..i][j].writes;
      assert WrittenSince(log[..i], start, key);
    }
    forall r | 0 <= r < |session.seen|
      ensures var before, e := session.seen[..r], session.seen[r];
              Follows(session.body, before, e) && (e.Got? ==> Finds(log[..start], before, e.key, e.found))
    {
      var before, e := session.seen[..r], session.seen[r];
      assert FaithfulAt(session.body, log[..start], before, e);
      if e.Got? {
        ReadFinds(log[..start], before, e.key);
      }
    }
  }

  ghost predicate AppliedInOne(log: seq<Entry>, c: CallId, session: Session, start: nat) {
    exists i: nat :: AppliedOnce(log, c, session, start, i)
  }

  lemma AppliedInOneEntry(log: seq<Entry>, c: CallId, session: Session, start: nat)
    requires Applied(log, c, session, start)
    ensures AppliedInOne(log, c, session, start)
  {
    var i: nat :| AppliedAt(log, c, session, start, i);
    AppliedAtOnce(log, c, session, start, i);
  }

  /** What a session's end says about the log. */
  ghost predicate EndSound(log: seq<Entry>, c: CallId, session: Session) {
    if session.pc.Finished? then
      match session.pc.error
      case None => AppliedInOne(log, c, session, session.pc.start)
      case Some(CommitError) => NothingBy(log, c) || AppliedInOne(log, c, session, session.pc.start)
      case Some(BodyError(message)) => NothingBy(log, c) && Raises(session, message)
      case Some(_) => NothingBy(log, c)
    else NothingBy(log, c)
  }

  lemma SessionEnds(log: seq<Entry>, c: CallId, session: Session)
    requires SessionSound(log, c, session)
    ensures EndSound(log, c, session)
  {
    if session.pc.Finished? && Applied(log, c, session, session.pc.start) {
      AppliedInOneEntry(log, c, session, session.pc.start);
    }
  }

  /**
   * For all bodies and all interleavings: a nil error means that one run of the body was applied as
   * one entry of the log, and nowhere else; a body's own error is returned as it is, and then, as
   * after a failed start or abort, nothing was; after a commit error, the one or the other.
   */
  lemma Atomicity(s: State, acts: seq<Action>, c: CallId)
    requires Initial(s) && Valid(s, acts) && c in Run(s, acts).sessions
    ensures EndSound(Run(s, acts).log, c, Run(s, acts).sessions[c])
  {
    InvRun(s, acts);
    SessionEnds(Run(s, acts).log, c, Run(s, acts).sessions[c]);
  }

  /** The step that ends a call, and the error with which it does. */
  ghost predicate EndsCall(a: Action, c: CallId, error: Option<Error>) {
    match error
    case None => a == Commit(c, Committed)
    case Some(CommitError) => a in {Commit(c, Refused), Commit(c, AckLost)}
    case Some(BodyError(_)) => a == Abort(c, true)
    case Some(AbortError) => a == Abort(c, false)
    case Some(SessionError) => a == StartSession(c, false)
    case Some(StartError) => a == StartTransaction(c, false)
  }

  predicate FinishedIn(s: State, c: CallId) {
    c in s.sessions && s.sessions[c].pc.Finished?
  }

  lemma EndStep(s: State, a: Action, c: CallId)
    requires Enabled(s, a)
    ensures var s' := Apply(s, a);
            && (FinishedIn(s, c) ==> FinishedIn(s', c) && s'.sessions[c] == s.sessions[c])
            && (!FinishedIn(s, c) && FinishedIn(s', c) ==> EndsCall(a, c, s'.sessions[c].pc.error))
            && (forall error :: EndsCall(a, c, error) ==> FinishedIn(s', c) && EndsCall(a, c, s'.sessions[c].pc.error))
  {
  }

  /** A call has ended exactly if one of these steps was taken, and with the error that belongs to it. */
  lemma {:induction false} ErrorsMean(s: State, acts: seq<Action>, c: CallId)
    requires Valid(s, acts) && !FinishedIn(s, c)
    ensures FinishedIn(Run(s, acts), c) <==> exists i, error :: 0 <= i < |acts| && EndsCall(acts[i], c, error)
    ensures FinishedIn(Run(s, acts), c) ==>
              exists i :: 0 <= i < |acts| && EndsCall(acts[i], c, Run(s, acts).sessions[c].pc.error)
    decreases |acts|
  {
    if acts != [] {
      var s1 := Apply(s, acts[0]);
      EndStep(s, acts[0], c);
      hide Apply, Enabled, EndsCall, FinishedIn;
      if FinishedIn(s1, c) {
        FinishedStays(s1, acts[1..], c);
        assert EndsCall(acts[0], c, s1.sessions[c].pc.error);
      } else {
        ErrorsMean(s1, acts[1..], c);
        assert forall i :: 0 < i < |acts| ==> acts[i] == acts[1..][i - 1];
        assert forall i :: 0 <= i < |acts| - 1 ==> acts[1..][i] == acts[i + 1];
      }
    }
  }

  lemma {:induction false} FinishedStays(s: State, acts: seq<Action>, c: CallId)
    requires Valid(s, acts) && FinishedIn(s, c)
    ensures FinishedIn(Run(s, acts), c) && Run(s, acts).sessions[c] == s.sessions[c]
    decreases |acts|
  {
    if acts != [] {
      EndStep(s, acts[0], c);
      hide Apply, Enabled;
      FinishedStays(Apply(s, acts[0]), acts[1..], c);
    }
  }

  /** The snapshot of a call, if it has one yet, holds at least so many entries. */
  predicate SnapshotFrom(s: State, c: CallId, n: nat) {
    && n <= |s.log|
    && (c in s.sessions && !s.sessions[c].pc.Called? && !s.sessions[c].pc.SessionStarted? ==>
          n <= s.sessions[c].pc.start)
  }

  /** A body's snapshot is not older than its call: it shows all that was in the log before. */
  lemma {:induction false} SnapshotIsRecent(s: State, acts: seq<Action>, c: CallId, n: nat)
    requires Valid(s, acts) && SnapshotFrom(s, c, n)
    ensures SnapshotFrom(Run(s, acts), c, n)
    decreases |acts|
  {
    if acts != [] {
      assert SnapshotFrom(Apply(s, acts[0]), c, n);
      hide Apply, Enabled, SnapshotFrom;
      SnapshotIsRecent(Apply(s, acts[0]), acts[1..], c, n);
    }
  }

  // ---------------------------------------------------------------------------------------
  // No lost update

  lemma {:induction false} UnwrittenKeepsValue(log: seq<Entry>, start: nat, key: Key)
    requires start <= |log| && !WrittenSince(log, start, key)
    ensures ValueAt(log, key) == ValueAt(log[..start], key)
    decreases |log|
  {
    if start < |log| {
      var front := log[..|log| - 1];
      assert key !in log[|log| - 1].writes;
      assert front[..start] == log[..start];
      UnwrittenKeepsValue(front, start, key);
    } else {
      assert log[..start] == log;
    }
  }

  /** A key that a committed transaction read and then wrote had the value it read when it committed. */
  lemma ReadsBeforeWritesAreCurrent(log: seq<Entry>, c: CallId, session: Session, start: nat, i: nat, r: nat)
    requires AppliedAt(log, c, session, start, i)
    requires r < |session.seen| && session.seen[r].Got? && session.seen[r].key in WritesOf(session.seen)
    requires session.seen[r].key !in WritesOf(session.seen[..r])
    ensures session.seen[r].found == ValueAt(log[..i], session.seen[r].key)
  {
    assert FaithfulAt(session.body, log[..start], session.seen[..r], session.seen[r]);
    assert log[..i][..start] == log[..start];
    UnwrittenKeepsValue(log[..i], start, session.seen[r].key);
  }

  function IntOf(found: Option<int>): int { if found.Some? then found.value else 0 }

  /** Read a counter, write one more, and give up on a conflict. */
  function Increment(key: Key, seen: seq<Seen>): Op {
    if |seen| == 0 then Get(key)
    else if |seen| == 1 && seen[0].Got? then Put(key, IntOf(seen[0].found) + 1)
    else if |seen| == 2 && seen[1].Stored? then Return(0)
    else Raise(0, "conflict")
  }

  ghost predicate Increments(body: Body, key: Key) {
    forall seen :: body(seen) == Increment(key, seen)
  }

  ghost predicate LeavesAlone(body: Body, key: Key) {
    forall seen :: !(body(seen).Put? && body(seen).key == key)
  }

  /** Nobody but incrementing transactions writes the counter. */
  ghost predicate OnlyIncrements(a: Action, key: Key) {
    && (a.Call? ==> Increments(a.body, key) || LeavesAlone(a.body, key))
    && (a.OutsideWrite? ==> a.key != key)
  }

  /** The increments that return nil in a run, and those whose acknowledgement is lost. */
  ghost function Tally(s: State, acts: seq<Action>, key: Key): (nat, nat)
    requires Valid(s, acts)
    decreases |acts|
  {
    if acts == [] then (0, 0)
    else
      var (nils, lost) := Tally(Apply(s, acts[0]), acts[1..], key);
      var counts := acts[0].Commit? && Increments(s.sessions[acts[0].c].body, key);
      (nils + if counts && acts[0].reply.Committed? then 1 else 0,
       lost + if counts && acts[0].reply.AckLost? then 1 else 0)
  }

  ghost predicate Bodies(s: State, key: Key) {
    forall c :: c in s.sessions ==> Increments(s.sessions[c].body, key) || LeavesAlone(s.sessions[c].body, key)
  }

  lemma {:induction false} WritesOfLeavesAlone(body: Body, snapshot: seq<Entry>, seen: seq<Seen>, key: Key)
    requires Faithful(body, snapshot, seen) && LeavesAlone(body, key)
    ensures key !in WritesOf(seen)
  {
    if seen != [] {
      var front := seen[..|seen| - 1];
      forall i | 0 <= i < |front|
        ensures FaithfulAt(body, snapshot, front[..i], front[i])
      {
        assert front[..i] == seen[..i];
      }
      WritesOfLeavesAlone(body, snapshot, front, key);
      assert FaithfulAt(body, snapshot, front, seen[|seen| - 1]);
    }
  }

  lemma WritesOfIncrement(body: Body, snapshot: seq<Entry>, seen: seq<Seen>, key: Key)
    requires Faithful(body, snapshot, seen) && Increments(body, key) && NextOp(body, seen).Return?
    ensures WritesOf(seen) == map[key := IntOf(ValueAt(snapshot, key)) + 1]
  {
    assert FaithfulAt(body, snapshot, seen[..0], seen[0]);
    assert FaithfulAt(body, snapshot, seen[..1], seen[1]);
    assert seen[..0] == [];
    assert seen[..1] == [seen[0]] && seen[..2] == seen;
    assert WritesOf(seen[..1]) == map[];
  }

  lemma CounterStep(s: State, a: Action, key: Key)
    requires Inv(s) && Bodies(s, key) && Enabled(s, a) && OnlyIncrements(a, key)
    ensures Bodies(Apply(s, a), key)
    ensures IntOf(ValueAt(Apply(s, a).log, key)) == IntOf(ValueAt(s.log, key))
              + if a.Commit? && Increments(s.sessions[a.c].body, key) && !a.reply.Refused? then 1 else 0
  {
    var s' := Apply(s, a);
    if s'.log != s.log {
      assert s'.log[..|s'.log| - 1] == s.log;
      if a.Commit? {
        var session := s.sessions[a.c];
        var start := session.pc.start;
        if Increments(session.body, key) {
          WritesOfIncrement(session.body, s.log[..start], session.seen, key);
          UnwrittenKeepsValue(s.log, start, key);
        } else {
          WritesOfLeavesAlone(session.body, s.log[..start], session.seen, key);
        }
      }
    }
  }

  lemma {:induction false} CounterRun(s: State, acts: seq<Action>, key: Key)
    requires Inv(s) && Bodies(s, key) && Valid(s, acts)
    requires forall i :: 0 <= i < |acts| ==> OnlyIncrements(acts[i], key)
    ensures IntOf(ValueAt(Run(s, acts).log, key)) ==
            IntOf(ValueAt(s.log, key)) + Tally(s, acts, key).0 + Tally(s, acts, key).1
    decreases |acts|
  {
    if acts != [] {
      InvStep(s, acts[0]);
      CounterStep(s, acts[0], key);
      CounterRun(Apply(s, acts[0]), acts[1..], key);
    }
  }

  /**
   * Whatever else interleaves, no increment is lost: the counter grows by the number of nil
   * returns and of lost acknowledgements, so by the nil returns alone exactly if none is lost.
   */
  lemma NoLostUpdate(s: State, acts: seq<Action>, key: Key)
    requires Initial(s) && Valid(s, acts)
    requires forall i :: 0 <= i < |acts| ==> OnlyIncrements(acts[i], key)
    ensures var grown := IntOf(ValueAt(Run(s, acts).log, key)) - IntOf(ValueAt(s.log, key));
            var (nils, lost) := Tally(s, acts, key);
            grown == nils + lost && (grown == nils <==> lost == 0)
  {
    CounterRun(s, acts, key);
  }

  /** One call that increments a counter, with nothing else happening. */
  function IncrementCall(c: CallId, key: Key, reply: CommitReply): seq<Action> {
    Starting(c, key) + Stepping(c) + [Commit(c, reply)]
  }

  function Starting(c: CallId, key: Key): seq<Action> {
    [Call(c, seen => Increment(key, seen)), StartSession(c, true), StartTransaction(c, true)]
  }

  function Stepping(c: CallId): seq<Action> {
    [Step(c, Done), Step(c, Done), Step(c, Done)]
  }

  function Committable(s: State, c: CallId, key: Key): Session {
    var v := ValueAt(s.log, key);
    Session(seen => Increment(key, seen), Committing(|s.log|, false), [Got(key, v), Stored(key, IntOf(v) + 1)])
  }

  lemma RunsThrough(s: State, acts: seq<Action>, states: seq<State>)
    requires |states| == |acts| + 1 && states[0] == s
    requires forall i :: 0 <= i < |acts| ==>
               Enabled(states[i], acts[i]) && states[i + 1] == Apply(states[i], acts[i])
    ensures Valid(s, acts) && Run(s, acts) == states[|acts|]
    decreases |acts|
  {
    hide Enabled, Apply;
    if acts != [] {
      RunsThrough(states[1], acts[1..], states[1..]);
    }
  }

  /** The call's session before its commit has read so much. */
  function Incrementing(s: State, c: CallId, key: Key, n: nat): State
    requires n <= 2
  {
    var done := Committable(s, c, key);
    WithSession(s, c, Session(done.body, Running(|s.log|, false), done.seen[..n]))
  }

  lemma IncrementReads(s: State, c: CallId, key: Key)
    ensures Enabled(Incrementing(s, c, key, 0), Step(c, Done))
    ensures Apply(Incrementing(s, c, key, 0), Step(c, Done)) == Incrementing(s, c, key, 1)
  {
    var seen := Committable(s, c, key).seen;
    assert s.log[..|s.log|] == s.log;
    assert seen[..0] + [seen[0]] == seen[..1];
    assert ReadIn(s.log, seen[..0], key) == ValueAt(s.log, key);
  }

  lemma IncrementWrites(s: State, c: CallId, key: Key)
    ensures Enabled(Incrementing(s, c, key, 1), Step(c, Done))
    ensures Apply(Incrementing(s, c, key, 1), Step(c, Done)) == Incrementing(s, c, key, 2)
  {
    var seen := Committable(s, c, key).seen;
    assert seen[..1] + [seen[1]] == seen[..2];
  }

  lemma IncrementReturns(s: State, c: CallId, key: Key)
    ensures Enabled(Incrementing(s, c, key, 2), Step(c, Done))
    ensures Apply(Incrementing(s, c, key, 2), Step(c, Done)) == WithSession(s, c, Committable(s, c, key))
  {
    var seen := Committable(s, c, key).seen;
    assert seen[..2] == seen;
  }

  lemma IncrementStarts(s: State, c: CallId, key: Key)
    requires c !in s.sessions
    ensures Valid(s, Starting(c, key)) && Run(s, Starting(c, key)) == Incrementing(s, c, key, 0)
  {
    var session := Session(Committable(s, c, key).body, Called, []);
    var s1, s2 := WithSession(s, c, session), WithSession(s, c, session.(pc := SessionStarted));
    assert Committable(s, c, key).seen[..0] == [];
    assert Apply(s2, StartTransaction(c, true)) == Incrementing(s, c, key, 0);
    RunsThrough(s, Starting(c, key), [s, s1, s2, Incrementing(s, c, key, 0)]);
  }

  lemma IncrementSteps(s: State, c: CallId, key: Key)
    ensures var s1, s2 := Incrementing(s, c, key, 0), WithSession(s, c, Committable(s, c, key));
            Valid(s1, Stepping(c)) && Run(s1, Stepping(c)) == s2
  {
    IncrementReads(s, c, key);
    IncrementWrites(s, c, key);
    IncrementReturns(s, c, key);
    hide Apply, Enabled, WithSession, Incrementing, Committable;
    RunsThrough(Incrementing(s, c, key, 0), Stepping(c),
                [Incrementing(s, c, key, 0), Incrementing(s, c, key, 1), Incrementing(s, c, key, 2),
                 WithSession(s, c, Committable(s, c, key))]);
  }

  lemma RunToCommit(s: State, c: CallId, key: Key)
    requires c !in s.sessions
    ensures var acts := Starting(c, key) + Stepping(c);
            Valid(s, acts) && Run(s, acts) == WithSession(s, c, Committable(s, c, key))
  {
    IncrementStarts(s, c, key);
    IncrementSteps(s, c, key);
    RunAppend(s, Starting(c, key), Stepping(c));
  }

  /** If nothing but the last action commits, the tally is the tally of that action. */
  lemma {:induction false} TallyOfLast(s: State, acts: seq<Action>, last: Action, key: Key)
    requires Valid(s, acts) && Enabled(Run(s, acts), last) && Valid(s, acts + [last])
    requires forall i :: 0 <= i < |acts| ==> !acts[i].Commit?
    ensures Tally(s, acts + [last], key) == Tally(Run(s, acts), [last], key)
    decreases |acts|
  {
    hide Enabled, Apply;
    if acts == [] {
      assert acts + [last] == [last];
    } else {
      assert (acts + [last])[1..] == acts[1..] + [last];
      TallyOfLast(Apply(s, acts[0]), acts[1..], last, key);
    }
  }

  lemma CommitAs(s: State, c: CallId, key: Key, reply: CommitReply)
    requires c !in s.sessions
    ensures var acts := IncrementCall(c, key, reply); var before := WithSession(s, c, Committable(s, c, key));
            && Enabled(before, Commit(c, reply)) && Valid(s, acts)
            && Run(s, acts) == Apply(before, Commit(c, reply))
            && Tally(s, acts, key) == (if reply.Committed? then 1 else 0, if reply.AckLost? then 1 else 0)
  {
    var acts, last := Starting(c, key) + Stepping(c), Commit(c, reply);
    var before := WithSession(s, c, Committable(s, c, key));
    RunToCommit(s, c, key);
    assert Enabled(before, last);
    RunsThrough(before, [last], [before, Apply(before, last)]);
    RunAppend(s, acts, [last]);
    TallyOfLast(s, acts, last, key);
    assert Increments(before.sessions[c].body, key);
  }

  /**
   * A commit error does not tell its caller whether the increment was applied: from every state, the
   * same call can end in the same session with the counter as it was, or one higher.
   */
  lemma CommitErrorIsAmbiguous(s: State, c: CallId, key: Key)
    requires c !in s.sessions
    ensures var refused, lost := IncrementCall(c, key, Refused), IncrementCall(c, key, AckLost);
            && Valid(s, refused) && Valid(s, lost)
            && Run(s, refused).sessions == Run(s, lost).sessions
            && c in Run(s, lost).sessions && Run(s, lost).sessions[c].pc == Finished(|s.log|, Some(CommitError))
            && IntOf(ValueAt(Run(s, refused).log, key)) == IntOf(ValueAt(s.log, key))
            && IntOf(ValueAt(Run(s, lost).log, key)) == IntOf(ValueAt(s.log, key)) + 1
            && Tally(s, refused, key) == (0, 0) && Tally(s, lost, key) == (0, 1)
  {
    CommitAs(s, c, key, Refused);
    CommitAs(s, c, key, AckLost);
    var seen := Committable(s, c, key).seen;
    assert seen[..1] == [seen[0]] && WritesOf(seen[..1]) == map[];
    assert WritesOf(seen) == map[key := IntOf(ValueAt(s.log, key)) + 1];
    var e := Entry(Some(c), WritesOf(seen));
    assert (s.log + [e])[..|s.log|] == s.log;
  }

  /**
   * A call that has incremented a counter can commit, unless somebody writes the counter first: then
   * its commit can only be refused.
   */
  lemma RaceIsRefused(s: State, c: CallId, key: Key, value: int, reply: CommitReply)
    requires c !in s.sessions
    ensures var acts := Starting(c, key) + Stepping(c);
            var race := acts + [OutsideWrite(key, value)];
            && Valid(s, acts) && Enabled(Run(s, acts), Commit(c, reply))
            && Valid(s, race) && ValueAt(Run(s, race).log, key) == Some(value)
            && (Enabled(Run(s, race), Commit(c, reply)) <==> reply.Refused?)
  {
    var acts, write := Starting(c, key) + Stepping(c), OutsideWrite(key, value);
    RunToCommit(s, c, key);
    var before := WithSession(s, c, Committable(s, c, key));
    var after := Apply(before, write);
    RunsThrough(before, [write], [before, after]);
    RunAppend(s, acts, [write]);
    var seen := Committable(s, c, key).seen;
    assert seen[..1] == [seen[0]] && WritesOf(seen[..1]) == map[];
    assert key in WritesOf(seen);
    assert key in after.log[|s.log|].writes && WrittenSince(after.log, |s.log|, key);
  }

  // ---------------------------------------------------------------------------------------
  // The method

  predicate Foreign(acts: seq<Action>, c: CallId) {
    forall i :: 0 <= i < |acts| ==> !acts[i].OfCall(c)
  }

  lemma {:induction false} ForeignRun(s: State, acts: seq<Action>, c: CallId)
    requires Valid(s, acts) && Foreign(acts, c) && c in s.sessions
    ensures c in Run(s, acts).sessions && Run(s, acts).sessions[c] == s.sessions[c]
    decreases |acts|
  {
    if acts != [] {
      ForeignRun(Apply(s, acts[0]), acts[1..], c);
    }
  }

  /** A body that returns or raises after at most so many operations. */
  ghost predicate EndsBy(body: Body, bound: nat) {
    forall seen :: |seen| >= bound ==> body(seen).Return? || body(seen).Raise?
  }

  /** The body's last operation carries the result; it is a Return exactly if a commit followed. */
  predicate EndsWith(last: Op, result: int, err: Option<Error>) {
    match last
    case Return(r) => result == r && err in {None, Some(CommitError)}
    case Raise(r, message) => result == r && err in {Some(BodyError(message)), Some(AbortError)}
    case _ => false
  }

  class MongoConnection {
    var s: State

    /** One action of a call, and then any actions of others. */
    method Do(a: Action, c: CallId) returns (run: seq<Action>)
      requires Inv(s) && Enabled(s, a) && a.OfCall(c)
      modifies this
      ensures Valid(old(s), run) && s == Run(old(s), run) && Inv(s)
      ensures c in s.sessions && s.sessions[c] == Apply(old(s), a).sessions[c]
    {
      ghost var s0 := s;
      s := Apply(s, a);
      var others: seq<Action> := *;
      if !(Valid(s, others) && Foreign(others, c)) {
        others := [];
      }
      ForeignRun(s, others, c);
      s := Run(s, others);
      run := [a] + others;
      assert run[1..] == others;
      InvRun(s0, run);
    }

    /** One operation of a body, with whatever becomes of it. */
    method CallOperation(c: CallId) returns (run: seq<Action>)
      requires Inv(s) && c in s.sessions && s.sessions[c].pc.Running?
      modifies this
      ensures Valid(old(s), run) && s == Run(old(s), run) && Inv(s)
      ensures c in s.sessions && s.sessions[c].body == old(s.sessions[c].body)
      ensures s.sessions[c].pc.Running? || s.sessions[c].pc.Committing? || s.sessions[c].pc.Aborting?
      ensures var op := old(NextOp(s.sessions[c].body, s.sessions[c].seen));
              s.sessions[c].pc.Running? ==>
                !op.Return? && !op.Raise? && |s.sessions[c].seen| == old(|s.sessions[c].seen|) + 1
    {
      var outcome: OpReply := *;
      var next := Step(c, outcome);
      if !Enabled(s, next) {
        next := Step(c, Done);
      }
      run := Do(next, c);
    }

    /** The call of fn: its operations, until it returns or raises an error, or no more are waited for. */
    method CallBody(c: CallId, patience: nat) returns (returned: bool, run: seq<Action>)
      requires Inv(s) && c in s.sessions && s.sessions[c].pc.Running? && s.sessions[c].seen == []
      modifies this
      ensures Valid(old(s), run) && s == Run(old(s), run) && Inv(s)
      ensures c in s.sessions && s.sessions[c].body == old(s.sessions[c].body)
      ensures if returned then s.sessions[c].pc.Committing? || s.sessions[c].pc.Aborting?
              else s.sessions[c].pc.Running? && |s.sessions[c].seen| == patience
      ensures forall bound: nat :: EndsBy(s.sessions[c].body, bound) && bound < patience ==> returned
    {
      ghost var s0 := s;
      var n := 0;
      run := [];
      while s.sessions[c].pc.Running? && n < patience
        invariant Valid(s0, run) && s == Run(s0, run) && Inv(s)
        invariant c in s.sessions && s.sessions[c].body == s0.sessions[c].body
        invariant s.sessions[c].pc.Running? || s.sessions[c].pc.Committing? || s.sessions[c].pc.Aborting?
        invariant s.sessions[c].pc.Running? ==> |s.sessions[c].seen| == n <= patience
        invariant s.sessions[c].pc.Running? && n > 0 ==> !EndsBy(s.sessions[c].body, n - 1)
      {
        var more := CallOperation(c);
        RunAppend(s0, run, more);
        run, n := run + more, n + 1;
      }
      returned := !s.sessions[c].pc.Running?;
    }

    /** The result that a body's last operation carries. */
    function ResultOf(session: Session): Option<int> {
      match NextOp(session.body, session.seen)
      case Return(result) => Some(result)
      case Raise(result, _) => Some(result)
      case _ => None
    }

    /** A session and a transaction in it. */
    method Start(c: CallId, body: Body) returns (err: Option<Error>, run: seq<Action>)
      requires Inv(s) && c !in s.sessions
      modifies this
      ensures Valid(old(s), run) && s == Run(old(s), run) && Inv(s)
      ensures c in s.sessions && s.sessions[c].body == body && s.sessions[c].seen == []
      ensures if err.None? then s.sessions[c].pc.Running?
              else && s.sessions[c].pc.Finished? && s.sessions[c].pc.error == err
                   && err.value in {SessionError, StartError}
    {
      ghost var s0 := s;
      run := Do(Call(c, body), c);
      var ok: bool := *;
      var more := Do(StartSession(c, ok), c);
      RunAppend(s0, run, more);
      run := run + more;
      if !ok {
        return Some(SessionError), run;
      }
      ok := *;
      more := Do(StartTransaction(c, ok), c);
      RunAppend(s0, run, more);
      run := run + more;
      err := if ok then None else Some(StartError);
    }

    /** Abort after the body's error, commit otherwise. */
    method Finish(c: CallId) returns (err: Option<Error>, run: seq<Action>)
      requires Inv(s) && c in s.sessions && (s.sessions[c].pc.Committing? || s.sessions[c].pc.Aborting?)
      modifies this
      ensures Valid(old(s), run) && s == Run(old(s), run) && Inv(s)
      ensures c in s.sessions && s.sessions[c].body == old(s.sessions[c].body)
      ensures s.sessions[c].seen == old(s.sessions[c].seen)
      ensures s.sessions[c].pc.Finished? && s.sessions[c].pc.error == err
      ensures if old(s.sessions[c].pc.Committing?) then err in {None, Some(CommitError)}
              else err in {Some(AbortError), Some(BodyError(old(s.sessions[c].pc.message)))}
    {
      if s.sessions[c].pc.Aborting? {
        var ok: bool := *;
        run := Do(Abort(c, ok), c);
      } else {
        var reply: CommitReply := *;
        if !Enabled(s, Commit(c, reply)) {
          reply := Refused;
        }
        run := Do(Commit(c, reply), c);
      }
      err := s.sessions[c].pc.error;
    }

    /**
     * RunTransaction with withRetries false. Each server call may fail, and the body need never
     * return: patience is the number of its operations after which we look.
     */
    method RunTransaction(c: CallId, body: Body, patience: nat)
      returns (returned: bool, result: Option<int>, err: Option<Error>, run: seq<Action>)
      requires Inv(s) && c !in s.sessions
      modifies this
      ensures Valid(old(s), run) && s == Run(old(s), run)
      ensures c in s.sessions && s.sessions[c].body == body
      ensures if returned then s.sessions[c].pc.Finished? && s.sessions[c].pc.error == err
              else s.sessions[c].pc.Running? && |s.sessions[c].seen| == patience && NothingBy(s.log, c)
      ensures forall bound: nat :: EndsBy(body, bound) && bound < patience ==> returned
      ensures returned ==> EndSound(s.log, c, s.sessions[c])
      ensures returned ==> if err in {Some(SessionError), Some(StartError)} then result.None?
                           else result.Some? && EndsWith(NextOp(body, s.sessions[c].seen), result.value, err)
    {
      ghost var s0 := s;
      returned, result := true, None;
      err, run := Start(c, body);
      if err.None? {
        var more;
        returned, more := CallBody(c, patience);
        RunAppend(s0, run, more);
        run := run + more;
        if returned {
          result := ResultOf(s.sessions[c]);
          err, more := Finish(c);
          RunAppend(s0, run, more);
          run := run + more;
        }
      }
      SessionEnds(s.log, c, s.sessions[c]);
    }
  }
}
