/** The names and lock IDs that a Lock prints for a resource. */
module LockId {
  import opened Text

  /** The name of the row that stands for a resource. */
  function LockName(resource: string, id: string): string {
    resource + "-" + id
  }

  /** The lock ID for a row name and a non-negative time ID. */
  function IdFor(name: string, time: nat): string {
    name + "-" + Decimal(time)
  }

  /** The lock ID as the source prints it: the time ID is any int, as GenerateTimeID can be replaced. */
  function PrintLockId(resource: string, id: string, time: int): string {
    resource + "-" + id + "-" + (if time < 0 then "-" + Decimal(-time) else Decimal(time))
  }

  /** Where the parts of a printed lock ID are. */
  lemma PrintedParts(resource: string, id: string, time: nat)
    ensures var lockId := PrintLockId(resource, id, time); var k := |resource| + 1 + |id|;
            && lockId[..|resource|] == resource && lockId[|resource|] == '-'
            && lockId[|resource| + 1..k] == id && lockId[k] == '-'
            && AllDigits(lockId[k + 1..]) && ParseDecimal(lockId[k + 1..]) == time
            && (lockId[k + 1] == '0' ==> time == 0 && |lockId| == k + 2)
    ensures LockName(resource, id) == PrintLockId(resource, id, time)[..|resource| + 1 + |id|]
  {
    var k := |resource| + 1 + |id|;
    assert PrintLockId(resource, id, time)[k + 1..] == Decimal(time);
    DecimalRoundTrip(time);
  }

  /** Reads a lock ID back: everything before the last dash, and the number after it. */
  function ParseLockId(lockId: string): (string, nat)
    requires LastIndexOf(lockId, '-') >= 0
    requires AllDigits(lockId[LastIndexOf(lockId, '-') + 1..])
  {
    var i := LastIndexOf(lockId, '-');
    (lockId[..i], ParseDecimal(lockId[i + 1..]))
  }

  lemma LockIdRoundTrip(name: string, time: nat)
    ensures LastIndexOf(IdFor(name, time), '-') == |name|
    ensures IdFor(name, time)[|name| + 1..] == Decimal(time)
    ensures ParseLockId(IdFor(name, time)) == (name, time)
  {
    LastIndexOfSplit(name, '-', Decimal(time));
    DecimalRoundTrip(time);
    assert IdFor(name, time)[..|name|] == name;
  }

  /** Even when names contain dashes and digits, and even across resources. */
  lemma LockIdsInjective(name: string, time: nat, name': string, time': nat)
    ensures IdFor(name, time) == IdFor(name', time') <==> name == name' && time == time'
  {
    LockIdRoundTrip(name, time);
    LockIdRoundTrip(name', time');
  }

  /**
   * Exactly when two printed IDs of one Lock are the same. For non-negative time IDs, which is
   * all that GenerateTimeID returns, only the first disjunct can hold; a negative one is read as
   * a dash that ends the resource ID.
   */
  lemma PrintedIdsCollide(resource: string, id: string, time: int, id': string, time': int)
    ensures PrintLockId(resource, id, time) == PrintLockId(resource, id', time') <==>
            || (id == id' && time == time')
            || (time < 0 <= time' && time' == -time && id' == id + "-")
            || (time' < 0 <= time && time == -time' && id == id' + "-")
  {
    PrintedIsIdFor(resource, id, time);
    PrintedIsIdFor(resource, id', time');
    var (n, t) := Canonical(resource, id, time);
    var (n', t') := Canonical(resource, id', time');
    LockIdsInjective(n, t, n', t');
    var k := |resource| + 1;
    assert n[k..] == if time < 0 then id + "-" else id;
    assert n'[k..] == if time' < 0 then id' + "-" else id';
    if id + "-" == id' + "-" {
      assert id == (id + "-")[..|id|] == (id' + "-")[..|id'|] == id';
    }
  }

  function Canonical(resource: string, id: string, time: int): (string, nat) {
    if time < 0 then (LockName(resource, id + "-"), -time) else (LockName(resource, id), time)
  }

  lemma PrintedIsIdFor(resource: string, id: string, time: int)
    ensures var (n, t) := Canonical(resource, id, time); PrintLockId(resource, id, time) == IdFor(n, t)
  {
    if time < 0 {
      assert PrintLockId(resource, id, time) == IdFor(LockName(resource, id + "-"), -time);
    }
  }
}
