/** The timestamp helpers: in-place updates of an update document and of the map nested in it. */
module Timestamps {

  const LAST_UPDATED := "last_updated"
  const UNIQUE_TIMESTAMP := "unique_timestamp"
  const CURRENT_DATE := "$currentDate"

  /** A timestamp as the driver represents it. */
  datatype Timestamp = Timestamp(t: bv32, i: bv32)

  /**
   * A value of a document: another document, by reference, or anything else. TypeTimestamp is the
   * literal {"$type": "timestamp"}, made anew wherever it is written and referred to from there only.
   */
  datatype Value =
    | Doc(doc: BsonM)
    | TypeTimestamp
    | Bool(b: bool)
    | Stamp(stamp: Timestamp)
    | Text(s: string)

  class BsonM {
    var entries: map<string, Value>

    constructor (entries: map<string, Value>)
      ensures this.entries == entries
    {
      this.entries := entries;
    }
  }

  /** The nested document that $currentDate refers to, if it refers to one. */
  function CurrentDate(doc: BsonM): set<BsonM>
    reads doc
  {
    if CURRENT_DATE in doc.entries && doc.entries[CURRENT_DATE].Doc? then {doc.entries[CURRENT_DATE].doc} else {}
  }

  function TypeTimestampEntries(): map<string, Value> {
    map["$type" := Text("timestamp")]
  }

  /** The entries of $currentDate, none if it is missing or is not a document. */
  function CurrentDateEntries(doc: BsonM): map<string, Value>
    reads doc, CurrentDate(doc)
  {
    if CURRENT_DATE !in doc.entries then map[]
    else if doc.entries[CURRENT_DATE].Doc? then doc.entries[CURRENT_DATE].doc.entries
    else if doc.entries[CURRENT_DATE].TypeTimestamp? then TypeTimestampEntries()
    else map[]
  }

  /** A document that does not contain itself as its own $currentDate. */
  predicate Proper(doc: BsonM)
    reads doc
  {
    doc !in CurrentDate(doc)
  }

  datatype Kind = LastUpdated | UniqueTimestamp

  function KeyFor(prefix: string, kind: Kind): string {
    prefix + if kind.LastUpdated? then LAST_UPDATED else UNIQUE_TIMESTAMP
  }

  function ValueFor(kind: Kind): Value {
    if kind.LastUpdated? then Bool(true) else TypeTimestamp
  }

  /** A $currentDate to which one kind of timestamp has been added for each of a set of prefixes. */
  function Stamped(entries: map<string, Value>, prefixes: set<string>, kind: Kind): map<string, Value> {
    entries + map p | p in prefixes :: KeyFor(p, kind) := ValueFor(kind)
  }

  function Elements(s: seq<string>): set<string> {
    set x | x in s
  }

  /** What one helper has made of a document: $currentDate added to, everything else as it was. */
  twostate predicate Updated(doc: BsonM, entries: map<string, Value>)
    reads doc, CurrentDate(doc)
  {
    && Proper(doc) && "$currentDate" in doc.entries && doc.entries["$currentDate"].Doc?
    && CurrentDateEntries(doc) == entries
    && doc.entries - {"$currentDate"} == old(doc.entries) - {"$currentDate"}
    && SameCurrentDate(doc)
  }

  /** An existing $currentDate document is kept; otherwise a new one has been put there. */
  twostate predicate SameCurrentDate(doc: BsonM)
    reads doc
  {
    if old(CurrentDate(doc)) == {} then fresh(CurrentDate(doc)) else CurrentDate(doc) == old(CurrentDate(doc))
  }

  /** withCurrentDate. For a value of another type it fails, and leaves the document as it was. */
  method WithCurrentDate(updateDoc: BsonM, key: string, val: Value) returns (newDoc: BsonM?, failed: bool)
    requires Proper(updateDoc)
    modifies updateDoc, CurrentDate(updateDoc)
    ensures failed <==> !val.Bool? && !val.Doc? && !val.TypeTimestamp?
    ensures failed ==> newDoc == null && unchanged(updateDoc) && unchanged(old(CurrentDate(updateDoc)))
    ensures !failed ==> newDoc == updateDoc && Updated(updateDoc, old(CurrentDateEntries(updateDoc))[key := val])
    ensures !failed && MaybeAt(old(updateDoc.entries), "$currentDate") == [TypeTimestamp] ==>
              CurrentDateEntries(updateDoc) == map["$type" := Text("timestamp")][key := val]
  {
    var currentDate: BsonM;
    if CURRENT_DATE in updateDoc.entries && updateDoc.entries[CURRENT_DATE].Doc? {
      currentDate := updateDoc.entries[CURRENT_DATE].doc;
    } else {
      currentDate := new BsonM(CurrentDateEntries(updateDoc));
    }
    match val {
      case Bool(_) => currentDate.entries := currentDate.entries[key := val];
      case Doc(_) => currentDate.entries := currentDate.entries[key := val];
      case TypeTimestamp => currentDate.entries := currentDate.entries[key := val];
      case _ => return null, true;
    }
    updateDoc.entries := updateDoc.entries[CURRENT_DATE := Doc(currentDate)];
    return updateDoc, false;
  }

  lemma StampNone(entries: map<string, Value>, prefixes: seq<string>, kind: Kind)
    ensures Stamped(entries, Elements(prefixes[..0]), kind) == entries
  {
  }

  lemma StampOneMore(entries: map<string, Value>, prefixes: seq<string>, i: nat, kind: Kind)
    requires i < |prefixes|
    ensures Stamped(entries, Elements(prefixes[..i]), kind)[KeyFor(prefixes[i], kind) := ValueFor(kind)]
            == Stamped(entries, Elements(prefixes[..i + 1]), kind)
  {
    assert Elements(prefixes[..i + 1]) == Elements(prefixes[..i]) + {prefixes[i]};
    StampAdd(entries, Elements(prefixes[..i]), prefixes[i], kind);
  }

  lemma StampAdd(entries: map<string, Value>, prefixes: set<string>, p: string, kind: Kind)
    ensures Stamped(entries, prefixes, kind)[KeyFor(p, kind) := ValueFor(kind)]
            == Stamped(entries, prefixes + {p}, kind)
  {
    var e := Stamped(entries, prefixes, kind)[KeyFor(p, kind) := ValueFor(kind)];
    var e' := Stamped(entries, prefixes + {p}, kind);
    forall key
      ensures MaybeAt(e, key) == MaybeAt(e', key)
    {
      StampedAt(entries, prefixes, kind, key);
      StampedAt(entries, prefixes + {p}, kind, key);
      assert KeyOf(key, prefixes + {p}, kind) <==> KeyOf(key, prefixes, kind) || key == KeyFor(p, kind);
    }
    SameEntries(e, e');
  }

  /** The loop of both namespaced helpers. With no prefixes, nothing is written. */
  method WithNamespaced(updateDoc: BsonM, prefixes: seq<string>, kind: Kind) returns (newDoc: BsonM?, failed: bool)
    requires Proper(updateDoc)
    modifies updateDoc, CurrentDate(updateDoc)
    ensures !failed && newDoc == updateDoc
    ensures if prefixes == [] then unchanged(updateDoc) && unchanged(old(CurrentDate(updateDoc)))
            else Updated(updateDoc, Stamped(old(CurrentDateEntries(updateDoc)), Elements(prefixes), kind))
  {
    hide TypeTimestampEntries, Stamped, Elements, KeyFor;
    newDoc, failed := updateDoc, false;
    ghost var before := CurrentDateEntries(updateDoc);
    StampNone(before, prefixes, kind);
    for i := 0 to |prefixes|
      invariant newDoc == updateDoc && Proper(updateDoc) && !failed
      invariant i == 0 ==> unchanged(updateDoc) && unchanged(old(CurrentDate(updateDoc)))
      invariant i > 0 ==> Updated(updateDoc, Stamped(before, Elements(prefixes[..i]), kind))
    {
      newDoc, failed := WithCurrentDate(updateDoc, KeyFor(prefixes[i], kind), ValueFor(kind));
      StampOneMore(before, prefixes, i, kind);
    }
    assert prefixes[..|prefixes|] == prefixes;
  }

  /** The $currentDate of WithNamespacedUpdates. */
  function FullyStamped(entries: map<string, Value>, prefixes: set<string>): map<string, Value> {
    Stamped(Stamped(entries, prefixes, LastUpdated), prefixes, UniqueTimestamp)
  }

  method WithNamespacedUpdates(updateDoc: BsonM, prefixes: seq<string>) returns (newDoc: BsonM?, failed: bool)
    requires Proper(updateDoc)
    modifies updateDoc, CurrentDate(updateDoc)
    ensures !failed && newDoc == updateDoc
    ensures if prefixes == [] then unchanged(updateDoc) && unchanged(old(CurrentDate(updateDoc)))
            else Updated(updateDoc, FullyStamped(old(CurrentDateEntries(updateDoc)), Elements(prefixes)))
  {
    newDoc, failed := WithNamespaced(updateDoc, prefixes, LastUpdated);
    if failed {
      return null, true;
    }
    newDoc, failed := WithNamespaced(newDoc, prefixes, UniqueTimestamp);
  }

  method WithUpdates(updateDoc: BsonM) returns (newDoc: BsonM?, failed: bool)
    requires Proper(updateDoc)
    modifies updateDoc, CurrentDate(updateDoc)
    ensures !failed && newDoc == updateDoc
    ensures Updated(updateDoc, FullyStamped(old(CurrentDateEntries(updateDoc)), {""}))
  {
    hide TypeTimestampEntries;
    ghost var before := CurrentDateEntries(updateDoc);
    newDoc, failed := WithCurrentDate(updateDoc, LAST_UPDATED, Bool(true));
    if failed {
      return null, true;
    }
    newDoc, failed := WithCurrentDate(newDoc, UNIQUE_TIMESTAMP, TypeTimestamp);
    StampedAlone(before, LastUpdated);
    StampedAlone(before[LAST_UPDATED := Bool(true)], UniqueTimestamp);
  }

  lemma StampedAlone(entries: map<string, Value>, kind: Kind)
    ensures Stamped(entries, {""}, kind) ==
            entries[if kind.LastUpdated? then LAST_UPDATED else UNIQUE_TIMESTAMP := ValueFor(kind)]
  {
    assert KeyFor("", kind) == if kind.LastUpdated? then LAST_UPDATED else UNIQUE_TIMESTAMP;
  }

  // ---------------------------------------------------------------------------------------
  // The closed form

  lemma KeysNeverClash(p: string, q: string)
    ensures KeyFor(p, LastUpdated) != KeyFor(q, UniqueTimestamp)
  {
    var a, b := KeyFor(p, LastUpdated), KeyFor(q, UniqueTimestamp);
    assert a[|a| - 1] == 'd' && b[|b| - 1] == 'p';
  }

  lemma KeysDetermineThePrefix(p: string, q: string, kind: Kind)
    ensures KeyFor(p, kind) == KeyFor(q, kind) <==> p == q
  {
    assert KeyFor(p, kind)[..|p|] == p && KeyFor(q, kind)[..|q|] == q;
  }

  /** The value at a key, if there is one. */
  function MaybeAt(entries: map<string, Value>, key: string): seq<Value> {
    if key in entries then [entries[key]] else []
  }

  ghost predicate KeyOf(key: string, prefixes: set<string>, kind: Kind) {
    exists p :: p in prefixes && key == p + if kind.LastUpdated? then "last_updated" else "unique_timestamp"
  }

  lemma StampedAt(entries: map<string, Value>, prefixes: set<string>, kind: Kind, key: string)
    ensures MaybeAt(Stamped(entries, prefixes, kind), key) ==
            if KeyOf(key, prefixes, kind) then [ValueFor(kind)] else MaybeAt(entries, key)
  {
  }

  /** Both timestamps of every prefix are set, whatever was there, and no other key is changed. */
  lemma FullyStampedAt(entries: map<string, Value>, prefixes: set<string>, key: string)
    ensures MaybeAt(FullyStamped(entries, prefixes), key) ==
            if KeyOf(key, prefixes, LastUpdated) then [Bool(true)]
            else if KeyOf(key, prefixes, UniqueTimestamp) then [TypeTimestamp]
            else MaybeAt(entries, key)
    ensures !(KeyOf(key, prefixes, LastUpdated) && KeyOf(key, prefixes, UniqueTimestamp))
  {
    StampedAt(Stamped(entries, prefixes, LastUpdated), prefixes, UniqueTimestamp, key);
    StampedAt(entries, prefixes, LastUpdated, key);
    NoSharedKey(key, prefixes, prefixes);
  }

  lemma NoSharedKey(key: string, prefixes: set<string>, more: set<string>)
    ensures !(KeyOf(key, prefixes, LastUpdated) && KeyOf(key, more, UniqueTimestamp))
  {
    if KeyOf(key, prefixes, LastUpdated) && KeyOf(key, more, UniqueTimestamp) {
      var p :| p in prefixes && key == KeyFor(p, LastUpdated);
      var q :| q in more && key == KeyFor(q, UniqueTimestamp);
      KeysNeverClash(p, q);
      assert false;
    }
  }

  lemma SameEntries(e: map<string, Value>, e': map<string, Value>)
    requires forall key :: MaybeAt(e, key) == MaybeAt(e', key)
    ensures e == e'
  {
    forall key
      ensures key in e <==> key in e'
      ensures key in e && key in e' ==> e[key] == e'[key]
    {
      assert MaybeAt(e, key) == MaybeAt(e', key);
    }
  }

  lemma KeyOfUnion(key: string, prefixes: set<string>, more: set<string>, kind: Kind)
    ensures KeyOf(key, prefixes + more, kind) <==> KeyOf(key, prefixes, kind) || KeyOf(key, more, kind)
  {
  }

  /** Calls add up: only the set of all the prefixes matters, not their order or grouping. */
  lemma FullyStampedAddsUp(entries: map<string, Value>, prefixes: set<string>, more: set<string>)
    ensures FullyStamped(FullyStamped(entries, prefixes), more) == FullyStamped(entries, prefixes + more)
  {
    hide KeyOf, FullyStamped;
    var once := FullyStamped(entries, prefixes);
    forall key
      ensures MaybeAt(FullyStamped(once, more), key) == MaybeAt(FullyStamped(entries, prefixes + more), key)
    {
      FullyStampedAt(entries, prefixes, key);
      FullyStampedAt(once, more, key);
      FullyStampedAt(entries, prefixes + more, key);
      NoSharedKey(key, prefixes, more);
      NoSharedKey(key, more, prefixes);
      KeyOfUnion(key, prefixes, more, LastUpdated);
      KeyOfUnion(key, prefixes, more, UniqueTimestamp);
    }
    SameEntries(FullyStamped(once, more), FullyStamped(entries, prefixes + more));
  }

  /** A repeated call changes nothing. */
  lemma FullyStampedIdempotent(entries: map<string, Value>, prefixes: set<string>)
    ensures FullyStamped(FullyStamped(entries, prefixes), prefixes) == FullyStamped(entries, prefixes)
  {
    FullyStampedAddsUp(entries, prefixes, prefixes);
    assert prefixes + prefixes == prefixes;
  }

  // ---------------------------------------------------------------------------------------
  // Queries

  /** The prefixes' timestamps, a later one for the same prefix winning. */
  function QueryStamped(
    entries: map<string, Value>, timestamps: seq<Timestamp>, prefixes: seq<string>): map<string, Value>
    requires |prefixes| <= |timestamps|
  {
    if prefixes == [] then entries
    else
      var i := |prefixes| - 1;
      QueryStamped(entries, timestamps, prefixes[..i])[KeyFor(prefixes[i], UniqueTimestamp) := Stamp(timestamps[i])]
  }

  /**
   * WithNamespacedUniqueTimestampQuery. It panics where there are fewer timestamps than prefixes, and
   * has by then written all the timestamps there are.
   */
  method WithNamespacedUniqueTimestampQuery(queryDoc: BsonM, timestamps: seq<Timestamp>, prefixes: seq<string>)
    returns (newDoc: BsonM?, panicked: bool)
    modifies queryDoc
    ensures panicked <==> |timestamps| < |prefixes|
    ensures newDoc == if panicked then null else queryDoc
    ensures queryDoc.entries ==
            QueryStamped(old(queryDoc.entries), timestamps, if panicked then prefixes[..|timestamps|] else prefixes)
  {
    newDoc := queryDoc;
    for i := 0 to |prefixes|
      invariant newDoc == queryDoc && i <= |timestamps|
      invariant queryDoc.entries == QueryStamped(old(queryDoc.entries), timestamps, prefixes[..i])
    {
      if i == |timestamps| {
        return null, true;
      }
      queryDoc.entries := queryDoc.entries[prefixes[i] + UNIQUE_TIMESTAMP := Stamp(timestamps[i])];
      assert prefixes[..i + 1][..i] == prefixes[..i];
    }
    assert prefixes[..|prefixes|] == prefixes;
    panicked := false;
  }

  /** A prefix gets the timestamp of its last occurrence. */
  lemma {:induction false} QueryStampedLast(
    entries: map<string, Value>, timestamps: seq<Timestamp>, prefixes: seq<string>, i: nat)
    requires i < |prefixes| <= |timestamps| && prefixes[i] !in prefixes[i + 1..]
    ensures MaybeAt(QueryStamped(entries, timestamps, prefixes), prefixes[i] + "unique_timestamp")
            == [Stamp(timestamps[i])]
  {
    var n := |prefixes| - 1;
    if i < n {
      var front := prefixes[..n];
      assert front[i + 1..] == prefixes[i + 1..][..n - i - 1];
      QueryStampedLast(entries, timestamps, front, i);
      assert prefixes[n] == prefixes[i + 1..][n - i - 1];
      KeysDetermineThePrefix(prefixes[i], prefixes[n], UniqueTimestamp);
    }
  }

  /** No other key is changed. */
  lemma {:induction false} QueryStampedElsewhere(
    entries: map<string, Value>, timestamps: seq<Timestamp>, prefixes: seq<string>, key: string)
    requires |prefixes| <= |timestamps|
    requires forall i :: 0 <= i < |prefixes| ==> key != prefixes[i] + "unique_timestamp"
    ensures MaybeAt(QueryStamped(entries, timestamps, prefixes), key) == MaybeAt(entries, key)
  {
    if prefixes != [] {
      QueryStampedElsewhere(entries, timestamps, prefixes[..|prefixes| - 1], key);
    }
  }
}
