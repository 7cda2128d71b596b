/** Find, FindCursor and Count on a collection, over a driver given by its contract. */
module Find {
  import opened Wrappers
  import opened FindOptions
  import opened Ordering

  type Filter = Doc -> bool

  // ---------------------------------------------------------------------------------------
  // Errors

  datatype GoError = ClientDisconnected | NoDocuments | Plain(message: string) | Wrapped(inner: GoError)

  function Unwraps(e: GoError): GoError {
    match e
    case Wrapped(inner) => Unwraps(inner)
    case _ => e
  }

  /** wrapMongoError on a non-nil error. */
  function WrapMongoError(e: GoError): GoError {
    if Unwraps(e).ClientDisconnected? then ClientDisconnected
    else if Unwraps(e).NoDocuments? then NoDocuments
    else Wrapped(e)
  }

  // ---------------------------------------------------------------------------------------
  // What the answers are to be

  /** The documents of a collection, whose keys are the _ids, that a filter accepts. */
  function Matches(docs: map<int, map<string, int>>, filter: Filter): set<Doc> {
    set id | id in docs && filter(Doc(id, docs[id])) :: Doc(id, docs[id])
  }

  function PageSize(total: nat, skip: nat, limit: int): nat {
    var rest := if skip <= total then total - skip else 0;
    var most := if limit < 0 then -limit else limit;
    if limit != 0 && most < rest then most else rest
  }

  /** Skip, then limit; a limit of zero is none, and the sign of a limit does not matter here. */
  function Page(order: seq<Doc>, skip: nat, limit: int): (page: seq<Doc>)
    ensures |page| == PageSize(|order|, skip, limit)
    ensures forall k :: 0 <= k < |page| ==> page[k] == order[skip + k]
  {
    var rest := if skip <= |order| then order[skip..] else [];
    var most := if limit < 0 then -limit else limit;
    if limit == 0 || |rest| <= most then rest else rest[..most]
  }

  function Project(projection: Option<set<string>>, d: Doc): Doc {
    match projection
    case None => d
    case Some(fields) => d.(fields := map f | f in d.fields && f in fields :: d.fields[f])
  }

  function Projected(projection: Option<set<string>>, docs: seq<Doc>): seq<Doc> {
    seq(|docs|, i requires 0 <= i < |docs| => Project(projection, docs[i]))
  }

  /** The sort that Find and FindCursor use. */
  function SortOf(s: Settings): SortSpec {
    if s.sort.None? then BY_ID else s.sort.value
  }

  /** The driver's answer to a find: some listing of the matches, skipped, limited and projected. */
  ghost predicate DriverFinds(matches: set<Doc>, o: DriverFind, docs: seq<Doc>) {
    && o.skip >= 0
    && exists order :: Listing(order, matches, if o.sort.None? then [] else o.sort.value)
         && docs == Projected(o.projection, Page(order, o.skip, o.limit))
  }

  function CountOf(total: nat, skip: nat, limit: Option<int>): nat {
    var rest := if skip <= total then total - skip else 0;
    if limit.Some? && 0 <= limit.value < rest then limit.value else rest
  }

  /** Find leaves the results as they are. */
  predicate Untouched(total: nat, s: Settings) {
    total == 0 || s.skip >= total || s.limit < 0 || (s.limit == 0 && s.obeyZeroLimit)
  }

  /** Find's error-free answer: the total, and the documents written, if any are. */
  ghost predicate FindAnswers(matches: set<Doc>, s: Settings, total: int, written: Option<seq<Doc>>) {
    && total == |matches|
    && (written.None? <==> Untouched(|matches|, s))
    && (written.Some? ==>
          && s.skip >= 0
          && exists order :: Listing(order, matches, SortOf(s))
               && written.value == Projected(s.projection, Page(order, s.skip, s.limit)))
  }

  // ---------------------------------------------------------------------------------------
  // The collection

  /** The errors that the three driver calls of one operation meet, if any. */
  datatype Faults = Faults(count: Option<GoError>, find: Option<GoError>, all: Option<GoError>)

  const NEGATIVE_SKIP := Plain("skip must be non-negative")

  /** The driver refuses a negative skip by itself. */
  function DriverError(fault: Option<GoError>, skip: int): Option<GoError> {
    if fault.Some? then fault else if skip < 0 then Some(NEGATIVE_SKIP) else None
  }

  function WrapOption(e: Option<GoError>): Option<GoError> {
    if e.Some? then Some(WrapMongoError(e.value)) else None
  }

  class Results {
    var docs: seq<Doc>
  }

  class Collection {
    var docs: map<int, map<string, int>>

    /** The driver's CountDocuments. */
    method CountDocuments(filter: Filter, o: DriverCount, fault: Option<GoError>)
      returns (count: int, err: Option<GoError>)
      ensures err == DriverError(fault, o.skip)
      ensures count == if err.Some? then 0 else CountOf(|Matches(docs, filter)|, o.skip, o.limit)
    {
      err := DriverError(fault, o.skip);
      count := if err.Some? then 0 else CountOf(|Matches(docs, filter)|, o.skip, o.limit);
    }

    /** The driver's Find, with the documents its cursor has to give. */
    method DriverFind(filter: Filter, o: DriverFind, fault: Option<GoError>)
      returns (cursor: seq<Doc>, err: Option<GoError>)
      ensures err == DriverError(fault, o.skip)
      ensures if err.Some? then cursor == [] else DriverFinds(Matches(docs, filter), o, cursor)
    {
      cursor, err := [], DriverError(fault, o.skip);
      if err.None? {
        var order := List(Matches(docs, filter), if o.sort.None? then [] else o.sort.value);
        cursor := Projected(o.projection, Page(order, o.skip, o.limit));
      }
    }

    method Count(filter: Filter, opts: seq<FindOption>, faults: Faults) returns (count: int, err: Option<GoError>)
      ensures err == WrapOption(DriverError(faults.count, Fold(opts).skip))
      ensures var o := AsDriverCountOption(Fold(opts));
              count == if err.Some? then 0 else CountOf(|Matches(docs, filter)|, o.skip, o.limit)
    {
      var fo := NewFindOptions(opts);
      count, err := CountDocuments(filter, AsDriverCountOption(fo.Value()), faults.count);
      err := WrapOption(err);
    }

    /** Find. A count error is returned raw and a find or cursor error wrapped. */
    method Find(filter: Filter, results: Results, opts: seq<FindOption>, faults: Faults)
      returns (total: int, err: Option<GoError>)
      modifies results
      ensures var s := Fold(opts);
              var matches := Matches(docs, filter);
              if faults.count.Some? then
                total == 0 && err == faults.count && results.docs == old(results.docs)
              else if Untouched(|matches|, s) then
                FindAnswers(matches, s, total, None) && err == None && results.docs == old(results.docs)
              else if DriverError(faults.find, s.skip).Some? then
                total == 0 && err == WrapOption(DriverError(faults.find, s.skip)) && results.docs == old(results.docs)
              else if faults.all.Some? then
                total == |matches| && err == WrapOption(faults.all)
              else
                FindAnswers(matches, s, total, Some(results.docs)) && err == None
    {
      var fo := NewFindOptions(opts);
      total, err := CountDocuments(filter, DriverCount(0, None), faults.count);
      if err.Some? {
        return 0, err;
      } else if total == 0 {
        return 0, None;
      } else if fo.limit < 0 || fo.skip >= total || (fo.limit == 0 && fo.obeyZeroLimit) {
        return total, None;
      }
      if fo.sort.None? {
        fo.sort := Some(BY_ID);
      }
      var cursor;
      cursor, err := DriverFind(filter, AsDriverFindOption(fo.Value()), faults.find);
      if err.Some? {
        return 0, WrapOption(err);
      }
      err := WrapOption(faults.all);
      if err.Some? {
        results.docs := *;
      } else {
        results.docs := cursor;
      }
    }

    method FindCursor(filter: Filter, opts: seq<FindOption>, faults: Faults)
      returns (cursor: seq<Doc>, err: Option<GoError>)
      ensures err == WrapOption(DriverError(faults.find, Fold(opts).skip))
      ensures if err.Some? then cursor == []
              else
                var s := Fold(opts);
                DriverFinds(Matches(docs, filter), AsDriverFindOption(s.(sort := Some(SortOf(s)))), cursor)
    {
      var fo := NewFindOptions(opts);
      if fo.sort.None? {
        fo.sort := Some(BY_ID);
      }
      cursor, err := DriverFind(filter, AsDriverFindOption(fo.Value()), faults.find);
      err := WrapOption(err);
    }
  }

  // ---------------------------------------------------------------------------------------
  // The shortcuts against the simple form

  /**
   * For a limit that is not negative and a zero limit that is not obeyed, the shortcuts are taken
   * exactly when sort-skip-limit would give nothing; so they lose no document.
   */
  lemma ShortcutsLoseNothing(order: seq<Doc>, matches: set<Doc>, s: Settings)
    requires Listing(order, matches, SortOf(s)) && s.skip >= 0
    requires s.limit >= 0 && !(s.limit == 0 && s.obeyZeroLimit)
    ensures Untouched(|matches|, s) <==> Page(order, s.skip, s.limit) == []
  {
    ListingSize(order, matches, SortOf(s));
  }

  /** The documents that an answer has written. */
  function Written(written: Option<seq<Doc>>): seq<Doc> {
    if written.None? then [] else written.value
  }

  /** The documents Find writes are as many as Count says, but for limits that stop only Find. */
  lemma FindAndCountAgree(matches: set<Doc>, s: Settings, total: int, written: Option<seq<Doc>>)
    requires s.skip >= 0 && FindAnswers(matches, s, total, written)
    ensures var count := CountOf(|matches|, s.skip, AsDriverCountOption(s).limit);
            if s.limit < 0 || (s.limit == 0 && s.obeyZeroLimit)
            then written.None? && count == (if s.skip <= total then total - s.skip else 0)
            else |Written(written)| == count
  {
    if written.Some? {
      var order :| Listing(order, matches, SortOf(s))
                   && written.value == Projected(s.projection, Page(order, s.skip, s.limit));
      ListingSize(order, matches, SortOf(s));
    }
  }

  /**
   * Find and FindCursor differ only where Find takes a shortcut: what Find has written, FindCursor
   * can give, and where Find writes nothing without a limit to say so, FindCursor gives nothing.
   */
  lemma FindCursorAgrees(matches: set<Doc>, s: Settings, total: int, written: Option<seq<Doc>>)
    requires s.skip >= 0 && FindAnswers(matches, s, total, written)
    requires s.limit >= 0 && !(s.limit == 0 && s.obeyZeroLimit)
    ensures DriverFinds(matches, AsDriverFindOption(s.(sort := Some(SortOf(s)))), Written(written))
  {
    if written.None? {
      ListingExists(matches, SortOf(s));
      var order :| Listing(order, matches, SortOf(s));
      ShortcutsLoseNothing(order, matches, s);
      assert Projected(s.projection, Page(order, s.skip, s.limit)) == [];
    }
  }

  // ---------------------------------------------------------------------------------------
  // What an answer shows

  /** A document as a projection shows it: the named fields, or all of them. */
  ghost predicate ShowsAs(shown: Doc, d: Doc, projection: Option<set<string>>) {
    && shown.id == d.id
    && (forall f :: f in shown.fields <==> f in d.fields && (projection.None? || f in projection.value))
    && (forall f :: f in shown.fields ==> shown.fields[f] == d.fields[f])
  }

  /** All the documents that a filter accepts, each once, in the order asked for, or else by _id. */
  ghost predicate InOrder(
    order: seq<Doc>, docs: map<int, map<string, int>>, filter: Filter, sort: Option<SortSpec>)
  {
    && (forall d :: d in order <==> d.id in docs && docs[d.id] == d.fields && filter(d))
    && (forall i, j :: 0 <= i < j < |order| ==> order[i].id != order[j].id)
    && (match sort
        case Some(spec) => Sorted(spec, order)
        case None => forall i, j :: 0 <= i < j < |order| ==> order[i].id < order[j].id)
  }

  /** The skipped and limited part of an ordering, projected. */
  ghost predicate ShowsPage(order: seq<Doc>, s: Settings, shown: seq<Doc>) {
    && s.skip >= 0 && |shown| == PageSize(|order|, s.skip, s.limit)
    && forall k :: 0 <= k < |shown| ==> ShowsAs(shown[k], order[s.skip + k], s.projection)
  }

  ghost predicate Shows(docs: map<int, map<string, int>>, filter: Filter, s: Settings, shown: seq<Doc>) {
    exists order :: InOrder(order, docs, filter, s.sort) && ShowsPage(order, s, shown)
  }

  lemma ListingInOrder(order: seq<Doc>, docs: map<int, map<string, int>>, filter: Filter, s: Settings)
    requires Listing(order, Matches(docs, filter), SortOf(s))
    ensures InOrder(order, docs, filter, s.sort)
  {
    forall d
      ensures d in order <==> d.id in docs && docs[d.id] == d.fields && filter(d)
    {
      assert d in order <==> d in Matches(docs, filter);
    }
    forall i, j | 0 <= i < j < |order|
      ensures order[i].id != order[j].id && (s.sort.None? ==> order[i].id < order[j].id)
    {
      assert order[i] in order && order[j] in order && order[i] != order[j];
      ByIdOrder(order[i], order[j]);
    }
  }

  lemma PageShows(order: seq<Doc>, s: Settings)
    requires s.skip >= 0
    ensures ShowsPage(order, s, Projected(s.projection, Page(order, s.skip, s.limit)))
  {
  }

  /** What Find writes: a page of the accepted documents, in the order that the options ask for. */
  lemma FindShows(
    docs: map<int, map<string, int>>, filter: Filter, opts: seq<FindOption>, total: int, written: seq<Doc>)
    requires FindAnswers(Matches(docs, filter), Fold(opts), total, Some(written))
    ensures Shows(docs, filter, Fold(opts), written) && total == |Matches(docs, filter)|
    ensures Fold(opts).projection.None? ==>
              match Fold(opts).sort
              case Some(spec) => Sorted(spec, written)
              case None => forall i, j :: 0 <= i < j < |written| ==> written[i].id < written[j].id
  {
    var s := Fold(opts);
    var order :| Listing(order, Matches(docs, filter), SortOf(s))
                 && written == Projected(s.projection, Page(order, s.skip, s.limit));
    ListingInOrder(order, docs, filter, s);
    PageShows(order, s);
    if s.projection.None? {
      assert written == Page(order, s.skip, s.limit);
    }
  }

  /** What the cursor of FindCursor gives: the same, with no shortcut before it. */
  lemma FindCursorShows(docs: map<int, map<string, int>>, filter: Filter, opts: seq<FindOption>, cursor: seq<Doc>)
    requires var s := Fold(opts);
             DriverFinds(Matches(docs, filter), AsDriverFindOption(s.(sort := Some(SortOf(s)))), cursor)
    ensures Shows(docs, filter, Fold(opts), cursor)
  {
    var s := Fold(opts);
    var order :| Listing(order, Matches(docs, filter), SortOf(s))
                 && cursor == Projected(s.projection, Page(order, s.skip, s.limit));
    ListingInOrder(order, docs, filter, s);
    PageShows(order, s);
  }

  /** What Count gives: the matches after the skip, at most as many as a positive limit says. */
  lemma CountIs(total: nat, opts: seq<FindOption>)
    requires Fold(opts).skip >= 0
    ensures var s := Fold(opts);
            var o := AsDriverCountOption(s);
            CountOf(total, o.skip, o.limit) == PageSize(total, s.skip, if s.limit > 0 then s.limit else 0)
  {
  }

  // ---------------------------------------------------------------------------------------
  // Errors, to the caller

  /** errors.Is: an error or one that it wraps is the one asked for. */
  predicate Is(e: GoError, target: GoError) {
    e == target || (e.Wrapped? && Is(e.inner, target))
  }

  /** Wrapping hides no disconnection and no missing document, and makes both comparable directly. */
  lemma {:induction false} WrappingKeepsCauses(e: GoError)
    ensures WrapMongoError(e) == ClientDisconnected <==> Is(e, ClientDisconnected)
    ensures WrapMongoError(e) == NoDocuments <==> Is(e, NoDocuments)
    ensures WrapMongoError(e) == Wrapped(e) <==> !Is(e, ClientDisconnected) && !Is(e, NoDocuments)
    ensures forall message :: Is(WrapMongoError(e), Plain(message)) <==> Is(e, Plain(message))
  {
    UnwrapsIs(e);
  }

  lemma {:induction false} UnwrapsIs(e: GoError)
    ensures Is(e, ClientDisconnected) <==> Unwraps(e) == ClientDisconnected
    ensures Is(e, NoDocuments) <==> Unwraps(e) == NoDocuments
    ensures forall message :: Is(e, Plain(message)) <==> Unwraps(e) == Plain(message)
  {
    if e.Wrapped? {
      UnwrapsIs(e.inner);
    }
  }
}
