/** Find options: closures that set fields of a shared record, and what a list of them comes to. */
module FindOptions {
  import opened Wrappers

  datatype SortKey = SortKey(field: string, ascending: bool)
  type SortSpec = seq<SortKey>

  datatype ReturnDocument = Before | After

  datatype FindOption =
    | Sort(sort: Option<SortSpec>)   // None is Go's nil
    | Offset(o: int)
    | Limit(l: int)
    | Projection(fields: Option<set<string>>)
    | ReturnDocument(when: ReturnDocument)
    | IgnoreZeroLimit

  /** The value of the findOptions record. */
  datatype Settings = Settings(
    limit: int,
    returnDocument: ReturnDocument,
    skip: int,
    sort: Option<SortSpec>,
    projection: Option<set<string>>,
    obeyZeroLimit: bool)

  const UNSET := Settings(0, Before, 0, None, None, false)

  /** What one option closure makes of the record. */
  function Set(s: Settings, o: FindOption): Settings {
    match o
    case Sort(sort) => s.(sort := sort)
    case Offset(o) => s.(skip := o)
    case Limit(l) => if l == 0 then s.(limit := 0, obeyZeroLimit := true) else s.(limit := l)
    case Projection(fields) => s.(projection := fields)
    case ReturnDocument(when) => s.(returnDocument := when)
    case IgnoreZeroLimit => s.(obeyZeroLimit := false)
  }

  function Fold(opts: seq<FindOption>): Settings {
    if opts == [] then UNSET else Set(Fold(opts[..|opts| - 1]), opts[|opts| - 1])
  }

  class FindOptions {
    var limit: int
    var returnDocument: ReturnDocument
    var skip: int
    var sort: Option<SortSpec>
    var projection: Option<set<string>>
    var obeyZeroLimit: bool

    function Value(): Settings
      reads this
    {
      Settings(limit, returnDocument, skip, sort, projection, obeyZeroLimit)
    }

    constructor ()
      ensures Value() == UNSET
    {
      limit, returnDocument, skip, sort, projection, obeyZeroLimit := 0, Before, 0, None, None, false;
    }

    method Apply(o: FindOption)
      modifies this
      ensures Value() == Set(old(Value()), o)
    {
      match o {
        case Sort(s) => sort := s;
        case Offset(n) => skip := n;
        case Limit(l) =>
          limit := l;
          if l == 0 {
            obeyZeroLimit := true;
          }
        case Projection(p) => projection := p;
        case ReturnDocument(when) => returnDocument := when;
        case IgnoreZeroLimit => obeyZeroLimit := false;
      }
    }
  }

  method NewFindOptions(opts: seq<FindOption>) returns (f: FindOptions)
    ensures fresh(f) && f.Value() == Fold(opts)
  {
    f := new FindOptions();
    for i := 0 to |opts|
      invariant fresh(f) && f.Value() == Fold(opts[..i])
    {
      f.Apply(opts[i]);
      assert opts[..i + 1][..i] == opts[..i];
    }
    assert opts[..|opts|] == opts;
  }

  // ---------------------------------------------------------------------------------------
  // Normal form

  /** The field an option is about; the limit and whether a zero one is obeyed count as one. */
  datatype Field = SortField | SkipField | LimitField | ProjectionField | ReturnField

  function FieldOf(o: FindOption): Field {
    match o
    case Sort(_) => SortField
    case Offset(_) => SkipField
    case Limit(_) => LimitField
    case Projection(_) => ProjectionField
    case ReturnDocument(_) => ReturnField
    case IgnoreZeroLimit => LimitField
  }

  /** The options about one field, in order. */
  function Only(opts: seq<FindOption>, f: Field): seq<FindOption> {
    if opts == [] then []
    else
      var last := opts[|opts| - 1];
      Only(opts[..|opts| - 1], f) + if FieldOf(last) == f then [last] else []
  }

  /** Two records agree on one field. */
  predicate Agree(s: Settings, s': Settings, f: Field) {
    match f
    case SortField => s.sort == s'.sort
    case SkipField => s.skip == s'.skip
    case LimitField => s.limit == s'.limit && s.obeyZeroLimit == s'.obeyZeroLimit
    case ProjectionField => s.projection == s'.projection
    case ReturnField => s.returnDocument == s'.returnDocument
  }

  lemma FoldAppend(opts: seq<FindOption>, o: FindOption)
    ensures Fold(opts + [o]) == Set(Fold(opts), o)
  {
    assert (opts + [o])[..|opts|] == opts;
  }

  lemma SetKeepsAgreement(s: Settings, s': Settings, o: FindOption, f: Field)
    requires Agree(s, s', f)
    ensures Agree(Set(s, o), if FieldOf(o) == f then Set(s', o) else s', f)
  {
  }

  lemma {:induction false} FieldDependsOnItsOptions(opts: seq<FindOption>, f: Field)
    ensures Agree(Fold(opts), Fold(Only(opts, f)), f)
  {
    if opts != [] {
      var front, last := opts[..|opts| - 1], opts[|opts| - 1];
      FieldDependsOnItsOptions(front, f);
      SetKeepsAgreement(Fold(front), Fold(Only(front, f)), last, f);
      hide Set, Agree;
      if FieldOf(last) == f {
        FoldAppend(Only(front, f), last);
      } else {
        assert Only(opts, f) == Only(front, f);
      }
    }
  }

  /** Reordering the options changes nothing as long as those about one field keep their order. */
  lemma ReorderingIsHarmless(opts: seq<FindOption>, opts': seq<FindOption>)
    requires forall f :: Only(opts, f) == Only(opts', f)
    ensures Fold(opts) == Fold(opts')
  {
    forall f: Field
      ensures Agree(Fold(opts), Fold(opts'), f)
    {
      FieldDependsOnItsOptions(opts, f);
      FieldDependsOnItsOptions(opts', f);
    }
    assert Agree(Fold(opts), Fold(opts'), SortField) && Agree(Fold(opts), Fold(opts'), SkipField);
    assert Agree(Fold(opts), Fold(opts'), LimitField) && Agree(Fold(opts), Fold(opts'), ProjectionField);
    assert Agree(Fold(opts), Fold(opts'), ReturnField);
  }

  predicate SameSetter(o: FindOption, o': FindOption) {
    FieldOf(o) == FieldOf(o') && o.IgnoreZeroLimit? == o'.IgnoreZeroLimit?
  }

  /** Each field holds what its last setter gave it; one without a setter keeps its zero value. */
  lemma {:induction false} LastSetterWins(opts: seq<FindOption>, i: nat)
    requires i < |opts| && forall k :: i < k < |opts| ==> !SameSetter(opts[i], opts[k])
    ensures var s := Fold(opts);
            match opts[i]
            case Sort(sort) => s.sort == sort
            case Offset(o) => s.skip == o
            case Limit(l) => s.limit == l
            case Projection(fields) => s.projection == fields
            case ReturnDocument(when) => s.returnDocument == when
            case IgnoreZeroLimit => true
    decreases |opts|
  {
    if i < |opts| - 1 {
      var front := opts[..|opts| - 1];
      assert front[i] == opts[i];
      LastSetterWins(front, i);
    }
  }

  lemma {:induction false} NoSetterNoChange(opts: seq<FindOption>, f: Field)
    requires forall k :: 0 <= k < |opts| ==> FieldOf(opts[k]) != f
    ensures match f
            case SortField => Fold(opts).sort == None
            case SkipField => Fold(opts).skip == 0
            case LimitField => Fold(opts).limit == 0 && !Fold(opts).obeyZeroLimit
            case ProjectionField => Fold(opts).projection == None
            case ReturnField => Fold(opts).returnDocument == Before
  {
    if opts != [] {
      NoSetterNoChange(opts[..|opts| - 1], f);
    }
  }

  /** Option i is a Limit(0), and no later option is about the limit. */
  predicate ZeroLimitAt(opts: seq<FindOption>, i: nat) {
    && i < |opts| && opts[i] == Limit(0)
    && forall k :: i < k < |opts| ==> FieldOf(opts[k]) != LimitField
  }

  lemma ZeroLimitAtAppend(opts: seq<FindOption>, o: FindOption, i: nat)
    ensures ZeroLimitAt(opts + [o], i) <==>
            (i == |opts| && o == Limit(0)) || (FieldOf(o) != LimitField && ZeroLimitAt(opts, i))
  {
    assert forall k :: 0 <= k < |opts| ==> (opts + [o])[k] == opts[k];
    assert (opts + [o])[|opts|] == o;
  }

  lemma ZeroLimitAppend(opts: seq<FindOption>, o: FindOption)
    ensures (exists i: nat :: ZeroLimitAt(opts + [o], i)) <==>
            o == Limit(0) || (FieldOf(o) != LimitField && exists i: nat :: ZeroLimitAt(opts, i))
  {
    forall i: nat
      ensures ZeroLimitAt(opts + [o], i) <==>
              (i == |opts| && o == Limit(0)) || (FieldOf(o) != LimitField && ZeroLimitAt(opts, i))
    {
      ZeroLimitAtAppend(opts, o, i);
    }
    hide ZeroLimitAt, FieldOf;
    assert o == Limit(0) ==> ZeroLimitAt(opts + [o], |opts|);
  }

  /** The zero-limit shortcut applies exactly when the last Limit is Limit(0) with no IgnoreZeroLimit after it. */
  lemma {:induction false} ZeroLimitObeyed(opts: seq<FindOption>)
    ensures Fold(opts).limit == 0 && Fold(opts).obeyZeroLimit <==> exists i: nat :: ZeroLimitAt(opts, i)
  {
    if opts != [] {
      var front, last := opts[..|opts| - 1], opts[|opts| - 1];
      ZeroLimitObeyed(front);
      ZeroLimitAppend(front, last);
      assert front + [last] == opts;
    }
  }

  // ---------------------------------------------------------------------------------------
  // The driver's options

  datatype DriverFind = DriverFind(sort: Option<SortSpec>, skip: int, limit: int, projection: Option<set<string>>)
  datatype DriverCount = DriverCount(skip: int, limit: Option<int>)

  function AsDriverFindOption(s: Settings): DriverFind {
    DriverFind(s.sort, s.skip, s.limit, s.projection)
  }

  function AsDriverCountOption(s: Settings): DriverCount {
    DriverCount(s.skip, if s.limit > 0 then Some(s.limit) else None)
  }
}
