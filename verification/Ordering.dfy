/** The server's order on documents, and the listings of a set of documents that it allows. */
module Ordering {
  import opened Wrappers
  import opened FindOptions

  /** A document: its _id, and its other fields. */
  datatype Doc = Doc(id: int, fields: map<string, int>)

  /** A missing field comes before every value. */
  function Key(d: Doc, field: string): Option<int> {
    if field == "_id" then Some(d.id) else if field in d.fields then Some(d.fields[field]) else None
  }

  predicate Below(a: Option<int>, b: Option<int>) {
    b.Some? && (a.None? || a.value < b.value)
  }

  /** a may come before b. */
  predicate Leq(spec: SortSpec, a: Doc, b: Doc) {
    spec == []
    || var x, y := Key(a, spec[0].field), Key(b, spec[0].field);
       (if spec[0].ascending then Below(x, y) else Below(y, x)) || (x == y && Leq(spec[1..], a, b))
  }

  lemma {:induction false} LeqTotal(spec: SortSpec, a: Doc, b: Doc)
    ensures Leq(spec, a, b) || Leq(spec, b, a)
  {
    if spec != [] {
      LeqTotal(spec[1..], a, b);
    }
  }

  lemma {:induction false} LeqTransitive(spec: SortSpec, a: Doc, b: Doc, c: Doc)
    requires Leq(spec, a, b) && Leq(spec, b, c)
    ensures Leq(spec, a, c)
  {
    if spec != [] && Key(a, spec[0].field) == Key(b, spec[0].field) == Key(c, spec[0].field) {
      LeqTransitive(spec[1..], a, b, c);
    }
  }

  /** The first key on which two documents differ decides. */
  lemma {:induction false} FirstDifferenceDecides(spec: SortSpec, a: Doc, b: Doc, i: nat)
    requires i < |spec| && Key(a, spec[i].field) != Key(b, spec[i].field)
    requires forall j :: 0 <= j < i ==> Key(a, spec[j].field) == Key(b, spec[j].field)
    ensures Leq(spec, a, b) <==> if spec[i].ascending then Below(Key(a, spec[i].field), Key(b, spec[i].field))
                                 else Below(Key(b, spec[i].field), Key(a, spec[i].field))
  {
    if i > 0 {
      assert Key(a, spec[0].field) == Key(b, spec[0].field);
      FirstDifferenceDecides(spec[1..], a, b, i - 1);
    }
  }

  /** Documents that differ on none of the keys tie. */
  lemma {:induction false} NoDifferenceTies(spec: SortSpec, a: Doc, b: Doc)
    requires forall j :: 0 <= j < |spec| ==> Key(a, spec[j].field) == Key(b, spec[j].field)
    ensures Leq(spec, a, b) && Leq(spec, b, a)
  {
    if spec != [] {
      NoDifferenceTies(spec[1..], a, b);
    }
  }

  /** One key, on the _id or on a field that both documents have. */
  lemma OneKey(field: string, ascending: bool, a: Doc, b: Doc)
    requires field == "_id" || (field in a.fields && field in b.fields)
    ensures Leq([SortKey(field, ascending)], a, b) <==>
            var x := if field == "_id" then a.id else a.fields[field];
            var y := if field == "_id" then b.id else b.fields[field];
            if ascending then x <= y else y <= x
  {
    assert [SortKey(field, ascending)][1..] == [];
  }

  /** A document without a field comes before those with it, or after them if the order is descending. */
  lemma MissingFieldOrder(field: string, ascending: bool, a: Doc, b: Doc)
    requires field != "_id" && field !in a.fields && field in b.fields
    ensures Leq([SortKey(field, ascending)], a, b) <==> ascending
    ensures Leq([SortKey(field, ascending)], b, a) <==> !ascending
  {
    assert [SortKey(field, ascending)][1..] == [];
  }

  const BY_ID: SortSpec := [SortKey("_id", true)]

  lemma ByIdOrder(a: Doc, b: Doc)
    ensures Leq(BY_ID, a, b) <==> a.id <= b.id
  {
    assert BY_ID[1..] == [];
  }

  predicate Distinct(s: seq<Doc>) {
    forall i, j :: 0 <= i < j < |s| ==> s[i] != s[j]
  }

  predicate Sorted(spec: SortSpec, s: seq<Doc>) {
    forall i, j :: 0 <= i < j < |s| ==> Leq(spec, s[i], s[j])
  }

  /** A listing of a set of documents: each once, in order. Tied documents may come in any order. */
  ghost predicate Listing(s: seq<Doc>, docs: set<Doc>, spec: SortSpec) {
    Sorted(spec, s) && Distinct(s) && forall d :: d in docs <==> d in s
  }

  lemma {:induction false} LeastExists(docs: set<Doc>, spec: SortSpec)
    requires docs != {}
    ensures exists d :: d in docs && forall e :: e in docs ==> Leq(spec, d, e)
  {
    var d :| d in docs;
    LeqTotal(spec, d, d);
    if docs != {d} {
      var rest := docs - {d};
      LeastExists(rest, spec);
      var m :| m in rest && forall e :: e in rest ==> Leq(spec, m, e);
      LeqTotal(spec, d, m);
      LeqTotal(spec, m, m);
      var least := if Leq(spec, d, m) then d else m;
      forall e | e in docs
        ensures Leq(spec, least, e)
      {
        if e != d && least == d {
          LeqTransitive(spec, d, m, e);
        }
      }
    }
  }

  /** Lists the documents, breaking ties arbitrarily. */
  method List(docs: set<Doc>, spec: SortSpec) returns (s: seq<Doc>)
    ensures Listing(s, docs, spec) && |s| == |docs|
  {
    s := [];
    var rest := docs;
    while rest != {}
      invariant rest <= docs && |s| + |rest| == |docs|
      invariant Listing(s, docs - rest, spec)
      invariant forall d, e :: d in s && e in rest ==> Leq(spec, d, e)
      decreases rest
    {
      LeastExists(rest, spec);
      var d :| d in rest && forall e :: e in rest ==> Leq(spec, d, e);
      s, rest := s + [d], rest - {d};
    }
  }

  lemma {:induction false} ListingExists(docs: set<Doc>, spec: SortSpec)
    ensures exists s :: Listing(s, docs, spec)
  {
    if docs == {} {
      assert Listing([], docs, spec);
    } else {
      LeastExists(docs, spec);
      var d :| d in docs && forall e :: e in docs ==> Leq(spec, d, e);
      ListingExists(docs - {d}, spec);
      var s :| Listing(s, docs - {d}, spec);
      assert Listing([d] + s, docs, spec);
    }
  }

  lemma {:induction false} ListingSize(s: seq<Doc>, docs: set<Doc>, spec: SortSpec)
    requires Listing(s, docs, spec)
    ensures |s| == |docs|
  {
    if s == [] {
      assert docs == {};
    } else {
      assert forall d :: d in docs - {s[0]} <==> d in s[1..];
      ListingSize(s[1..], docs - {s[0]}, spec);
    }
  }

  /** No two documents tie. */
  ghost predicate NoTies(docs: set<Doc>, spec: SortSpec) {
    forall a, b :: a in docs && b in docs && Leq(spec, a, b) && Leq(spec, b, a) ==> a == b
  }

  lemma {:induction false} ListingUnique(s: seq<Doc>, t: seq<Doc>, docs: set<Doc>, spec: SortSpec)
    requires Listing(s, docs, spec) && Listing(t, docs, spec) && NoTies(docs, spec)
    ensures s == t
  {
    ListingSize(s, docs, spec);
    ListingSize(t, docs, spec);
    if s != [] {
      assert s[0] in t && t[0] in s;
      LeqTotal(spec, s[0], s[0]);
      assert s[0] == t[0];
      assert forall d :: d in docs - {s[0]} <==> d in s[1..];
      assert forall d :: d in docs - {s[0]} <==> d in t[1..];
      ListingUnique(s[1..], t[1..], docs - {s[0]}, spec);
    }
  }

  /** Two tied documents can change places. */
  lemma TiedCanSwap(s: seq<Doc>, docs: set<Doc>, spec: SortSpec, i: nat, j: nat)
    requires Listing(s, docs, spec) && i < j < |s| && Leq(spec, s[j], s[i])
    ensures Listing(s[i := s[j]][j := s[i]], docs, spec)
  {
    var t := s[i := s[j]][j := s[i]];
    forall p, q | 0 <= p < q < |t|
      ensures Leq(spec, t[p], t[q])
    {
      if p == i && q < j {
        LeqTransitive(spec, s[j], s[i], s[q]);
      } else if q == j && i < p {
        LeqTransitive(spec, s[p], s[j], s[i]);
      }
    }
    forall d
      ensures d in s <==> d in t
    {
      if d in s {
        var k :| 0 <= k < |s| && s[k] == d;
        assert t[if k == i then j else if k == j then i else k] == d;
      }
    }
  }
}
