/**
 Reconciling the requested datasets with the caller's allowed set. An empty
 request means "every allowed dataset" and hands on the allowed set itself; a
 non-empty request is filtered to its allowed members, in request order and
 with duplicates kept. An empty outcome stops the request before any query.
 */
module DatasetFilter {

  /** The effective dataset collection: the allowed set itself, or the
      filtered request list (the source keeps a set in one case and a list in
      the other). */
  datatype Selection = AllAllowed(allowed: set<string>) | Listed(names: seq<string>) {

    /** The dataset identifiers the backend will be asked about */
    function Names(): set<string> {
      match this
      case AllAllowed(allowed) => allowed
      case Listed(names) => set i | 0 <= i < |names| :: names[i]
    }

    /** Python's falsiness of the collection */
    predicate IsEmpty() {
      match this
      case AllAllowed(allowed) => allowed == {}
      case Listed(names) => names == []
    }
  }

  /** The list comprehension keeping the requested datasets that are allowed */
  function Authorized(requested: seq<string>, allowed: set<string>): (r: seq<string>)
    ensures |r| <= |requested|
    ensures forall x :: x in r <==> x in requested && x in allowed
  {
    if requested == [] then []
    else (if requested[0] in allowed then [requested[0]] else []) + Authorized(requested[1..], allowed)
  }

  /** The effective selection for a request */
  function SelectDatasets(requested: seq<string>, allowed: set<string>): (r: Selection)
    ensures requested == [] ==> r == AllAllowed(allowed)
    ensures requested != [] ==> r == Listed(Authorized(requested, allowed))
    ensures requested != [] ==> r.Names() == (set i | 0 <= i < |requested| :: requested[i]) * allowed
    ensures r.Names() <= allowed
    ensures r.IsEmpty() <==>
      if requested == [] then allowed == {}
      else forall i :: 0 <= i < |requested| ==> requested[i] !in allowed
  {
    if requested == [] then AllAllowed(allowed)
    else
      var names := Authorized(requested, allowed);
      assert forall x :: x in names <==> x in requested && x in allowed;
      assert names != [] ==> names[0] in names;
      assert forall x :: x in Listed(names).Names() <==> x in names;
      assert forall x :: x in (set i | 0 <= i < |requested| :: requested[i]) <==> x in requested;
      Listed(names)
  }

  /** Filtering respects concatenation, so the result keeps request order. */
  lemma {:induction false} AuthorizedAppend(a: seq<string>, b: seq<string>, allowed: set<string>)
    ensures Authorized(a + b, allowed) == Authorized(a, allowed) + Authorized(b, allowed)
    decreases |a|
  {
    if a == [] {
      assert a + b == b;
    } else {
      assert (a + b)[0] == a[0];
      assert (a + b)[1..] == a[1..] + b;
      AuthorizedAppend(a[1..], b, allowed);
    }
  }

  /** Each allowed dataset occurs as often as it was requested, and no other
      dataset occurs at all. */
  lemma {:induction false} AuthorizedCount(requested: seq<string>, allowed: set<string>, x: string)
    ensures multiset(Authorized(requested, allowed))[x]
         == if x in allowed then multiset(requested)[x] else 0
    decreases |requested|
  {
    if requested != [] {
      AuthorizedCount(requested[1..], allowed, x);
      assert requested == [requested[0]] + requested[1..];
    }
  }

  /** A request made only of allowed datasets goes through unchanged. */
  lemma {:induction false} AuthorizedAllAllowed(requested: seq<string>, allowed: set<string>)
    requires forall i :: 0 <= i < |requested| ==> requested[i] in allowed
    ensures Authorized(requested, allowed) == requested
    decreases |requested|
  {
    if requested != [] {
      AuthorizedAllAllowed(requested[1..], allowed);
      assert requested == [requested[0]] + requested[1..];
    }
  }

  /** Filtering twice is filtering once. */
  lemma {:induction false} AuthorizedIdempotent(requested: seq<string>, allowed: set<string>)
    ensures Authorized(Authorized(requested, allowed), allowed) == Authorized(requested, allowed)
  {
    var r := Authorized(requested, allowed);
    assert forall i :: 0 <= i < |r| ==> r[i] in allowed by {
      forall i | 0 <= i < |r|
        ensures r[i] in allowed
      {
        assert r[i] in r;
      }
    }
    AuthorizedAllAllowed(r, allowed);
  }
}
