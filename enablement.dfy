/** The aggregate enablement decision of an observation configuration: a predicate
    list accepts (name, context) when every predicate in it does. */
module Enablement {
  import opened Collaborators

  /** The `allMatch` of the predicate stream: the predicates are evaluated in
      registration order and evaluation stops at the first one that rejects.
      The result is true exactly when every predicate accepts, and so true for
      an empty list. */
  function AllMatch(ps: seq<Predicate>, name: string, context: Option<Context>): (r: bool)
    ensures r <==> forall i :: 0 <= i < |ps| ==> ps[i].test(name, context)
  {
    if |ps| == 0 then true
    else if !ps[0].test(name, context) then false
    else AllMatch(ps[1..], name, context)
  }

  /** Registering one more predicate conjoins its verdict with the old one. */
  lemma {:induction false} AllMatchAppend(ps: seq<Predicate>, p: Predicate, name: string, context: Option<Context>)
    ensures AllMatch(ps + [p], name, context) == (AllMatch(ps, name, context) && p.test(name, context))
  {
    var qs := ps + [p];
    assert qs[|ps|] == p;
    assert forall i :: 0 <= i < |ps| ==> qs[i] == ps[i];
  }

  /** Adding a predicate can only turn enablement from true to false: a list that
      accepts after the append accepted before it, and the new predicate accepts too. */
  lemma AddingPredicateOnlyDisables(ps: seq<Predicate>, p: Predicate, name: string, context: Option<Context>)
    ensures AllMatch(ps + [p], name, context) ==> AllMatch(ps, name, context) && p.test(name, context)
  {
    AllMatchAppend(ps, p, name, context);
  }

  /** The decision does not depend on the order in which two groups of predicates
      were registered. */
  lemma {:induction false} AllMatchConcat(ps: seq<Predicate>, qs: seq<Predicate>, name: string, context: Option<Context>)
    ensures AllMatch(ps + qs, name, context) == (AllMatch(ps, name, context) && AllMatch(qs, name, context))
    ensures AllMatch(ps + qs, name, context) == AllMatch(qs + ps, name, context)
  {
    var pq, qp := ps + qs, qs + ps;
    assert forall i :: 0 <= i < |ps| ==> pq[i] == ps[i] && qp[|qs| + i] == ps[i];
    assert forall i :: 0 <= i < |qs| ==> pq[|ps| + i] == qs[i] && qp[i] == qs[i];
  }
}
