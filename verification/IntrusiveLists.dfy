/** What the event loop's intrusive lists hold, as sequences of requests. */
module IntrusiveLists {

  type ID = nat

  predicate Distinct(list: seq<ID>)
  {
    forall j, k :: 0 <= j < k < |list| ==> list[j] != list[k]
  }

  function Without(list: seq<ID>, t: ID): (r: seq<ID>)
    ensures forall x :: x in r <==> x in list && x != t
  {
    if list == [] then []
    else if list[0] == t then Without(list[1..], t)
    else [list[0]] + Without(list[1..], t)
  }

  lemma {:induction false} WithoutAppend(a: seq<ID>, b: seq<ID>, t: ID)
    ensures Without(a + b, t) == Without(a, t) + Without(b, t)
  {
    if a == [] {
      assert a + b == b;
    } else {
      assert (a + b)[1..] == a[1..] + b;
      WithoutAppend(a[1..], b, t);
    }
  }

  lemma {:induction false} WithoutAbsent(a: seq<ID>, t: ID)
    requires t !in a
    ensures Without(a, t) == a
  {
    if a != [] {
      WithoutAbsent(a[1..], t);
    }
  }

  lemma {:induction false} WithoutDistinct(list: seq<ID>, t: ID)
    requires Distinct(list)
    ensures Distinct(Without(list, t)) && |Without(list, t)| == |list| - if t in list then 1 else 0
  {
    if list != [] {
      assert Distinct(list[1..]);
      WithoutDistinct(list[1..], t);
      if list[0] != t {
        var rest := Without(list[1..], t);
        forall k | 0 <= k < |rest| ensures list[0] != rest[k] {
          assert rest[k] in rest;
        }
      } else {
        assert t !in list[1..];
      }
    }
  }
}
