/** A route lists its subscribers, the one that gets the frames first. */
module Routes {
  function IndexOf<T(==)>(route: seq<T>, i: T): (k: nat)
    ensures k <= |route|
    ensures k < |route| <==> i in route
    ensures k < |route| ==> route[k] == i && i !in route[..k]
  {
    if route == [] then 0
    else if route[0] == i then 0
    else 1 + IndexOf(route[1..], i)
  }

  function Without<T(==)>(route: seq<T>, i: T): seq<T> {
    var k := IndexOf(route, i);
    if k < |route| then route[..k] + route[k + 1..] else route
  }

  function Promoted<T(==)>(route: seq<T>, i: T): seq<T> {
    if i in route then [i] + Without(route, i) else route
  }

  function SetRoute<K(==), T>(routes: map<K, seq<T>>, id: K, route: seq<T>): map<K, seq<T>> {
    if route == [] then routes - {id} else routes[id := route]
  }

  predicate Distinct<T(==)>(route: seq<T>) {
    forall j, k :: 0 <= j < k < |route| ==> route[j] != route[k]
  }

  lemma IndexAt<T>(route: seq<T>, k: nat)
    requires Distinct(route) && k < |route|
    ensures IndexOf(route, route[k]) == k
  {
    assert route[k] in route;
  }

  lemma WithoutIs<T>(route: seq<T>, i: T)
    requires Distinct(route)
    ensures
      var at, rest := IndexOf(route, i), Without(route, i);
      if at == |route| then rest == route
      else |rest| == |route| - 1 && forall j :: 0 <= j < |rest| ==> rest[j] == if j < at then route[j] else route[j + 1]
  {
  }

  /** Where a member stands on the shorter route. */
  lemma WithoutIndex<T>(route: seq<T>, i: T, j: T)
    requires Distinct(route) && j != i && j in route
    ensures Distinct(Without(route, i)) && j in Without(route, i)
    ensures IndexOf(Without(route, i), j) == if IndexOf(route, j) < IndexOf(route, i) then IndexOf(route, j) else IndexOf(route, j) - 1
  {
    WithoutIs(route, i);
    var at, rest, k := IndexOf(route, i), Without(route, i), IndexOf(route, j);
    var k' := if k < at then k else k - 1;
    assert rest[k'] == j;
    IndexAt(rest, k');
  }

  lemma WithoutMembers<T>(route: seq<T>, i: T)
    requires Distinct(route)
    ensures i !in Without(route, i) && Distinct(Without(route, i))
    ensures forall j :: j != i ==> (j in Without(route, i) <==> j in route)
    ensures route != [] && route[0] != i ==> Without(route, i) != [] && Without(route, i)[0] == route[0]
  {
    WithoutIs(route, i);
    forall j | j != i && j in route ensures j in Without(route, i) {
      WithoutIndex(route, i, j);
    }
  }

  /** Taking a member off a route removes just it and moves nobody past anybody. */
  lemma WithoutKeepsOrder<T>(route: seq<T>, i: T, j: T, k: T)
    requires Distinct(route) && j != i && k != i && j in route && k in route
    ensures i !in Without(route, i) && j in Without(route, i) && k in Without(route, i)
    ensures IndexOf(Without(route, i), j) < IndexOf(Without(route, i), k) <==> IndexOf(route, j) < IndexOf(route, k)
  {
    WithoutMembers(route, i);
    WithoutIndex(route, i, j);
    WithoutIndex(route, i, k);
  }

  lemma PromotedIsPermutation<T>(route: seq<T>, i: T)
    ensures multiset(Promoted(route, i)) == multiset(route)
    ensures forall j :: j in Promoted(route, i) <==> j in route
    ensures i in route ==> Promoted(route, i) != [] && Promoted(route, i)[0] == i && Promoted(route, i)[1..] == Without(route, i)
  {
    var k := IndexOf(route, i);
    if k < |route| {
      assert route == route[..k] + [i] + route[k + 1..];
    }
    assert forall j :: j in multiset(Promoted(route, i)) <==> j in Promoted(route, i);
  }

  /** Promotion is a permutation that puts one member first and keeps the order of the rest. */
  lemma PromotionKeepsOrder<T>(route: seq<T>, i: T)
    requires Distinct(route) && i in route
    ensures multiset(Promoted(route, i)) == multiset(route) && Distinct(Promoted(route, i))
    ensures Promoted(route, i)[0] == i && Promoted(route, i)[1..] == Without(route, i)
    ensures forall j :: j in Promoted(route, i) <==> j in route
  {
    WithoutMembers(route, i);
    PromotedIsPermutation(route, i);
  }
}
