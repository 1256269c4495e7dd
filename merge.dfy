/** `mergeMiddlewares` of pkg/proxy/route.go: a route's middleware replace the
    global middleware of the same kind in place, and the route's other
    middleware follow in route order. */
module Merge {
  import opened Middlewares

  /** The route's instances by kind; a later instance of a kind replaces an
      earlier one, as the map assignments of the first loop do. */
  function RouteByType(route: seq<Middleware>): (m: map<Type, Middleware>)
    ensures forall t :: t in m <==> t in Tags(route)
    ensures forall t :: t in m ==> m[t].tag == t && m[t] in route
    decreases |route|
  {
    if |route| == 0 then map[]
    else
      var init := route[..|route| - 1];
      var last := route[|route| - 1];
      assert route == init + [last];
      assert Tags(route) == Tags(init) + {last.tag};
      RouteByType(init)[last.tag := last]
  }

  /** The second loop over a prefix of the global list: the list built so far
      and what is left of the route map, from which each kind is deleted once
      it has been used. */
  function Override(global: seq<Middleware>, m: map<Type, Middleware>): (r: (seq<Middleware>, map<Type, Middleware>))
    ensures |r.0| == |global|
    decreases |global|
  {
    if |global| == 0 then ([], m)
    else
      var prev := Override(global[..|global| - 1], m);
      var built := prev.0;
      var left := prev.1;
      var g := global[|global| - 1];
      if g.tag in left then (built + [left[g.tag]], left - {g.tag})
      else (built + [g], left)
  }

  /** The instances of `s` whose kind is in `keep`, in their order in `s`. */
  function KeepIn(s: seq<Middleware>, keep: set<Type>): (r: seq<Middleware>)
    ensures forall x :: x in r ==> x in s && x.tag in keep
    decreases |s|
  {
    if |s| == 0 then []
    else
      var rest := KeepIn(s[..|s| - 1], keep);
      var last := s[|s| - 1];
      if last.tag in keep then rest + [last] else rest
  }

  /** The whole merge: no route middleware leaves the global list as it is. */
  function Merged(global: seq<Middleware>, route: seq<Middleware>): seq<Middleware> {
    if |route| == 0 then global
    else
      var (built, left) := Override(global, RouteByType(route));
      built + KeepIn(route, left.Keys)
  }

  /** The three loops of `mergeMiddlewares`. */
  method MergeMiddlewares(global: seq<Middleware>, route: seq<Middleware>) returns (result: seq<Middleware>)
    ensures result == Merged(global, route)
    ensures |route| == 0 ==> result == global
  {
    if |route| == 0 {
      return global;
    }
    var routeByType: map<Type, Middleware> := map[];
    for i := 0 to |route|
      invariant routeByType == RouteByType(route[..i])
    {
      assert route[..i + 1][..i] == route[..i];
      routeByType := routeByType[route[i].tag := route[i]];
    }
    assert route[..|route|] == route;
    ghost var byType := routeByType;
    result := [];
    for i := 0 to |global|
      invariant (result, routeByType) == Override(global[..i], byType)
    {
      assert global[..i + 1][..i] == global[..i];
      var g := global[i];
      if g.tag in routeByType {
        result := result + [routeByType[g.tag]];
        routeByType := routeByType - {g.tag};
      } else {
        result := result + [g];
      }
    }
    assert global[..|global|] == global;
    ghost var overridden := result;
    for i := 0 to |route|
      invariant result == overridden + KeepIn(route[..i], routeByType.Keys)
    {
      assert route[..i + 1][..i] == route[..i];
      if route[i].tag in routeByType {
        result := result + [route[i]];
      }
    }
    assert route[..|route|] == route;
  }

  /** Overriding keeps the length, keeps every kind in place, and leaves in
      the map exactly the kinds the global list does not have. */
  lemma {:induction false} OverrideShape(global: seq<Middleware>, m: map<Type, Middleware>)
    requires forall t :: t in m ==> m[t].tag == t
    ensures var (built, left) := Override(global, m);
      && (forall i :: 0 <= i < |global| ==> built[i].tag == global[i].tag)
      && left == m - Tags(global)
    decreases |global|
  {
    if |global| > 0 {
      var init := global[..|global| - 1];
      OverrideShape(init, m);
      assert global == init + [global[|global| - 1]];
      assert Tags(global) == Tags(init) + {global[|global| - 1].tag};
    }
  }

  /** With distinct global kinds, position `i` holds the map's instance of
      `global[i]`'s kind if there is one, and `global[i]` otherwise. */
  lemma {:induction false} OverridePositions(global: seq<Middleware>, m: map<Type, Middleware>)
    requires forall t :: t in m ==> m[t].tag == t
    requires DistinctTags(global)
    ensures var built := Override(global, m).0;
      forall i :: 0 <= i < |global| ==>
        built[i] == if global[i].tag in m then m[global[i].tag] else global[i]
    decreases |global|
  {
    if |global| > 0 {
      var n := |global| - 1;
      var init := global[..n];
      assert DistinctTags(init);
      OverridePositions(init, m);
      OverrideShape(init, m);
      assert global == init + [global[n]];
      assert global[n].tag !in Tags(init);
    }
  }

  /** The route map holds, for each kind, the last route instance of it. */
  lemma {:induction false} RouteByTypeLast(route: seq<Middleware>, j: int)
    requires 0 <= j < |route|
    requires forall k :: j < k < |route| ==> route[k].tag != route[j].tag
    ensures RouteByType(route)[route[j].tag] == route[j]
    decreases |route|
  {
    if j < |route| - 1 {
      RouteByTypeLast(route[..|route| - 1], j);
    }
  }

  /** With distinct kinds on both sides, the merge keeps each global position
      (replaced by the route's instance of that kind, if any), and the route
      instances whose kind the global list lacks follow in route order. */
  lemma MergePositions(global: seq<Middleware>, route: seq<Middleware>)
    requires DistinctTags(global) && DistinctTags(route)
    ensures var r := Merged(global, route);
      && |r| >= |global|
      && (forall i :: 0 <= i < |global| ==>
            r[i] == if global[i].tag in Tags(route) then RouteByType(route)[global[i].tag] else global[i])
      && r[|global|..] == KeepIn(route, Tags(route) - Tags(global))
      && (forall j :: 0 <= j < |route| ==> RouteByType(route)[route[j].tag] == route[j])
  {
    forall j | 0 <= j < |route|
      ensures RouteByType(route)[route[j].tag] == route[j]
    {
      RouteByTypeLast(route, j);
    }
    if |route| > 0 {
      var m := RouteByType(route);
      OverrideShape(global, m);
      OverridePositions(global, m);
      var left := Override(global, m).1;
      assert left.Keys == Tags(route) - Tags(global);
    } else {
      assert Tags(route) == {};
      assert global[|global|..] == [];
    }
  }

  lemma {:induction false} KeepInTags(s: seq<Middleware>, keep: set<Type>)
    ensures Tags(KeepIn(s, keep)) == Tags(s) * keep
    decreases |s|
  {
    if |s| > 0 {
      var init := s[..|s| - 1];
      KeepInTags(init, keep);
      assert s == init + [s[|s| - 1]];
      assert Tags(s) == Tags(init) + {s[|s| - 1].tag};
      var rest := KeepIn(init, keep);
      assert Tags(rest + [s[|s| - 1]]) == Tags(rest) + {s[|s| - 1].tag};
    }
  }

  lemma {:induction false} KeepInDistinct(s: seq<Middleware>, keep: set<Type>)
    requires DistinctTags(s)
    ensures DistinctTags(KeepIn(s, keep))
    decreases |s|
  {
    if |s| > 0 {
      var init := s[..|s| - 1];
      var last := s[|s| - 1];
      assert DistinctTags(init);
      KeepInDistinct(init, keep);
      var rest := KeepIn(init, keep);
      if last.tag in keep {
        assert forall x :: x in rest ==> x in init;
        assert last.tag !in Tags(init);
        var r := rest + [last];
        forall i, j | 0 <= i < j < |r| ensures r[i].tag != r[j].tag {
          if j == |rest| {
            assert r[i] in rest;
          }
        }
      }
    }
  }

  lemma {:induction false} KeepInLength(s: seq<Middleware>, keep: set<Type>)
    requires DistinctTags(s)
    ensures |KeepIn(s, keep)| == |Tags(s) * keep|
    decreases |s|
  {
    if |s| > 0 {
      var init := s[..|s| - 1];
      var last := s[|s| - 1];
      LastNotBefore(s);
      KeepInLength(init, keep);
      CountWithOneMore(Tags(init), last.tag, keep);
    }
  }

  /** Without repeated kinds, the last kind is not among the earlier ones,
      which repeat none either, and the kinds are the earlier ones and the last. */
  lemma LastNotBefore(s: seq<Middleware>)
    requires DistinctTags(s) && |s| > 0
    ensures var init := s[..|s| - 1]; var last := s[|s| - 1];
      && DistinctTags(init) && last.tag !in Tags(init) && Tags(s) == Tags(init) + {last.tag}
  {
    var init := s[..|s| - 1];
    assert s == init + [s[|s| - 1]];
    TagsConcat(init, [s[|s| - 1]]);
    assert Tags([s[|s| - 1]]) == {s[|s| - 1].tag};
  }

  /** One more element outside `a` adds one to the count of those in `keep`
      exactly when it is in `keep`. */
  lemma CountWithOneMore<T>(a: set<T>, x: T, keep: set<T>)
    requires x !in a
    ensures |(a + {x}) * keep| == |a * keep| + if x in keep then 1 else 0
  {
    if x in keep {
      assert (a + {x}) * keep == (a * keep) + {x};
    } else {
      assert (a + {x}) * keep == a * keep;
    }
  }

  lemma TagsConcat(a: seq<Middleware>, b: seq<Middleware>)
    ensures Tags(a + b) == Tags(a) + Tags(b)
  {
    assert forall x :: x in a + b <==> x in a || x in b;
  }

  /** Overriding keeps the global kinds. */
  lemma OverrideTags(global: seq<Middleware>, m: map<Type, Middleware>)
    requires forall t :: t in m ==> m[t].tag == t
    ensures Tags(Override(global, m).0) == Tags(global)
  {
    OverrideShape(global, m);
    var built := Override(global, m).0;
    forall t | t in Tags(global) ensures t in Tags(built) {
      var i :| 0 <= i < |global| && global[i].tag == t;
      assert built[i] in built;
    }
    forall t | t in Tags(built) ensures t in Tags(global) {
      var i :| 0 <= i < |built| && built[i].tag == t;
      assert global[i] in global;
    }
  }

  /** The merge holds exactly the kinds of the two lists. */
  lemma MergeTags(global: seq<Middleware>, route: seq<Middleware>)
    ensures Tags(Merged(global, route)) == Tags(global) + Tags(route)
  {
    if |route| > 0 {
      var m := RouteByType(route);
      OverrideShape(global, m);
      OverrideTags(global, m);
      var (built, left) := Override(global, m);
      KeepInTags(route, left.Keys);
      TagsConcat(built, KeepIn(route, left.Keys));
    } else {
      assert Tags(route) == {};
    }
  }

  /** With distinct kinds on both sides the merge repeats no kind, and its
      length is the global length plus the number of route kinds the global
      list lacks. */
  lemma MergeDistinct(global: seq<Middleware>, route: seq<Middleware>)
    requires DistinctTags(global) && DistinctTags(route)
    ensures DistinctTags(Merged(global, route))
    ensures |Merged(global, route)| == |global| + |Tags(route) - Tags(global)|
  {
    if |route| > 0 {
      var m := RouteByType(route);
      OverrideShape(global, m);
      var (built, left) := Override(global, m);
      var kept := KeepIn(route, left.Keys);
      KeepInDistinct(route, left.Keys);
      KeepInLength(route, left.Keys);
      assert Tags(route) * left.Keys == Tags(route) - Tags(global);
      var r := built + kept;
      forall i, j | 0 <= i < j < |r| ensures r[i].tag != r[j].tag {
        if j < |built| {
          assert r[i].tag == global[i].tag && r[j].tag == global[j].tag;
        } else if i >= |built| {
          assert r[i] == kept[i - |built|] && r[j] == kept[j - |built|];
        } else {
          assert r[j] in kept;
          assert r[i].tag == global[i].tag;
          assert global[i] in global;
        }
      }
    } else {
      assert Tags(route) == {};
    }
  }

  /** Global `[A, B]` and route `[B']` merge to `[A, B']`. */
  lemma MergeExample(a: Middleware, b: Middleware, b2: Middleware)
    requires a.tag != b.tag && b2.tag == b.tag
    ensures Merged([a, b], [b2]) == [a, b2]
  {
    var m := RouteByType([b2]);
    assert [b2][..0] == [];
    assert m == map[b.tag := b2];
    assert [a, b][..1] == [a];
    assert [a][..0] == [];
    var p := Override([a][..0], m);
    assert p == ([], m);
    assert a.tag !in p.1;
    assert Override([a], m) == (p.0 + [a], p.1);
    assert p.0 + [a] == [a];
    var q := Override([a, b][..1], m);
    assert q == ([a], m);
    assert Override([a, b], m) == (q.0 + [b2], q.1 - {b.tag});
    assert [a] + [b2] == [a, b2];
    assert (m - {b.tag}).Keys == {};
    assert KeepIn([b2][..0], {}) == [];
    assert KeepIn([b2], {}) == [];
  }
}
