/**
  The builder registry: the flat builder list grouped by name, each group in
  input order. This is the `builders` map that newBuildContext builds.
*/
module Registry {
  import opened Builders

  /** Name to registered builders; grouping never produces an empty group. */
  type BuilderMap = m: map<Name, seq<Builder>> | NoEmptyGroup(m)
    witness map[]

  predicate NoEmptyGroup(m: map<Name, seq<Builder>>)
  {
    forall n :: n in m ==> |m[n]| > 0
  }

  /** The builders of `bs` whose name is `n`, in input order. */
  function Registrants(bs: seq<Builder>, n: Name): seq<Builder>
  {
    if |bs| == 0 then []
    else Registrants(bs[..|bs| - 1], n) + (if bs[|bs| - 1].name == n then [bs[|bs| - 1]] else [])
  }

  /** The names that occur in `bs`. */
  function Names(bs: seq<Builder>): set<Name>
  {
    set i | 0 <= i < |bs| :: bs[i].name
  }

  /** The registry assembled from `bs`. */
  function Group(bs: seq<Builder>): map<Name, seq<Builder>>
  {
    map n | n in Names(bs) :: Registrants(bs, n)
  }

  /** Every builder in a group carries the group's name. */
  lemma {:induction false} RegistrantsNamed(bs: seq<Builder>, n: Name)
    ensures forall j :: 0 <= j < |Registrants(bs, n)| ==> Registrants(bs, n)[j].name == n
  {
    if |bs| > 0 {
      RegistrantsNamed(bs[..|bs| - 1], n);
    }
  }

  /** A name has a non-empty group exactly when some builder carries it. */
  lemma {:induction false} RegistrantsNonEmpty(bs: seq<Builder>)
    ensures forall n :: |Registrants(bs, n)| > 0 <==> n in Names(bs)
  {
    if |bs| > 0 {
      var front := bs[..|bs| - 1];
      RegistrantsNonEmpty(front);
      assert Names(bs) == Names(front) + {bs[|bs| - 1].name} by {
        forall n | n in Names(bs) ensures n in Names(front) + {bs[|bs| - 1].name} {
          var i :| 0 <= i < |bs| && bs[i].name == n;
          if i < |bs| - 1 { assert front[i] == bs[i]; }
        }
        forall n | n in Names(front) ensures n in Names(bs) {
          var i :| 0 <= i < |front| && front[i].name == n;
          assert bs[i] == front[i];
        }
      }
    }
  }

  /** No builder is lost: each one is in the group of its name. */
  lemma {:induction false} RegistrantsComplete(bs: seq<Builder>, n: Name)
    ensures forall i :: 0 <= i < |bs| && bs[i].name == n ==> bs[i] in Registrants(bs, n)
  {
    if |bs| > 0 {
      var front := bs[..|bs| - 1];
      RegistrantsComplete(front, n);
      forall i | 0 <= i < |bs| - 1 && bs[i].name == n ensures bs[i] in Registrants(bs, n) {
        assert front[i] == bs[i];
      }
    }
  }

  /** Grouping the concatenation of two lists concatenates their groups. */
  lemma {:induction false} RegistrantsAppend(a: seq<Builder>, b: seq<Builder>, n: Name)
    ensures Registrants(a + b, n) == Registrants(a, n) + Registrants(b, n)
  {
    if |b| == 0 {
      assert a + b == a;
    } else {
      assert (a + b)[..|a + b| - 1] == a + b[..|b| - 1];
      RegistrantsAppend(a, b[..|b| - 1], n);
    }
  }

  /** Appending one builder adds it at the end of its own group only. */
  lemma GroupSnoc(bs: seq<Builder>, b: Builder)
    ensures Group(bs + [b]) ==
      Group(bs)[b.name := (if b.name in Group(bs) then Group(bs)[b.name] else []) + [b]]
  {
    var bs' := bs + [b];
    var g, g' := Group(bs), Group(bs');
    var expected := g[b.name := (if b.name in g then g[b.name] else []) + [b]];
    assert bs'[..|bs'| - 1] == bs;
    assert Names(bs') == Names(bs) + {b.name} by {
      forall n | n in Names(bs') ensures n in Names(bs) + {b.name} {
        var i :| 0 <= i < |bs'| && bs'[i].name == n;
        if i < |bs| { assert bs[i] == bs'[i]; }
      }
      forall n | n in Names(bs) ensures n in Names(bs') {
        var i :| 0 <= i < |bs| && bs[i].name == n;
        assert bs'[i] == bs[i];
      }
      assert bs'[|bs|] == b;
    }
    assert g'.Keys == Names(bs') && g.Keys == Names(bs);
    assert g'.Keys == expected.Keys;
    forall n | n in g' ensures g'[n] == expected[n] {
      assert g'[n] == Registrants(bs, n) + (if b.name == n then [b] else []);
      if n == b.name && n !in g {
        RegistrantsNonEmpty(bs);
      }
    }
  }

  /**
    newBuildContext's loop: every builder is appended to the group of its
    name, creating the group on first sight.
  */
  method GroupByName(bs: seq<Builder>) returns (m: BuilderMap)
    ensures m == Group(bs)
  {
    var groups: map<Name, seq<Builder>> := map[];
    assert Names(bs[..0]) == {};
    for i := 0 to |bs|
      invariant groups == Group(bs[..i])
    {
      var b := bs[i];
      ghost var before := bs[..i];
      assert bs[..i + 1] == before + [b];
      GroupSnoc(before, b);
      groups := groups[b.name := (if b.name in groups then groups[b.name] else []) + [b]];
    }
    assert bs[..|bs|] == bs;
    GroupNonEmpty(bs);
    m := groups;
  }

  /** No group of an assembled registry is empty. */
  lemma GroupNonEmpty(bs: seq<Builder>)
    ensures forall n :: n in Group(bs) ==> |Group(bs)[n]| > 0
  {
    RegistrantsNonEmpty(bs);
  }

  /**
    When every builder has a name of its own, each name's group is exactly
    its builder.
  */
  lemma {:induction false} GroupOfDistinct(bs: seq<Builder>, i: nat)
    requires forall j, k :: 0 <= j < k < |bs| ==> bs[j].name != bs[k].name
    requires i < |bs|
    ensures bs[i].name in Group(bs) && Group(bs)[bs[i].name] == [bs[i]]
  {
    var front := bs[..|bs| - 1];
    RegistrantsNonEmpty(front);
    if i == |bs| - 1 {
      assert bs[i].name !in Names(front);
    } else {
      GroupOfDistinct(front, i);
      assert front[i] == bs[i];
    }
    RegistrantsNonEmpty(bs);
  }
}
