/**
 * The compatibility result shared by the fish and plant lists, the two-key
 * comparator the lists are sorted with, and the stable sort that comparator
 * induces (the comparator of `getFishRecommendations`, `getPlantRecommendations`
 * and `getAquaponieRecommendations`).
 */
module Ranking {

  datatype Comfort = Optimal | Acceptable

  /** The notes a compatibility check appends, one constructor per text of the source. */
  datatype Note =
    | TemperatureOutOfRange(min: real, max: real)
    | TemperatureNotIdeal
    | PhOutOfRange(min: real, max: real)
    | ConductivityUnsuitable
    | LightInsufficient(min: real)

  /**
   * A catalog entry with its verdict; `suitable` is the `compatible` flag of the
   * fish list and the `suitable` flag of the plant lists.
   */
  datatype Recommendation<P> = Recommendation(profile: P, suitable: bool, comfort: Comfort, notes: seq<Note>)

  /** The sort comparator: negative when `a` goes first, positive when `b` does. */
  function Compare<P>(a: Recommendation<P>, b: Recommendation<P>): int
  {
    if a.suitable != b.suitable then (if b.suitable then 1 else 0) - (if a.suitable then 1 else 0)
    else if a.comfort == Optimal && b.comfort != Optimal then -1
    else if b.comfort == Optimal && a.comfort != Optimal then 1
    else 0
  }

  /**
   * The four groups the comparator distinguishes: 0 suitable and optimal,
   * 1 suitable and acceptable, 2 unsuitable and optimal, 3 unsuitable and acceptable.
   */
  function Group<P>(r: Recommendation<P>): (g: nat)
    ensures g < 4
    ensures g < 2 <==> r.suitable
    ensures g % 2 == 0 <==> r.comfort == Optimal
  {
    (if r.suitable then 0 else 2) + (if r.comfort == Optimal then 0 else 1)
  }

  /** The comparator orders results exactly by their group. */
  lemma CompareOrdersGroups<P>(a: Recommendation<P>, b: Recommendation<P>)
    ensures Compare(a, b) < 0 <==> Group(a) < Group(b)
    ensures Compare(a, b) == 0 <==> Group(a) == Group(b)
    ensures Compare(a, b) > 0 <==> Group(a) > Group(b)
  {
  }

  /** The members of group `g`, in their order in `s`. */
  function InGroup<P>(s: seq<Recommendation<P>>, g: nat): (t: seq<Recommendation<P>>)
    ensures |t| <= |s|
  {
    if s == [] then []
    else InGroup(s[..|s| - 1], g) + (if Group(s[|s| - 1]) == g then [s[|s| - 1]] else [])
  }

  /** Appending one result extends exactly its own group. */
  lemma InGroupSnoc<P>(s: seq<Recommendation<P>>, x: Recommendation<P>, g: nat)
    ensures InGroup(s + [x], g) == InGroup(s, g) + (if Group(x) == g then [x] else [])
  {
    assert (s + [x])[..|s|] == s;
  }

  /** The members of group `g` are members of `s` that belong to `g`. */
  lemma {:induction false} InGroupMembers<P>(s: seq<Recommendation<P>>, g: nat)
    ensures forall r <- InGroup(s, g) :: r in s && Group(r) == g
  {
    if s != [] {
      InGroupMembers(s[..|s| - 1], g);
      assert s == s[..|s| - 1] + [s[|s| - 1]];
    }
  }

  /** No member of `s` belongs to group `g`, so its group `g` is empty. */
  lemma {:induction false} InGroupEmpty<P>(s: seq<Recommendation<P>>, g: nat)
    requires forall i :: 0 <= i < |s| ==> Group(s[i]) != g
    ensures InGroup(s, g) == []
  {
    if s != [] {
      InGroupEmpty(s[..|s| - 1], g);
    }
  }

  /**
   * What the stable sort with `Compare` returns: the four groups one after the
   * other, each in its original order.
   */
  function Rank<P>(s: seq<Recommendation<P>>): seq<Recommendation<P>>
  {
    InGroup(s, 0) + InGroup(s, 1) + InGroup(s, 2) + InGroup(s, 3)
  }

  predicate SortedByCompare<P>(s: seq<Recommendation<P>>)
  {
    forall i, j :: 0 <= i < j < |s| ==> Group(s[i]) <= Group(s[j])
  }

  /** The ranked list never puts an entry after one that the comparator orders after it. */
  lemma RankSorted<P>(s: seq<Recommendation<P>>)
    ensures SortedByCompare(Rank(s))
    ensures forall i, j :: 0 <= i < j < |Rank(s)| ==> Compare(Rank(s)[i], Rank(s)[j]) <= 0
  {
    var a, b, c, d := InGroup(s, 0), InGroup(s, 1), InGroup(s, 2), InGroup(s, 3);
    InGroupMembers(s, 0); InGroupMembers(s, 1); InGroupMembers(s, 2); InGroupMembers(s, 3);
    var r := Rank(s);
    assert r == a + b + c + d;
    forall i | 0 <= i < |r|
      ensures Group(r[i]) == if i < |a| then 0 else if i < |a| + |b| then 1 else if i < |a| + |b| + |c| then 2 else 3
    {
      if i < |a| { assert r[i] == a[i]; assert a[i] in a; }
      else if i < |a| + |b| { assert r[i] == b[i - |a|]; assert b[i - |a|] in b; }
      else if i < |a| + |b| + |c| { assert r[i] == c[i - |a| - |b|]; assert c[i - |a| - |b|] in c; }
      else { assert r[i] == d[i - |a| - |b| - |c|]; assert d[i - |a| - |b| - |c|] in d; }
    }
    forall i, j | 0 <= i < j < |r| ensures Compare(r[i], r[j]) <= 0 {
      CompareOrdersGroups(r[i], r[j]);
    }
  }

  /** The ranked list is a permutation of the input. */
  lemma {:induction false} RankPermutation<P>(s: seq<Recommendation<P>>)
    ensures multiset(Rank(s)) == multiset(s)
  {
    if s != [] {
      var s', x := s[..|s| - 1], s[|s| - 1];
      RankPermutation(s');
      assert s == s' + [x];
    }
  }

  /** Filtering a group distributes over concatenation. */
  lemma {:induction false} InGroupConcat<P>(s: seq<Recommendation<P>>, t: seq<Recommendation<P>>, g: nat)
    ensures InGroup(s + t, g) == InGroup(s, g) + InGroup(t, g)
  {
    if t == [] {
      assert s + t == s;
    } else {
      var t', x := t[..|t| - 1], t[|t| - 1];
      InGroupConcat(s, t', g);
      assert s + t == (s + t') + [x];
      InGroupSnoc(s + t', x, g);
    }
  }

  /** Filtering a group of a group gives that group back, or nothing for another group. */
  lemma {:induction false} InGroupOfGroup<P>(s: seq<Recommendation<P>>, g: nat, h: nat)
    ensures InGroup(InGroup(s, g), h) == if g == h then InGroup(s, g) else []
  {
    if s != [] {
      var s', x := s[..|s| - 1], s[|s| - 1];
      InGroupOfGroup(s', g, h);
      assert s == s' + [x];
      InGroupSnoc(s', x, g);
      if Group(x) == g {
        assert InGroup(s, g) == InGroup(s', g) + [x];
        InGroupSnoc(InGroup(s', g), x, h);
        assert InGroup(InGroup(s, g), h) == InGroup(InGroup(s', g), h) + (if g == h then [x] else []);
      } else {
        assert InGroup(s, g) == InGroup(s', g);
      }
    }
  }

  /** The sort is stable: every group keeps the catalog order of its members. */
  lemma RankStable<P>(s: seq<Recommendation<P>>, g: nat)
    ensures InGroup(Rank(s), g) == InGroup(s, g)
  {
    var a, b, c, d := InGroup(s, 0), InGroup(s, 1), InGroup(s, 2), InGroup(s, 3);
    InGroupConcat(a + b + c, d, g);
    InGroupConcat(a + b, c, g);
    InGroupConcat(a, b, g);
    assert InGroup(Rank(s), g) == InGroup(a, g) + InGroup(b, g) + InGroup(c, g) + InGroup(d, g);
    InGroupOfGroup(s, 0, g);
    InGroupOfGroup(s, 1, g);
    InGroupOfGroup(s, 2, g);
    InGroupOfGroup(s, 3, g);
    if g == 0 {
      assert InGroup(Rank(s), g) == a + [] + [] + [];
    } else if g == 1 {
      assert InGroup(Rank(s), g) == [] + b + [] + [];
    } else if g == 2 {
      assert InGroup(Rank(s), g) == [] + [] + c + [];
    } else if g == 3 {
      assert InGroup(Rank(s), g) == [] + [] + [] + d;
    } else {
      InGroupEmpty(s, g);
      assert InGroup(Rank(s), g) == [] + [] + [] + [];
    }
  }

  /** A list sorted by group is its four groups one after the other. */
  lemma {:induction false} SortedIsGroups<P>(t: seq<Recommendation<P>>)
    requires SortedByCompare(t)
    ensures t == Rank(t)
  {
    if t != [] {
      var t', x := t[..|t| - 1], t[|t| - 1];
      assert SortedByCompare(t');
      SortedIsGroups(t');
      assert t == t' + [x];
      forall h | Group(x) < h < 4 ensures InGroup(t', h) == [] {
        forall i | 0 <= i < |t'| ensures Group(t'[i]) != h {
          assert t'[i] == t[i];
        }
        InGroupEmpty(t', h);
      }
      AppendLast(t', x);
    }
  }

  /** Appending a result of the highest group present keeps a ranked list ranked. */
  lemma AppendLast<P>(t: seq<Recommendation<P>>, x: Recommendation<P>)
    requires t == Rank(t)
    requires Group(x) < 1 ==> InGroup(t, 1) == []
    requires Group(x) < 2 ==> InGroup(t, 2) == []
    requires Group(x) < 3 ==> InGroup(t, 3) == []
    ensures t + [x] == Rank(t + [x])
  {
    InGroupSnoc(t, x, 0); InGroupSnoc(t, x, 1); InGroupSnoc(t, x, 2); InGroupSnoc(t, x, 3);
    AppendToBlocks(InGroup(t, 0), InGroup(t, 1), InGroup(t, 2), InGroup(t, 3), x, Group(x));
  }

  /** Sequence algebra behind `AppendLast`: `x` joins block `k`, all later blocks being empty. */
  lemma AppendToBlocks<T>(a: seq<T>, b: seq<T>, c: seq<T>, d: seq<T>, x: T, k: nat)
    requires k < 4
    requires k < 1 ==> b == []
    requires k < 2 ==> c == []
    requires k < 3 ==> d == []
    ensures a + b + c + d + [x]
         == (a + if k == 0 then [x] else []) + (b + if k == 1 then [x] else [])
          + (c + if k == 2 then [x] else []) + (d + if k == 3 then [x] else [])
  {
    if k == 0 {
      assert a + b + c + d == a;
    } else if k == 1 {
      assert a + b + c + d == a + b;
    } else if k == 2 {
      assert a + b + c + d == a + b + c;
    }
  }

  /**
   * The ranking is the only stable sort: a list sorted by the comparator whose
   * groups match those of `s` is `Rank(s)`.
   */
  lemma RankUnique<P>(s: seq<Recommendation<P>>, t: seq<Recommendation<P>>)
    requires SortedByCompare(t)
    requires forall g :: 0 <= g < 4 ==> InGroup(t, g) == InGroup(s, g)
    ensures t == Rank(s)
  {
    SortedIsGroups(t);
  }
}
