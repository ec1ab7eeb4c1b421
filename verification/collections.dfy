/** Python collection idioms the backend uses: a dict filled by assignment in
    order (`d[k] = v`, a later key wins), a first-match `next(...)` search, a
    stable descending `list.sort(key=..., reverse=True)`, and `sorted(...)` of
    a set of distinct ints or strings. */
module Collections {

  import opened Wrappers

  // ---------------------------------------------------------------------------
  // dict filled in order: d[k] = v for each pair
  // ---------------------------------------------------------------------------

  /** The dict obtained by assigning each pair of `es` in turn. */
  function BuildMap<K, V>(es: seq<(K, V)>): map<K, V>
  {
    if es == [] then map[] else
      var last := es[|es| - 1];
      BuildMap(es[..|es| - 1])[last.0 := last.1]
  }

  /** The keys of the dict are exactly the keys assigned. */
  lemma {:induction false} BuildMapKeys<K, V>(es: seq<(K, V)>)
    ensures BuildMap(es).Keys == set i | 0 <= i < |es| :: es[i].0
  {
    if es != [] {
      var init := es[..|es| - 1];
      BuildMapKeys(init);
      assert forall i :: 0 <= i < |init| ==> init[i] == es[i];
    }
  }

  /** The value stored under a key is the one of its LAST assignment. */
  lemma {:induction false} BuildMapLastWins<K, V>(es: seq<(K, V)>, i: nat)
    requires i < |es|
    requires forall j :: i < j < |es| ==> es[j].0 != es[i].0
    ensures es[i].0 in BuildMap(es) && BuildMap(es)[es[i].0] == es[i].1
  {
    if i < |es| - 1 {
      var init := es[..|es| - 1];
      assert init[i] == es[i];
      BuildMapLastWins(init, i);
    }
  }

  lemma BuildMapSnoc<K, V>(es: seq<(K, V)>, e: (K, V))
    ensures BuildMap(es + [e]) == BuildMap(es)[e.0 := e.1]
  {
    assert (es + [e])[..|es|] == es;
  }

  /** When every pair stores `f` of its key, so does the dict. */
  lemma {:induction false} BuildMapValueOf<K, V>(es: seq<(K, V)>, f: K -> V)
    requires forall i :: 0 <= i < |es| ==> es[i].1 == f(es[i].0)
    ensures forall k :: k in BuildMap(es) ==> BuildMap(es)[k] == f(k)
  {
    if es != [] {
      var init := es[..|es| - 1];
      assert forall i :: 0 <= i < |init| ==> init[i] == es[i];
      BuildMapValueOf(init, f);
    }
  }

  /** `{g(k): v for k, v in items}`. */
  function RenameKeys<K, K2, V>(items: seq<(K, V)>, g: K -> K2): map<K2, V>
  {
    BuildMap(seq(|items|, i requires 0 <= i < |items| => (g(items[i].0), items[i].1)))
  }

  /** A renamed key is present exactly when some item's key renames to it, and
      it holds the value of the last such item. */
  lemma RenameKeysSpec<K, K2, V>(items: seq<(K, V)>, g: K -> K2, k2: K2)
    ensures k2 in RenameKeys(items, g) <==> exists i :: 0 <= i < |items| && g(items[i].0) == k2
    ensures forall i :: 0 <= i < |items| && g(items[i].0) == k2 && (forall j :: i < j < |items| ==> g(items[j].0) != k2) ==>
              k2 in RenameKeys(items, g) && RenameKeys(items, g)[k2] == items[i].1
  {
    var ps := seq(|items|, i requires 0 <= i < |items| => (g(items[i].0), items[i].1));
    BuildMapKeys(ps);
    if k2 in BuildMap(ps) {
      var i :| 0 <= i < |ps| && ps[i].0 == k2;
      assert g(items[i].0) == k2;
    }
    if exists i :: 0 <= i < |items| && g(items[i].0) == k2 {
      var i :| 0 <= i < |items| && g(items[i].0) == k2;
      assert ps[i].0 == k2;
    }
    forall i | 0 <= i < |items| && g(items[i].0) == k2 && (forall j :: i < j < |items| ==> g(items[j].0) != k2)
      ensures k2 in BuildMap(ps) && BuildMap(ps)[k2] == items[i].1
    {
      BuildMapLastWins(ps, i);
    }
  }

  /** For items with distinct keys: a renamed key is present exactly when some
      item's key renames to it; when no other item renames to the same key,
      the item's value is found under its renamed key. */
  lemma RenameKeysOfDistinct<K, K2, V>(items: seq<(K, V)>, g: K -> K2, c: K)
    requires forall i, j :: 0 <= i < j < |items| ==> items[i].0 != items[j].0
    ensures g(c) in RenameKeys(items, g) <==> exists i :: 0 <= i < |items| && g(items[i].0) == g(c)
    ensures forall i :: 0 <= i < |items| && items[i].0 == c &&
                        (forall j :: 0 <= j < |items| && items[j].0 != c ==> g(items[j].0) != g(c)) ==>
              g(c) in RenameKeys(items, g) && RenameKeys(items, g)[g(c)] == items[i].1
  {
    RenameKeysSpec(items, g, g(c));
    forall i | 0 <= i < |items| && items[i].0 == c &&
               (forall j :: 0 <= j < |items| && items[j].0 != c ==> g(items[j].0) != g(c))
      ensures g(c) in RenameKeys(items, g) && RenameKeys(items, g)[g(c)] == items[i].1
    {
      forall j | i < j < |items| ensures g(items[j].0) != g(c) {
        assert items[j].0 != items[i].0;
      }
    }
  }

  /** `[y for x in xs if (y := f(x)) is not None]`: what `f` keeps, in order. */
  function Kept<A, B>(xs: seq<A>, f: A -> Option<B>): seq<B>
  {
    if xs == [] then [] else
      var init := Kept(xs[..|xs| - 1], f);
      match f(xs[|xs| - 1])
      case None => init
      case Some(y) => init + [y]
  }

  lemma KeptSnoc<A, B>(xs: seq<A>, x: A, f: A -> Option<B>)
    ensures Kept(xs + [x], f) == match f(x) case None => Kept(xs, f) case Some(y) => Kept(xs, f) + [y]
  {
    assert (xs + [x])[..|xs|] == xs;
  }

  /** Every kept value comes from some element. */
  lemma {:induction false} KeptFrom<A, B>(xs: seq<A>, f: A -> Option<B>)
    ensures forall t :: 0 <= t < |Kept(xs, f)| ==> exists j :: 0 <= j < |xs| && f(xs[j]) == Some(Kept(xs, f)[t])
  {
    if xs == [] {
      assert Kept(xs, f) == [];
    } else {
      var init := xs[..|xs| - 1];
      KeptFrom(init, f);
      assert xs == init + [xs[|xs| - 1]];
      KeptSnoc(init, xs[|xs| - 1], f);
      var prev := Kept(init, f);
      var ks := Kept(xs, f);
      assert |prev| <= |ks| && forall t :: 0 <= t < |prev| ==> ks[t] == prev[t];
      forall t | 0 <= t < |ks| ensures exists j :: 0 <= j < |xs| && f(xs[j]) == Some(ks[t]) {
        if t < |prev| {
          var j :| 0 <= j < |init| && f(init[j]) == Some(prev[t]);
          assert init[j] == xs[j];
        } else {
          assert f(xs[|xs| - 1]).Some? && ks == prev + [f(xs[|xs| - 1]).value];
          assert f(xs[|xs| - 1]) == Some(ks[t]);
        }
      }
    }
  }

  /** Every element `f` accepts is kept. */
  lemma {:induction false} KeptAll<A, B>(xs: seq<A>, f: A -> Option<B>)
    ensures forall j :: 0 <= j < |xs| && f(xs[j]).Some? ==> exists t :: 0 <= t < |Kept(xs, f)| && Kept(xs, f)[t] == f(xs[j]).value
  {
    if xs != [] {
      var init := xs[..|xs| - 1];
      KeptAll(init, f);
      assert xs == init + [xs[|xs| - 1]];
      KeptSnoc(init, xs[|xs| - 1], f);
      var prev := Kept(init, f);
      var ks := Kept(xs, f);
      assert |prev| <= |ks| && forall t :: 0 <= t < |prev| ==> ks[t] == prev[t];
      forall j | 0 <= j < |xs| && f(xs[j]).Some? ensures exists t :: 0 <= t < |ks| && ks[t] == f(xs[j]).value {
        if j < |init| {
          assert init[j] == xs[j];
          var t :| 0 <= t < |prev| && prev[t] == f(init[j]).value;
          assert ks[t] == f(xs[j]).value;
        } else {
          assert ks[|ks| - 1] == f(xs[j]).value;
        }
      }
    }
  }

  /** A dict filled from the rows `f` accepts has exactly the keys of those rows. */
  lemma {:induction false} KeptMapKeys<A, K, V>(xs: seq<A>, f: A -> Option<(K, V)>, k: K)
    ensures k in BuildMap(Kept(xs, f)) <==>
            exists i :: 0 <= i < |xs| && f(xs[i]).Some? && f(xs[i]).value.0 == k
  {
    if xs != [] {
      var init := xs[..|xs| - 1];
      KeptMapKeys(init, f, k);
      assert xs == init + [xs[|xs| - 1]];
      KeptSnoc(init, xs[|xs| - 1], f);
      var m := BuildMap(Kept(xs, f));
      if k in m {
        match f(xs[|xs| - 1])
        case None =>
          var i :| 0 <= i < |init| && f(init[i]).Some? && f(init[i]).value.0 == k;
          assert xs[i] == init[i];
        case Some(y) =>
          BuildMapSnoc(Kept(init, f), y);
          if y.0 != k {
            var i :| 0 <= i < |init| && f(init[i]).Some? && f(init[i]).value.0 == k;
            assert xs[i] == init[i];
          }
      } else {
        forall i | 0 <= i < |xs| && f(xs[i]).Some? ensures f(xs[i]).value.0 != k {
          match f(xs[|xs| - 1])
          case None =>
            if i < |init| { assert xs[i] == init[i]; }
          case Some(y) =>
            BuildMapSnoc(Kept(init, f), y);
            if i < |init| { assert xs[i] == init[i]; }
        }
      }
    }
  }

  /** The value stored under a key comes from the LAST accepted row with that key. */
  lemma {:induction false} KeptMapLastWins<A, K, V>(xs: seq<A>, f: A -> Option<(K, V)>, i: nat)
    requires i < |xs| && f(xs[i]).Some?
    requires forall j :: i < j < |xs| && f(xs[j]).Some? ==> f(xs[j]).value.0 != f(xs[i]).value.0
    ensures f(xs[i]).value.0 in BuildMap(Kept(xs, f))
    ensures BuildMap(Kept(xs, f))[f(xs[i]).value.0] == f(xs[i]).value.1
  {
    var init := xs[..|xs| - 1];
    assert xs == init + [xs[|xs| - 1]];
    KeptSnoc(init, xs[|xs| - 1], f);
    if i == |xs| - 1 {
      BuildMapSnoc(Kept(init, f), f(xs[i]).value);
    } else {
      assert init[i] == xs[i];
      KeptMapLastWins(init, f, i);
      match f(xs[|xs| - 1])
      case None =>
      case Some(y) => BuildMapSnoc(Kept(init, f), y);
    }
  }

  /** `d.get(k, default)`. */
  function MapGet<K, V>(m: map<K, V>, k: K, default: V): V
  {
    if k in m then m[k] else default
  }

  /** The keys of the pairs, in order. */
  function Firsts<K, V>(ps: seq<(K, V)>): (ks: seq<K>)
    ensures |ks| == |ps| && forall i :: 0 <= i < |ps| ==> ks[i] == ps[i].0
  {
    seq(|ps|, i requires 0 <= i < |ps| => ps[i].0)
  }

  /** Each distinct element of `s` once, at its first occurrence: the key order
      of a dict filled from `s`. */
  function Dedup<T(==, !new)>(s: seq<T>): (r: seq<T>)
    ensures forall x :: x in r <==> x in s
    ensures forall i, j :: 0 <= i < j < |r| ==> r[i] != r[j]
  {
    if s == [] then [] else
      var init := s[..|s| - 1];
      assert s == init + [s[|s| - 1]];
      if s[|s| - 1] in init then Dedup(init) else Dedup(init) + [s[|s| - 1]]
  }

  /** `dict(ps).items()`: each key once, in order of its first assignment, with
      the value of its last. */
  function Items<K(==, !new), V>(ps: seq<(K, V)>): (r: seq<(K, V)>)
    ensures forall k :: k in BuildMap(ps) <==> exists i :: 0 <= i < |r| && r[i].0 == k
    ensures forall i :: 0 <= i < |r| ==> r[i].0 in BuildMap(ps) && r[i].1 == BuildMap(ps)[r[i].0]
    ensures forall i, j :: 0 <= i < j < |r| ==> r[i].0 != r[j].0
  {
    var ks := Dedup(Firsts(ps));
    var m := BuildMap(ps);
    BuildMapKeys(ps);
    assert forall k :: k in m <==> k in Firsts(ps);
    var r := seq(|ks|, i requires 0 <= i < |ks| => (ks[i], m[ks[i]]));
    forall k | k in m ensures exists i :: 0 <= i < |r| && r[i].0 == k {
      var i :| 0 <= i < |ks| && ks[i] == k;
      assert r[i].0 == k;
    }
    r
  }

  // ---------------------------------------------------------------------------
  // next(x for x in s if p(x)): the first match
  // ---------------------------------------------------------------------------

  function FirstIndex<T>(s: seq<T>, p: T -> bool): (r: Option<nat>)
    ensures r.None? <==> forall i :: 0 <= i < |s| ==> !p(s[i])
    ensures r.Some? ==> r.value < |s| && p(s[r.value])
    ensures r.Some? ==> forall j :: 0 <= j < r.value ==> !p(s[j])
  {
    if s == [] then None
    else if p(s[0]) then Some(0)
    else match FirstIndex(s[1..], p)
      case None => None
      case Some(i) => Some(i + 1)
  }

  /** `int(np.argmax(v))`: the first position holding the largest value. */
  function ArgMax(v: seq<real>): (r: nat)
    requires |v| > 0
    ensures r < |v|
    ensures forall i :: 0 <= i < |v| ==> v[i] <= v[r]
    ensures forall i :: 0 <= i < r ==> v[i] < v[r]
  {
    if |v| == 1 then 0 else
      var m := ArgMax(v[..|v| - 1]);
      if v[|v| - 1] > v[m] then |v| - 1 else m
  }

  // ---------------------------------------------------------------------------
  // Stable descending sort of positions by a key
  // ---------------------------------------------------------------------------

  /** Position `a` precedes position `b` after a stable sort by descending key:
      a larger key first, equal keys in their original order. */
  predicate RankedBefore(keys: seq<real>, a: nat, b: nat)
    requires a < |keys| && b < |keys|
  {
    keys[a] > keys[b] || (keys[a] == keys[b] && a < b)
  }

  predicate Below(t: seq<nat>, n: nat)
  {
    forall i :: 0 <= i < |t| ==> t[i] < n
  }

  /** Every pair of positions in `t` appears in stable descending order. */
  predicate Ranked(keys: seq<real>, t: seq<nat>)
    requires Below(t, |keys|)
  {
    forall i, j :: 0 <= i < j < |t| ==> RankedBefore(keys, t[i], t[j])
  }

  function Range(lo: nat, hi: nat): (r: seq<nat>)
    requires lo <= hi
    ensures |r| == hi - lo && forall i :: 0 <= i < |r| ==> r[i] == lo + i
  {
    seq(hi - lo, i requires 0 <= i < hi - lo => lo + i)
  }

  /** Insert position `x` in front of the first position whose key is not larger. */
  function InsertRanked(keys: seq<real>, x: nat, t: seq<nat>): (r: seq<nat>)
    requires x < |keys| && Below(t, |keys|)
    ensures multiset(r) == multiset(t) + multiset{x}
    ensures |r| == |t| + 1 && Below(r, |keys|)
  {
    if t == [] || keys[t[0]] <= keys[x] then [x] + t
    else
      var r := [t[0]] + InsertRanked(keys, x, t[1..]);
      assert t == [t[0]] + t[1..];
      r
  }

  function SortFrom(keys: seq<real>, lo: nat): (r: seq<nat>)
    requires lo <= |keys|
    ensures multiset(r) == multiset(Range(lo, |keys|))
    ensures |r| == |keys| - lo && Below(r, |keys|)
    decreases |keys| - lo
  {
    if lo == |keys| then []
    else
      assert Range(lo, |keys|) == [lo] + Range(lo + 1, |keys|);
      InsertRanked(keys, lo, SortFrom(keys, lo + 1))
  }

  /** The positions of `keys` as `sorted(range(len(keys)), key=..., reverse=True)`
      leaves them: Python's sort is stable, also with `reverse=True`. */
  function StableOrder(keys: seq<real>): (r: seq<nat>)
    ensures |r| == |keys| && Below(r, |keys|)
  {
    SortFrom(keys, 0)
  }

  /** Putting in front of a ranked list a position that ranks before all of it
      keeps it ranked. */
  lemma RankedCons(keys: seq<real>, h: nat, s: seq<nat>)
    requires h < |keys| && Below(s, |keys|) && Ranked(keys, s)
    requires forall i :: 0 <= i < |s| ==> RankedBefore(keys, h, s[i])
    ensures Below([h] + s, |keys|) && Ranked(keys, [h] + s)
  {
    var r := [h] + s;
    forall i, j | 0 <= i < j < |r| ensures RankedBefore(keys, r[i], r[j]) {
      assert r[j] == s[j - 1];
      if i > 0 { assert r[i] == s[i - 1]; }
    }
  }

  lemma {:induction false} InsertRankedKeepsRanked(keys: seq<real>, x: nat, t: seq<nat>)
    requires x < |keys| && Below(t, |keys|) && Ranked(keys, t)
    requires forall i :: 0 <= i < |t| ==> x < t[i]
    ensures Ranked(keys, InsertRanked(keys, x, t))
  {
    if t == [] || keys[t[0]] <= keys[x] {
      forall j | 0 <= j < |t| ensures RankedBefore(keys, x, t[j]) {
        if j > 0 { assert RankedBefore(keys, t[0], t[j]); }
      }
      RankedCons(keys, x, t);
    } else {
      var t' := t[1..];
      InsertRankedKeepsRanked(keys, x, t');
      var s := InsertRanked(keys, x, t');
      forall i | 0 <= i < |s| ensures RankedBefore(keys, t[0], s[i]) {
        var y := s[i];
        assert y in multiset(s);
        if y != x {
          assert y in multiset(t');
          var k :| 0 <= k < |t'| && t'[k] == y;
          assert t[k + 1] == y;
          assert RankedBefore(keys, t[0], t[k + 1]);
        }
      }
      RankedCons(keys, t[0], s);
    }
  }

  lemma {:induction false} SortFromRanked(keys: seq<real>, lo: nat)
    requires lo <= |keys|
    ensures Ranked(keys, SortFrom(keys, lo))
    decreases |keys| - lo
  {
    if lo < |keys| {
      var t := SortFrom(keys, lo + 1);
      SortFromRanked(keys, lo + 1);
      forall i | 0 <= i < |t| ensures lo < t[i] {
        assert t[i] in multiset(Range(lo + 1, |keys|));
      }
      InsertRankedKeepsRanked(keys, lo, t);
    }
  }

  /** `StableOrder(keys)` lists every position exactly once, in stable
      descending order of key. */
  lemma StableOrderSpec(keys: seq<real>)
    ensures multiset(StableOrder(keys)) == multiset(Range(0, |keys|))
    ensures Ranked(keys, StableOrder(keys))
  {
    SortFromRanked(keys, 0);
  }

  /** Cutting `StableOrder(keys)` after `k` positions keeps the top `k`: every
      position before the cut has a key at least that of every position after. */
  lemma {:induction false} StableOrderTopK(keys: seq<real>, k: nat)
    requires k <= |keys|
    ensures forall i, j :: 0 <= i < k <= j < |keys| ==>
              keys[StableOrder(keys)[i]] >= keys[StableOrder(keys)[j]]
  {
    StableOrderSpec(keys);
    var r := StableOrder(keys);
    forall i, j | 0 <= i < k <= j < |keys| ensures keys[r[i]] >= keys[r[j]] {
      assert RankedBefore(keys, r[i], r[j]);
    }
  }

  // ---------------------------------------------------------------------------
  // sorted() of a set of distinct values
  // ---------------------------------------------------------------------------

  ghost predicate StrictTotalOrder<T(!new)>(less: (T, T) -> bool)
  {
    && (forall a :: !less(a, a))
    && (forall a, b, c :: less(a, b) && less(b, c) ==> less(a, c))
    && (forall a, b :: a != b ==> less(a, b) || less(b, a))
  }

  predicate Increasing<T>(s: seq<T>, less: (T, T) -> bool)
  {
    forall i, j :: 0 <= i < j < |s| ==> less(s[i], s[j])
  }

  /** `m` is in `s` and ranks before every other element of `s`. */
  predicate IsLeast<T(!new)>(m: T, s: set<T>, less: (T, T) -> bool)
  {
    m in s && forall y :: y in s && y != m ==> less(m, y)
  }

  /** The least element of a non-empty finite set. */
  lemma {:induction false} Least<T(!new)>(s: set<T>, less: (T, T) -> bool) returns (m: T)
    requires s != {} && StrictTotalOrder(less)
    ensures IsLeast(m, s, less)
    decreases |s|
  {
    var x :| x in s;
    if s == {x} {
      m := x;
    } else {
      var m' := Least(s - {x}, less);
      if less(x, m') {
        m := x;
        forall y | y in s && y != x ensures less(x, y) {
          if y != m' {
            assert y in s - {x};
          }
        }
      } else {
        m := m';
        assert less(m', x);
        forall y | y in s && y != m' ensures less(m', y) {
          if y != x {
            assert y in s - {x};
          }
        }
      }
    }
  }

  /** A non-empty finite set has a least element. */
  lemma LeastExists<T(!new)>(s: set<T>, less: (T, T) -> bool)
    requires s != {} && StrictTotalOrder(less)
    ensures exists m :: IsLeast(m, s, less)
  {
    var m := Least(s, less);
  }

  /** The elements of `s` in increasing order: the reference for `sorted(s)`. */
  ghost function SortedSeq<T(!new)>(s: set<T>, less: (T, T) -> bool): (r: seq<T>)
    requires StrictTotalOrder(less)
    ensures forall x :: x in r <==> x in s
    ensures Increasing(r, less)
    decreases |s|
  {
    if s == {} then [] else
      LeastExists(s, less);
      var m :| IsLeast(m, s, less);
      var t := SortedSeq(s - {m}, less);
      assert forall j :: 0 <= j < |t| ==> t[j] in s - {m};
      [m] + t
  }

  /** The first element of a non-empty sequence is one of its elements. */
  lemma HeadIsMember<T>(b: seq<T>)
    ensures b != [] ==> b[0] in b
  {
  }

  /** Two increasing sequences with the same elements are equal. */
  lemma {:induction false} IncreasingUnique<T(!new)>(a: seq<T>, b: seq<T>, less: (T, T) -> bool)
    requires StrictTotalOrder(less) && Increasing(a, less) && Increasing(b, less)
    requires forall x :: x in a <==> x in b
    ensures a == b
    decreases |a|
  {
    if a == [] {
      HeadIsMember(b);
      if b != [] { assert false; }
    } else {
      assert a[0] in b;
      assert b != [];
      assert b[0] in a;
      assert a[0] == b[0];
      forall x ensures x in a[1..] <==> x in b[1..] {
        if x in a[1..] {
          var i :| 0 <= i < |a| - 1 && a[1..][i] == x;
          assert less(a[0], a[i + 1]);
          assert x in b;
          var i2 :| 0 <= i2 < |b| && b[i2] == x;
          assert i2 != 0;
          assert b[1..][i2 - 1] == x;
        }
        if x in b[1..] {
          var i :| 0 <= i < |b| - 1 && b[1..][i] == x;
          assert less(b[0], b[i + 1]);
          assert x in a;
          var i2 :| 0 <= i2 < |a| && a[i2] == x;
          assert i2 != 0;
          assert a[1..][i2 - 1] == x;
        }
      }
      IncreasingUnique(a[1..], b[1..], less);
      assert a == [a[0]] + a[1..] && b == [b[0]] + b[1..];
    }
  }

  /** `sorted(s)`: the elements of `s` in increasing order, each once. */
  method SortSet<T(==, !new)>(s: set<T>, less: (T, T) -> bool) returns (r: seq<T>)
    requires StrictTotalOrder(less)
    ensures forall x :: x in r <==> x in s
    ensures Increasing(r, less)
    ensures |r| == |s|
    ensures r == SortedSeq(s, less)
  {
    r := [];
    var rest := s;
    while rest != {}
      invariant forall x :: x in s <==> x in r || x in rest
      invariant forall x :: x in r ==> x !in rest
      invariant rest <= s
      invariant |r| + |rest| == |s|
      invariant Increasing(r, less)
      invariant forall x, y :: x in r && y in rest ==> less(x, y)
      decreases |rest|
    {
      LeastExists(rest, less);
      var m :| IsLeast(m, rest, less);
      r := r + [m];
      rest := rest - {m};
    }
    IncreasingUnique(r, SortedSeq(s, less), less);
  }

  /** Python's `<` on `str`: lexicographic by code point, a proper prefix first. */
  predicate StrLess(a: string, b: string)
  {
    if a == [] then b != []
    else if b == [] then false
    else if a[0] != b[0] then a[0] < b[0]
    else StrLess(a[1..], b[1..])
  }

  lemma {:induction false} StrLessIrreflexive(a: string)
    ensures !StrLess(a, a)
  {
    if a != [] { StrLessIrreflexive(a[1..]); }
  }

  lemma {:induction false} StrLessTransitive(a: string, b: string, c: string)
    requires StrLess(a, b) && StrLess(b, c)
    ensures StrLess(a, c)
  {
    if a != [] && b != [] && c != [] && a[0] == b[0] && b[0] == c[0] {
      StrLessTransitive(a[1..], b[1..], c[1..]);
    }
  }

  lemma {:induction false} StrLessTotal(a: string, b: string)
    requires a != b
    ensures StrLess(a, b) || StrLess(b, a)
  {
    if a != [] && b != [] && a[0] == b[0] {
      assert a == [a[0]] + a[1..] && b == [b[0]] + b[1..];
      StrLessTotal(a[1..], b[1..]);
    }
  }

  lemma StrLessIsStrictTotalOrder()
    ensures StrictTotalOrder(StrLess)
  {
    forall a | true ensures !StrLess(a, a) { StrLessIrreflexive(a); }
    forall a, b, c | StrLess(a, b) && StrLess(b, c) ensures StrLess(a, c) {
      StrLessTransitive(a, b, c);
    }
    forall a, b | a != b ensures StrLess(a, b) || StrLess(b, a) { StrLessTotal(a, b); }
  }

  /** `<` on integers, for `sorted()` of a set of label ids. */
  predicate IntLess(a: int, b: int)
  {
    a < b
  }

  lemma IntLessIsStrictTotalOrder()
    ensures StrictTotalOrder(IntLess)
  {
  }
}
