/** Generic sequence folds behind the analytics: counting, first-encounter
    grouping (Python's insertion-ordered dict of lists), a stable descending
    sort (Python's `sorted(..., reverse=True)`), and slicing. */
module Collections {

  // ---------------------------------------------------------------- counting

  /** Number of elements satisfying `p`. */
  function CountIf<T>(s: seq<T>, p: T -> bool): nat
  {
    if s == [] then 0
    else CountIf(s[..|s| - 1], p) + (if p(s[|s| - 1]) then 1 else 0)
  }

  /** Elements satisfying `p`, in order (a list comprehension with a filter). */
  function Filter<T>(s: seq<T>, p: T -> bool): (r: seq<T>)
    ensures |r| == CountIf(s, p)
    ensures forall x :: x in r ==> x in s && p(x)
  {
    if s == [] then []
    else Filter(s[..|s| - 1], p) + (if p(s[|s| - 1]) then [s[|s| - 1]] else [])
  }

  /** Membership in a filtered list, both directions. */
  lemma {:induction false} FilterSpec<T>(s: seq<T>, p: T -> bool)
    ensures forall x :: x in Filter(s, p) <==> x in s && p(x)
  {
    if s != [] {
      FilterSpec(s[..|s| - 1], p);
      assert s == s[..|s| - 1] + [s[|s| - 1]];
    }
  }

  /** `idx` picks the elements of `r` out of `s` at strictly increasing positions. */
  ghost predicate PicksFrom<T>(idx: seq<nat>, r: seq<T>, s: seq<T>)
  {
    && |idx| == |r|
    && (forall k :: 0 <= k < |idx| ==> idx[k] < |s| && s[idx[k]] == r[k])
    && (forall k, l :: 0 <= k < l < |idx| ==> idx[k] < idx[l])
  }

  /** `r` is a subsequence of `s`: its elements occur in `s` in the same order. */
  ghost predicate InOrder<T>(r: seq<T>, s: seq<T>)
  {
    exists idx :: PicksFrom(idx, r, s)
  }

  /** Picking from a list still works once the list grows at the end. */
  lemma PicksFromGrow<T>(idx: seq<nat>, r: seq<T>, s: seq<T>, x: T)
    requires PicksFrom(idx, r, s)
    ensures PicksFrom(idx, r, s + [x])
  {
    forall k | 0 <= k < |idx| ensures idx[k] < |s + [x]| && (s + [x])[idx[k]] == r[k] {
      assert idx[k] < |s|;
    }
  }

  /** ... and picking the new last element extends the pick. */
  lemma PicksFromSnoc<T>(idx: seq<nat>, r: seq<T>, s: seq<T>, x: T)
    requires PicksFrom(idx, r, s)
    ensures PicksFrom(idx + [|s|], r + [x], s + [x])
  {
    PicksFromGrow(idx, r, s, x);
    var idx' := idx + [|s|];
    forall k, l | 0 <= k < l < |idx'| ensures idx'[k] < idx'[l] {
      if l == |idx| { assert idx'[k] == idx[k] < |s|; }
    }
  }

  /** Filtering keeps the survivors in their original order. */
  lemma {:induction false} FilterInOrder<T>(s: seq<T>, p: T -> bool)
    ensures InOrder(Filter(s, p), s)
  {
    if s == [] {
      assert PicksFrom([], Filter(s, p), s);
    } else {
      var init, x := s[..|s| - 1], s[|s| - 1];
      assert s == init + [x];
      FilterInOrder(init, p);
      var idx: seq<nat> :| PicksFrom(idx, Filter(init, p), init);
      if p(x) {
        assert Filter(s, p) == Filter(init, p) + [x];
        PicksFromSnoc(idx, Filter(init, p), init, x);
        assert PicksFrom(idx + [|init|], Filter(s, p), s);
      } else {
        assert Filter(s, p) == Filter(init, p);
        PicksFromGrow(idx, Filter(init, p), init, x);
        assert PicksFrom(idx, Filter(s, p), s);
      }
    }
  }

  lemma {:induction false} CountIfAppend<T>(s: seq<T>, t: seq<T>, p: T -> bool)
    ensures CountIf(s + t, p) == CountIf(s, p) + CountIf(t, p)
  {
    if t != [] {
      assert (s + t)[..|s + t| - 1] == s + t[..|t| - 1];
      CountIfAppend(s, t[..|t| - 1], p);
    } else {
      assert s + t == s;
    }
  }

  lemma {:induction false} CountIfLe<T>(s: seq<T>, p: T -> bool, q: T -> bool)
    requires forall x :: x in s && p(x) ==> q(x)
    ensures CountIf(s, p) <= CountIf(s, q)
  {
    if s != [] {
      CountIfLe(s[..|s| - 1], p, q);
    }
  }

  /** Counts under three mutually exclusive predicates add up to at most the length. */
  lemma {:induction false} CountIfDisjoint3<T>(s: seq<T>, p: T -> bool, q: T -> bool, r: T -> bool)
    requires forall x :: x in s ==> !(p(x) && q(x)) && !(p(x) && r(x)) && !(q(x) && r(x))
    ensures CountIf(s, p) + CountIf(s, q) + CountIf(s, r) <= |s|
  {
    if s != [] {
      CountIfDisjoint3(s[..|s| - 1], p, q, r);
    }
  }

  // ---------------------------------------------------------------- sums

  function Sum(s: seq<real>): real
  {
    if s == [] then 0.0 else Sum(s[..|s| - 1]) + s[|s| - 1]
  }

  /** Arithmetic mean, 0 for the empty series. */
  function Mean(s: seq<real>): real
  {
    if |s| == 0 then 0.0 else Sum(s) / |s| as real
  }

  // ---------------------------------------------------------------- first occurrence

  ghost predicate Distinct<T>(s: seq<T>)
  {
    forall i, j :: 0 <= i < j < |s| ==> s[i] != s[j]
  }

  /** Index of the first occurrence of `x` in `s`. */
  function FirstIndex<T(==)>(s: seq<T>, x: T): (i: nat)
    requires x in s
    ensures i < |s| && s[i] == x && x !in s[..i]
  {
    if s[0] == x then 0 else 1 + FirstIndex(s[1..], x)
  }

  lemma {:induction false} FirstIndexAppend<T>(s: seq<T>, t: seq<T>, x: T)
    requires x in s
    ensures FirstIndex(s + t, x) == FirstIndex(s, x)
  {
    if s[0] != x {
      assert (s + t)[1..] == s[1..] + t;
      FirstIndexAppend(s[1..], t, x);
    }
  }

  /** Distinct elements of `s`, each once, in order of first occurrence. */
  function Dedup<T(==)>(s: seq<T>): seq<T>
  {
    if s == [] then []
    else
      var d := Dedup(s[..|s| - 1]);
      if s[|s| - 1] in d then d else d + [s[|s| - 1]]
  }

  lemma {:induction false} DedupSpec<T>(s: seq<T>)
    ensures Distinct(Dedup(s))
    ensures forall x :: x in Dedup(s) <==> x in s
    ensures forall i, j :: 0 <= i < j < |Dedup(s)| ==>
              FirstIndex(s, Dedup(s)[i]) < FirstIndex(s, Dedup(s)[j])
  {
    if s != [] {
      var p, x := s[..|s| - 1], s[|s| - 1];
      assert s == p + [x];
      DedupSpec(p);
      var d := Dedup(p);
      forall y | y in p ensures FirstIndex(s, y) == FirstIndex(p, y) {
        FirstIndexAppend(p, [x], y);
      }
      if x !in d {
        assert x !in p;
        assert FirstIndex(s, x) == |p| by {
          assert s[..|p|] == p;
        }
      }
    }
  }

  // ---------------------------------------------------------------- grouping

  /** A key with the values filed under it, in input order. */
  datatype Group<K, V> = Group(key: K, members: seq<V>)

  function KeysOf<K, V>(items: seq<(K, V)>): (ks: seq<K>)
    ensures |ks| == |items|
    ensures forall i :: 0 <= i < |items| ==> ks[i] == items[i].0
  {
    seq(|items|, i requires 0 <= i < |items| => items[i].0)
  }

  /** The values paired with key `k`, in input order. */
  function MembersOf<K(==), V>(items: seq<(K, V)>, k: K): seq<V>
  {
    if items == [] then []
    else
      MembersOf(items[..|items| - 1], k)
      + (if items[|items| - 1].0 == k then [items[|items| - 1].1] else [])
  }

  /** Reference definition of an insertion-ordered dict of lists built from
      `items`: one group per distinct key, in first-encounter order, holding
      every value filed under that key. */
  function GroupBy<K(==), V>(items: seq<(K, V)>): (gs: seq<Group<K, V>>)
  {
    var ks := Dedup(KeysOf(items));
    seq(|ks|, i requires 0 <= i < |ks| => Group(ks[i], MembersOf(items, ks[i])))
  }

  lemma {:induction false} MembersOfHas<K, V>(items: seq<(K, V)>, i: nat)
    requires i < |items|
    ensures items[i].1 in MembersOf(items, items[i].0)
  {
    var n := |items| - 1;
    if i < n {
      MembersOfHas(items[..n], i);
    }
  }

  /** One step of the dict-building loop: `d.setdefault(k, []).append(v)`. */
  function AddToGroup<K(==), V>(gs: seq<Group<K, V>>, k: K, v: V): seq<Group<K, V>>
  {
    if gs == [] then [Group(k, [v])]
    else if gs[0].key == k then [Group(k, gs[0].members + [v])] + gs[1..]
    else [gs[0]] + AddToGroup(gs[1..], k, v)
  }

  lemma {:induction false} AddToGroupSpec<K, V>(gs: seq<Group<K, V>>, k: K, v: V)
    requires forall i, j :: 0 <= i < j < |gs| ==> gs[i].key != gs[j].key
    ensures (forall i :: 0 <= i < |gs| ==> gs[i].key != k) ==>
              AddToGroup(gs, k, v) == gs + [Group(k, [v])]
    ensures forall j :: 0 <= j < |gs| && gs[j].key == k ==>
              AddToGroup(gs, k, v) == gs[j := Group(k, gs[j].members + [v])]
  {
    if gs != [] && gs[0].key != k {
      AddToGroupSpec(gs[1..], k, v);
      forall j | 0 < j < |gs| && gs[j].key == k
        ensures AddToGroup(gs, k, v) == gs[j := Group(k, gs[j].members + [v])]
      {
        assert gs[1..][j - 1].key == k;
        assert [gs[0]] + gs[1..][j - 1 := Group(k, gs[j].members + [v])]
            == gs[j := Group(k, gs[j].members + [v])];
      }
      if forall i :: 0 <= i < |gs| ==> gs[i].key != k {
        assert forall i :: 0 <= i < |gs[1..]| ==> gs[1..][i].key != k;
        assert [gs[0]] + (gs[1..] + [Group(k, [v])]) == gs + [Group(k, [v])];
      }
    }
  }

  lemma {:induction false} MembersOfAppend<K, V>(items: seq<(K, V)>, k: K, v: V, k': K)
    ensures MembersOf(items + [(k, v)], k') == MembersOf(items, k') + (if k == k' then [v] else [])
  {
    assert (items + [(k, v)])[..|items|] == items;
  }

  lemma {:induction false} MembersOfAbsent<K, V>(items: seq<(K, V)>, k: K)
    requires k !in KeysOf(items)
    ensures MembersOf(items, k) == []
  {
    if items != [] {
      var p := items[..|items| - 1];
      assert forall i :: 0 <= i < |p| ==> KeysOf(p)[i] == KeysOf(items)[i];
      MembersOfAbsent(p, k);
    }
  }

  lemma {:induction false} KeysOfAppend<K, V>(items: seq<(K, V)>, k: K, v: V)
    ensures KeysOf(items + [(k, v)]) == KeysOf(items) + [k]
    ensures KeysOf(items + [(k, v)])[..|items|] == KeysOf(items)
    ensures forall k' :: MembersOf(items + [(k, v)], k') == MembersOf(items, k') + (if k == k' then [v] else [])
  {
    forall k' ensures MembersOf(items + [(k, v)], k') == MembersOf(items, k') + (if k == k' then [v] else []) {
      MembersOfAppend(items, k, v, k');
    }
  }

  /** The loop step for a key seen before updates that key's group in place. */
  lemma {:induction false} GroupByStepOld<K, V>(items: seq<(K, V)>, k: K, v: V, j: nat)
    requires j < |GroupBy(items)| && GroupBy(items)[j].key == k
    ensures GroupBy(items + [(k, v)]) == GroupBy(items)[j := Group(k, GroupBy(items)[j].members + [v])]
  {
    var items' := items + [(k, v)];
    KeysOfAppend(items, k, v);
    var ks := Dedup(KeysOf(items));
    DedupSpec(KeysOf(items));
    assert ks[j] == k;
    assert Dedup(KeysOf(items')) == ks;
    var gs, gs' := GroupBy(items), GroupBy(items');
    forall i | 0 <= i < |ks| ensures gs'[i] == gs[j := Group(k, gs[j].members + [v])][i] {
      if i != j {
        assert ks[i] != k;
      }
    }
  }

  /** The loop step for a new key appends a one-element group. */
  lemma {:induction false} GroupByStepNew<K, V>(items: seq<(K, V)>, k: K, v: V)
    requires k !in KeysOf(items)
    ensures GroupBy(items + [(k, v)]) == GroupBy(items) + [Group(k, [v])]
  {
    var items' := items + [(k, v)];
    KeysOfAppend(items, k, v);
    var ks := Dedup(KeysOf(items));
    DedupSpec(KeysOf(items));
    assert Dedup(KeysOf(items')) == ks + [k];
    MembersOfAbsent(items, k);
    assert MembersOf(items', k) == [v];
    forall i | 0 <= i < |ks| ensures GroupBy(items')[i] == GroupBy(items)[i] {
      assert ks[i] != k;
    }
  }

  /** The loop step that builds the dict agrees with the reference definition. */
  lemma {:induction false} GroupByStep<K, V>(items: seq<(K, V)>, k: K, v: V)
    ensures GroupBy(items + [(k, v)]) == AddToGroup(GroupBy(items), k, v)
  {
    var ks := Dedup(KeysOf(items));
    var gs := GroupBy(items);
    DedupSpec(KeysOf(items));
    assert forall i, j :: 0 <= i < j < |gs| ==> gs[i].key != gs[j].key;
    AddToGroupSpec(gs, k, v);
    if k in ks {
      var j :| 0 <= j < |ks| && ks[j] == k;
      GroupByStepOld(items, k, v, j);
    } else {
      GroupByStepNew(items, k, v);
    }
  }

  /** Total number of values over all groups. */
  function SizeSum<K, V>(gs: seq<Group<K, V>>): nat
  {
    if gs == [] then 0 else |gs[0].members| + SizeSum(gs[1..])
  }

  lemma {:induction false} AddToGroupSize<K, V>(gs: seq<Group<K, V>>, k: K, v: V)
    ensures SizeSum(AddToGroup(gs, k, v)) == SizeSum(gs) + 1
  {
    if gs != [] && gs[0].key != k {
      AddToGroupSize(gs[1..], k, v);
      assert ([gs[0]] + AddToGroup(gs[1..], k, v))[1..] == AddToGroup(gs[1..], k, v);
    } else if gs != [] {
      assert ([Group(k, gs[0].members + [v])] + gs[1..])[1..] == gs[1..];
    }
  }

  /** Every value lands in exactly one group: the group sizes add up to the input length. */
  lemma {:induction false} GroupBySize<K, V>(items: seq<(K, V)>)
    ensures SizeSum(GroupBy(items)) == |items|
  {
    if items != [] {
      var p, last := items[..|items| - 1], items[|items| - 1];
      assert items == p + [(last.0, last.1)];
      GroupBySize(p);
      GroupByStep(p, last.0, last.1);
      AddToGroupSize(GroupBy(p), last.0, last.1);
    }
  }

  /** The grouping's keys are distinct, cover exactly the input keys, appear in
      first-encounter order, and each group holds every value of its key. */
  lemma GroupBySpec<K, V>(items: seq<(K, V)>)
    ensures Distinct(seq(|GroupBy(items)|, i requires 0 <= i < |GroupBy(items)| => GroupBy(items)[i].key))
    ensures forall k :: k in KeysOf(items) <==> exists i :: 0 <= i < |GroupBy(items)| && GroupBy(items)[i].key == k
    ensures forall i :: 0 <= i < |GroupBy(items)| ==>
              GroupBy(items)[i].members == MembersOf(items, GroupBy(items)[i].key)
    ensures forall i, j :: 0 <= i < j < |GroupBy(items)| ==>
              FirstIndex(KeysOf(items), GroupBy(items)[i].key) < FirstIndex(KeysOf(items), GroupBy(items)[j].key)
  {
    var ks := Dedup(KeysOf(items));
    DedupSpec(KeysOf(items));
    forall k | k in KeysOf(items)
      ensures exists i :: 0 <= i < |GroupBy(items)| && GroupBy(items)[i].key == k
    {
      var i :| 0 <= i < |ks| && ks[i] == k;
      assert GroupBy(items)[i].key == k;
    }
  }

  /** `{k: len(v) for k, v in d.items()}` */
  function Counts<K, V>(gs: seq<Group<K, V>>): (cs: seq<(K, nat)>)
    ensures |cs| == |gs|
    ensures forall i :: 0 <= i < |gs| ==> cs[i] == (gs[i].key, |gs[i].members|)
  {
    seq(|gs|, i requires 0 <= i < |gs| => (gs[i].key, |gs[i].members|))
  }

  /** One step of a counting loop: `d[k] = d.get(k, 0) + 1` on an insertion-ordered dict. */
  function Bump<K(==)>(cs: seq<(K, nat)>, k: K): seq<(K, nat)>
  {
    if cs == [] then [(k, 1)]
    else if cs[0].0 == k then [(k, cs[0].1 + 1)] + cs[1..]
    else [cs[0]] + Bump(cs[1..], k)
  }

  /** Counting into a dict of integers follows grouping into a dict of lists. */
  lemma {:induction false} CountsStep<K, V>(gs: seq<Group<K, V>>, k: K, v: V)
    ensures Counts(AddToGroup(gs, k, v)) == Bump(Counts(gs), k)
  {
    if gs != [] && gs[0].key != k {
      CountsStep(gs[1..], k, v);
      assert Counts(gs)[1..] == Counts(gs[1..]);
    } else if gs != [] {
      assert Counts(gs)[1..] == Counts(gs[1..]);
    }
  }

  function CountTotal<K>(cs: seq<(K, nat)>): nat
  {
    if cs == [] then 0 else cs[0].1 + CountTotal(cs[1..])
  }

  lemma {:induction false} CountTotalSize<K, V>(gs: seq<Group<K, V>>)
    ensures CountTotal(Counts(gs)) == SizeSum(gs)
  {
    if gs != [] {
      CountTotalSize(gs[1..]);
      assert Counts(gs)[1..] == Counts(gs[1..]);
    }
  }

  // ---------------------------------------------------------------- stable sort

  ghost predicate NonIncreasing<T>(s: seq<T>, key: T -> real)
  {
    forall i, j :: 0 <= i < j < |s| ==> key(s[i]) >= key(s[j])
  }

  /** Insert `x` after every element whose key is at least its own. */
  function InsertDesc<T>(x: T, s: seq<T>, key: T -> real): seq<T>
  {
    if s == [] then [x]
    else if key(s[0]) >= key(x) then [s[0]] + InsertDesc(x, s[1..], key)
    else [x] + s
  }

  /** `sorted(s, key=key, reverse=True)`: stable, non-increasing by key. */
  function SortDesc<T>(s: seq<T>, key: T -> real): seq<T>
  {
    if s == [] then []
    else InsertDesc(s[|s| - 1], SortDesc(s[..|s| - 1], key), key)
  }

  /** Elements whose key equals `v`, in order. */
  function WithKey<T>(s: seq<T>, key: T -> real, v: real): seq<T>
  {
    if s == [] then []
    else WithKey(s[..|s| - 1], key, v) + (if key(s[|s| - 1]) == v then [s[|s| - 1]] else [])
  }

  lemma {:induction false} WithKeyAppend<T>(s: seq<T>, t: seq<T>, key: T -> real, v: real)
    ensures WithKey(s + t, key, v) == WithKey(s, key, v) + WithKey(t, key, v)
  {
    if t == [] {
      assert s + t == s;
    } else {
      assert (s + t)[..|s + t| - 1] == s + t[..|t| - 1];
      WithKeyAppend(s, t[..|t| - 1], key, v);
    }
  }

  lemma {:induction false} WithKeyNone<T>(s: seq<T>, key: T -> real, v: real)
    requires forall x :: x in s ==> key(x) != v
    ensures WithKey(s, key, v) == []
  {
    if s != [] {
      WithKeyNone(s[..|s| - 1], key, v);
    }
  }

  lemma {:induction false} InsertDescElements<T>(x: T, s: seq<T>, key: T -> real)
    ensures |InsertDesc(x, s, key)| == |s| + 1
    ensures forall y :: y in InsertDesc(x, s, key) <==> y == x || y in s
  {
    if s != [] && key(s[0]) >= key(x) {
      InsertDescElements(x, s[1..], key);
      assert s == [s[0]] + s[1..];
    }
  }

  lemma {:induction false} InsertDescSorted<T>(x: T, s: seq<T>, key: T -> real)
    requires NonIncreasing(s, key)
    ensures NonIncreasing(InsertDesc(x, s, key), key)
  {
    if s != [] && key(s[0]) >= key(x) {
      InsertDescSorted(x, s[1..], key);
      var r := InsertDesc(x, s[1..], key);
      assert key(s[0]) >= key(r[0]) by {
        if |s| > 1 && key(s[1]) >= key(x) {
          assert r[0] == s[1];
        } else {
          assert r[0] == x;
        }
      }
      assert forall j :: 0 < j < |r| ==> key(r[0]) >= key(r[j]);
    }
  }

  lemma WithKeySingle<T>(x: T, key: T -> real, v: real)
    ensures WithKey([x], key, v) == (if key(x) == v then [x] else [])
  {
    assert [x][..0] == [];
  }

  /** Inserting in front of a non-increasing list whose keys are all below `x`'s. */
  lemma InsertDescWithKeyFront<T>(x: T, s: seq<T>, key: T -> real, v: real)
    requires NonIncreasing(s, key)
    requires s == [] || key(s[0]) < key(x)
    ensures WithKey(InsertDesc(x, s, key), key, v) == WithKey(s, key, v) + (if key(x) == v then [x] else [])
  {
    WithKeySingle(x, key, v);
    if s != [] {
      WithKeyAppend([x], s, key, v);
      if key(x) == v {
        WithKeyNone(s, key, v);
      }
    }
  }

  lemma {:induction false} InsertDescWithKey<T>(x: T, s: seq<T>, key: T -> real, v: real)
    requires NonIncreasing(s, key)
    ensures WithKey(InsertDesc(x, s, key), key, v) == WithKey(s, key, v) + (if key(x) == v then [x] else [])
  {
    if s == [] || key(s[0]) < key(x) {
      InsertDescWithKeyFront(x, s, key, v);
    } else {
      var r := InsertDesc(x, s[1..], key);
      InsertDescWithKey(x, s[1..], key, v);
      assert InsertDesc(x, s, key) == [s[0]] + r;
      assert s == [s[0]] + s[1..];
      WithKeyAppend([s[0]], r, key, v);
      WithKeyAppend([s[0]], s[1..], key, v);
    }
  }

  /** The sort is a permutation, is non-increasing, and keeps equal keys in input order. */
  lemma {:induction false} SortDescSpec<T>(s: seq<T>, key: T -> real)
    ensures NonIncreasing(SortDesc(s, key), key)
    ensures |SortDesc(s, key)| == |s|
    ensures forall y :: y in SortDesc(s, key) <==> y in s
    ensures forall v :: WithKey(SortDesc(s, key), key, v) == WithKey(s, key, v)
  {
    if s != [] {
      var p := s[..|s| - 1];
      assert s == p + [s[|s| - 1]];
      SortDescSpec(p, key);
      InsertDescElements(s[|s| - 1], SortDesc(p, key), key);
      InsertDescSorted(s[|s| - 1], SortDesc(p, key), key);
      forall v ensures WithKey(SortDesc(s, key), key, v) == WithKey(s, key, v) {
        InsertDescWithKey(s[|s| - 1], SortDesc(p, key), key, v);
      }
    }
  }

  lemma {:induction false} InsertDescCount<T>(x: T, s: seq<T>, key: T -> real)
    ensures multiset(InsertDesc(x, s, key)) == multiset(s) + multiset{x}
  {
    if s != [] && key(s[0]) >= key(x) {
      InsertDescCount(x, s[1..], key);
      assert s == [s[0]] + s[1..];
    }
  }

  lemma {:induction false} SortDescPermutation<T>(s: seq<T>, key: T -> real)
    ensures multiset(SortDesc(s, key)) == multiset(s)
  {
    if s != [] {
      var p := s[..|s| - 1];
      assert s == p + [s[|s| - 1]];
      SortDescPermutation(p, key);
      InsertDescCount(s[|s| - 1], SortDesc(p, key), key);
    }
  }

  // ---------------------------------------------------------------- slicing

  /** `s[:n]` for a non-negative `n`. */
  function Take<T>(s: seq<T>, n: nat): (r: seq<T>)
    ensures |r| == (if n < |s| then n else |s|)
    ensures r == s[..|r|]
  {
    if n < |s| then s[..n] else s
  }
}
