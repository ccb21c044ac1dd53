/** Sequence and dictionary helpers that mirror the JavaScript array methods the
    system relies on: `filter(...)[0]` / `find`, `filter`, and `reduce` into an object. */
module Collections {
  import opened Wrappers

  /** The index of the first element satisfying `p` (what `filter(p)[0]` or `find(p)` yields). */
  function FirstIndex<T>(s: seq<T>, p: T -> bool): (r: Option<nat>)
    ensures r.None? <==> forall j | 0 <= j < |s| :: !p(s[j])
    ensures r.Some? ==> r.value < |s| && p(s[r.value])
    ensures r.Some? ==> forall j | 0 <= j < r.value :: !p(s[j])
  {
    if |s| == 0 then None
    else if p(s[0]) then Some(0)
    else match FirstIndex(s[1..], p)
      case None => None
      case Some(i) => Some(i + 1)
  }

  /** The elements of `s` satisfying `keep`, in order (`Array.prototype.filter`). */
  function Filter<T>(s: seq<T>, keep: T -> bool): seq<T>
  {
    if |s| == 0 then []
    else (if keep(s[0]) then [s[0]] else []) + Filter(s[1..], keep)
  }

  /** The filtered sequence is no longer than `s` and holds exactly the elements of `s`
      that pass the test. */
  lemma {:induction false} FilterSpec<T>(s: seq<T>, keep: T -> bool)
    ensures |Filter(s, keep)| <= |s|
    ensures forall x | x in Filter(s, keep) :: x in s && keep(x)
    ensures forall x | x in s && keep(x) :: x in Filter(s, keep)
  {
    if |s| > 0 {
      FilterSpec(s[1..], keep);
      assert forall x | x in s :: x == s[0] || x in s[1..];
    }
  }

  /** Filtering distributes over concatenation: the kept elements of `a` come
      first, in their order, then those of `b`. */
  lemma {:induction false} FilterAppend<T>(a: seq<T>, b: seq<T>, keep: T -> bool)
    ensures Filter(a + b, keep) == Filter(a, keep) + Filter(b, keep)
  {
    if |a| == 0 {
      assert a + b == b;
    } else {
      assert (a + b)[0] == a[0];
      assert (a + b)[1..] == a[1..] + b;
      FilterAppend(a[1..], b, keep);
      var h := if keep(a[0]) then [a[0]] else [];
      assert Filter(a + b, keep) == h + Filter(a[1..] + b, keep);
      assert Filter(a, keep) == h + Filter(a[1..], keep);
    }
  }

  /** Nothing is dropped when every element is kept. */
  lemma {:induction false} FilterAll<T>(s: seq<T>, keep: T -> bool)
    requires forall x | x in s :: keep(x)
    ensures Filter(s, keep) == s
  {
    if |s| > 0 {
      FilterAll(s[1..], keep);
    }
  }

  /** True when no later pair of `pairs` carries the key of pair `i`. */
  ghost predicate LastWithKey<K, V>(pairs: seq<(K, V)>, i: nat)
    requires i < |pairs|
  {
    forall j | i < j < |pairs| :: pairs[j].0 != pairs[i].0
  }

  /** The object built by `reduce((o, [k, v]) => { o[k] = v; return o }, {})`:
      pairs are assigned left to right, so a later pair overwrites an earlier one. */
  function FromPairs<K, V>(pairs: seq<(K, V)>): map<K, V>
  {
    if |pairs| == 0 then map[]
    else FromPairs(pairs[..|pairs| - 1])[pairs[|pairs| - 1].0 := pairs[|pairs| - 1].1]
  }

  /** The keys the pairs carry. */
  ghost function PairKeys<K, V>(pairs: seq<(K, V)>): set<K>
  {
    set i | 0 <= i < |pairs| :: pairs[i].0
  }

  /** The object has exactly the keys of the pairs. */
  lemma {:induction false} FromPairsKeys<K, V>(pairs: seq<(K, V)>)
    ensures FromPairs(pairs).Keys == PairKeys(pairs)
  {
    if |pairs| > 0 {
      var init := pairs[..|pairs| - 1];
      FromPairsKeys(init);
      forall k | k in PairKeys(pairs) ensures k in FromPairs(pairs) {
        var i :| 0 <= i < |pairs| && pairs[i].0 == k;
        if i < |init| {
          assert init[i] == pairs[i];
          assert k in PairKeys(init);
        }
      }
      forall k | k in FromPairs(pairs) ensures k in PairKeys(pairs) {
        if k in PairKeys(init) {
          var i :| 0 <= i < |init| && init[i].0 == k;
          assert pairs[i] == init[i];
        } else {
          assert pairs[|pairs| - 1].0 == k;
        }
      }
    }
  }

  /** A pair that no later pair overrides gives its key's value. */
  lemma {:induction false} FromPairsValue<K, V>(pairs: seq<(K, V)>, i: nat)
    requires i < |pairs| && LastWithKey(pairs, i)
    ensures pairs[i].0 in FromPairs(pairs)
    ensures FromPairs(pairs)[pairs[i].0] == pairs[i].1
  {
    if i < |pairs| - 1 {
      var init := pairs[..|pairs| - 1];
      assert init[i] == pairs[i];
      assert forall j | i < j < |init| :: init[j] == pairs[j];
      FromPairsValue(init, i);
    }
  }
}
