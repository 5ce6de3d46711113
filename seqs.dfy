/** Sequence facts the agents' proofs share, and Python's dictionary with
    its insertion order, seen as a list of key-value pairs. */
module Seqs {
  import opened Wrappers

  lemma AppendTwo<T>(s: seq<T>, a: T, b: T)
    ensures s + [a] + [b] == s + [a, b]
  {
  }

  lemma AppendThree<T>(s: seq<T>, a: T, b: T, c: T)
    ensures s + [a] + [b] + [c] == s + [a, b, c]
  {
  }

  lemma AppendAfter<T>(s: seq<T>, t: seq<T>, a: T)
    ensures s + t + [a] == s + (t + [a])
  {
  }

  lemma AppendJoined<T>(s: seq<T>, t: seq<T>, u: seq<T>)
    ensures s + t + u == s + (t + u)
  {
  }

  lemma AppendFour<T>(s: seq<T>, a: T, b: T, c: T, d: T)
    ensures s + [a] + [b] + [c] + [d] == s + [a, b, c, d]
  {
  }

  /** The keys of a dictionary, in insertion order. */
  function Keys<K, V>(d: seq<(K, V)>): (r: seq<K>)
    ensures |r| == |d|
    ensures forall i :: 0 <= i < |d| ==> r[i] == d[i].0
  {
    seq(|d|, i requires 0 <= i < |d| => d[i].0)
  }

  predicate Distinct<K(==)>(xs: seq<K>) {
    forall i, j :: 0 <= i < j < |xs| ==> xs[i] != xs[j]
  }

  /** `d[k] = v`: a key already present keeps its place and takes the new
      value; a new key goes last; every other entry stays where it was. */
  function Put<K(==), V>(d: seq<(K, V)>, k: K, v: V): seq<(K, V)>
    decreases |d|
  {
    if d == [] then [(k, v)]
    else if d[0].0 == k then [(k, v)] + d[1..]
    else [d[0]] + Put(d[1..], k, v)
  }

  /** The keys after an assignment: the same ones, or the new key last. */
  lemma {:induction false} PutKeys<K, V>(d: seq<(K, V)>, k: K, v: V)
    ensures Keys(Put(d, k, v)) == if k in Keys(d) then Keys(d) else Keys(d) + [k]
    decreases |d|
  {
    if d != [] && d[0].0 != k {
      PutKeys(d[1..], k, v);
      var rest := Keys(d[1..]);
      assert Keys(d) == [d[0].0] + rest;
      assert Keys(Put(d, k, v)) == [d[0].0] + Keys(Put(d[1..], k, v));
      assert (k in Keys(d)) == (k in rest);
      if k !in rest {
        assert Keys(d) + [k] == [d[0].0] + (rest + [k]);
      }
    } else if d != [] {
      assert Keys(d) == [k] + Keys(d[1..]);
      assert Keys(Put(d, k, v)) == [k] + Keys(d[1..]);
    }
  }

  /** Entries under other keys keep their places, and the key is bound. */
  lemma {:induction false} PutEntries<K, V>(d: seq<(K, V)>, k: K, v: V)
    ensures |d| <= |Put(d, k, v)|
    ensures forall i :: 0 <= i < |d| && d[i].0 != k ==> Put(d, k, v)[i] == d[i]
    ensures (k, v) in Put(d, k, v)
    decreases |d|
  {
    if d != [] && d[0].0 != k {
      PutEntries(d[1..], k, v);
      var r := Put(d, k, v);
      assert r == [d[0]] + Put(d[1..], k, v);
      forall i | 0 < i < |d| && d[i].0 != k
        ensures r[i] == d[i]
      {
        assert d[i] == d[1..][i - 1];
      }
    } else if d != [] {
      assert Put(d, k, v)[0] == (k, v);
    }
  }

  /** With distinct keys, assignment keeps them distinct and the key is
      bound to the new value alone. */
  lemma PutFacts<K, V>(d: seq<(K, V)>, k: K, v: V)
    requires Distinct(Keys(d))
    ensures var r := Put(d, k, v);
      Distinct(Keys(r)) &&
      (forall i :: 0 <= i < |r| && r[i].0 == k ==> r[i].1 == v)
  {
    PutKeys(d, k, v);
    PutEntries(d, k, v);
    var r := Put(d, k, v);
    if k !in Keys(d) {
      AppendDistinct(Keys(d), k);
    }
    var j :| 0 <= j < |r| && r[j] == (k, v);
    forall i | 0 <= i < |r| && r[i].0 == k
      ensures r[i].1 == v
    {
      assert Keys(r)[i] == Keys(r)[j];
    }
  }

  lemma AppendDistinct<K>(xs: seq<K>, x: K)
    requires Distinct(xs) && x !in xs
    ensures Distinct(xs + [x])
  {
    var ys := xs + [x];
    forall i, j | 0 <= i < j < |ys|
      ensures ys[i] != ys[j]
    {
      if j < |xs| {
        assert ys[i] == xs[i] && ys[j] == xs[j];
      } else {
        assert ys[i] == xs[i];
      }
    }
  }

  lemma TakeNext<T>(s: seq<T>, i: nat)
    requires i < |s|
    ensures s[..i + 1] == s[..i] + [s[i]]
  {
  }

  /** A dictionary filled one key at a time from the first `n` results,
      stopping at the first failed one, as a loop of `d[k] = v` does. */
  function Gather<K(==), V>(keys: seq<K>, results: seq<Result<V>>, n: nat): Result<seq<(K, V)>>
    requires n <= |keys| && n <= |results|
    decreases n
  {
    if n == 0 then Ok([])
    else
      var init := Gather(keys, results, n - 1);
      if init.Err? then init
      else if results[n - 1].Err? then Err(results[n - 1].error)
      else Ok(Put(init.value, keys[n - 1], results[n - 1].value))
  }

  /** A failure among the first results is the failure of the whole fill. */
  lemma {:induction false} GatherStopAtFailure<K, V>(keys: seq<K>, results: seq<Result<V>>, k: nat, n: nat)
    requires k <= n <= |keys| && n <= |results|
    requires Gather(keys, results, k).Err?
    ensures Gather(keys, results, n) == Gather(keys, results, k)
    decreases n
  {
    if k < n {
      GatherStopAtFailure(keys, results, k, n - 1);
    }
  }

  /** The fill completes exactly when each of the first results is a value,
      and then fails on the first failed one. */
  lemma {:induction false} GatherSucceed<K, V>(keys: seq<K>, results: seq<Result<V>>, n: nat)
    requires n <= |keys| && n <= |results|
    ensures Gather(keys, results, n).Ok? <==> forall j :: 0 <= j < n ==> results[j].Ok?
    decreases n
  {
    if n > 0 {
      GatherSucceed(keys, results, n - 1);
    }
  }

  /** A completed fill has each of the first keys once, and nothing else,
      and holds under each key a value some result gave for that key. */
  lemma {:induction false} GatherShape<K, V>(keys: seq<K>, results: seq<Result<V>>, n: nat)
    requires n <= |keys| && n <= |results|
    ensures Gather(keys, results, n).Ok? ==>
      var d := Gather(keys, results, n).value;
      Distinct(Keys(d)) &&
      (forall x :: x in Keys(d) <==> x in keys[..n]) &&
      (forall i :: 0 <= i < |d| ==>
         exists j :: 0 <= j < n && keys[j] == d[i].0 && results[j] == Ok(d[i].1))
    decreases n
  {
    if n > 0 && Gather(keys, results, n).Ok? {
      GatherShape(keys, results, n - 1);
      var d := Gather(keys, results, n - 1).value;
      var k := keys[n - 1];
      var v := results[n - 1].value;
      var r := Put(d, k, v);
      PutFacts(d, k, v);
      PutKeys(d, k, v);
      PutEntries(d, k, v);
      assert keys[..n] == keys[..n - 1] + [k];
      forall i | 0 <= i < |r|
        ensures exists j :: 0 <= j < n && keys[j] == r[i].0 && results[j] == Ok(r[i].1)
      {
        if r[i].0 == k {
          assert results[n - 1] == Ok(r[i].1);
        } else {
          assert Keys(r)[i] != k;
          assert i < |d| && r[i] == d[i];
          var j :| 0 <= j < n - 1 && keys[j] == d[i].0 && results[j] == Ok(d[i].1);
        }
      }
    }
  }

  /** The list comprehension `[x for x in xs if keep(x)]`. */
  function Filter<T>(xs: seq<T>, keep: T -> bool): seq<T> {
    if xs == [] then [] else (if keep(xs[0]) then [xs[0]] else []) + Filter(xs[1..], keep)
  }

  /** Filtering keeps the order: it distributes over concatenation. */
  lemma {:induction false} FilterAppend<T>(a: seq<T>, b: seq<T>, keep: T -> bool)
    ensures Filter(a + b, keep) == Filter(a, keep) + Filter(b, keep)
  {
    if a != [] {
      assert (a + b)[0] == a[0] && (a + b)[1..] == a[1..] + b;
      FilterAppend(a[1..], b, keep);
      var h := if keep(a[0]) then [a[0]] else [];
      assert Filter(a + b, keep) == h + Filter(a[1..] + b, keep);
      assert h + (Filter(a[1..], keep) + Filter(b, keep)) == h + Filter(a[1..], keep) + Filter(b, keep);
    } else {
      assert a + b == b;
    }
  }

  /** Filtering keeps exactly the items that pass, and a list whose items
      all pass is kept whole. */
  lemma {:induction false} FilterMembers<T>(xs: seq<T>, keep: T -> bool)
    ensures forall x :: x in Filter(xs, keep) <==> x in xs && keep(x)
    ensures (forall i :: 0 <= i < |xs| ==> keep(xs[i])) ==> Filter(xs, keep) == xs
  {
    if xs != [] {
      FilterMembers(xs[1..], keep);
      assert xs == [xs[0]] + xs[1..];
    }
  }

  /** `d.get(k)`: the value of the first entry with the key. */
  function Get<K(==), V>(d: seq<(K, V)>, k: K): (r: Option<V>)
    ensures r.None? <==> k !in Keys(d)
    ensures r.Some? ==> (k, r.value) in d
  {
    if d == [] then None
    else if d[0].0 == k then Some(d[0].1)
    else
      assert Keys(d) == [d[0].0] + Keys(d[1..]);
      Get(d[1..], k)
  }

  /** A key not yet present goes last. */
  lemma {:induction false} PutFresh<K, V>(d: seq<(K, V)>, k: K, v: V)
    requires k !in Keys(d)
    ensures Put(d, k, v) == d + [(k, v)]
    decreases |d|
  {
    if d != [] {
      assert Keys(d) == [d[0].0] + Keys(d[1..]);
      PutFresh(d[1..], k, v);
      assert d == [d[0]] + d[1..];
    }
  }

  /** With distinct keys the fill appends one entry per result, in order. */
  lemma {:induction false} GatherDistinct<K, V>(keys: seq<K>, results: seq<Result<V>>, n: nat)
    requires n <= |keys| && n <= |results|
    requires forall i, j :: 0 <= i < j < n ==> keys[i] != keys[j]
    ensures Gather(keys, results, n).Ok? ==>
      |Gather(keys, results, n).value| == n &&
      forall j :: 0 <= j < n ==>
        results[j].Ok? && Gather(keys, results, n).value[j] == (keys[j], results[j].value)
    decreases n
  {
    if n > 0 && Gather(keys, results, n).Ok? {
      GatherDistinct(keys, results, n - 1);
      var d := Gather(keys, results, n - 1).value;
      var k := keys[n - 1];
      assert k !in Keys(d) by {
        forall i | 0 <= i < |d|
          ensures Keys(d)[i] != k
        {
          assert d[i].0 == keys[i];
        }
      }
      PutFresh(d, k, results[n - 1].value);
    }
  }

  /** The image of each element, in order. */
  function Map<T, U>(xs: seq<T>, f: T -> U): (r: seq<U>)
    ensures |r| == |xs| && forall i :: 0 <= i < |xs| ==> r[i] == f(xs[i])
  {
    seq(|xs|, i requires 0 <= i < |xs| => f(xs[i]))
  }

  lemma MapAppend<T, U>(a: seq<T>, b: seq<T>, f: T -> U)
    ensures Map(a + b, f) == Map(a, f) + Map(b, f)
  {
    var whole := Map(a + b, f);
    var parts := Map(a, f) + Map(b, f);
    forall i | 0 <= i < |whole|
      ensures whole[i] == parts[i]
    {
      if i < |a| {
        assert (a + b)[i] == a[i];
      } else {
        assert (a + b)[i] == b[i - |a|];
      }
    }
  }

  /** The items each element gives, in order: a loop that extends a list
      once per element. */
  function FlatMap<T, U>(xs: seq<T>, f: T -> seq<U>): seq<U> {
    if xs == [] then [] else f(xs[0]) + FlatMap(xs[1..], f)
  }

  lemma {:induction false} FlatMapAppend<T, U>(a: seq<T>, b: seq<T>, f: T -> seq<U>)
    ensures FlatMap(a + b, f) == FlatMap(a, f) + FlatMap(b, f)
  {
    if a == [] {
      assert a + b == b;
    } else {
      assert (a + b)[0] == a[0] && (a + b)[1..] == a[1..] + b;
      FlatMapAppend(a[1..], b, f);
      assert FlatMap(a + b, f) == f(a[0]) + FlatMap(a[1..] + b, f);
      assert f(a[0]) + (FlatMap(a[1..], f) + FlatMap(b, f)) == f(a[0]) + FlatMap(a[1..], f) + FlatMap(b, f);
    }
  }

  /** One more element extends the items by its own. */
  lemma FlatMapStep<T, U>(xs: seq<T>, i: nat, f: T -> seq<U>)
    requires i < |xs|
    ensures FlatMap(xs[..i + 1], f) == FlatMap(xs[..i], f) + f(xs[i])
  {
    assert xs[..i + 1] == xs[..i] + [xs[i]];
    FlatMapAppend(xs[..i], [xs[i]], f);
    assert FlatMap([xs[i]], f) == f(xs[i]) + FlatMap([], f);
  }

  /** An item is produced exactly when some element produces it. */
  lemma {:induction false} FlatMapMembers<T, U>(xs: seq<T>, f: T -> seq<U>, y: U)
    ensures y in FlatMap(xs, f) <==> exists i :: 0 <= i < |xs| && y in f(xs[i])
  {
    if xs != [] {
      FlatMapMembers(xs[1..], f, y);
      if y in FlatMap(xs[1..], f) {
        var i :| 0 <= i < |xs[1..]| && y in f(xs[1..][i]);
        assert y in f(xs[i + 1]);
      }
      if exists i :: 0 <= i < |xs| && y in f(xs[i]) {
        var i :| 0 <= i < |xs| && y in f(xs[i]);
        if i > 0 {
          assert xs[1..][i - 1] == xs[i];
        }
      }
    }
  }
}
