/** Python dictionaries, which remember the order in which keys were first inserted,
    as association lists. Counters (`d[k] = d.get(k, 0) + 1`) are dictionaries to `nat`. */
module OrderedDict {
  import opened Wrappers

  type Dict<K, V> = seq<(K, V)>

  /** The index of the first `a` in `xs`, or `|xs|` when there is none. */
  function FirstIndex<T(==)>(xs: seq<T>, a: T): (p: nat)
    ensures p <= |xs|
    ensures p < |xs| <==> a in xs
    ensures p < |xs| ==> xs[p] == a
    ensures forall i :: 0 <= i < p ==> xs[i] != a
  {
    if xs == [] then 0
    else if xs[0] == a then 0
    else 1 + FirstIndex(xs[1..], a)
  }

  /** `list(d.keys())`. */
  function Keys<K, V>(d: Dict<K, V>): (ks: seq<K>)
    ensures |ks| == |d|
    ensures forall i :: 0 <= i < |d| ==> ks[i] == d[i].0
  {
    seq(|d|, i requires 0 <= i < |d| => d[i].0)
  }

  /** No key appears twice, as in every Python dict. */
  predicate DistinctKeys<K(==), V>(d: Dict<K, V>) {
    forall i, j :: 0 <= i < j < |d| ==> d[i].0 != d[j].0
  }

  /** Where key `k` sits in `d`, or `|d|` when it is absent. */
  function Pos<K(==), V>(d: Dict<K, V>, k: K): nat {
    FirstIndex(Keys(d), k)
  }

  /** `d.get(k)`. */
  function Get<K(==), V>(d: Dict<K, V>, k: K): (r: Option<V>)
    ensures r.None? <==> k !in Keys(d)
  {
    var p := Pos(d, k);
    if p < |d| then Some(d[p].1) else None
  }

  /** In a dict without repeated keys, the entry at index `i` is found at `i`. */
  lemma PosOfEntry<K, V>(d: Dict<K, V>, i: nat)
    requires DistinctKeys(d) && i < |d|
    ensures Pos(d, d[i].0) == i && Get(d, d[i].0) == Some(d[i].1)
  {
    assert Keys(d)[i] == d[i].0;
  }

  /** `d[k] = v`: an existing key keeps its place, a new key goes last. */
  function Put<K(==,!new), V>(d: Dict<K, V>, k: K, v: V): (r: Dict<K, V>)
    ensures Get(r, k) == Some(v)
    ensures forall k' :: k' != k ==> Get(r, k') == Get(d, k')
    ensures k in Keys(d) ==> Keys(r) == Keys(d)
    ensures k !in Keys(d) ==> Keys(r) == Keys(d) + [k]
    ensures DistinctKeys(d) ==> DistinctKeys(r)
  {
    var p := Pos(d, k);
    if p < |d| then
      var r := d[p := (k, v)];
      assert Keys(r) == Keys(d);
      r
    else
      var r := d + [(k, v)];
      assert Keys(r) == Keys(d) + [k];
      assert forall k' :: k' != k ==> Get(r, k') == Get(d, k') by {
        forall k' | k' != k ensures Get(r, k') == Get(d, k') {
          FirstIndexAppend(Keys(d), k, k');
        }
      }
      r
  }

  lemma FirstIndexAppend<T>(xs: seq<T>, y: T, a: T)
    ensures a in xs ==> FirstIndex(xs + [y], a) == FirstIndex(xs, a)
    ensures a !in xs && a == y ==> FirstIndex(xs + [y], a) == |xs|
    ensures a !in xs && a != y ==> FirstIndex(xs + [y], a) == |xs| + 1
  {
    var p, q := FirstIndex(xs + [y], a), FirstIndex(xs, a);
    if a in xs {
      assert (xs + [y])[q] == a;
    } else if a == y {
      assert (xs + [y])[|xs|] == a;
    } else {
      assert a !in xs + [y];
    }
  }

  // ---------- counters ----------

  /** `d.get(k, 0)`. */
  function Count<K(==)>(d: Dict<K, nat>, k: K): nat {
    match Get(d, k)
    case Some(n) => n
    case None => 0
  }

  /** The sum of the values of `d`. */
  function Total<K>(d: Dict<K, nat>): nat {
    if d == [] then 0 else d[0].1 + Total(d[1..])
  }

  lemma {:induction false} TotalUpdate<K>(d: Dict<K, nat>, p: nat, e: (K, nat))
    requires p < |d|
    ensures Total(d[p := e]) == Total(d) - d[p].1 + e.1
    decreases p
  {
    if p > 0 {
      TotalUpdate(d[1..], p - 1, e);
      assert d[p := e][1..] == d[1..][p - 1 := e];
    }
  }

  lemma {:induction false} TotalAppend<K>(d: Dict<K, nat>, e: (K, nat))
    ensures Total(d + [e]) == Total(d) + e.1
  {
    if d != [] {
      TotalAppend(d[1..], e);
      assert (d + [e])[1..] == d[1..] + [e];
    }
  }

  /** `d[k] = d.get(k, 0) + 1`. */
  function Bump<K(==,!new)>(d: Dict<K, nat>, k: K): (r: Dict<K, nat>)
    ensures Count(r, k) == Count(d, k) + 1
    ensures forall k' :: k' != k ==> Count(r, k') == Count(d, k')
    ensures Total(r) == Total(d) + 1
    ensures k in Keys(d) ==> Keys(r) == Keys(d)
    ensures k !in Keys(d) ==> Keys(r) == Keys(d) + [k]
    ensures DistinctKeys(d) ==> DistinctKeys(r)
  {
    var p, r := Pos(d, k), Put(d, k, Count(d, k) + 1);
    assert forall k' :: k' != k ==> Get(r, k') == Get(d, k');
    if p < |d| then
      TotalUpdate(d, p, (k, Count(d, k) + 1));
      r
    else
      TotalAppend(d, (k, 1));
      r
  }

  /** The counter that `for w in ws: d[w] = d.get(w, 0) + 1` builds from `{}`: one key
      per distinct element, each counting that element's occurrences, summing to |ws|. */
  function Tally<K(==,!new)>(ws: seq<K>): (d: Dict<K, nat>)
    ensures DistinctKeys(d)
    ensures forall k :: Count(d, k) == multiset(ws)[k]
    ensures forall k :: k in Keys(d) <==> k in ws
    ensures Total(d) == |ws|
  {
    if ws == [] then []
    else
      var init, w := ws[..|ws| - 1], ws[|ws| - 1];
      assert ws == init + [w];
      Bump(Tally(init), w)
  }

  /** Keys of a tally come in the order of their first occurrence in `ws`. */
  lemma {:induction false} TallyOrder<K(!new)>(ws: seq<K>, a: K, b: K)
    requires a in ws && b in ws
    ensures Pos(Tally(ws), a) < Pos(Tally(ws), b) <==> FirstIndex(ws, a) < FirstIndex(ws, b)
    decreases |ws|
  {
    var init, w := ws[..|ws| - 1], ws[|ws| - 1];
    assert ws == init + [w];
    FirstIndexAppend(init, w, a);
    FirstIndexAppend(init, w, b);
    if a in init && b in init {
      TallyOrder(init, a, b);
      TallyPosKept(init, w, a);
      TallyPosKept(init, w, b);
    } else if a in init {
      TallyPosKept(init, w, a);
      TallyPosNew(init, w);
    } else if b in init {
      TallyPosKept(init, w, b);
      TallyPosNew(init, w);
    }
  }

  /** A key already counted keeps its place when one more element is counted. */
  lemma TallyPosKept<K(!new)>(init: seq<K>, w: K, a: K)
    requires a in init
    ensures Pos(Tally(init + [w]), a) == Pos(Tally(init), a) < |Tally(init)|
  {
    assert (init + [w])[..|init|] == init;
    FirstIndexAppend(Keys(Tally(init)), w, a);
  }

  /** A key first seen in the last element goes last. */
  lemma TallyPosNew<K(!new)>(init: seq<K>, w: K)
    requires w !in init
    ensures Pos(Tally(init + [w]), w) == |Tally(init)|
  {
    var t := Tally(init);
    assert (init + [w])[..|init|] == init;
    assert Tally(init + [w]) == Bump(t, w);
    assert Keys(Bump(t, w)) == Keys(t) + [w];
    FirstIndexAppend(Keys(t), w, w);
  }
}
