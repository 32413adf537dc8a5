/** Python's dict as the decoders use it: a sequence of (key, value) pairs in
    insertion order, where assigning to a key that is already present replaces its
    value in place and assigning to a new key appends it. */
module OrderedDict {

  type Dict<V> = seq<(string, V)>

  function Keys<V>(d: Dict<V>): (ks: seq<string>)
    ensures |ks| == |d|
    ensures forall i :: 0 <= i < |d| ==> ks[i] == d[i].0
  {
    seq(|d|, i requires 0 <= i < |d| => d[i].0)
  }

  predicate Distinct(ks: seq<string>)
  {
    forall i, j :: 0 <= i < j < |ks| ==> ks[i] != ks[j]
  }

  /** The position of the first occurrence of `k`. */
  function IndexOf(ks: seq<string>, k: string): (i: nat)
    requires k in ks
    ensures i < |ks| && ks[i] == k
    ensures forall j :: 0 <= j < i ==> ks[j] != k
  {
    if ks[0] == k then 0 else 1 + IndexOf(ks[1..], k)
  }

  /** `d[k] = v`. */
  function Put<V>(d: Dict<V>, k: string, v: V): Dict<V>
    decreases |d|
  {
    if |d| == 0 then [(k, v)]
    else if d[0].0 == k then [(k, v)] + d[1..]
    else [d[0]] + Put(d[1..], k, v)
  }

  /** Assigning a new key appends it. */
  lemma {:induction false} PutAbsent<V>(d: Dict<V>, k: string, v: V)
    requires k !in Keys(d)
    ensures Put(d, k, v) == d + [(k, v)]
    decreases |d|
  {
    if |d| > 0 {
      var rest := d[1..];
      assert Keys(d)[0] == d[0].0;
      assert Keys(rest) == Keys(d)[1..];
      PutAbsent(rest, k, v);
      assert [d[0]] + (rest + [(k, v)]) == d + [(k, v)];
    }
  }

  /** Assigning a present key replaces its first entry where it stands. */
  lemma {:induction false} PutPresent<V>(d: Dict<V>, k: string, v: V)
    requires k in Keys(d)
    ensures Put(d, k, v) == d[IndexOf(Keys(d), k) := (k, v)]
    decreases |d|
  {
    var rest := d[1..];
    assert Keys(d)[0] == d[0].0;
    if d[0].0 == k {
      assert IndexOf(Keys(d), k) == 0;
      assert [(k, v)] + rest == d[0 := (k, v)];
    } else {
      assert Keys(rest) == Keys(d)[1..];
      var j := IndexOf(Keys(rest), k);
      assert IndexOf(Keys(d), k) == 1 + j;
      PutPresent(rest, k, v);
      assert [d[0]] + rest[j := (k, v)] == d[1 + j := (k, v)];
    }
  }

  /** Assignment replaces the entry of a present key where it stands and appends a new key. */
  lemma PutSpec<V>(d: Dict<V>, k: string, v: V)
    ensures Put(d, k, v) ==
            if k in Keys(d) then d[IndexOf(Keys(d), k) := (k, v)] else d + [(k, v)]
  {
    if k in Keys(d) {
      PutPresent(d, k, v);
    } else {
      PutAbsent(d, k, v);
    }
  }

  /** The keys after `d[k] = v`: unchanged when `k` was present, `k` appended otherwise. */
  lemma PutKeys<V>(d: Dict<V>, k: string, v: V)
    ensures Keys(Put(d, k, v)) == if k in Keys(d) then Keys(d) else Keys(d) + [k]
  {
    PutSpec(d, k, v);
  }

  /** Assigns the entries of `es` one after another, from first to last. */
  function PutAll<V>(d: Dict<V>, es: seq<(string, V)>): Dict<V>
    decreases |es|
  {
    if |es| == 0 then d
    else
      var last := es[|es| - 1];
      Put(PutAll(d, es[..|es| - 1]), last.0, last.1)
  }

  /** The result of one more assignment, for the loop that performs them. */
  lemma PutAllStep<V>(d: Dict<V>, es: seq<(string, V)>, i: nat)
    requires i < |es|
    ensures PutAll(d, es[..i + 1]) == Put(PutAll(d, es[..i]), es[i].0, es[i].1)
  {
    assert es[..i + 1][..i] == es[..i];
  }

  /** Assigning one more entry after a sequence of them. */
  lemma PutAllSnoc<V>(d: Dict<V>, es: seq<(string, V)>, e: (string, V))
    ensures PutAll(d, es + [e]) == Put(PutAll(d, es), e.0, e.1)
  {
    assert (es + [e])[..|es|] == es;
  }

  /** A key is present afterwards exactly when it was present before or is assigned. */
  lemma {:induction false} PutAllKeys<V>(d: Dict<V>, es: seq<(string, V)>, k: string)
    ensures k in Keys(PutAll(d, es)) <==> k in Keys(d) || k in Keys(es)
    decreases |es|
  {
    if |es| > 0 {
      var init := es[..|es| - 1];
      PutAllKeys(d, init, k);
      PutKeys(PutAll(d, init), es[|es| - 1].0, es[|es| - 1].1);
      assert Keys(es) == Keys(init) + [es[|es| - 1].0];
    }
  }

  /** Keys stay distinct under assignment: a dict never repeats a key. */
  lemma {:induction false} PutAllDistinct<V>(d: Dict<V>, es: seq<(string, V)>)
    requires Distinct(Keys(d))
    ensures Distinct(Keys(PutAll(d, es)))
    decreases |es|
  {
    if |es| > 0 {
      var init := es[..|es| - 1];
      PutAllDistinct(d, init);
      PutKeys(PutAll(d, init), es[|es| - 1].0, es[|es| - 1].1);
    }
  }

  lemma DistinctPrefix(ks: seq<string>, n: nat)
    requires Distinct(ks) && n <= |ks|
    ensures Distinct(ks[..n])
  {
    assert forall i :: 0 <= i < n ==> ks[..n][i] == ks[i];
  }

  /** When no assigned key repeats or was present, the entries are appended in order. */
  lemma {:induction false} PutAllFresh<V>(d: Dict<V>, es: seq<(string, V)>)
    requires Distinct(Keys(d) + Keys(es))
    ensures PutAll(d, es) == d + es
    decreases |es|
  {
    if |es| > 0 {
      var init := es[..|es| - 1];
      var last := es[|es| - 1];
      assert Keys(es) == Keys(init) + [last.0];
      assert Keys(d) + Keys(es) == (Keys(d) + Keys(init)) + [last.0];
      var all := Keys(d) + Keys(es);
      var n := |d| + |init|;
      assert Keys(d) + Keys(init) == all[..n];
      DistinctPrefix(all, n);
      PutAllFresh(d, init);
      assert Keys(d + init) == all[..n];
      assert all[n] == last.0;
      assert forall i :: 0 <= i < n ==> all[i] != all[n];
      assert last.0 !in Keys(d + init);
      PutSpec(d + init, last.0, last.1);
      assert (d + init) + [last] == d + es;
    }
  }
}
