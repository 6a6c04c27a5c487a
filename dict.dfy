/**
 * The JavaScript objects the reports use as dictionaries (`acc[key]`,
 * `groupedData[key]`, `map[key]`): an association list in key-insertion
 * order, which is the order `Object.values` and `Object.entries` return for
 * the non-numeric keys used here.
 */
module Dict {
  import opened Wrappers

  datatype Entry<V> = Entry(key: string, val: V)

  /** The keys, in insertion order. */
  function Keys<V>(d: seq<Entry<V>>): (ks: seq<string>)
    ensures |ks| == |d| && forall i :: 0 <= i < |d| ==> ks[i] == d[i].key
  {
    if |d| == 0 then [] else Keys(d[..|d| - 1]) + [d[|d| - 1].key]
  }

  /** No key occurs twice. */
  predicate DistinctKeys<V>(d: seq<Entry<V>>) {
    forall i, j :: 0 <= i < j < |d| ==> d[i].key != d[j].key
  }

  /** The position of `k`, if present. */
  function IndexOf<V>(d: seq<Entry<V>>, k: string): (r: Option<nat>)
    ensures r.Some? ==> r.value < |d| && d[r.value].key == k
    ensures r.None? ==> forall i :: 0 <= i < |d| ==> d[i].key != k
  {
    if |d| == 0 then None
    else if d[|d| - 1].key == k then Some(|d| - 1)
    else IndexOf(d[..|d| - 1], k)
  }

  /** `Object.values(d)`, in insertion order. */
  function Values<V>(d: seq<Entry<V>>): (vs: seq<V>)
    ensures |vs| == |d| && forall i :: 0 <= i < |d| ==> vs[i] == d[i].val
  {
    seq(|d|, i requires 0 <= i < |d| => d[i].val)
  }

  /** `d[k]`, if present. */
  function Get<V>(d: seq<Entry<V>>, k: string): Option<V> {
    match IndexOf(d, k)
    case Some(i) => Some(d[i].val)
    case None => None
  }

  /**
   * `if (!d[k]) d[k] = init; d[k] = f(d[k]);`: the entry for `k` is
   * updated in place, or appended when new.
   */
  function Upsert<V>(d: seq<Entry<V>>, k: string, init: V, f: V -> V): (r: seq<Entry<V>>)
    ensures IndexOf(d, k).None? ==> r == d + [Entry(k, f(init))]
    ensures IndexOf(d, k).Some? ==> r == d[IndexOf(d, k).value := Entry(k, f(d[IndexOf(d, k).value].val))]
  {
    match IndexOf(d, k)
    case Some(i) => d[i := Entry(k, f(d[i].val))]
    case None => d + [Entry(k, f(init))]
  }

  /** Upserting keeps the keys distinct, never drops a key, and only adds `k`. */
  lemma UpsertKeys<V>(d: seq<Entry<V>>, k: string, init: V, f: V -> V)
    requires DistinctKeys(d)
    ensures var r := Upsert(d, k, init, f);
      DistinctKeys(r) && |r| >= |d|
      && (forall i :: 0 <= i < |d| ==> r[i].key == d[i].key)
      && (forall i :: |d| <= i < |r| ==> r[i].key == k)
      && Get(r, k) == Some(f(Get(d, k).GetOr(init)))
  {
    var r := Upsert(d, k, init, f);
    match IndexOf(d, k)
    case Some(i) =>
      assert IndexOf(r, k) == Some(i) by { UniqueIndex(r, k, i); }
    case None =>
      assert r[|r| - 1].key == k;
  }

  /** Changing or adding an entry under another key leaves a key's lookup alone. */
  lemma {:induction false} IndexOfOther<V>(d: seq<Entry<V>>, i: nat, e: Entry<V>, k: string)
    requires i < |d| && d[i].key != k && e.key != k
    ensures IndexOf(d[i := e], k) == IndexOf(d, k)
  {
    if i < |d| - 1 {
      assert d[i := e][..|d| - 1] == d[..|d| - 1][i := e];
      IndexOfOther(d[..|d| - 1], i, e, k);
    } else {
      assert d[i := e][..|d| - 1] == d[..|d| - 1];
    }
  }

  /** An upsert under one key leaves the value found under any other key unchanged. */
  lemma GetUpsertOther<V>(d: seq<Entry<V>>, k: string, init: V, f: V -> V, other: string)
    requires other != k
    ensures Get(Upsert(d, k, init, f), other) == Get(d, other)
  {
    match IndexOf(d, k)
    case Some(i) =>
      IndexOfOther(d, i, Entry(k, f(d[i].val)), other);
    case None =>
      assert (d + [Entry(k, f(init))])[..|d|] == d;
  }

  /** Replacing the entry found for a key by another entry under that key keeps it the one found. */
  lemma {:induction false} IndexOfSame<V>(d: seq<Entry<V>>, i: nat, e: Entry<V>, k: string)
    requires IndexOf(d, k) == Some(i) && e.key == k
    ensures IndexOf(d[i := e], k) == Some(i)
  {
    if i < |d| - 1 {
      assert d[i := e][..|d| - 1] == d[..|d| - 1][i := e];
      IndexOfSame(d[..|d| - 1], i, e, k);
    }
  }

  /** After an upsert, the key holds `f` of what it held before (or of `init`). */
  lemma GetUpsertSame<V>(d: seq<Entry<V>>, k: string, init: V, f: V -> V)
    ensures Get(Upsert(d, k, init, f), k) == Some(f(Get(d, k).GetOr(init)))
  {
    match IndexOf(d, k)
    case Some(i) =>
      IndexOfSame(d, i, Entry(k, f(d[i].val)), k);
    case None =>
  }

  /** In a dictionary with distinct keys, the entry at `i` is the one found for its key. */
  lemma UniqueIndex<V>(d: seq<Entry<V>>, k: string, i: nat)
    requires DistinctKeys(d) && i < |d| && d[i].key == k
    ensures IndexOf(d, k) == Some(i)
  {
  }

  /** The sum of an integer weight over the values. */
  function TotalInt<V>(d: seq<Entry<V>>, w: V -> int): int {
    if |d| == 0 then 0 else TotalInt(d[..|d| - 1], w) + w(d[|d| - 1].val)
  }

  /** The sum of a real weight over the values. */
  function TotalReal<V>(d: seq<Entry<V>>, w: V -> real): real {
    if |d| == 0 then 0.0 else TotalReal(d[..|d| - 1], w) + w(d[|d| - 1].val)
  }

  lemma {:induction false} TotalIntUpdate<V>(d: seq<Entry<V>>, i: nat, e: Entry<V>, w: V -> int)
    requires i < |d|
    ensures TotalInt(d[i := e], w) == TotalInt(d, w) - w(d[i].val) + w(e.val)
  {
    if i < |d| - 1 {
      assert d[i := e][..|d| - 1] == d[..|d| - 1][i := e];
      TotalIntUpdate(d[..|d| - 1], i, e, w);
    } else {
      assert d[i := e][..|d| - 1] == d[..|d| - 1];
    }
  }

  lemma {:induction false} TotalRealUpdate<V>(d: seq<Entry<V>>, i: nat, e: Entry<V>, w: V -> real)
    requires i < |d|
    ensures TotalReal(d[i := e], w) == TotalReal(d, w) - w(d[i].val) + w(e.val)
  {
    if i < |d| - 1 {
      assert d[i := e][..|d| - 1] == d[..|d| - 1][i := e];
      TotalRealUpdate(d[..|d| - 1], i, e, w);
    } else {
      assert d[i := e][..|d| - 1] == d[..|d| - 1];
    }
  }

  /** An upsert changes an integer total by what `f` adds to the entry (starting from a weightless `init`). */
  lemma UpsertTotalInt<V>(d: seq<Entry<V>>, k: string, init: V, f: V -> int, g: V -> V)
    requires f(init) == 0
    ensures TotalInt(Upsert(d, k, init, g), f)
         == TotalInt(d, f) - f(Get(d, k).GetOr(init)) + f(g(Get(d, k).GetOr(init)))
  {
    match IndexOf(d, k)
    case Some(i) =>
      TotalIntUpdate(d, i, Entry(k, g(d[i].val)), f);
    case None =>
      assert (d + [Entry(k, g(init))])[..|d|] == d;
  }

  /** An upsert changes a real total by what `f` adds to the entry (starting from a weightless `init`). */
  lemma UpsertTotalReal<V>(d: seq<Entry<V>>, k: string, init: V, f: V -> real, g: V -> V)
    requires f(init) == 0.0
    ensures TotalReal(Upsert(d, k, init, g), f)
         == TotalReal(d, f) - f(Get(d, k).GetOr(init)) + f(g(Get(d, k).GetOr(init)))
  {
    match IndexOf(d, k)
    case Some(i) =>
      TotalRealUpdate(d, i, Entry(k, g(d[i].val)), f);
    case None =>
      assert (d + [Entry(k, g(init))])[..|d|] == d;
  }

  /** A property every value has, and the updated value has, holds of every value after an upsert. */
  lemma UpsertPreserves<V>(d: seq<Entry<V>>, k: string, init: V, f: V -> V, p: V -> bool)
    requires forall i :: 0 <= i < |d| ==> p(d[i].val)
    requires p(f(Get(d, k).GetOr(init)))
    ensures forall i :: 0 <= i < |Upsert(d, k, init, f)| ==> p(Upsert(d, k, init, f)[i].val)
  {
  }

  /** A property of every entry, which the updated entry also has, holds of every entry after an upsert. */
  lemma UpsertPreservesEntries<V>(d: seq<Entry<V>>, k: string, init: V, f: V -> V, p: Entry<V> -> bool)
    requires forall i :: 0 <= i < |d| ==> p(d[i])
    requires p(Entry(k, f(Get(d, k).GetOr(init))))
    ensures forall i :: 0 <= i < |Upsert(d, k, init, f)| ==> p(Upsert(d, k, init, f)[i])
  {
  }

  /** The values of the first entries are the first values. */
  lemma ValuesPrefix<V>(d: seq<Entry<V>>, n: nat)
    requires n <= |d|
    ensures Values(d[..n]) == Values(d)[..n]
  {
  }

  /** What holds of every entry holds of the value found under a key. */
  lemma GetHolds<V>(d: seq<Entry<V>>, k: string, p: Entry<V> -> bool)
    requires forall i :: 0 <= i < |d| ==> p(d[i])
    ensures Get(d, k).Some? ==> p(Entry(k, Get(d, k).value))
  {
    match IndexOf(d, k)
    case Some(i) =>
      assert d[i] == Entry(k, Get(d, k).value);
    case None =>
  }
}
