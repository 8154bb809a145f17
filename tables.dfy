/** Python dicts keyed by integer ids, as the storage uses them: the rows,
    and the keys in insertion order (the order `dict.values()` and
    `dict.items()` iterate in). */
module Tables {
  import opened Wrappers

  datatype Table<T> = Table(order: seq<int>, rows: map<int, T>)

  predicate Distinct(s: seq<int>)
  {
    forall i, j :: 0 <= i < j < |s| ==> s[i] != s[j]
  }

  /** Each key appears once in the order, and the order lists exactly the
      keys that have a row. */
  predicate WellFormed<T>(t: Table<T>)
  {
    && Distinct(t.order)
    && (forall i :: 0 <= i < |t.order| ==> t.order[i] in t.rows)
    && (forall k :: k in t.rows ==> k in t.order)
  }

  function Empty<T>(): (t: Table<T>)
    ensures WellFormed(t) && t.rows == map[]
  {
    Table([], map[])
  }

  /** `d.get(k)`. */
  function Get<T>(t: Table<T>, k: int): Option<T>
  {
    if k in t.rows then Some(t.rows[k]) else None
  }

  /** `list(d.values())`. */
  function Values<T>(t: Table<T>): seq<T>
    requires WellFormed(t)
  {
    seq(|t.order|, i requires 0 <= i < |t.order| => t.rows[t.order[i]])
  }

  /** `d.values()` holds exactly the stored records. */
  lemma ValuesMembers<T>(t: Table<T>)
    requires WellFormed(t)
    ensures forall v :: v in Values(t) <==> exists k :: k in t.rows && t.rows[k] == v
  {
    var vs := Values(t);
    forall v | exists k :: k in t.rows && t.rows[k] == v
      ensures v in vs
    {
      var k :| k in t.rows && t.rows[k] == v;
      assert k in t.order;
      var i :| 0 <= i < |t.order| && t.order[i] == k;
      assert vs[i] == v;
    }
    forall v | v in vs
      ensures exists k :: k in t.rows && t.rows[k] == v
    {
      var i :| 0 <= i < |vs| && vs[i] == v;
      assert t.order[i] in t.rows;
    }
  }

  /** `d[k] = v`: a new key goes to the end, an existing key keeps its
      place. */
  function Put<T>(t: Table<T>, k: int, v: T): Table<T>
  {
    if k in t.rows then Table(t.order, t.rows[k := v]) else Table(t.order + [k], t.rows[k := v])
  }

  /** The order with key `k` taken out, the other keys in their order. */
  function Without(s: seq<int>, k: int): (r: seq<int>)
    ensures forall x :: x in r <==> x in s && x != k
    ensures |r| <= |s|
  {
    if s == [] then []
    else
      var rest := Without(s[..|s| - 1], k);
      assert forall x :: x in s <==> x in s[..|s| - 1] || x == s[|s| - 1];
      if s[|s| - 1] == k then rest else rest + [s[|s| - 1]]
  }

  /** `del d[k]` (and `d.pop(k, None)` when `k` is present). */
  function Remove<T>(t: Table<T>, k: int): Table<T>
  {
    Table(Without(t.order, k), t.rows - {k})
  }

  /** `for k in ks: del d[k]`. */
  function RemoveAll<T>(t: Table<T>, ks: seq<int>): Table<T>
  {
    if ks == [] then t else Remove(RemoveAll(t, ks[..|ks| - 1]), ks[|ks| - 1])
  }

  lemma {:induction false} WithoutDistinct(s: seq<int>, k: int)
    requires Distinct(s)
    ensures Distinct(Without(s, k))
  {
    if s != [] {
      var init := s[..|s| - 1];
      WithoutDistinct(init, k);
      assert s[|s| - 1] !in init;
    }
  }

  /** Storing under a key keeps the table well formed, changes only that
      row, and appends a new key to the iteration order. */
  lemma PutSpec<T>(t: Table<T>, k: int, v: T)
    requires WellFormed(t)
    ensures WellFormed(Put(t, k, v))
    ensures Put(t, k, v).rows == t.rows[k := v]
    ensures k in t.rows ==> Put(t, k, v).order == t.order
    ensures k !in t.rows ==> Values(Put(t, k, v)) == Values(t) + [v]
  {
    if k !in t.rows {
      assert k !in t.order;
    }
  }

  /** Deleting a key keeps the table well formed and drops exactly that
      row. */
  lemma RemoveSpec<T>(t: Table<T>, k: int)
    requires WellFormed(t)
    ensures WellFormed(Remove(t, k))
    ensures Remove(t, k).rows == t.rows - {k}
  {
    WithoutDistinct(t.order, k);
    var r := Without(t.order, k);
    forall i | 0 <= i < |r|
      ensures r[i] in t.rows - {k}
    {
      assert r[i] in r;
      assert r[i] in t.order;
      var j :| 0 <= j < |t.order| && t.order[j] == r[i];
    }
  }

  /** Deleting a list of keys drops exactly the rows under those keys. */
  lemma {:induction false} RemoveAllSpec<T>(t: Table<T>, ks: seq<int>)
    requires WellFormed(t)
    ensures WellFormed(RemoveAll(t, ks))
    ensures RemoveAll(t, ks).rows == map k | k in t.rows && k !in ks :: t.rows[k]
  {
    if ks != [] {
      var init := ks[..|ks| - 1];
      RemoveAllSpec(t, init);
      RemoveSpec(RemoveAll(t, init), ks[|ks| - 1]);
      assert forall x :: x in ks <==> x in init || x == ks[|ks| - 1];
    }
  }

  lemma RemoveAllStep<T>(t: Table<T>, ks: seq<int>, i: nat)
    requires i < |ks|
    ensures RemoveAll(t, ks[..i + 1]) == Remove(RemoveAll(t, ks[..i]), ks[i])
  {
    assert ks[..i + 1][..i] == ks[..i];
  }
}
