/** The browser's `localStorage`: a mutable map from keys to text. */
module Storage {
  import opened Wrappers

  class LocalStorage {
    var items: map<string, string>

    constructor (initial: map<string, string>)
      ensures items == initial
    {
      items := initial;
    }

    /** `localStorage.getItem(key)`: `null` for a missing key. */
    function GetItem(key: string): (r: Option<string>)
      reads this
      ensures r.Some? <==> key in items
      ensures r.Some? ==> r.value == items[key]
    {
      if key in items then Some(items[key]) else None
    }

    /** `localStorage.setItem(key, value)`. */
    method SetItem(key: string, value: string)
      modifies this
      ensures items == old(items)[key := value]
    {
      items := items[key := value];
    }

    /** `localStorage.removeItem(key)`: removing a missing key does nothing. */
    method RemoveItem(key: string)
      modifies this
      ensures items == old(items) - {key}
    {
      items := items - {key};
    }
  }

  /** Characters one entry accounts for in the size estimates: value length plus key length. */
  function EntrySize(key: string, value: string): nat {
    |value| + |key|
  }

  /** The entries of `m` whose keys are in `keys`. */
  function Restrict(m: map<string, string>, keys: set<string>): (r: map<string, string>)
    ensures r.Keys == m.Keys * keys
    ensures forall k :: k in r ==> r[k] == m[k]
  {
    map k | k in m && k in keys :: m[k]
  }

  /** The sum of `EntrySize` over every entry of the store. */
  ghost function TotalSize(m: map<string, string>): nat
    decreases |m|
  {
    if m == map[] then 0
    else
      var k :| k in m;
      EntrySize(k, m[k]) + TotalSize(m - {k})
  }

  /** The sum does not depend on the key the definition happens to pick first. */
  lemma {:induction false} TotalSizeRemove(m: map<string, string>, k: string)
    requires k in m
    ensures TotalSize(m) == EntrySize(k, m[k]) + TotalSize(m - {k})
    decreases |m|
  {
    var j :| j in m && TotalSize(m) == EntrySize(j, m[j]) + TotalSize(m - {j});
    if j != k {
      assert (m - {j}) - {k} == (m - {k}) - {j};
      TotalSizeRemove(m - {j}, k);
      TotalSizeRemove(m - {k}, j);
    }
  }

  /** Every entry's size is part of the total. */
  lemma TotalSizeAtLeast(m: map<string, string>, k: string)
    requires k in m
    ensures EntrySize(k, m[k]) <= TotalSize(m)
  {
    TotalSizeRemove(m, k);
  }

  /** The store's size after one write. */
  lemma TotalSizeUpdate(m: map<string, string>, k: string, v: string)
    ensures TotalSize(m[k := v]) == TotalSize(m - {k}) + EntrySize(k, v)
  {
    TotalSizeRemove(m[k := v], k);
    assert m[k := v] - {k} == m - {k};
  }
}
