/** A dictionary that remembers the order in which its keys were first inserted:
    what a Python `dict` is, and what a table with a primary key read back
    `ORDER BY rowid` is. Overwriting keeps a key's place; removing and inserting
    again moves it to the end. */
module OrderedDict {
  import opened Wrappers

  datatype Raw<K, V> = Raw(order: seq<K>, entries: map<K, V>)

  ghost predicate Distinct<T>(s: seq<T>) {
    forall i, j :: 0 <= i < j < |s| ==> s[i] != s[j]
  }

  ghost predicate WellFormed<K, V>(d: Raw<K, V>) {
    Distinct(d.order) && d.entries.Keys == set k | k in d.order
  }

  type Dict<K, V> = d: Raw<K, V> | WellFormed(d) witness Raw([], map[])

  function Empty<K, V>(): Dict<K, V> {
    Raw([], map[])
  }

  predicate Has<K(==), V>(d: Dict<K, V>, k: K) {
    k in d.entries
  }

  function Get<K(==), V>(d: Dict<K, V>, k: K): Option<V> {
    if k in d.entries then Some(d.entries[k]) else None
  }

  function Put<K(==), V>(d: Dict<K, V>, k: K, v: V): Dict<K, V> {
    if k in d.entries then
      assert (d.entries[k := v]).Keys == d.entries.Keys;
      Raw(d.order, d.entries[k := v])
    else
      assert (set x | x in d.order + [k]) == (set x | x in d.order) + {k};
      Raw(d.order + [k], d.entries[k := v])
  }

  /** The keys without `k`, in the same order. */
  function Without<K(!new, ==)>(s: seq<K>, k: K): (r: seq<K>)
    ensures forall x :: x in r <==> x in s && x != k
    ensures Distinct(s) ==> Distinct(r)
    ensures k !in s ==> r == s
    ensures |r| <= |s|
    ensures Distinct(s) && k in s ==> |r| == |s| - 1
  {
    if s == [] then []
    else
      var r := Without(s[..|s| - 1], k);
      assert s == s[..|s| - 1] + [s[|s| - 1]];
      assert Distinct(s) ==> s[|s| - 1] !in s[..|s| - 1] && s[|s| - 1] !in r;
      if s[|s| - 1] == k then r else r + [s[|s| - 1]]
  }

  function Remove<K(!new, ==), V>(d: Dict<K, V>, k: K): Dict<K, V> {
    Raw(Without(d.order, k), d.entries - {k})
  }

  function Size<K, V>(d: Dict<K, V>): nat {
    |d.order|
  }
}
