/** A Python `dict` with string keys: an association list kept in insertion
    order, where assigning to a key that is already present overwrites its
    value in place and assigning to a new key appends it. */
module Dict {
  import opened Common

  type Dict<V> = seq<(string, V)>

  /** `k in d`. */
  predicate HasKey<V>(d: Dict<V>, k: string) {
    exists i :: 0 <= i < |d| && d[i].0 == k
  }

  /** The position of the first entry with key `k`. */
  function IndexOf<V>(d: Dict<V>, k: string): (i: nat)
    requires HasKey(d, k)
    ensures i < |d| && d[i].0 == k
    ensures forall j :: 0 <= j < i ==> d[j].0 != k
  {
    if d[0].0 == k then 0
    else
      assert HasKey(d[1..], k) by {
        var i :| 0 <= i < |d| && d[i].0 == k;
        assert d[1..][i - 1].0 == k;
      }
      IndexOf(d[1..], k) + 1
  }

  /** `d.get(k)`: the value stored under `k`, if any. */
  function Get<V>(d: Dict<V>, k: string): (r: Option<V>)
    ensures r.None? <==> !HasKey(d, k)
    ensures r.Some? ==> (k, r.value) in d
  {
    if HasKey(d, k) then Some(d[IndexOf(d, k)].1) else None
  }

  /** `d[k] = v`: an existing key is overwritten where it stands, a new key
      goes last. */
  function Put<V>(d: Dict<V>, k: string, v: V): (r: Dict<V>)
    ensures HasKey(d, k) ==> r == d[IndexOf(d, k) := (k, v)]
    ensures !HasKey(d, k) ==> r == d + [(k, v)]
  {
    if HasKey(d, k) then d[IndexOf(d, k) := (k, v)] else d + [(k, v)]
  }

  /** Assigning to a key the dict does not have appends it. */
  lemma PutNew<V>(d: Dict<V>, k: string, v: V)
    requires forall j :: 0 <= j < |d| ==> d[j].0 != k
    ensures Put(d, k, v) == d + [(k, v)]
  {
  }

  /** Assigning to the key of entry `i`, its first occurrence, rewrites that
      entry. */
  lemma PutExisting<V>(d: Dict<V>, i: nat, k: string, v: V)
    requires i < |d| && d[i].0 == k
    requires forall j :: 0 <= j < i ==> d[j].0 != k
    ensures Put(d, k, v) == d[i := (k, v)]
  {
  }

  /** After `d[k] = v`, `k` holds `v`, every other key keeps its value, and
      the keys are those of `d` plus `k`. */
  lemma GetPut<V>(d: Dict<V>, k: string, v: V)
    ensures Get(Put(d, k, v), k) == Some(v)
    ensures forall j :: j != k ==> Get(Put(d, k, v), j) == Get(d, j)
    ensures forall j :: HasKey(Put(d, k, v), j) <==> HasKey(d, j) || j == k
  {
    var r := Put(d, k, v);
    var at := if HasKey(d, k) then IndexOf(d, k) else |d|;
    assert r[at] == (k, v);
    assert forall j :: 0 <= j < at ==> r[j] == d[j];
    assert HasKey(r, k);
    assert IndexOf(r, k) == at;
    forall j | j != k && HasKey(d, j)
      ensures HasKey(r, j) && IndexOf(r, j) == IndexOf(d, j)
    {
      var i := IndexOf(d, j);
      assert r[i] == d[i];
      var i' := IndexOf(r, j);
      assert i' < |d|;
      assert r[i'] == d[i'];
    }
    forall j | j != k && HasKey(r, j)
      ensures HasKey(d, j)
    {
      var i' := IndexOf(r, j);
      assert d[i'].0 == j;
    }
  }
}
