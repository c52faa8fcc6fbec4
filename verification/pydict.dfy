/**
 * A Python `dict` whose iteration order matters: its entries in insertion
 * order. Assigning to a present key keeps its place; `del` removes it; a
 * key added after a `del` goes to the end. The tool catalog of a connection
 * manager is such a dict: "the first server whose list has the tool" and
 * the order of the tool list sent to the model both follow this order.
 */
module PyDict {

  type Dict<V> = seq<(string, V)>

  function Keys<V>(d: Dict<V>): (ks: seq<string>)
    ensures |ks| == |d|
    ensures forall i :: 0 <= i < |d| ==> ks[i] == d[i].0
  {
    seq(|d|, i requires 0 <= i < |d| => d[i].0)
  }

  function Values<V>(d: Dict<V>): (vs: seq<V>)
    ensures |vs| == |d|
    ensures forall i :: 0 <= i < |d| ==> vs[i] == d[i].1
  {
    seq(|d|, i requires 0 <= i < |d| => d[i].1)
  }

  /** Keys are distinct, as in every Python dict. */
  predicate Valid<V>(d: Dict<V>)
  {
    forall i, j :: 0 <= i < j < |d| ==> d[i].0 != d[j].0
  }

  /** `k in d` */
  predicate Has<V>(d: Dict<V>, k: string)
  {
    exists i :: 0 <= i < |d| && d[i].0 == k
  }

  /** The position of `k`: the first entry with that key. */
  function IndexOf<V>(d: Dict<V>, k: string): (i: nat)
    requires Has(d, k)
    ensures i < |d| && d[i].0 == k
    ensures forall j :: 0 <= j < i ==> d[j].0 != k
    decreases |d|
  {
    if d[0].0 == k then 0
    else
      assert Has(d[1..], k) by {
        var j :| 0 <= j < |d| && d[j].0 == k;
        assert d[1..][j - 1].0 == k;
      }
      1 + IndexOf(d[1..], k)
  }

  /** In a valid dict the position of a key is the only one holding it. */
  lemma IndexOfUnique<V>(d: Dict<V>, j: nat)
    requires Valid(d) && j < |d|
    ensures Has(d, d[j].0) && IndexOf(d, d[j].0) == j
  {
  }

  /** `d[k]` */
  function Get<V>(d: Dict<V>, k: string): V
    requires Has(d, k)
  {
    d[IndexOf(d, k)].1
  }

  /** `d[k] = v` */
  function Put<V>(d: Dict<V>, k: string, v: V): Dict<V>
  {
    if Has(d, k) then d[IndexOf(d, k) := (k, v)] else d + [(k, v)]
  }

  /** Assigning the key at position `i`, when no earlier entry holds it, replaces that entry in place. */
  lemma PutAt<V>(d: Dict<V>, i: nat, v: V)
    requires i < |d| && forall j :: 0 <= j < i ==> d[j].0 != d[i].0
    ensures Put(d, d[i].0, v) == d[i := (d[i].0, v)]
  {
    assert Has(d, d[i].0);
  }

  /** Replacing the value at a position keeps the keys; the key there now gives the new value and the other entries stay. */
  lemma ReplaceAt<V>(d: Dict<V>, i: nat, v: V)
    requires Valid(d) && i < |d|
    ensures var r := d[i := (d[i].0, v)];
      && Valid(r) && Keys(r) == Keys(d)
      && Has(r, d[i].0) && Get(r, d[i].0) == v
      && Has(d, d[i].0) && Get(d, d[i].0) == d[i].1
      && (forall j :: 0 <= j < |r| && r[j].0 != d[i].0 ==> r[j] == d[j])
  {
    var r := d[i := (d[i].0, v)];
    assert Keys(r) == Keys(d);
    IndexOfUnique(r, i);
    IndexOfUnique(d, i);
  }

  /** `del d[k]` when `k` is present; no change otherwise. */
  function Del<V>(d: Dict<V>, k: string): Dict<V>
  {
    if Has(d, k) then var i := IndexOf(d, k); d[..i] + d[i + 1..] else d
  }

  /** Assignment keeps a present key in place and appends a new one; no other entry changes. */
  lemma PutSpec<V>(d: Dict<V>, k: string, v: V)
    requires Valid(d)
    ensures var r := Put(d, k, v);
      && Valid(r)
      && Keys(r) == (if Has(d, k) then Keys(d) else Keys(d) + [k])
      && Has(r, k) && Get(r, k) == v
      && (forall x :: x != k ==> (Has(r, x) <==> Has(d, x)))
      && (forall x :: x != k && Has(d, x) ==> Get(r, x) == Get(d, x))
  {
    var r := Put(d, k, v);
    if Has(d, k) {
      var i := IndexOf(d, k);
      assert forall j :: 0 <= j < |r| ==> r[j].0 == d[j].0;
      assert Keys(r) == Keys(d);
      IndexOfUnique(r, i);
      forall x | x != k && Has(d, x) ensures Has(r, x) && Get(r, x) == Get(d, x) {
        var j := IndexOf(d, x);
        IndexOfUnique(r, j);
      }
    } else {
      assert Keys(r) == Keys(d) + [k];
      IndexOfUnique(r, |d|);
      forall x | x != k && Has(d, x) ensures Has(r, x) && Get(r, x) == Get(d, x) {
        var j := IndexOf(d, x);
        IndexOfUnique(r, j);
      }
    }
  }

  /** `del` removes exactly the key, keeping the others and their order. */
  lemma DelSpec<V>(d: Dict<V>, k: string)
    requires Valid(d)
    ensures var r := Del(d, k);
      && Valid(r)
      && !Has(r, k)
      && (!Has(d, k) ==> r == d)
      && (forall x :: x != k ==> (Has(r, x) <==> Has(d, x)))
      && (forall x :: x != k && Has(d, x) ==> Get(r, x) == Get(d, x))
  {
    var r := Del(d, k);
    if Has(d, k) {
      var i := IndexOf(d, k);
      assert forall j :: 0 <= j < |r| ==> r[j] == (if j < i then d[j] else d[j + 1]);
      forall x | x != k && Has(d, x) ensures Has(r, x) && Get(r, x) == Get(d, x) {
        var j := IndexOf(d, x);
        var j' := if j < i then j else j - 1;
        assert r[j'] == d[j];
        IndexOfUnique(r, j');
      }
      forall x | x != k && Has(r, x) ensures Has(d, x) {
        var j := IndexOf(r, x);
        assert r[j] == (if j < i then d[j] else d[j + 1]);
      }
    }
  }

  /** The dict as a plain map, forgetting the order. */
  function ToMap<V>(d: Dict<V>): (m: map<string, V>)
    ensures forall x :: x in m <==> Has(d, x)
    ensures forall x :: x in m ==> m[x] == Get(d, x)
  {
    map x | x in Keys(d) :: Get(d, x)
  }
}
