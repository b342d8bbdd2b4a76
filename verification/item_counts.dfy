/**
 * A plain JavaScript object from item ids to numbers, `{ [itemId]: number }`,
 * as the sales code uses it: keys in insertion order, reading a missing key
 * as 0 (`obj[id] || 0`), and assignment replacing a value in place or adding
 * the key at the end.
 */
module ItemCounts {

  datatype Count = Count(id: string, n: int)

  /** The position of key `id`, or -1. */
  function KeyIndex(c: seq<Count>, id: string): (r: int)
    ensures -1 <= r < |c|
    ensures r >= 0 ==> c[r].id == id && forall j :: 0 <= j < r ==> c[j].id != id
    ensures r == -1 <==> forall j :: 0 <= j < |c| ==> c[j].id != id
  {
    if c == [] then -1
    else if c[0].id == id then 0
    else
      var k := KeyIndex(c[1..], id);
      assert forall j :: 1 <= j < |c| ==> c[j] == c[1..][j - 1];
      if k < 0 then -1 else k + 1
  }

  /** An object has each key once. */
  predicate DistinctKeys(c: seq<Count>) {
    forall i, j :: 0 <= i < j < |c| ==> c[i].id != c[j].id
  }

  /** `c[id] || 0`. */
  function Get(c: seq<Count>, id: string): int {
    var i := KeyIndex(c, id);
    if i < 0 then 0 else c[i].n
  }

  /** `c[id] = v`. */
  function Put(c: seq<Count>, id: string, v: int): seq<Count> {
    var i := KeyIndex(c, id);
    if i < 0 then c + [Count(id, v)] else c[i := Count(id, v)]
  }

  /** The sum of the values. */
  function SumCounts(c: seq<Count>): int {
    if c == [] then 0 else SumCounts(c[..|c| - 1]) + c[|c| - 1].n
  }

  /** After `c[k] = v`, reading `k` gives `v` and every other key reads as before. */
  lemma GetPut(c: seq<Count>, k: string, v: int, j: string)
    ensures Get(Put(c, k, v), j) == if j == k then v else Get(c, j)
  {
    var i := KeyIndex(c, k);
    var r := Put(c, k, v);
    assert forall x :: 0 <= x < |c| ==> r[x].id == c[x].id;
    if j == k {
      assert r[if i < 0 then |c| else i] == Count(k, v);
    } else {
      assert forall x :: 0 <= x < |c| && r[x].id == j ==> r[x] == c[x];
      assert i < 0 ==> r[|c|].id != j;
    }
  }

  /** Assignment keeps keys distinct, keeps every key in place and adds at most `k`. */
  lemma PutKeys(c: seq<Count>, k: string, v: int)
    requires DistinctKeys(c)
    ensures DistinctKeys(Put(c, k, v))
    ensures forall j :: 0 <= j < |c| ==> Put(c, k, v)[j].id == c[j].id
    ensures |Put(c, k, v)| == if KeyIndex(c, k) < 0 then |c| + 1 else |c|
  {
  }

  lemma SumCountsAppend(c: seq<Count>, x: Count)
    ensures SumCounts(c + [x]) == SumCounts(c) + x.n
  {
    assert (c + [x])[..|c|] == c;
  }

  /** Replacing one value changes the sum by the difference. */
  lemma {:induction false} SumCountsUpdate(c: seq<Count>, i: int, x: Count)
    requires 0 <= i < |c|
    ensures SumCounts(c[i := x]) == SumCounts(c) - c[i].n + x.n
  {
    var n := |c| - 1;
    if i == n {
      assert c[i := x][..n] == c[..n];
    } else {
      SumCountsUpdate(c[..n], i, x);
      assert c[i := x][..n] == c[..n][i := x];
    }
  }

  /** After `c[k] = v` the sum moves from the old value of `k` to `v`. */
  lemma SumPut(c: seq<Count>, k: string, v: int)
    ensures SumCounts(Put(c, k, v)) == SumCounts(c) - Get(c, k) + v
  {
    var i := KeyIndex(c, k);
    if i < 0 {
      SumCountsAppend(c, Count(k, v));
    } else {
      SumCountsUpdate(c, i, Count(k, v));
    }
  }

  /** In an object with distinct keys, every stored pair is what reading its key gives. */
  lemma GetStored(c: seq<Count>, p: int)
    requires DistinctKeys(c) && 0 <= p < |c|
    ensures Get(c, c[p].id) == c[p].n
  {
    assert KeyIndex(c, c[p].id) == p;
  }

  /** Reading a key of a longer object: the last pair counts only when it carries the key. */
  lemma GetLast(c: seq<Count>)
    requires DistinctKeys(c) && c != []
    ensures forall id :: Get(c, id) == Get(c[..|c| - 1], id) + (if c[|c| - 1].id == id then c[|c| - 1].n else 0)
  {
    var n := |c| - 1;
    forall id
      ensures Get(c, id) == Get(c[..n], id) + (if c[n].id == id then c[n].n else 0)
    {
      var a := KeyIndex(c[..n], id);
      if a >= 0 {
        assert KeyIndex(c, id) == a;
      } else if c[n].id == id {
        assert KeyIndex(c, id) == n;
      } else {
        assert KeyIndex(c, id) == -1;
      }
    }
  }
}
