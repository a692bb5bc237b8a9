/** The two ordered indices of listing IDs (`active` and `closed`) and the
    order-preserving removal that compacts them. */
module IndexStore {

  /** No ID occurs twice. */
  predicate Distinct(s: seq<nat>)
  {
    forall i, j :: 0 <= i < j < |s| ==> s[i] != s[j]
  }

  /** `s` with `x` taken out and every other element kept, in its order. */
  function Without(s: seq<nat>, x: nat): (r: seq<nat>)
    ensures forall y :: y in r <==> y in s && y != x
    ensures |r| <= |s|
  {
    if s == [] then []
    else Without(s[..|s| - 1], x) + (if s[|s| - 1] == x then [] else [s[|s| - 1]])
  }

  /** Removing an ID that is not there leaves the index as it was. */
  lemma {:induction false} WithoutAbsent(s: seq<nat>, x: nat)
    requires x !in s
    ensures Without(s, x) == s
  {
    if s != [] {
      WithoutAbsent(s[..|s| - 1], x);
      assert s[..|s| - 1] + [s[|s| - 1]] == s;
    }
  }

  /** Removal is compaction: the elements after the removed one shift left by
      one place, and nothing is reordered. */
  lemma {:induction false} WithoutAt(s: seq<nat>, k: nat)
    requires Distinct(s)
    requires k < |s|
    ensures Without(s, s[k]) == s[..k] + s[k + 1..]
  {
    var n := |s| - 1;
    var init := s[..n];
    assert Distinct(init);
    if k == n {
      assert s[k] !in init;
      WithoutAbsent(init, s[k]);
      assert s[k + 1..] == [];
    } else {
      assert s[n] != s[k];
      assert init[k] == s[k];
      WithoutAt(init, k);
      assert init[..k] == s[..k];
      assert init[k + 1..] + [s[n]] == s[k + 1..];
    }
  }

  /** Removal keeps an index duplicate-free. */
  lemma {:induction false} WithoutDistinct(s: seq<nat>, x: nat)
    requires Distinct(s)
    ensures Distinct(Without(s, x))
  {
    if x in s {
      var k :| 0 <= k < |s| && s[k] == x;
      WithoutAt(s, k);
      var r := s[..k] + s[k + 1..];
      forall i, j | 0 <= i < j < |r|
        ensures r[i] != r[j]
      {
        var i' := if i < k then i else i + 1;
        var j' := if j < k then j else j + 1;
        assert r[i] == s[i'] && r[j] == s[j'] && i' < j';
      }
    } else {
      WithoutAbsent(s, x);
    }
  }

  /** Removing an ID that occurs once shortens the index by exactly one. */
  lemma WithoutLength(s: seq<nat>, x: nat)
    requires Distinct(s)
    requires x in s
    ensures |Without(s, x)| == |s| - 1
  {
    var k :| 0 <= k < |s| && s[k] == x;
    WithoutAt(s, k);
  }

  /** The imperative compaction: one pass over the index, copying every
      element except `x`. */
  method Remove(s: seq<nat>, x: nat) returns (r: seq<nat>)
    ensures r == Without(s, x)
  {
    r := [];
    var i := 0;
    while i < |s|
      invariant 0 <= i <= |s|
      invariant r == Without(s[..i], x)
    {
      assert s[..i + 1][..i] == s[..i];
      if s[i] != x {
        r := r + [s[i]];
      }
      i := i + 1;
    }
    assert s[..|s|] == s;
  }

  /** The two indices, read together, hold each live listing ID exactly once:
      each is duplicate-free, they share no ID, and their union is `live`. */
  ghost predicate Partition(active: seq<nat>, closed: seq<nat>, live: set<nat>)
  {
    && Distinct(active)
    && Distinct(closed)
    && (forall x :: x in active ==> x !in closed)
    && (forall x :: x in live <==> x in active || x in closed)
  }

  /** Inserting a fresh ID at the end of `active` keeps the partition. */
  lemma InsertKeepsPartition(active: seq<nat>, closed: seq<nat>, live: set<nat>, id: nat)
    requires Partition(active, closed, live)
    requires id !in live
    ensures Partition(active + [id], closed, live + {id})
  {
  }

  /** Moving an active ID to the end of `closed` keeps the partition of the same live set. */
  lemma MoveKeepsPartition(active: seq<nat>, closed: seq<nat>, live: set<nat>, id: nat)
    requires Partition(active, closed, live)
    requires id in active
    ensures Partition(Without(active, id), closed + [id], live)
  {
    WithoutDistinct(active, id);
    var c := closed + [id];
    forall i, j | 0 <= i < j < |c|
      ensures c[i] != c[j]
    {
      if j == |closed| {
        assert c[i] == closed[i];
      }
    }
  }

  /** Dropping a live ID from both indices partitions the live set without it. */
  lemma DropKeepsPartition(active: seq<nat>, closed: seq<nat>, live: set<nat>, id: nat)
    requires Partition(active, closed, live)
    ensures Partition(Without(active, id), Without(closed, id), live - {id})
  {
    WithoutDistinct(active, id);
    WithoutDistinct(closed, id);
  }
}
