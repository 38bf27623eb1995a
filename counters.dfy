/** The two counters every category shares: how many categories have been
    built and how many products those categories were built with. This module
    states, on plain values, what a run of category constructions does to them. */
module Counters {

  /** A snapshot of the shared counters. */
  datatype Snapshot = Snapshot(categoryCount: int, productCount: int)

  /** The counters as a fresh process (or a test that resets them) starts with. */
  function Zero(): Snapshot
  {
    Snapshot(0, 0)
  }

  /** The effect of building one category whose product list has `size` entries. */
  function Register(c: Snapshot, size: nat): Snapshot
  {
    Snapshot(c.categoryCount + 1, c.productCount + size)
  }

  /** Total number of products over a list of product-list sizes. */
  function Sum(sizes: seq<nat>): nat
  {
    if sizes == [] then 0 else sizes[0] + Sum(sizes[1..])
  }

  /** The counters after building, in order, one category per entry of `sizes`,
      each entry being the length of that category's product list. */
  function Build(c: Snapshot, sizes: seq<nat>): (r: Snapshot)
    ensures r.categoryCount == c.categoryCount + |sizes|
    ensures r.productCount == c.productCount + Sum(sizes)
    decreases sizes
  {
    if sizes == [] then c else Build(Register(c, sizes[0]), sizes[1..])
  }

  /** Summing two batches of sizes is summing each batch. */
  lemma {:induction false} SumAppend(a: seq<nat>, b: seq<nat>)
    ensures Sum(a + b) == Sum(a) + Sum(b)
  {
    if a == [] {
      assert a + b == b;
    } else {
      assert (a + b)[1..] == a[1..] + b;
      SumAppend(a[1..], b);
    }
  }

  /** Building categories in two batches ends where building them in one run does. */
  lemma {:induction false} BuildAppend(c: Snapshot, a: seq<nat>, b: seq<nat>)
    ensures Build(c, a + b) == Build(Build(c, a), b)
  {
    SumAppend(a, b);
  }

  /** Starting from zeroed counters, n constructions leave `categoryCount == n`
      and `productCount` equal to the total length of the product lists. */
  lemma FromZero(sizes: seq<nat>)
    ensures Build(Zero(), sizes) == Snapshot(|sizes|, Sum(sizes))
  {
  }

  /** Along any history of constructions neither counter ever goes down:
      the counters after a prefix are bounded by those after a longer prefix. */
  lemma {:induction false} NeverDecrease(c: Snapshot, sizes: seq<nat>, i: nat, j: nat)
    requires i <= j <= |sizes|
    ensures Build(c, sizes[..i]).categoryCount <= Build(c, sizes[..j]).categoryCount
    ensures Build(c, sizes[..i]).productCount <= Build(c, sizes[..j]).productCount
  {
    assert sizes[..j] == sizes[..i] + sizes[i..j];
    BuildAppend(c, sizes[..i], sizes[i..j]);
  }

  /** Categories built with empty product lists move `categoryCount` only. */
  lemma {:induction false} EmptyListsAddNoProducts(c: Snapshot, sizes: seq<nat>)
    requires forall k :: 0 <= k < |sizes| ==> sizes[k] == 0
    ensures Build(c, sizes) == Snapshot(c.categoryCount + |sizes|, c.productCount)
  {
    SumZeroIffAllEmpty(sizes);
  }

  /** The product count grows by exactly the list lengths: it grows by zero
      only when every list is empty. */
  lemma {:induction false} SumZeroIffAllEmpty(sizes: seq<nat>)
    ensures Sum(sizes) == 0 <==> forall k :: 0 <= k < |sizes| ==> sizes[k] == 0
  {
    if sizes != [] {
      SumZeroIffAllEmpty(sizes[1..]);
      assert forall k :: 1 <= k < |sizes| ==> sizes[k] == sizes[1..][k - 1];
    }
  }
}
