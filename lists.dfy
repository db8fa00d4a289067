/** The one list operation every rule of the program performs: a conditional append. */
module Lists {
  /** xs followed by x when the condition holds, xs itself otherwise. */
  function AppendIf<T(!new)>(xs: seq<T>, condition: bool, x: T): (r: seq<T>)
    ensures forall y :: y in r <==> y in xs || (condition && y == x)
    ensures |r| == |xs| + (if condition then 1 else 0)
  {
    if condition then xs + [x] else xs
  }

  /** A conditional append after a fixed prefix leaves that prefix in front. */
  lemma AppendIfAfter<T(!new)>(prefix: seq<T>, xs: seq<T>, condition: bool, x: T)
    ensures AppendIf(prefix + xs, condition, x) == prefix + AppendIf(xs, condition, x)
  {
    if condition {
      assert (prefix + xs) + [x] == prefix + (xs + [x]);
    }
  }

  /** The entries of xs have strictly increasing ranks. */
  predicate Ascending<T>(xs: seq<T>, rank: T -> nat)
  {
    forall i, j :: 0 <= i < j < |xs| ==> rank(xs[i]) < rank(xs[j])
  }

  /** Every entry of xs ranks below k. */
  predicate RankedBelow<T>(xs: seq<T>, rank: T -> nat, k: nat)
  {
    forall i :: 0 <= i < |xs| ==> rank(xs[i]) < k
  }

  /** Appending an entry that outranks all present entries keeps the list ascending. */
  lemma AppendIfAscending<T(!new)>(xs: seq<T>, condition: bool, x: T, rank: T -> nat)
    requires Ascending(xs, rank) && RankedBelow(xs, rank, rank(x))
    ensures Ascending(AppendIf(xs, condition, x), rank)
    ensures RankedBelow(AppendIf(xs, condition, x), rank, rank(x) + 1)
  {
    if condition {
      var r := xs + [x];
      forall i, j | 0 <= i < j < |r| ensures rank(r[i]) < rank(r[j]) {
        assert r[i] == xs[i];
        if j < |xs| {
          assert r[j] == xs[j];
        }
      }
    }
  }
}
