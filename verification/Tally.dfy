/** The smallest and largest per-host count, as both consistent-hash builders report them. */
module Tally {

  /** The `minPerHost`/`maxPerHost` loop over a non-empty count array. */
  method MinMax(count: array<nat>) returns (lo: nat, hi: nat)
    requires count.Length > 0
    ensures lo in count[..] && hi in count[..]
    ensures forall k :: 0 <= k < count.Length ==> lo <= count[k] <= hi
  {
    lo, hi := count[0], count[0];
    for i := 1 to count.Length
      invariant lo in count[..] && hi in count[..]
      invariant forall k :: 0 <= k < i ==> lo <= count[k] <= hi
    {
      var c := count[i];
      assert c in count[..];
      if c < lo {
        lo := c;
      }
      if c > hi {
        hi := c;
      }
    }
  }
}
