/** Tunnel identifiers: an atomic 64-bit counter that wraps around. */
module TunnelIds {
  const U64_RANGE: nat := 0x1_0000_0000_0000_0000

  type TunnelId = x: int | 0 <= x < U64_RANGE

  /** The identifier issued after `n` others by a generator that began at `start`. */
  function IdAt(start: TunnelId, n: nat): TunnelId {
    (start + n) % U64_RANGE
  }

  /** Two identifiers of one generator collide exactly when the calls are a multiple of 2^64 apart. */
  lemma IdsCollide(start: TunnelId, m: nat, n: nat)
    ensures IdAt(start, m) == IdAt(start, n) <==> (m - n) % U64_RANGE == 0
  {
  }

  /** So the first 2^64 identifiers are pairwise distinct. */
  lemma IdsDistinct(start: TunnelId, m: nat, n: nat)
    requires m < n < U64_RANGE
    ensures IdAt(start, m) != IdAt(start, n)
  {
    IdsCollide(start, m, n);
  }

  class MonotonicAtomicGenerator {
    var next: TunnelId
    ghost const start: TunnelId
    ghost var issued: seq<TunnelId>

    ghost predicate Valid()
      reads this
    {
      next == IdAt(start, |issued|) && forall i :: 0 <= i < |issued| ==> issued[i] == IdAt(start, i)
    }

    constructor (first: TunnelId)
      ensures Valid() && start == first && issued == []
    {
      next := first;
      start := first;
      issued := [];
    }

    /** fetch_add(1): returns the old value and wraps at 2^64; distinct from the 2^64 - 1 identifiers before it. */
    method Next() returns (id: TunnelId)
      requires Valid()
      modifies this
      ensures Valid() && issued == old(issued) + [id]
      ensures forall i :: 0 <= i < |old(issued)| && |old(issued)| < i + U64_RANGE ==> old(issued)[i] != id
    {
      forall i | 0 <= i < |issued| { IdsCollide(start, i, |issued|); }
      id := next;
      issued := issued + [id];
      next := (next + 1) % U64_RANGE;
    }
  }
}
