/** The two-word child index counter of the *_crypto_data tables. */
module Counter {
  import opened Domain
  import Confirmations

  const INTEGER_MAX := 2147483647
  const RADIX := 2147483648

  /** One past the largest value the two INTEGER columns can represent. */
  const CAPACITY := RADIX * RADIX

  const RESET: Indices := Indices(0, 0)

  predicate InRange(ix: Indices) {
    0 <= ix.major <= INTEGER_MAX && 0 <= ix.minor <= INTEGER_MAX
  }

  function Value(ix: Indices): int {
    ix.major * RADIX + ix.minor
  }

  function At(n: nat): Indices {
    Indices(n / RADIX, n % RADIX)
  }

  /** Both words survive the uint32 cast and lie below the first hardened child index. */
  predicate ExactAndNonHardened(ix: Indices)
    requires InRange(ix)
  {
    Confirmations.Uint32(ix.major) == ix.major < RADIX && Confirmations.Uint32(ix.minor) == ix.minor < RADIX
  }

  /** The UPDATE of FindKeysAndIncrementedIndices*; None is PostgreSQL's out-of-range error, which changes nothing. */
  function Bump(ix: Indices): Option<Indices> {
    if ix.minor >= INTEGER_MAX then
      if ix.major + 1 > INTEGER_MAX then None else Some(Indices(ix.major + 1, 0))
    else
      Some(Indices(ix.major, ix.minor + 1))
  }

  /** The indices returned by up to k successive increments, cut short by the first error. */
  function Allocations(ix: Indices, k: nat): seq<Indices>
    decreases k
  {
    if k == 0 || Bump(ix).None? then [] else [Bump(ix).value] + Allocations(Bump(ix).value, k - 1)
  }

  lemma AtInvertsValue(ix: Indices)
    requires InRange(ix)
    ensures 0 <= Value(ix) < CAPACITY && At(Value(ix)) == ix
  {
  }

  lemma ValueInvertsAt(n: nat)
    requires n < CAPACITY
    ensures InRange(At(n)) && Value(At(n)) == n
  {
  }

  /** The increment is the successor function, and it fails exactly at the last representable value. */
  lemma BumpIsSuccessor(ix: Indices)
    requires InRange(ix)
    ensures Bump(ix).None? <==> Value(ix) == CAPACITY - 1
    ensures Bump(ix).Some? ==> InRange(Bump(ix).value) && Value(Bump(ix).value) == Value(ix) + 1
  {
  }

  lemma {:induction false} AllocationsFrom(ix: Indices, k: nat)
    requires InRange(ix)
    ensures var r := Allocations(ix, k);
            && |r| == (if k < CAPACITY - Value(ix) then k else CAPACITY - 1 - Value(ix))
            && forall j :: 0 <= j < |r| ==> InRange(r[j]) && Value(r[j]) == Value(ix) + 1 + j
    decreases k
  {
    BumpIsSuccessor(ix);
    if k > 0 && Bump(ix).Some? {
      AllocationsFrom(Bump(ix).value, k - 1);
    }
  }

  /** After a reset, k allocations return exactly 1..k, pairwise distinct and never (0, 0), until the column overflows;
      every word is an exact uint32 below the first hardened child index. */
  lemma CounterCorrect(k: nat)
    ensures var r := Allocations(RESET, k);
            && |r| == (if k < CAPACITY then k else CAPACITY - 1)
            && (forall j :: 0 <= j < |r| ==> Value(r[j]) == j + 1 && r[j] == At(j + 1) && r[j] != RESET)
            && (forall i, j :: 0 <= i < j < |r| ==> r[i] != r[j])
            && (forall j :: 0 <= j < |r| ==> InRange(r[j]) && ExactAndNonHardened(r[j]))
  {
    AllocationsFrom(RESET, k);
    var r := Allocations(RESET, k);
    forall j | 0 <= j < |r|
      ensures Value(r[j]) == j + 1 && r[j] == At(j + 1) && r[j] != RESET
    {
      AtInvertsValue(r[j]);
    }
  }
}
