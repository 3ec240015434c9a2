/** The sequence-id source a connection draws from: a counter that starts at
    zero, hands out its current value and advances, wrapping modulo 2^32. */
module SeqIds {
  import opened Wire

  const MODULUS: int := 0x1_0000_0000

  /** The value the counter holds after handing out `id`. */
  function Next(id: uint32): (r: uint32)
    ensures r as int == (id as int + 1) % MODULUS
    ensures r == 0 <==> id as int == MODULUS - 1
  {
    if id as int == MODULUS - 1 then 0 else id + 1
  }

  /** The ids handed out by `n` consecutive draws from a counter holding `start`. */
  function Issue(start: uint32, n: nat): (ids: seq<uint32>)
    ensures |ids| == n
    ensures forall k :: 0 <= k < n ==> ids[k] as int == (start as int + k) % MODULUS
    decreases n
  {
    if n == 0 then []
    else
      var rest := Issue(Next(start), n - 1);
      ShiftedByOne(start, rest);
      [start] + rest
  }

  /** Ids counted from `Next(start)` are ids counted from `start`, shifted by one. */
  lemma ShiftedByOne(start: uint32, rest: seq<uint32>)
    requires forall k :: 0 <= k < |rest| ==> rest[k] as int == (Next(start) as int + k) % MODULUS
    ensures forall k :: 0 <= k < |rest| ==> rest[k] as int == (start as int + 1 + k) % MODULUS
  {
  }

  /** One more draw appends the counter's next value. */
  lemma IssueSnoc(start: uint32, n: nat)
    ensures Issue(start, n + 1) == Issue(start, n) + [((start as int + n) % MODULUS) as uint32]
  {
  }

  /** Up to 2^32 consecutive draws are pairwise distinct. */
  lemma IssueDistinct(start: uint32, n: nat)
    requires n <= MODULUS
    ensures forall i, j :: 0 <= i < j < n ==> Issue(start, n)[i] != Issue(start, n)[j]
  {
  }

  /** Draw number 2^32 + 1 repeats the first id: the counter wraps, it does not fail. */
  lemma WrapsAfterModulus(start: uint32, n: nat)
    requires n > MODULUS
    ensures Issue(start, n)[MODULUS] == start
  {
  }
}
