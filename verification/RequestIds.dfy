/** The worker's request-id generator: a counter that cycles through the 31-bit small integers. */
module RequestIds {
  import opened Common

  const MIN_SMI: int := -0x4000_0000
  const MAX_SMI: int := 0x3FFF_FFFF
  const CYCLE: int := 0x8000_0000

  predicate IsSmi(id: int) {
    MIN_SMI <= id <= MAX_SMI
  }

  function NextId(id: int): int {
    if id == MAX_SMI then MIN_SMI else id + 1
  }

  /** The id issued `n` requests after `id`. */
  function NthId(id: int, n: nat): int {
    if n == 0 then id else NextId(NthId(id, n - 1))
  }

  lemma NthIdNext(id: int, n: nat)
    ensures NthId(id, n + 1) == NextId(NthId(id, n))
  {
  }

  lemma {:induction false} ClosedForm(id: int, n: nat)
    requires IsSmi(id)
    ensures NthId(id, n) == MIN_SMI + (id - MIN_SMI + n) % CYCLE
  {
    if n > 0 {
      ClosedForm(id, n - 1);
    }
  }

  lemma CongruentExactly(x: int, y: int)
    ensures x % CYCLE == y % CYCLE <==> (x - y) % CYCLE == 0
  {
    var d, q, r := x - y, x / CYCLE - y / CYCLE, x % CYCLE - y % CYCLE;
    assert d == q * CYCLE + r;
    if r >= 0 {
      QuotientUnique(CYCLE, d / CYCLE, d % CYCLE, q, r);
    } else {
      QuotientUnique(CYCLE, d / CYCLE, d % CYCLE, q - 1, r + CYCLE);
    }
  }

  /** Two requests get the same id exactly when they lie a whole number of cycles apart. */
  lemma SameIdExactly(id: int, i: nat, j: nat)
    requires IsSmi(id)
    ensures NthId(id, i) == NthId(id, j) <==> (i - j) % CYCLE == 0
  {
    hide NthId;
    ClosedForm(id, i);
    ClosedForm(id, j);
    CongruentExactly(id - MIN_SMI + i, id - MIN_SMI + j);
  }

  /** Any 2^31 consecutive ids are pairwise distinct. */
  lemma IdsDistinct(id: int, i: nat, j: nat)
    requires IsSmi(id) && i < j < i + CYCLE
    ensures NthId(id, i) != NthId(id, j)
  {
    SameIdExactly(id, i, j);
  }

  /** After 2^31 requests the generator is back where it was. */
  lemma IdsCycle(id: int, i: nat)
    requires IsSmi(id)
    ensures NthId(id, i + CYCLE) == NthId(id, i)
  {
    ClosedForm(id, i);
    ClosedForm(id, i + CYCLE);
  }

  /** Within one cycle every small integer is issued. */
  lemma EveryIdIsIssued(id: int, v: int) returns (n: nat)
    requires IsSmi(id) && IsSmi(v)
    ensures n < CYCLE && NthId(id, n) == v
  {
    n := if v >= id then v - id else v - id + CYCLE;
    ClosedForm(id, n);
  }

  /** Every id survives the 32-bit wait queue. */
  lemma IdsFitTheQueue(id: int, n: nat)
    requires IsSmi(id)
    ensures IsSmi(NthId(id, n)) && ToInt32(NthId(id, n)) == NthId(id, n)
  {
    ClosedForm(id, n);
  }
}
