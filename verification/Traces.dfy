/** Histories of amounts charged at ledgers, and how much falls into a span of ledgers. */
module Traces {

  datatype Charge = Charge(ledger: nat, amount: nat)

  /** Beyond every ledger number and every span that starts at one. */
  const FOREVER: int := 0x2_0000_0000

  function Weight(c: Charge, lo: int, hi: int): nat {
    if lo <= c.ledger < hi then c.amount else 0
  }

  /** The amounts charged at ledgers in [lo, hi). */
  function Sum(p: seq<Charge>, lo: int, hi: int): nat {
    if p == [] then 0 else Sum(p[..|p| - 1], lo, hi) + Weight(p[|p| - 1], lo, hi)
  }

  lemma SumEmpty(lo: int, hi: int)
    ensures Sum([], lo, hi) == 0
  {
  }

  lemma SumAppend(p: seq<Charge>, c: Charge, lo: int, hi: int)
    ensures Sum(p + [c], lo, hi) == Sum(p, lo, hi) + Weight(c, lo, hi)
  {
    assert (p + [c])[..|p|] == p;
  }

  lemma {:induction false} SumSplit(p: seq<Charge>, lo: int, mid: int, hi: int)
    requires lo <= mid <= hi
    ensures Sum(p, lo, hi) == Sum(p, lo, mid) + Sum(p, mid, hi)
  {
    if p != [] { SumSplit(p[..|p| - 1], lo, mid, hi); }
  }

  lemma {:induction false} SumWithin(p: seq<Charge>, lo: int, hi: int, lo': int, hi': int)
    requires lo' <= lo && hi <= hi'
    ensures Sum(p, lo, hi) <= Sum(p, lo', hi')
  {
    if p != [] { SumWithin(p[..|p| - 1], lo, hi, lo', hi'); }
  }

  lemma {:induction false} SumAfterEnd(p: seq<Charge>, end: int, lo: int, hi: int)
    requires forall i :: 0 <= i < |p| ==> p[i].ledger <= end
    requires end < lo
    ensures Sum(p, lo, hi) == 0
  {
    if p != [] { SumAfterEnd(p[..|p| - 1], end, lo, hi); }
  }
}
