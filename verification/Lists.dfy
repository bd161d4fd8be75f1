/** Lists of addresses and what the contract's loops do to them. */
module Lists {

  predicate Distinct<T(==)>(s: seq<T>) {
    forall i, j :: 0 <= i < j < |s| ==> s[i] != s[j]
  }

  function Elements<T(==)>(s: seq<T>): set<T> { set x | x in s }

  /** The elements satisfying `keep`, in their order. */
  function Filter<T>(s: seq<T>, keep: T -> bool): seq<T> {
    if s == [] then []
    else Filter(s[..|s| - 1], keep) + (if keep(s[|s| - 1]) then [s[|s| - 1]] else [])
  }

  function RemoveAt<T>(s: seq<T>, i: nat): seq<T>
    requires i < |s|
  {
    s[..i] + s[i + 1..]
  }

  lemma {:induction false} DistinctCount<T>(s: seq<T>)
    requires Distinct(s)
    ensures |Elements(s)| == |s|
  {
    if s != [] {
      var last := |s| - 1;
      DistinctCount(s[..last]);
      assert Elements(s) == Elements(s[..last]) + {s[last]};
    }
  }

  lemma RemoveAtKeeps<T>(s: seq<T>, i: nat)
    requires Distinct(s) && i < |s|
    ensures Distinct(RemoveAt(s, i))
    ensures Elements(RemoveAt(s, i)) == Elements(s) - {s[i]}
  {
    var r := RemoveAt(s, i);
    forall x
      ensures x in r <==> x in s && x != s[i]
    {
      if x in s && x != s[i] {
        var j :| 0 <= j < |s| && s[j] == x;
        assert r[if j < i then j else j - 1] == x;
      }
    }
  }

  lemma FilterStep<T>(s: seq<T>, n: nat, keep: T -> bool)
    requires n < |s|
    ensures Filter(s[..n + 1], keep) == Filter(s[..n], keep) + (if keep(s[n]) then [s[n]] else [])
  {
    assert s[..n + 1][..n] == s[..n];
  }

  /** What passes the filter stays, nothing else does, and no two elements change places. */
  lemma {:induction false} FilterIsExact<T(!new)>(s: seq<T>, keep: T -> bool)
    ensures forall x :: x in Filter(s, keep) <==> x in s && keep(x)
    ensures |Filter(s, keep)| <= |s|
    ensures Distinct(s) ==> Distinct(Filter(s, keep))
  {
    if s != [] {
      var last := |s| - 1;
      FilterIsExact(s[..last], keep);
      assert s == s[..last] + [s[last]];
    }
  }

  /** The original positions of the elements of a filtered list. */
  function Kept<T>(s: seq<T>, keep: T -> bool): (at: seq<nat>)
    ensures |at| == |Filter(s, keep)|
    ensures forall i :: 0 <= i < |at| ==> at[i] < |s| && s[at[i]] == Filter(s, keep)[i]
    ensures forall i, j :: 0 <= i < j < |at| ==> at[i] < at[j]
  {
    if s == [] then []
    else Kept(s[..|s| - 1], keep) + (if keep(s[|s| - 1]) then [|s| - 1] else [])
  }
}
