/** The per-token allowlist: membership in one set of cells, and an append-only index with tombstones
    beside it from which pages are listed. */
module Allowlist {
  import opened Prelude
  import opened Lists

  datatype Entry = Entry(token: Address, address: Address)

  datatype Event = Added(entry: Entry) | Removed(entry: Entry)

  datatype List = List(allowed: set<Entry>, slots: map<nat, Entry>, count: nat, history: seq<Event>)

  const EMPTY: List := List({}, map[], 0, [])

  // ---- entry points ----

  function Admin(admin: Option<Address>, signed: set<Address>): Result<()> {
    if admin == None then Err(NotInitialized) else if admin.value in signed then Ok(()) else Err(HostAbort)
  }

  function Add(a: List, admin: Option<Address>, signed: set<Address>, e: Entry): Result<List> {
    var _ :- Admin(admin, signed);
    :- Need(a.count < U64_MAX, Overflow);
    Ok(a.(allowed := a.allowed + {e}, slots := a.slots[a.count := e], count := a.count + 1,
          history := a.history + [Added(e)]))
  }

  predicate Holds(slots: map<nat, Entry>, i: nat, e: Entry) { i in slots && slots[i] == e }

  /** The first slot below `n` that holds `e`. */
  function FirstSlot(slots: map<nat, Entry>, n: nat, e: Entry): (r: Option<nat>)
    ensures r.None? ==> forall i: nat :: i < n ==> !Holds(slots, i, e)
    ensures r.Some? ==> r.value < n && Holds(slots, r.value, e) && forall i: nat :: i < r.value ==> !Holds(slots, i, e)
  {
    if n == 0 then None
    else if FirstSlot(slots, n - 1, e).Some? then FirstSlot(slots, n - 1, e)
    else if Holds(slots, n - 1, e) then Some(n - 1)
    else None
  }

  function Remove(a: List, admin: Option<Address>, signed: set<Address>, e: Entry): Result<List> {
    var _ :- Admin(admin, signed);
    var slot := FirstSlot(a.slots, a.count, e);
    Ok(a.(allowed := a.allowed - {e}, slots := if slot.Some? then a.slots - {slot.value} else a.slots,
          history := a.history + [Removed(e)]))
  }

  /** The entries in the slots `lo` up to `hi` that are still allowed, in slot order. */
  function Listed(allowed: set<Entry>, slots: map<nat, Entry>, lo: nat, hi: nat): seq<Entry>
    decreases hi
  {
    if lo >= hi then []
    else
      Listed(allowed, slots, lo, hi - 1)
      + (if hi - 1 in slots && slots[hi - 1] in allowed then [slots[hi - 1]] else [])
  }

  // ---- runs ----

  datatype Call = Call(admin: Option<Address>, signed: set<Address>, event: Event)

  function Step(a: List, call: Call): Result<List> {
    if call.event.Added? then Add(a, call.admin, call.signed, call.event.entry)
    else Remove(a, call.admin, call.signed, call.event.entry)
  }

  function Next(a: List, call: Call): List {
    match Step(a, call) case Ok(a') => a' case Err(_) => a
  }

  function Run(a: List, calls: seq<Call>): List
    decreases |calls|
  {
    if calls == [] then a else Run(Next(a, calls[0]), calls[1..])
  }

  // ---- slots, counted ----

  function Count(slots: map<nat, Entry>, n: nat, e: Entry): nat {
    if n == 0 then 0 else Count(slots, n - 1, e) + (if Holds(slots, n - 1, e) then 1 else 0)
  }

  /** How many slots a history leaves an entry with: one more per addition, one less per removal. */
  function Copies(h: seq<Event>, e: Entry): nat {
    if h == [] then 0
    else
      var before, last := Copies(h[..|h| - 1], e), h[|h| - 1];
      if last.entry != e then before
      else if last.Added? then before + 1
      else if before > 0 then before - 1
      else 0
  }

  lemma {:induction false} CountSame(a: map<nat, Entry>, b: map<nat, Entry>, n: nat, e: Entry)
    requires forall i: nat :: i < n ==> (Holds(a, i, e) <==> Holds(b, i, e))
    ensures Count(a, n, e) == Count(b, n, e)
  {
    if n > 0 { CountSame(a, b, n - 1, e); }
  }

  lemma {:induction false} CountRemoved(slots: map<nat, Entry>, n: nat, i: nat, e: Entry)
    requires i < n && Holds(slots, i, e)
    ensures Count(slots - {i}, n, e) == Count(slots, n, e) - 1
  {
    if i == n - 1 {
      CountSame(slots, slots - {i}, n - 1, e);
    } else {
      CountRemoved(slots, n - 1, i, e);
    }
  }

  lemma {:induction false} CountIsZeroIff(slots: map<nat, Entry>, n: nat, e: Entry)
    ensures Count(slots, n, e) == 0 <==> forall i: nat :: i < n ==> !Holds(slots, i, e)
  {
    if n > 0 {
      CountIsZeroIff(slots, n - 1, e);
    }
  }

  // ---- what every reachable list satisfies ----

  ghost predicate EntryOk(a: List, e: Entry) {
    && Count(a.slots, a.count, e) == Copies(a.history, e)
    && (e in a.allowed ==> Copies(a.history, e) > 0)
  }

  ghost predicate ListOk(a: List) {
    && (forall i :: i in a.slots ==> i < a.count)
    && (forall e :: EntryOk(a, e))
  }

  lemma AddKeeps(a: List, admin: Option<Address>, signed: set<Address>, e: Entry)
    requires ListOk(a) && Add(a, admin, signed, e).Ok?
    ensures ListOk(Add(a, admin, signed, e).value)
  {
    var a' := Add(a, admin, signed, e).value;
    assert a'.history[..|a.history|] == a.history;
    forall x
      ensures EntryOk(a', x)
    {
      assert EntryOk(a, x);
      CountSame(a.slots, a'.slots, a.count, x);
    }
  }

  lemma RemoveKeeps(a: List, admin: Option<Address>, signed: set<Address>, e: Entry)
    requires ListOk(a) && Remove(a, admin, signed, e).Ok?
    ensures ListOk(Remove(a, admin, signed, e).value)
  {
    var a' := Remove(a, admin, signed, e).value;
    var slot := FirstSlot(a.slots, a.count, e);
    assert a'.history[..|a.history|] == a.history;
    forall x
      ensures EntryOk(a', x)
    {
      assert EntryOk(a, x);
      if x != e {
        CountSame(a.slots, a'.slots, a.count, x);
      } else if slot.Some? {
        CountRemoved(a.slots, a.count, slot.value, e);
      } else {
        CountIsZeroIff(a.slots, a.count, e);
      }
    }
  }

  lemma {:induction false} RunKeeps(a: List, calls: seq<Call>)
    requires ListOk(a)
    ensures ListOk(Run(a, calls))
    decreases |calls|
  {
    hide ListOk, Add, Remove;
    if calls != [] {
      var call := calls[0];
      if Step(a, call).Ok? {
        if call.event.Added? {
          AddKeeps(a, call.admin, call.signed, call.event.entry);
        } else {
          RemoveKeeps(a, call.admin, call.signed, call.event.entry);
        }
      }
      RunKeeps(Next(a, call), calls[1..]);
    }
  }

  lemma {:induction false} ListedCounts(allowed: set<Entry>, slots: map<nat, Entry>, n: nat, e: Entry)
    ensures multiset(Listed(allowed, slots, 0, n))[e] == if e in allowed then Count(slots, n, e) else 0
  {
    if n > 0 { ListedCounts(allowed, slots, n - 1, e); }
  }

  lemma {:induction false} ListedSplit(allowed: set<Entry>, slots: map<nat, Entry>, lo: nat, mid: nat, hi: nat)
    requires lo <= mid <= hi
    ensures Listed(allowed, slots, lo, hi) == Listed(allowed, slots, lo, mid) + Listed(allowed, slots, mid, hi)
    decreases hi
  {
    if mid < hi { ListedSplit(allowed, slots, lo, mid, hi - 1); }
  }

  lemma {:induction false} ListedLength(allowed: set<Entry>, slots: map<nat, Entry>, lo: nat, hi: nat)
    ensures |Listed(allowed, slots, lo, hi)| <= if lo < hi then hi - lo else 0
    decreases hi
  {
    if lo < hi { ListedLength(allowed, slots, lo, hi - 1); }
  }

  lemma StartsOk()
    ensures ListOk(EMPTY)
  {
  }

  // ---- main results ----

  /** After any history of additions, repeated ones included, and removals: the full listing names
      exactly the allowed pairs, each as often as additions outnumber effective removals. */
  lemma ListingOverRuns(calls: seq<Call>)
    ensures var a := Run(EMPTY, calls); var all := Listed(a.allowed, a.slots, 0, a.count);
      && Elements(all) == a.allowed
      && forall e :: multiset(all)[e] == if e in a.allowed then Copies(a.history, e) else 0
  {
    hide Run, Copies;
    StartsOk();
    RunKeeps(EMPTY, calls);
    var a := Run(EMPTY, calls);
    var all := Listed(a.allowed, a.slots, 0, a.count);
    forall e
      ensures multiset(all)[e] == if e in a.allowed then Copies(a.history, e) else 0
      ensures e in all <==> e in a.allowed
    {
      ListedCounts(a.allowed, a.slots, a.count, e);
      assert EntryOk(a, e);
      assert e in all <==> e in multiset(all);
    }
  }

  /** No pair is listed twice exactly when every allowed pair holds one slot, counting one more per
      addition and one less per removal that found one. */
  lemma ListingRepeatsIff(calls: seq<Call>)
    ensures var a := Run(EMPTY, calls);
      Distinct(Listed(a.allowed, a.slots, 0, a.count)) <==> forall e :: e in a.allowed ==> Copies(a.history, e) == 1
  {
    hide Run, Copies, Listed;
    var a := Run(EMPTY, calls);
    ListingOverRuns(calls);
    DistinctIffOnce(Listed(a.allowed, a.slots, 0, a.count));
  }

  /** An addition lists its pair repeatedly exactly when the pair still held a slot, be it allowed or not. */
  lemma AddingRepeatsIff(calls: seq<Call>, last: Call)
    requires last.event.Added? && Step(Run(EMPTY, calls), last).Ok?
    ensures var a := Run(EMPTY, calls); var a' := Step(a, last).value; var e := last.event.entry;
      multiset(Listed(a'.allowed, a'.slots, 0, a'.count))[e] > 1 <==>
          exists i: nat :: i < a.count && Holds(a.slots, i, e)
  {
    hide Run, Listed;
    StartsOk();
    RunKeeps(EMPTY, calls);
    var a := Run(EMPTY, calls);
    var a', e := Step(a, last).value, last.event.entry;
    ListedCounts(a'.allowed, a'.slots, a'.count, e);
    CountSame(a.slots, a'.slots, a.count, e);
    CountIsZeroIff(a.slots, a.count, e);
  }

  lemma {:induction false} DistinctIffOnce(s: seq<Entry>)
    ensures Distinct(s) <==> forall e :: e in s ==> multiset(s)[e] == 1
  {
    if s != [] {
      var last := |s| - 1;
      var front := s[..last];
      assert s == front + [s[last]];
      DistinctIffOnce(front);
      assert forall e :: multiset(s)[e] == multiset(front)[e] + if e == s[last] then 1 else 0;
      assert forall e :: e in s <==> e in front || e == s[last];
      assert s[last] in front <==> multiset(front)[s[last]] > 0;
    }
  }

  /** Some calls lead to the list. */
  ghost predicate IsReachable(a: List) { exists calls: seq<Call> :: a == Run(EMPTY, calls) }

  lemma {:induction false} RunOneMore(a: List, calls: seq<Call>, last: Call)
    ensures Run(a, calls + [last]) == Next(Run(a, calls), last)
    decreases |calls|
  {
    hide Step;
    if calls == [] {
      assert [] + [last] == [last];
    } else {
      RunOneMore(Next(a, calls[0]), calls[1..], last);
      assert (calls + [last])[1..] == calls[1..] + [last];
    }
  }

  lemma StepIsReachable(a: List, call: Call)
    requires IsReachable(a)
    ensures IsReachable(Next(a, call))
  {
    hide Step;
    var calls: seq<Call> :| a == Run(EMPTY, calls);
    RunOneMore(EMPTY, calls, call);
  }

  // ---- which pairs are allowed ----

  /** Whether a pair is allowed after a run: the last addition or removal of it that succeeded decides. */
  function AllowedAfter(a: List, calls: seq<Call>, e: Entry, before: bool): bool
    decreases |calls|
  {
    if calls == [] then before
    else
      var decides := calls[0].event.entry == e && Step(a, calls[0]).Ok?;
      AllowedAfter(Next(a, calls[0]), calls[1..], e, if decides then calls[0].event.Added? else before)
  }

  lemma {:induction false} RunAllows(a: List, calls: seq<Call>, e: Entry)
    ensures e in Run(a, calls).allowed <==> AllowedAfter(a, calls, e, e in a.allowed)
    decreases |calls|
  {
    hide FirstSlot;
    if calls != [] { RunAllows(Next(a, calls[0]), calls[1..], e); }
  }

  /** After any calls a pair is allowed exactly when the last call about it that succeeded added it: one removal is
      enough however often it was added, and other pairs do not matter. */
  lemma AllowedOverRuns(calls: seq<Call>, e: Entry)
    ensures e in Run(EMPTY, calls).allowed <==> AllowedAfter(EMPTY, calls, e, false)
  {
    RunAllows(EMPTY, calls, e);
  }

  /** Only the administrator's signature and, for an addition, a free slot number are asked. */
  lemma EveryCallIsDecided(a: List, call: Call)
    ensures Step(a, call).Err? <==>
              || call.admin == None || call.admin.value !in call.signed
              || (call.event.Added? && a.count >= U64_MAX)
    ensures Step(a, call).Err? ==>
              Step(a, call).error == if call.admin == None then NotInitialized
                                     else if call.admin.value !in call.signed then HostAbort
                                     else Overflow
  {
  }

  // ---- the entry points as methods on storage cells ----

  class TokenAllowlist {
    var allowed: set<Entry>
    var slots: map<nat, Entry>
    var count: nat

    ghost var history: seq<Event>

    ghost function Abs(): List
      reads this
    {
      List(allowed, slots, count, history)
    }

    /** Calls from the start lead to the cells. */
    ghost predicate Valid()
      reads this
    {
      IsReachable(Abs())
    }

    constructor ()
      ensures Valid() && Abs() == EMPTY
    {
      allowed, slots, count, history := {}, map[], 0, [];
      new;
      assert Abs() == Run(EMPTY, []);
    }

    /** The allowed flag is written before the overflow check; the host undoes it on failure. */
    method AddTokenAllowlist(admin: Option<Address>, signed: set<Address>, token: Address, address: Address)
      returns (r: Result<()>)
      requires Valid()
      modifies this
      ensures Valid()
      ensures var spec := Add(old(Abs()), admin, signed, Entry(token, address));
        if spec.Ok? then r == Ok(()) && Abs() == spec.value else r == Err(spec.error) && Abs() == old(Abs())
    {
      hide IsReachable;
      StepIsReachable(Abs(), Call(admin, signed, Added(Entry(token, address))));
      if admin == None { return Err(NotInitialized); }
      if admin.value !in signed { return Err(HostAbort); }
      var entry, allowed0 := Entry(token, address), allowed;
      allowed := allowed + {entry};
      if count == U64_MAX || count + 1 > U64_MAX {
        allowed := allowed0;
        return Err(Overflow);
      }
      slots := slots[count := entry];
      count := count + 1;
      history := history + [Added(entry)];
      return Ok(());
    }

    /** Leaves a tombstone in the first matching slot. */
    method RemoveTokenAllowlist(admin: Option<Address>, signed: set<Address>, token: Address, address: Address)
      returns (r: Result<()>)
      requires Valid()
      modifies this
      ensures Valid()
      ensures var spec := Remove(old(Abs()), admin, signed, Entry(token, address));
        if spec.Ok? then r == Ok(()) && Abs() == spec.value else r == Err(spec.error) && Abs() == old(Abs())
    {
      hide IsReachable;
      StepIsReachable(Abs(), Call(admin, signed, Removed(Entry(token, address))));
      if admin == None { return Err(NotInitialized); }
      if admin.value !in signed { return Err(HostAbort); }
      var entry := Entry(token, address);
      allowed := allowed - {entry};
      history := history + [Removed(entry)];
      for i := 0 to count
        invariant count == old(count) && allowed == old(allowed) - {entry} && history == old(history) + [Removed(entry)]
        invariant slots == old(slots) && forall j: nat :: j < i ==> !Holds(slots, j, entry)
      {
        if i in slots && slots[i].token == token && slots[i].address == address {
          assert Holds(slots, i, entry);
          slots := slots - {i};
          break;
        }
      }
      return Ok(());
    }

    /** One page of the listing: the allowed entries from slot `offset` on, at most `limit` of them. A page
        that starts at the first slot and has room for all slots names exactly the allowed pairs. */
    method GetTokenAllowlist(offset: nat, limit: nat) returns (page: seq<Entry>)
      requires Valid()
      ensures var all := Listed(allowed, slots, offset, count);
        page == if |all| <= limit then all else all[..limit]
      ensures offset == 0 && limit >= count ==> Elements(page) == allowed
    {
      page := [];
      var collected, idx := 0, offset;
      while idx < count && collected < limit
        invariant offset <= idx && (idx <= count || idx == offset)
        invariant page == Listed(allowed, slots, offset, idx) && collected == |page| <= limit
        decreases count - idx
      {
        if idx in slots && slots[idx] in allowed {
          page := page + [slots[idx]];
          collected := collected + 1;
        }
        idx := idx + 1;
      }
      if idx <= count { ListedSplit(allowed, slots, offset, idx, count); }
      ListedLength(allowed, slots, offset, count);
      ghost var calls: seq<Call> :| Abs() == Run(EMPTY, calls);
      ListingOverRuns(calls);
    }
  }
}
