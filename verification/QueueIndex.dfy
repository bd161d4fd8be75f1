/** The stored indexes of the withdrawal queue: its length and head, and both again for each risk
    tier. They are derived data; this module says when they agree with the queue and why the
    contract's updates keep them so. */
module QueueIndex {
  import opened Prelude
  import opened Sums
  import opened Escrow

  datatype Index = Index(len: nat, head: Option<nat>, tierLen: map<nat, int>, tierHead: map<nat, Option<nat>>)

  function Tier(queue: map<nat, Request>, t: nat): set<nat> {
    set id | id in queue && queue[id].riskTier == t
  }

  /** The least of the ids, or none when there is none. */
  ghost predicate IsHead(head: Option<nat>, ids: set<nat>) {
    match head
    case None => ids == {}
    case Some(h) => h in ids && forall id :: id in ids ==> h <= id
  }

  ghost predicate TierOk(x: Index, queue: map<nat, Request>, t: nat) {
    GetOr(x.tierLen, t, 0) == |Tier(queue, t)| && IsHead(GetOr(x.tierHead, t, None), Tier(queue, t))
  }

  ghost predicate TiersOk(x: Index, queue: map<nat, Request>) {
    forall t: nat :: TierOk(x, queue, t)
  }

  ghost predicate IndexOk(x: Index, queue: map<nat, Request>, nextId: nat) {
    && (forall id :: id in queue ==> id < nextId)
    && x.len == |queue|
    && IsHead(x.head, queue.Keys)
    && TiersOk(x, queue)
    && MapSum(x.tierLen) == x.len
  }

  function Enqueued(x: Index, id: nat, t: nat): Index {
    Index(
      x.len + 1,
      if x.len == 0 then Some(id) else x.head,
      x.tierLen[t := GetOr(x.tierLen, t, 0) + 1],
      if GetOr(x.tierLen, t, 0) == 0 then x.tierHead[t := Some(id)] else x.tierHead)
  }

  lemma EnqueueKeepsTier(x: Index, queue: map<nat, Request>, nextId: nat, r: Request, u: nat)
    requires (forall id :: id in queue ==> id < nextId) && TierOk(x, queue, u)
    ensures TierOk(Enqueued(x, nextId, r.riskTier), queue[nextId := r], u)
  {
    var queue' := queue[nextId := r];
    if u == r.riskTier {
      assert Tier(queue', u) == Tier(queue, u) + {nextId};
      if Tier(queue, u) != {} {
        assert GetOr(x.tierHead, u, None).Some?;
      }
    } else {
      assert Tier(queue', u) == Tier(queue, u);
    }
  }

  lemma EnqueueKeepsHead(head: Option<nat>, ids: set<nat>, nextId: nat)
    requires IsHead(head, ids) && forall id :: id in ids ==> id < nextId
    ensures IsHead(if |ids| == 0 then Some(nextId) else head, ids + {nextId})
  {
    if |ids| == 0 { assert ids == {}; }
  }

  lemma EnqueueKeepsTiers(x: Index, queue: map<nat, Request>, nextId: nat, r: Request)
    requires IndexOk(x, queue, nextId)
    ensures TiersOk(Enqueued(x, nextId, r.riskTier), queue[nextId := r])
  {
    hide IsHead, Enqueued;
    var x', queue' := Enqueued(x, nextId, r.riskTier), queue[nextId := r];
    forall u: nat
      ensures TierOk(x', queue', u)
    {
      assert TierOk(x, queue, u);
      EnqueueKeepsTier(x, queue, nextId, r, u);
    }
  }

  lemma EnqueueKeepsSum(x: Index, nextId: nat, t: nat)
    requires MapSum(x.tierLen) == x.len
    ensures MapSum(Enqueued(x, nextId, t).tierLen) == x.len + 1
  {
    MapSumUpdate(x.tierLen, t, GetOr(x.tierLen, t, 0) + 1);
  }

  lemma EnqueueKeepsIndex(x: Index, queue: map<nat, Request>, nextId: nat, r: Request)
    requires IndexOk(x, queue, nextId)
    ensures IndexOk(Enqueued(x, nextId, r.riskTier), queue[nextId := r], nextId + 1)
  {
    hide TiersOk, IsHead, MapSum;
    EnqueueKeepsTiers(x, queue, nextId, r);
    EnqueueKeepsSum(x, nextId, r.riskTier);
    EnqueueKeepsHead(x.head, queue.Keys, nextId);
    assert queue[nextId := r].Keys == queue.Keys + {nextId};
  }

  /** The index while a request is being removed: lengths are already down, heads still to be advanced. */
  ghost predicate Removing(x: Index, queue: map<nat, Request>, nextId: nat, id: nat, t: nat) {
    && id < nextId && id !in queue
    && (forall i :: i in queue ==> i < nextId)
    && x.len == |queue|
    && MapSum(x.tierLen) == x.len
    && GetOr(x.tierLen, t, 0) == |Tier(queue, t)|
    && (forall u: nat :: u != t ==> TierOk(x, queue, u))
  }

  lemma RemoveKeepsLengths(x: Index, queue: map<nat, Request>, nextId: nat, id: nat)
    requires IndexOk(x, queue, nextId) && id in queue
    ensures x.len > 0 && GetOr(x.tierLen, queue[id].riskTier, 0) > 0
    ensures var t := queue[id].riskTier;
      var x' := x.(len := x.len - 1, tierLen := x.tierLen[t := GetOr(x.tierLen, t, 0) - 1]);
      && Removing(x', queue - {id}, nextId, id, t)
      && IsHead(x.head, (queue - {id}).Keys + {id})
      && IsHead(GetOr(x.tierHead, t, None), Tier(queue - {id}, t) + {id})
  {
    var t, queue' := queue[id].riskTier, queue - {id};
    var x' := x.(len := x.len - 1, tierLen := x.tierLen[t := GetOr(x.tierLen, t, 0) - 1]);
    assert TierOk(x, queue, t);
    assert id in Tier(queue, t);
    assert queue'.Keys + {id} == queue.Keys;
    assert Tier(queue', t) + {id} == Tier(queue, t);
    MapSumUpdate(x.tierLen, t, GetOr(x.tierLen, t, 0) - 1);
    forall u: nat | u != t
      ensures TierOk(x', queue', u)
    {
      assert TierOk(x, queue, u);
      assert Tier(queue', u) == Tier(queue, u);
    }
  }

  /** Once both heads are advanced the index agrees with the queue again. */
  lemma RemovalDone(x: Index, x': Index, queue: map<nat, Request>, nextId: nat, id: nat, t: nat)
    requires Removing(x, queue, nextId, id, t)
    requires x'.len == x.len && x'.tierLen == x.tierLen
    requires forall u: nat :: u != t ==> GetOr(x'.tierHead, u, None) == GetOr(x.tierHead, u, None)
    requires IsHead(x'.head, queue.Keys) && IsHead(GetOr(x'.tierHead, t, None), Tier(queue, t))
    ensures IndexOk(x', queue, nextId)
  {
    forall u: nat
      ensures TierOk(x', queue, u)
    {
      if u != t { assert TierOk(x, queue, u); }
    }
  }

  /** Changing only the amount of a live request does not touch the index. */
  lemma ShrinkKeepsIndex(x: Index, queue: map<nat, Request>, nextId: nat, id: nat, amount: int)
    requires IndexOk(x, queue, nextId) && id in queue
    ensures IndexOk(x, queue[id := queue[id].(amount := amount)], nextId)
  {
    var queue' := queue[id := queue[id].(amount := amount)];
    assert queue'.Keys == queue.Keys;
    forall u: nat
      ensures TierOk(x, queue', u)
    {
      assert TierOk(x, queue, u);
      assert Tier(queue', u) == Tier(queue, u);
    }
  }

  // ---- selection by priority ----

  /** The live request with the least (tier, id) among tiers up to `maxTier`, or none if there is none. */
  ghost predicate IsNextPriority(queue: map<nat, Request>, maxTier: nat, r: Option<nat>) {
    match r
    case None => forall id :: id in queue ==> queue[id].riskTier > maxTier
    case Some(best) =>
      && best in queue && queue[best].riskTier <= maxTier
      && forall id :: id in queue && queue[id].riskTier <= maxTier ==>
           queue[best].riskTier < queue[id].riskTier || (queue[best].riskTier == queue[id].riskTier && best <= id)
  }

  /** The head was queued no later than any live request. */
  lemma HeadIsOldest(queue: map<nat, Request>, head: nat)
    requires IsHead(Some(head), queue.Keys)
    requires forall i, j :: i in queue && j in queue && i < j ==> queue[i].queuedLedger <= queue[j].queuedLedger
    ensures forall id :: id in queue ==> queue[head].queuedLedger <= queue[id].queuedLedger
  {
  }
}
