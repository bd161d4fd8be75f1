/** The migration of receipts to escrow records: called repeatedly by the administrator, each call
    copies a bounded batch and stores how far it came. */
module Migration {
  import opened Prelude
  import Escrow

  const ESCROW_STORAGE_VERSION: nat := 1

  /** What is read: the receipts, and the index from sequence numbers to receipts. Index entries are
      kept in temporary storage and may have been evicted. */
  datatype Source = Source(receipts: map<Escrow.ReceiptId, Escrow.Receipt>, index: map<nat, Escrow.ReceiptId>,
                           counter: nat, token: Address)
  {
    predicate Present(i: nat) { i in index && index[i] in receipts }
  }

  datatype EscrowRecord = EscrowRecord(
    version: nat, depositor: Address, token: Address, amount: int, ledger: nat, migrated: bool)

  datatype Progress = Progress(records: map<nat, EscrowRecord>, cursor: nat, version: nat)

  const START: Progress := Progress(map[], 0, 0)

  function RecordOf(src: Source, i: nat): EscrowRecord
    requires src.Present(i)
  {
    var r := src.receipts[src.index[i]];
    EscrowRecord(ESCROW_STORAGE_VERSION, r.depositor, src.token, r.amount, r.ledger, true)
  }

  /** The records of the receipts that are present in `lo .. hi`. */
  function Copy(src: Source, lo: nat, hi: nat): map<nat, EscrowRecord> {
    map i: nat | lo <= i < hi && src.Present(i) :: RecordOf(src, i)
  }

  function Found(src: Source, lo: nat, hi: nat): nat
    decreases hi
  {
    if lo >= hi then 0 else Found(src, lo, hi - 1) + (if src.Present(hi - 1) then 1 else 0)
  }

  /** Where a batch of `left` receipts from `id` on stops. */
  function Reach(src: Source, id: nat, left: nat): nat
    decreases src.counter - id
  {
    if id >= src.counter || left == 0 then id
    else Reach(src, id + 1, if src.Present(id) then left - 1 else left)
  }

  function Migrate(p: Progress, src: Source, admin: Option<Address>, signed: set<Address>,
                   batch: nat): Result<(Progress, nat)> {
    var end := Reach(src, p.cursor, batch);
    :- Need(admin.Some?, NotInitialized);
    :- Need(admin.value in signed, HostAbort);
    :- Need(p.version < ESCROW_STORAGE_VERSION, MigrationAlreadyComplete);
    Ok((Progress(p.records + Copy(src, p.cursor, end), end,
                 if end >= src.counter then ESCROW_STORAGE_VERSION else p.version),
        Found(src, p.cursor, end)))
  }

  // ---- runs ----

  datatype Call = Call(admin: Option<Address>, signed: set<Address>, batch: nat) {
    predicate Authorized() { admin.Some? && admin.value in signed }
  }

  function Next(p: Progress, src: Source, call: Call): (Progress, nat) {
    match Migrate(p, src, call.admin, call.signed, call.batch)
    case Ok(r) => r
    case Err(_) => (p, 0)
  }

  function Run(p: Progress, src: Source, calls: seq<Call>): Progress
    decreases |calls|
  {
    if calls == [] then p else Run(Next(p, src, calls[0]).0, src, calls[1..])
  }

  /** The sum of what the calls report to have copied. */
  function Reported(p: Progress, src: Source, calls: seq<Call>): nat
    decreases |calls|
  {
    if calls == [] then 0
    else Next(p, src, calls[0]).1 + Reported(Next(p, src, calls[0]).0, src, calls[1..])
  }

  /** The result of copying everything at once. */
  function OnePass(src: Source): Progress {
    Progress(Copy(src, 0, src.counter), src.counter, ESCROW_STORAGE_VERSION)
  }

  // ---- one batch ----

  lemma {:induction false} FoundFromLeft(src: Source, lo: nat, hi: nat)
    requires lo < hi
    ensures Found(src, lo, hi) == (if src.Present(lo) then 1 else 0) + Found(src, lo + 1, hi)
    decreases hi
  {
    if lo + 1 < hi { FoundFromLeft(src, lo, hi - 1); }
  }

  /** A batch stops at the end, or right after the last receipt it may copy. */
  lemma {:induction false} ReachIsExact(src: Source, id: nat, left: nat)
    requires id <= src.counter
    ensures var end := Reach(src, id, left);
      && id <= end <= src.counter
      && Found(src, id, end) <= left
      && (end < src.counter ==> Found(src, id, end) == left)
      && (end > id && Found(src, id, end) == left ==> src.Present(end - 1))
      && (left > 0 && id < src.counter ==> end > id)
    decreases src.counter - id
  {
    if id < src.counter && left > 0 {
      var rest := if src.Present(id) then left - 1 else left;
      ReachIsExact(src, id + 1, rest);
      FoundFromLeft(src, id, Reach(src, id, left));
    }
  }

  lemma CopyJoins(src: Source, lo: nat, mid: nat, hi: nat)
    requires lo <= mid <= hi
    ensures Copy(src, lo, mid) + Copy(src, mid, hi) == Copy(src, lo, hi)
  {
  }

  lemma CopyEnds(src: Source, lo: nat, i: nat)
    ensures i <= lo ==> Copy(src, lo, i) == map[] && Found(src, lo, i) == 0
    ensures i !in Copy(src, lo, i)
  {
  }

  lemma {:induction false} CopySize(src: Source, lo: nat, hi: nat)
    ensures |Copy(src, lo, hi)| == Found(src, lo, hi)
    decreases hi
  {
    hide Copy, Found, RecordOf;
    if lo >= hi {
      CopyEnds(src, lo, hi);
    } else {
      CopySize(src, lo, hi - 1);
      OneStep(src, lo, hi - 1);
      CopyEnds(src, lo, hi - 1);
    }
  }

  lemma {:induction false} FoundSplit(src: Source, lo: nat, mid: nat, hi: nat)
    requires lo <= mid <= hi
    ensures Found(src, lo, hi) == Found(src, lo, mid) + Found(src, mid, hi)
    decreases hi
  {
    if mid < hi { FoundSplit(src, lo, mid, hi - 1); }
  }

  // ---- all batches ----

  ghost predicate ProgressOk(p: Progress, src: Source) {
    && p.cursor <= src.counter
    && p.records == Copy(src, 0, p.cursor)
    && p.version <= ESCROW_STORAGE_VERSION
    && (p.version == ESCROW_STORAGE_VERSION ==> p.cursor == src.counter)
  }

  lemma NextKeeps(p: Progress, src: Source, call: Call)
    requires ProgressOk(p, src)
    ensures ProgressOk(Next(p, src, call).0, src)
    ensures |Next(p, src, call).0.records| == |p.records| + Next(p, src, call).1
    ensures call.Authorized() && call.batch > 0 && p.version == 0 ==>
      var p' := Next(p, src, call).0; p'.version == 1 || p.cursor < p'.cursor < src.counter
  {
    hide Found, Reach, Copy;
    if call.Authorized() && p.version == 0 {
      var end := Reach(src, p.cursor, call.batch);
      ReachIsExact(src, p.cursor, call.batch);
      CopyJoins(src, 0, p.cursor, end);
      CopySize(src, 0, p.cursor);
      CopySize(src, 0, end);
      FoundSplit(src, 0, p.cursor, end);
    }
  }

  lemma {:induction false} RunKeeps(p: Progress, src: Source, calls: seq<Call>)
    requires ProgressOk(p, src)
    ensures ProgressOk(Run(p, src, calls), src)
    ensures |Run(p, src, calls).records| == |p.records| + Reported(p, src, calls)
    decreases |calls|
  {
    hide Next, ProgressOk;
    if calls != [] {
      NextKeeps(p, src, calls[0]);
      RunKeeps(Next(p, src, calls[0]).0, src, calls[1..]);
    }
  }

  lemma StartsOk(src: Source)
    ensures ProgressOk(START, src)
  {
    assert Copy(src, 0, 0) == map[];
  }

  /** Whatever batches were used, zero and failing calls included: the records are those of one pass up
      to the cursor, every receipt was copied once (nothing was written twice), and when the version
      says that the migration is complete, the result is that of one pass over everything. */
  lemma BatchesEqualOnePass(src: Source, calls: seq<Call>)
    ensures var p := Run(START, src, calls);
      && p.cursor <= src.counter
      && p.records == Copy(src, 0, p.cursor)
      && |p.records| == Reported(START, src, calls)
      && (p.version >= ESCROW_STORAGE_VERSION ==> p == OnePass(src))
  {
    StartsOk(src);
    RunKeeps(START, src, calls);
  }

  /** Exactly when one call is enough: the batch has room for one more than the receipts there are, or
      for just those and nothing evicted follows the last of them. */
  lemma OneCallIsOnePassIff(src: Source, call: Call)
    requires call.Authorized()
    ensures Next(START, src, call) == (OnePass(src), Found(src, 0, src.counter)) <==>
      var found := Found(src, 0, src.counter);
      src.counter == 0 || call.batch > found || (call.batch == found && src.Present(src.counter - 1))
  {
    hide Reach, Copy;
    var end := Reach(src, 0, call.batch);
    ReachIsExact(src, 0, call.batch);
    FoundSplit(src, 0, end, src.counter);
    assert map[] + Copy(src, 0, end) == Copy(src, 0, end);
    if src.counter > 0 && src.Present(src.counter - 1) && end < src.counter {
      assert Found(src, end, src.counter) >= 1;
    }
  }

  /** Once the migration is complete, every receipt that the index still leads to has its record, under its sequence
      number, with its depositor, amount and ledger, and there are no other records. */
  lemma RecordsAreReceipts(src: Source, calls: seq<Call>, i: nat)
    ensures var p := Run(START, src, calls);
      p.version >= ESCROW_STORAGE_VERSION ==>
        && (i in p.records <==> i < src.counter && i in src.index && src.index[i] in src.receipts)
        && (i in p.records ==>
              var r := src.receipts[src.index[i]];
              p.records[i] == EscrowRecord(1, r.depositor, src.token, r.amount, r.ledger, true))
  {
    hide Run;
    BatchesEqualOnePass(src, calls);
  }

  /** A call is refused exactly without an administrator or its signature, or once the migration is complete. */
  lemma EveryCallIsDecided(p: Progress, src: Source, admin: Option<Address>, signed: set<Address>, batch: nat)
    ensures var r := Migrate(p, src, admin, signed, batch);
      && (r.Ok? <==> admin.Some? && admin.value in signed && p.version < 1)
      && (r.Err? ==> r.error == if admin == None then NotInitialized
                                else if admin.value !in signed then HostAbort
                                else MigrationAlreadyComplete)
  {
  }

  predicate AllPositive(calls: seq<Call>) {
    forall i :: 0 <= i < |calls| ==> calls[i].Authorized() && calls[i].batch > 0
  }

  /** Positive batches finish within as many calls as there are sequence numbers left, at least one. */
  lemma {:induction false} FinishesInTime(p: Progress, src: Source, calls: seq<Call>)
    requires ProgressOk(p, src) && AllPositive(calls)
    requires |calls| >= Max(1, src.counter - p.cursor)
    ensures Run(p, src, calls).version == ESCROW_STORAGE_VERSION
    decreases |calls|
  {
    hide Next;
    NextKeeps(p, src, calls[0]);
    var p' := Next(p, src, calls[0]).0;
    if p.version == ESCROW_STORAGE_VERSION {
      CompleteStays(p, src, calls);
    } else if p'.version == ESCROW_STORAGE_VERSION {
      CompleteStays(p', src, calls[1..]);
    } else {
      FinishesInTime(p', src, calls[1..]);
    }
  }

  lemma {:induction false} CompleteStays(p: Progress, src: Source, calls: seq<Call>)
    requires p.version >= ESCROW_STORAGE_VERSION
    ensures Run(p, src, calls) == p
    decreases |calls|
  {
    if calls != [] { CompleteStays(p, src, calls[1..]); }
  }

  lemma OneStep(src: Source, lo: nat, i: nat)
    requires lo <= i
    ensures Copy(src, lo, lo) == map[] && Found(src, lo, lo) == 0
    ensures Copy(src, lo, i + 1) == if src.Present(i) then Copy(src, lo, i)[i := RecordOf(src, i)] else Copy(src, lo, i)
    ensures Found(src, lo, i + 1) == Found(src, lo, i) + if src.Present(i) then 1 else 0
  {
    hide RecordOf;
  }

  /** Some calls lead to the progress. */
  ghost predicate IsReachable(p: Progress, src: Source) { exists calls: seq<Call> :: p == Run(START, src, calls) }

  lemma {:induction false} RunOneMore(p: Progress, src: Source, calls: seq<Call>, last: Call)
    ensures Run(p, src, calls + [last]) == Next(Run(p, src, calls), src, last).0
    decreases |calls|
  {
    hide Next;
    if calls == [] {
      assert [] + [last] == [last];
    } else {
      RunOneMore(Next(p, src, calls[0]).0, src, calls[1..], last);
      assert (calls + [last])[1..] == calls[1..] + [last];
    }
  }

  lemma StepIsReachable(p: Progress, src: Source, call: Call)
    requires IsReachable(p, src)
    ensures IsReachable(Next(p, src, call).0, src)
  {
    hide Next;
    var calls: seq<Call> :| p == Run(START, src, calls);
    RunOneMore(START, src, calls, call);
  }

  lemma StepAnswers(p: Progress, src: Source, admin: Option<Address>, signed: set<Address>, batch: nat)
    requires IsReachable(p, src)
    ensures var spec := Migrate(p, src, admin, signed, batch); spec.Ok? ==> IsReachable(spec.value.0, src)
  {
    hide IsReachable;
    StepIsReachable(p, src, Call.Call(admin, signed, batch));
  }

  lemma ReachableIsOk(p: Progress, src: Source)
    requires IsReachable(p, src)
    ensures p.cursor <= src.counter && (p.version >= ESCROW_STORAGE_VERSION ==> p == OnePass(src))
  {
    hide Next;
    var calls: seq<Call> :| p == Run(START, src, calls);
    BatchesEqualOnePass(src, calls);
  }

  lemma CursorFits(p: Progress, src: Source)
    requires IsReachable(p, src)
    ensures p.cursor <= src.counter
  {
    ReachableIsOk(p, src);
  }

  // ---- the entry points as methods on storage cells ----

  class Migrator {
    const src: Source

    var records: map<nat, EscrowRecord>
    var cursor: nat
    var version: nat

    ghost function Abs(): Progress
      reads this
    {
      Progress(records, cursor, version)
    }

    /** Calls from the start lead to the cells. */
    ghost predicate Valid()
      reads this
    {
      IsReachable(Abs(), src)
    }

    constructor (src: Source)
      ensures this.src == src && Valid() && Abs() == START
    {
      this.src := src;
      records, cursor, version := map[], 0, 0;
      new;
      assert Abs() == Run(START, src, []);
    }

    method MigrateEscrow(admin: Option<Address>, signed: set<Address>, batchSize: nat) returns (r: Result<nat>)
      requires Valid()
      modifies this
      ensures Valid()
      ensures var spec := Migrate(old(Abs()), src, admin, signed, batchSize);
        if spec.Ok? then Abs() == spec.value.0 && r == Ok(spec.value.1) else r == Err(spec.error) && Abs() == old(Abs())
    {
      hide IsReachable, Copy, Found, Reach;
      CursorFits(Abs(), src);
      StepAnswers(Abs(), src, admin, signed, batchSize);
      if admin == None { return Err(NotInitialized); }
      if admin.value !in signed { return Err(HostAbort); }
      if version >= ESCROW_STORAGE_VERSION { return Err(MigrationAlreadyComplete); }
      var migrated := CopyBatch(batchSize);
      if cursor >= src.counter { version := ESCROW_STORAGE_VERSION; }
      return Ok(migrated);
    }

    /** The loop of `migrate_escrow`. */
    method CopyBatch(batchSize: nat) returns (migrated: nat)
      requires cursor <= src.counter
      modifies this`records, this`cursor
      ensures cursor == Reach(src, old(cursor), batchSize)
      ensures records == old(records) + Copy(src, old(cursor), cursor)
      ensures migrated == Found(src, old(cursor), cursor)
    {
      var current := cursor;
      migrated := 0;
      OneStep(src, cursor, cursor);
      hide Copy, Found;
      while current < src.counter && migrated < batchSize
        invariant old(cursor) <= current <= src.counter && migrated <= batchSize
        invariant records == old(records) + Copy(src, old(cursor), current)
        invariant migrated == Found(src, old(cursor), current)
        invariant Reach(src, current, batchSize - migrated) == Reach(src, old(cursor), batchSize)
        decreases src.counter - current
      {
        OneStep(src, old(cursor), current);
        if current in src.index {
          var id := src.index[current];
          if id in src.receipts {
            var receipt := src.receipts[id];
            records := records[current :=
              EscrowRecord(ESCROW_STORAGE_VERSION, receipt.depositor, src.token, receipt.amount, receipt.ledger, true)];
            migrated := migrated + 1;
          }
        }
        current := current + 1;
      }
      cursor := current;
    }

    /** `get_escrow_record`: once the version is stored, exactly the present receipts have their record. */
    method GetEscrowRecord(id: nat) returns (r: Option<EscrowRecord>)
      requires Valid()
      ensures r == Find(records, id)
      ensures version >= ESCROW_STORAGE_VERSION && id < src.counter ==>
        r == if src.Present(id) then Some(RecordOf(src, id)) else None
    {
      ReachableIsOk(Abs(), src);
      r := if id in records then Some(records[id]) else None;
    }
  }
}
