/** The multisig protocol: signers fixed at initialization propose, approve and revoke; anybody may
    execute a proposal that has enough approvals. */
module Multisig {
  import opened Prelude
  import opened Lists

  const MAX_SIGNERS: nat := 20
  const MAX_BPS: nat := 10_000

  type Byte = x: int | 0 <= x < 256

  /** A `BatchAdminOp`: the name of a setting and its encoded value. */
  datatype Action = Action(opType: string, payload: seq<Byte>)

  datatype Proposal = Proposal(creator: Address, action: Action, approvals: seq<Address>, executed: bool,
                               createdAt: nat)

  /** The settings an action can change. */
  datatype Settings = Settings(
    cooldown: nat, lockPeriod: nat, quota: int, antiSandwich: nat, slippageThreshold: nat, paused: bool)

  /** What happened, for claims about whole runs. */
  datatype Event =
    | Voted(id: nat, signer: Address)
    | Unvoted(id: nat, signer: Address)
    | Applied(id: nat, action: Action)
    | Changed(settings: Settings)

  datatype Board = Board(
    signers: seq<Address>, threshold: nat, nextId: nat, proposals: map<nat, Proposal>,
    settings: Settings, history: seq<Event>)

  // ---- payloads ----

  function BigEndian(bytes: seq<Byte>): nat {
    if bytes == [] then 0 else 256 * BigEndian(bytes[..|bytes| - 1]) + bytes[|bytes| - 1]
  }

  const TWO_128: int := 0x1_0000_0000_0000_0000_0000_0000_0000_0000

  function DecodeU32(bytes: seq<Byte>): Result<nat> {
    if |bytes| < 4 then Err(InternalError) else Ok(BigEndian(bytes[..4]))
  }

  /** Two's complement. */
  function DecodeI128(bytes: seq<Byte>): Result<int> {
    if |bytes| < 16 then Err(InternalError)
    else
      var raw := BigEndian(bytes[..16]);
      Ok(if raw > I128_MAX then raw - TWO_128 else raw)
  }

  function ToBytes(n: nat, width: nat): seq<Byte> {
    if width == 0 then [] else ToBytes(n / 256, width - 1) + [n % 256]
  }

  function Power256(width: nat): nat { if width == 0 then 1 else 256 * Power256(width - 1) }

  lemma {:induction false} BytesRoundTrip(n: nat, width: nat)
    requires n < Power256(width)
    ensures |ToBytes(n, width)| == width && BigEndian(ToBytes(n, width)) == n
  {
    if width > 0 {
      BytesRoundTrip(n / 256, width - 1);
      assert ToBytes(n, width)[..width - 1] == ToBytes(n / 256, width - 1);
    }
  }

  lemma WidthOf(width: nat)
    ensures width == 4 ==> Power256(width) == U32_MAX + 1
    ensures width == 16 ==> Power256(width) == TWO_128
  {
    assert Power256(4) == U32_MAX + 1;
    assert Power256(8) == 0x1_0000_0000 * Power256(4);
    assert Power256(12) == 0x1_0000_0000 * Power256(8);
    assert Power256(16) == 0x1_0000_0000 * Power256(12);
  }

  function TwosComplement(x: I128): nat { if x < 0 then x + TWO_128 else x }

  lemma {:induction false} BytesAreANumber(bytes: seq<Byte>)
    ensures BigEndian(bytes) < Power256(|bytes|) && ToBytes(BigEndian(bytes), |bytes|) == bytes
  {
    if bytes != [] {
      var init := bytes[..|bytes| - 1];
      BytesAreANumber(init);
      assert BigEndian(bytes) / 256 == BigEndian(init) && BigEndian(bytes) % 256 == bytes[|bytes| - 1];
      assert bytes == init + [bytes[|bytes| - 1]];
    }
  }

  /** Every payload that is long enough starts with the encoding of exactly the value that is read from it. */
  lemma PayloadsAreRead(payload: seq<Byte>)
    ensures if |payload| < 4 then DecodeU32(payload) == Err(InternalError)
            else
              var r := DecodeU32(payload);
              r.Ok? && r.value <= U32_MAX && ToBytes(r.value, 4) == payload[..4]
    ensures if |payload| < 16 then DecodeI128(payload) == Err(InternalError)
            else
              var r := DecodeI128(payload);
              r.Ok? && FitsI128(r.value) && ToBytes(TwosComplement(r.value), 16) == payload[..16]
  {
    hide BigEndian, ToBytes, Power256;
    WidthOf(4);
    WidthOf(16);
    if |payload| >= 4 { BytesAreANumber(payload[..4]); }
    if |payload| >= 16 { BytesAreANumber(payload[..16]); }
  }

  /** Every `u32` and every `i128`, negative ones included, survives its encoding; bytes after the
      value are ignored. */
  lemma PayloadRoundTrip(ledgers: U32, quota: I128, rest: seq<Byte>)
    ensures DecodeU32(ToBytes(ledgers, 4) + rest) == Ok(ledgers)
    ensures DecodeI128(ToBytes(TwosComplement(quota), 16) + rest) == Ok(quota)
  {
    WidthOf(4);
    WidthOf(16);
    var raw := TwosComplement(quota);
    BytesRoundTrip(ledgers, 4);
    BytesRoundTrip(raw, 16);
    assert (ToBytes(ledgers, 4) + rest)[..4] == ToBytes(ledgers, 4);
    assert (ToBytes(raw, 16) + rest)[..16] == ToBytes(raw, 16);
  }

  /** `execute_single_admin_op`. */
  function Perform(settings: Settings, action: Action): Result<Settings> {
    var name := action.opType;
    if name == "set_cooldown" then
      var ledgers :- DecodeU32(action.payload);
      Ok(settings.(cooldown := ledgers))
    else if name == "set_lock" then
      var ledgers :- DecodeU32(action.payload);
      Ok(settings.(lockPeriod := ledgers))
    else if name == "set_quota" then
      var quota :- DecodeI128(action.payload);
      Ok(settings.(quota := quota))
    else if name == "set_sandwich" then
      var ledgers :- DecodeU32(action.payload);
      Ok(settings.(antiSandwich := ledgers))
    else if name == "set_slippage_threshold" then
      var bps :- DecodeU32(action.payload);
      :- Need(bps <= MAX_BPS, SlippageTooHigh);
      Ok(settings.(slippageThreshold := bps))
    else if name == "pause" then Ok(settings.(paused := true))
    else if name == "unpause" then Ok(settings.(paused := false))
    else Err(InternalError)
  }

  /** What became of the settings is what the action says: the named cell has the value the payload encodes, every
      other cell is the old one. */
  ghost predicate TookEffect(s: Settings, s': Settings, a: Action) {
    var name, p := a.opType, a.payload;
    || (name == "pause" && s' == s.(paused := true))
    || (name == "unpause" && s' == s.(paused := false))
    || (name == "set_quota" && |p| >= 16 && FitsI128(s'.quota) && s' == s.(quota := s'.quota)
        && ToBytes(TwosComplement(s'.quota), 16) == p[..16])
    || (|p| >= 4 && (
          || (name == "set_cooldown" && s' == s.(cooldown := s'.cooldown) && ToBytes(s'.cooldown, 4) == p[..4])
          || (name == "set_lock" && s' == s.(lockPeriod := s'.lockPeriod) && ToBytes(s'.lockPeriod, 4) == p[..4])
          || (name == "set_sandwich" && s' == s.(antiSandwich := s'.antiSandwich)
              && ToBytes(s'.antiSandwich, 4) == p[..4])
          || (name == "set_slippage_threshold" && s' == s.(slippageThreshold := s'.slippageThreshold)
              && s'.slippageThreshold <= 10_000 && ToBytes(s'.slippageThreshold, 4) == p[..4])))
  }

  lemma PerformTakesEffect(s: Settings, a: Action)
    requires Perform(s, a).Ok?
    ensures TookEffect(s, Perform(s, a).value, a)
  {
    hide DecodeU32, DecodeI128, ToBytes;
    PayloadsAreRead(a.payload);
  }

  // ---- entry points ----

  predicate SignersOk(signers: seq<Address>, threshold: nat) {
    |signers| <= MAX_SIGNERS && 1 <= threshold <= |signers| && Distinct(signers)
  }

  function Start(signers: seq<Address>, threshold: nat, settings: Settings): Board {
    Board(signers, threshold, 0, map[], settings, [])
  }

  function Propose(b: Board, signed: set<Address>, ledger: nat, proposer: Address, action: Action): Result<Board> {
    var proposal := Proposal(proposer, action, [proposer], false, ledger);
    :- Need(proposer in signed, HostAbort);
    :- Need(proposer in b.signers, Unauthorized);
    :- Need(b.nextId + 1 <= U64_MAX, HostAbort);
    Ok(b.(nextId := b.nextId + 1, proposals := b.proposals[b.nextId := proposal],
          history := b.history + [Voted(b.nextId, proposer)]))
  }

  /** A proposal that can still change. */
  function Open(b: Board, id: nat): Result<Proposal> {
    if id !in b.proposals then Err(ProposalNotFound)
    else if b.proposals[id].executed then Err(ProposalAlreadyExecuted)
    else Ok(b.proposals[id])
  }

  function Approve(b: Board, signed: set<Address>, signer: Address, id: nat): Result<Board> {
    var open := Open(b, id);
    :- Need(signer in signed, HostAbort);
    :- Need(signer in b.signers, Unauthorized);
    var p :- open;
    :- Need(signer !in p.approvals, AlreadyApproved);
    Ok(b.(proposals := b.proposals[id := p.(approvals := p.approvals + [signer])],
          history := b.history + [Voted(id, signer)]))
  }

  function FirstIndex(s: seq<Address>, a: Address): (i: nat)
    requires a in s
    ensures i < |s| && s[i] == a && a !in s[..i]
  {
    if s[0] == a then 0 else 1 + FirstIndex(s[1..], a)
  }

  function Revoke(b: Board, signed: set<Address>, signer: Address, id: nat): Result<Board> {
    var open := Open(b, id);
    :- Need(signer in signed, HostAbort);
    var p :- open;
    if signer !in p.approvals then Err(SignerNotFound)
    else Ok(b.(proposals := b.proposals[id := p.(approvals := RemoveAt(p.approvals, FirstIndex(p.approvals, signer)))],
               history := b.history + [Unvoted(id, signer)]))
  }

  function Execute(b: Board, id: nat): Result<Board> {
    var open := Open(b, id);
    var p :- open;
    :- Need(|p.approvals| >= b.threshold, ThresholdNotMet);
    var settings :- Perform(b.settings, p.action);
    Ok(b.(proposals := b.proposals[id := p.(executed := true)], settings := settings,
          history := b.history + [Applied(id, p.action)]))
  }

  // ---- runs ----

  datatype Call =
    | CallPropose(signed: set<Address>, ledger: nat, proposer: Address, action: Action)
    | CallApprove(signed: set<Address>, signer: Address, id: nat)
    | CallRevoke(signed: set<Address>, signer: Address, id: nat)
    | CallExecute(id: nat)
    | CallConfigure(settings: Settings)  // the administrator's own setters

  function Step(b: Board, call: Call): Result<Board> {
    match call
    case CallPropose(signed, ledger, proposer, action) => Propose(b, signed, ledger, proposer, action)
    case CallApprove(signed, signer, id) => Approve(b, signed, signer, id)
    case CallRevoke(signed, signer, id) => Revoke(b, signed, signer, id)
    case CallExecute(id) => Execute(b, id)
    case CallConfigure(settings) => Ok(b.(settings := settings, history := b.history + [Changed(settings)]))
  }

  function Next(b: Board, call: Call): Board {
    match Step(b, call) case Ok(b') => b' case Err(_) => b
  }

  function Run(b: Board, calls: seq<Call>): Board
    decreases |calls|
  {
    if calls == [] then b else Run(Next(b, calls[0]), calls[1..])
  }

  // ---- what the history says, without looking at any proposal ----

  /** Who supports proposal `id` after `h`: whoever voted and did not take the vote back since. */
  function Supporters(h: seq<Event>, id: nat): set<Address> {
    if h == [] then {}
    else
      var before, e := Supporters(h[..|h| - 1], id), h[|h| - 1];
      if e.Voted? && e.id == id then before + {e.signer}
      else if e.Unvoted? && e.id == id then before - {e.signer}
      else before
  }

  /** The settings after `h`: the administrator's changes and the applied actions, one after the other. */
  function Replay(initial: Settings, h: seq<Event>): Settings {
    if h == [] then initial
    else
      var before, e := Replay(initial, h[..|h| - 1]), h[|h| - 1];
      if e.Changed? then e.settings
      else if e.Applied? && Perform(before, e.action).Ok? then Perform(before, e.action).value
      else before
  }

  predicate AppliesAt(h: seq<Event>, k: nat, id: nat) { k < |h| && h[k].Applied? && h[k].id == id }

  /** An applied action had, at that moment, the support of at least `threshold` signers, had not been
      applied before, and could be performed. */
  predicate Sanctioned(h: seq<Event>, k: nat, signers: seq<Address>, threshold: nat, initial: Settings)
    requires k < |h|
  {
    h[k].Applied? ==>
      && Supporters(h[..k], h[k].id) <= Elements(signers)
      && |Supporters(h[..k], h[k].id)| >= threshold
      && Perform(Replay(initial, h[..k]), h[k].action).Ok?
      && forall j: nat :: j < k ==> !AppliesAt(h, j, h[k].id)
  }

  ghost predicate ProposalOk(b: Board, id: nat)
    requires id in b.proposals
  {
    var p := b.proposals[id];
    && id < b.nextId
    && Distinct(p.approvals) && Elements(p.approvals) == Supporters(b.history, id)
        && Elements(p.approvals) <= Elements(b.signers)
    && (p.executed <==> exists k: nat :: AppliesAt(b.history, k, id))
    && forall k: nat :: AppliesAt(b.history, k, id) ==> b.history[k].action == p.action
  }

  ghost predicate BoardOk(b: Board, initial: Settings) {
    && (forall id :: id in b.proposals ==> ProposalOk(b, id))
    && (forall id: nat :: id !in b.proposals ==> Supporters(b.history, id) == {})
    && (forall id: nat, k: nat :: AppliesAt(b.history, k, id) ==> id in b.proposals)
    && (forall k: nat :: k < |b.history| ==> Sanctioned(b.history, k, b.signers, b.threshold, initial))
    && b.settings == Replay(initial, b.history)
  }

  // ---- one more event ----

  lemma SanctionedLater(h: seq<Event>, e: Event, signers: seq<Address>, threshold: nat, initial: Settings)
    requires forall k: nat :: k < |h| ==> Sanctioned(h, k, signers, threshold, initial)
    ensures forall k: nat :: k < |h| ==> Sanctioned(h + [e], k, signers, threshold, initial)
  {
    forall k: nat | k < |h|
      ensures Sanctioned(h + [e], k, signers, threshold, initial)
    {
      assert Sanctioned(h, k, signers, threshold, initial);
      assert (h + [e])[..k] == h[..k];
      forall j: nat | j < k && h[k].Applied?
        ensures !AppliesAt(h + [e], j, h[k].id)
      {
        assert !AppliesAt(h, j, h[k].id);
      }
    }
  }

  /** An event that applies nothing leaves what was applied as it was. */
  lemma AppliesLater(h: seq<Event>, e: Event)
    ensures forall k: nat, id: nat :: AppliesAt(h, k, id) ==> AppliesAt(h + [e], k, id)
    ensures forall k: nat, id: nat :: AppliesAt(h + [e], k, id) ==>
        AppliesAt(h, k, id) || (k == |h| && e == Applied(id, e.action))
  {
    forall k: nat, id: nat | AppliesAt(h + [e], k, id)
      ensures AppliesAt(h, k, id) || (k == |h| && e == Applied(id, e.action))
    {
      if k == |h| { assert (h + [e])[k] == e; }
    }
  }

  lemma VoteKeeps(b: Board, n: nat, id: nat, p: Proposal, e: Event, initial: Settings)
    requires BoardOk(b, initial) && b.nextId <= n && id < n
    requires (e.Voted? || e.Unvoted?) && e.id == id
    requires !p.executed && (id in b.proposals ==> !b.proposals[id].executed)
    requires Distinct(p.approvals) && Elements(p.approvals) <= Elements(b.signers)
    requires Elements(p.approvals) == Supporters(b.history + [e], id)
    ensures BoardOk(b.(nextId := n, proposals := b.proposals[id := p], history := b.history + [e]), initial)
  {
    hide Perform, Elements;
    var b' := b.(nextId := n, proposals := b.proposals[id := p], history := b.history + [e]);
    assert b'.history[..|b.history|] == b.history;
    SanctionedLater(b.history, e, b.signers, b.threshold, initial);
    AppliesLater(b.history, e);
    forall i | i in b'.proposals
      ensures ProposalOk(b', i)
    {
      if i == id {
        assert id in b.proposals ==> ProposalOk(b, id);
        assert forall k: nat :: !AppliesAt(b.history, k, id);
      } else {
        assert ProposalOk(b, i);
      }
    }
  }

  lemma ApplyKeeps(b: Board, id: nat, initial: Settings)
    requires BoardOk(b, initial) && Execute(b, id).Ok?
    ensures BoardOk(Execute(b, id).value, initial)
  {
    hide Perform, Elements, Distinct;
    var p, b' := b.proposals[id], Execute(b, id).value;
    var n := |b.history|;
    assert ProposalOk(b, id);
    assert b'.history[..n] == b.history && b'.history[n] == Applied(id, p.action);
    DistinctCount(p.approvals);
    SanctionedLater(b.history, b'.history[n], b.signers, b.threshold, initial);
    AppliesLater(b.history, b'.history[n]);
    assert AppliesAt(b'.history, n, id);
    forall i | i in b'.proposals
      ensures ProposalOk(b', i)
    {
      assert ProposalOk(b, i);
    }
    assert Sanctioned(b'.history, n, b.signers, b.threshold, initial);
  }

  lemma ConfigureKeeps(b: Board, settings: Settings, initial: Settings)
    requires BoardOk(b, initial)
    ensures BoardOk(b.(settings := settings, history := b.history + [Changed(settings)]), initial)
  {
    hide Perform, Elements, Distinct;
    var b' := b.(settings := settings, history := b.history + [Changed(settings)]);
    assert b'.history[..|b.history|] == b.history;
    SanctionedLater(b.history, Changed(settings), b.signers, b.threshold, initial);
    AppliesLater(b.history, Changed(settings));
    forall i | i in b'.proposals
      ensures ProposalOk(b', i)
    {
      assert ProposalOk(b, i);
    }
  }

  lemma StepKeeps(b: Board, call: Call, initial: Settings)
    requires BoardOk(b, initial) && Step(b, call).Ok?
    ensures BoardOk(Step(b, call).value, initial)
  {
    hide Perform, BoardOk;
    match call
    case CallPropose(signed, ledger, proposer, action) =>
      ProposeKeeps(b, signed, ledger, proposer, action, initial);
    case CallApprove(signed, signer, id) => ApproveKeeps(b, signed, signer, id, initial);
    case CallRevoke(signed, signer, id) => RevokeKeeps(b, signed, signer, id, initial);
    case CallExecute(id) => ApplyKeeps(b, id, initial);
    case CallConfigure(settings) => ConfigureKeeps(b, settings, initial);
  }

  lemma ProposeKeeps(b: Board, signed: set<Address>, ledger: nat, proposer: Address, action: Action, initial: Settings)
    requires BoardOk(b, initial) && Propose(b, signed, ledger, proposer, action).Ok?
    ensures BoardOk(Propose(b, signed, ledger, proposer, action).value, initial)
  {
    hide Perform;
    var e := Voted(b.nextId, proposer);
    assert b.nextId !in b.proposals;
    assert (b.history + [e])[..|b.history|] == b.history;
    VoteKeeps(b, b.nextId + 1, b.nextId, Proposal(proposer, action, [proposer], false, ledger), e, initial);
  }

  lemma ApproveKeeps(b: Board, signed: set<Address>, signer: Address, id: nat, initial: Settings)
    requires BoardOk(b, initial) && Approve(b, signed, signer, id).Ok?
    ensures BoardOk(Approve(b, signed, signer, id).value, initial)
  {
    hide Perform;
    var p, e := b.proposals[id], Voted(id, signer);
    assert ProposalOk(b, id);
    assert (b.history + [e])[..|b.history|] == b.history;
    VoteKeeps(b, b.nextId, id, p.(approvals := p.approvals + [signer]), e, initial);
  }

  lemma RevokeKeeps(b: Board, signed: set<Address>, signer: Address, id: nat, initial: Settings)
    requires BoardOk(b, initial) && Revoke(b, signed, signer, id).Ok?
    ensures BoardOk(Revoke(b, signed, signer, id).value, initial)
  {
    hide Perform;
    var p, e := b.proposals[id], Unvoted(id, signer);
    var at := FirstIndex(p.approvals, signer);
    assert ProposalOk(b, id);
    assert (b.history + [e])[..|b.history|] == b.history;
    RemoveAtKeeps(p.approvals, at);
    VoteKeeps(b, b.nextId, id, p.(approvals := RemoveAt(p.approvals, at)), e, initial);
  }

  lemma StepKeepsSigners(b: Board, call: Call)
    requires Step(b, call).Ok?
    ensures Step(b, call).value.signers == b.signers && Step(b, call).value.threshold == b.threshold
  {
    hide Perform;
  }

  lemma {:induction false} RunKeeps(b: Board, calls: seq<Call>, initial: Settings)
    requires BoardOk(b, initial)
    ensures BoardOk(Run(b, calls), initial)
    ensures Run(b, calls).signers == b.signers && Run(b, calls).threshold == b.threshold
    decreases |calls|
  {
    hide Step, BoardOk;
    if calls != [] {
      if Step(b, calls[0]).Ok? {
        StepKeeps(b, calls[0], initial);
        StepKeepsSigners(b, calls[0]);
      }
      RunKeeps(Next(b, calls[0]), calls[1..], initial);
    }
  }

  // ---- main results ----

  lemma StartOk(signers: seq<Address>, threshold: nat, initial: Settings)
    ensures BoardOk(Start(signers, threshold, initial), initial)
  {
  }

  /** Whatever calls were made, in whatever order: an action that took effect is the one proposed under
      its id, had at that moment the support of at least `threshold` of the initial signers, never took
      effect before or after, and set exactly the cell it names; and together with the administrator's
      own changes these actions explain every setting. */
  lemma SafeOverRuns(signers: seq<Address>, threshold: nat, initial: Settings, calls: seq<Call>)
    ensures var b := Run(Start(signers, threshold, initial), calls);
      && (forall k: nat :: k < |b.history| ==> Sanctioned(b.history, k, signers, threshold, initial))
      && (forall j: nat, k: nat, id: nat :: AppliesAt(b.history, j, id) && AppliesAt(b.history, k, id) ==> j == k)
      && (forall k: nat, id: nat :: AppliesAt(b.history, k, id) ==>
            id in b.proposals && b.proposals[id].action == b.history[k].action)
      && (forall k: nat :: k < |b.history| && b.history[k].Applied? ==>
            TookEffect(Replay(initial, b.history[..k]), Replay(initial, b.history[..k + 1]), b.history[k].action))
      && b.settings == Replay(initial, b.history)
  {
    hide Step, Perform, Supporters, Elements, Distinct, TookEffect;
    StartOk(signers, threshold, initial);
    RunKeeps(Start(signers, threshold, initial), calls, initial);
    var b := Run(Start(signers, threshold, initial), calls);
    forall j: nat, k: nat, id: nat | AppliesAt(b.history, j, id) && AppliesAt(b.history, k, id)
      ensures j == k
    {
      assert Sanctioned(b.history, j, signers, threshold, initial);
      assert Sanctioned(b.history, k, signers, threshold, initial);
    }
    forall k: nat | k < |b.history| && b.history[k].Applied?
      ensures TookEffect(Replay(initial, b.history[..k]), Replay(initial, b.history[..k + 1]), b.history[k].action)
    {
      assert Sanctioned(b.history, k, signers, threshold, initial);
      assert b.history[..k + 1][..k] == b.history[..k];
      PerformTakesEffect(Replay(initial, b.history[..k]), b.history[k].action);
    }
    forall k: nat, id: nat | AppliesAt(b.history, k, id)
      ensures id in b.proposals && b.proposals[id].action == b.history[k].action
    {
      assert ProposalOk(b, id);
    }
  }

  /** What was proposed under an id, by whom and when, never changes. */
  predicate SameProposal(p: Proposal, q: Proposal) {
    p.creator == q.creator && p.action == q.action && p.createdAt == q.createdAt
  }

  lemma {:induction false} ProposalStays(b: Board, calls: seq<Call>, id: nat)
    requires id in b.proposals && id < b.nextId
    ensures id in Run(b, calls).proposals && SameProposal(b.proposals[id], Run(b, calls).proposals[id])
    decreases |calls|
  {
    hide Perform, RemoveAt;
    if calls != [] {
      ProposalStays(Next(b, calls[0]), calls[1..], id);
    }
  }

  /** A proposal keeps its action, its creator and its date through any calls. */
  lemma ProposalsAreFixed(signers: seq<Address>, threshold: nat, initial: Settings, before: seq<Call>,
                          after: seq<Call>, id: nat)
    requires id in Run(Start(signers, threshold, initial), before).proposals
    ensures var b := Run(Start(signers, threshold, initial), before);
      id in Run(b, after).proposals && SameProposal(b.proposals[id], Run(b, after).proposals[id])
  {
    hide Step, Perform, Run;
    StartOk(signers, threshold, initial);
    RunKeeps(Start(signers, threshold, initial), before, initial);
    var b := Run(Start(signers, threshold, initial), before);
    assert ProposalOk(b, id);
    ProposalStays(b, after, id);
  }

  /** At any time the approvals stored in a proposal are duplicate-free, are signers, and are exactly
      those who voted for it and did not take the vote back. */
  lemma ApprovalsOverRuns(signers: seq<Address>, threshold: nat, initial: Settings, calls: seq<Call>, id: nat)
    requires id in Run(Start(signers, threshold, initial), calls).proposals
    ensures var b := Run(Start(signers, threshold, initial), calls);
      var approvals := b.proposals[id].approvals;
      && Distinct(approvals)
      && Elements(approvals) <= Elements(signers)
      && Elements(approvals) == Supporters(b.history, id)
  {
    hide Step, Perform, Supporters, Elements, Distinct;
    StartOk(signers, threshold, initial);
    RunKeeps(Start(signers, threshold, initial), calls, initial);
    assert ProposalOk(Run(Start(signers, threshold, initial), calls), id);
  }

  /** Execution succeeds exactly when the proposal exists, was never applied, has enough supporters now,
      and its action decodes. */
  lemma ExecuteSucceedsIff(signers: seq<Address>, threshold: nat, initial: Settings, calls: seq<Call>, id: nat)
    ensures var b := Run(Start(signers, threshold, initial), calls);
      Execute(b, id).Ok? <==>
        && id in b.proposals
        && (forall k: nat :: !AppliesAt(b.history, k, id))
        && |Supporters(b.history, id)| >= threshold
        && Perform(b.settings, b.proposals[id].action).Ok?
  {
    hide Run, Step, Perform, Supporters, Elements, Distinct, Sanctioned;
    var b := Run(Start(signers, threshold, initial), calls);
    StartOk(signers, threshold, initial);
    RunKeeps(Start(signers, threshold, initial), calls, initial);
    if id in b.proposals {
      assert ProposalOk(b, id);
      DistinctCount(b.proposals[id].approvals);
    }
  }

  lemma {:induction false} ExecutedStays(b: Board, calls: seq<Call>, id: nat)
    requires id in b.proposals && b.proposals[id].executed && id < b.nextId
    ensures id in Run(b, calls).proposals && Run(b, calls).proposals[id] == b.proposals[id]
    decreases |calls|
  {
    hide Perform, RemoveAt;
    if calls != [] {
      ExecutedStays(Next(b, calls[0]), calls[1..], id);
    }
  }

  /** An executed proposal never changes again, whatever is called after it. */
  lemma ExecutedIsFinal(signers: seq<Address>, threshold: nat, initial: Settings, before: seq<Call>,
                        after: seq<Call>, id: nat)
    requires var b := Run(Start(signers, threshold, initial), before); id in b.proposals && b.proposals[id].executed
    ensures var b := Run(Start(signers, threshold, initial), before);
      id in Run(b, after).proposals && Run(b, after).proposals[id] == b.proposals[id]
  {
    hide Step, Perform, Run;
    StartOk(signers, threshold, initial);
    RunKeeps(Start(signers, threshold, initial), before, initial);
    var b := Run(Start(signers, threshold, initial), before);
    assert ProposalOk(b, id);
    ExecutedStays(b, after, id);
  }

  /** Some initial settings and some calls lead to the board. */
  ghost predicate IsReachable(b: Board) {
    && SignersOk(b.signers, b.threshold)
    && exists initial: Settings, calls: seq<Call> :: b == Run(Start(b.signers, b.threshold, initial), calls)
  }

  lemma {:induction false} RunOneMore(b: Board, calls: seq<Call>, last: Call)
    ensures Run(b, calls + [last]) == Next(Run(b, calls), last)
    decreases |calls|
  {
    hide Step;
    if calls == [] {
      assert [] + [last] == [last];
    } else {
      RunOneMore(Next(b, calls[0]), calls[1..], last);
      assert (calls + [last])[1..] == calls[1..] + [last];
    }
  }

  lemma StepIsReachable(b: Board, call: Call)
    requires IsReachable(b)
    ensures IsReachable(Next(b, call))
  {
    hide Step;
    var initial: Settings, calls: seq<Call> :| b == Run(Start(b.signers, b.threshold, initial), calls);
    RunOneMore(Start(b.signers, b.threshold, initial), calls, call);
    if Step(b, call).Ok? { StepKeepsSigners(b, call); }
  }

  // ---- the entry points as methods on storage cells ----

  /** The signer checks of `init`, with the loop that collects the signers seen so far. */
  method CheckSigners(signers: seq<Address>, threshold: nat) returns (r: Result<()>)
    ensures r.Ok? <==> SignersOk(signers, threshold)
    ensures |signers| > MAX_SIGNERS ==> r == Err(MaxSignersReached)
    ensures |signers| <= MAX_SIGNERS && !(1 <= threshold <= |signers|) ==> r == Err(InvalidThreshold)
    ensures |signers| <= MAX_SIGNERS && 1 <= threshold <= |signers| && !Distinct(signers) ==> r == Err(DuplicateSigner)
  {
    if |signers| > MAX_SIGNERS { return Err(MaxSignersReached); }
    if threshold == 0 || threshold > |signers| { return Err(InvalidThreshold); }
    var seen: seq<Address> := [];
    for i := 0 to |signers|
      invariant seen == signers[..i] && Distinct(seen)
    {
      if signers[i] in seen { return Err(DuplicateSigner); }
      seen := seen + [signers[i]];
    }
    assert seen == signers;
    return Ok(());
  }

  /** The multisig cells of the contract. The threshold and the signers are never written after `init`. */
  class MultisigBoard {
    const signers: seq<Address>
    const threshold: nat

    var nextId: nat
    var proposals: map<nat, Proposal>
    var settings: Settings

    ghost var history: seq<Event>

    ghost function Abs(): Board
      reads this
    {
      Board(signers, threshold, nextId, proposals, settings, history)
    }

    /** Calls from the start lead to the cells. */
    ghost predicate Valid()
      reads this
    {
      IsReachable(Abs())
    }

    constructor (signers: seq<Address>, threshold: nat, settings: Settings)
      requires SignersOk(signers, threshold)
      ensures Valid() && Abs() == Start(signers, threshold, settings)
    {
      this.signers, this.threshold, this.settings := signers, threshold, settings;
      nextId, proposals, history := 0, map[], [];
      new;
      assert Abs() == Run(Start(signers, threshold, settings), []);
    }

    method ProposeMultisigAction(signed: set<Address>, ledger: nat, proposer: Address, action: Action)
      returns (r: Result<nat>)
      requires Valid()
      modifies this
      ensures Valid()
      ensures var spec := Propose(old(Abs()), signed, ledger, proposer, action);
        if spec.Ok? then r == Ok(old(nextId)) && Abs() == spec.value else r == Err(spec.error) && Abs() == old(Abs())
    {
      hide IsReachable;
      StepIsReachable(Abs(), CallPropose(signed, ledger, proposer, action));
      if proposer !in signed { return Err(HostAbort); }
      if proposer !in signers { return Err(Unauthorized); }
      var id := nextId;
      if id + 1 > U64_MAX { return Err(HostAbort); }
      nextId := id + 1;
      proposals := proposals[id := Proposal(proposer, action, [proposer], false, ledger)];
      history := history + [Voted(id, proposer)];
      return Ok(id);
    }

    method ApproveMultisigAction(signed: set<Address>, signer: Address, id: nat) returns (r: Result<()>)
      requires Valid()
      modifies this
      ensures Valid()
      ensures var spec := Approve(old(Abs()), signed, signer, id);
        if spec.Ok? then r == Ok(()) && Abs() == spec.value else r == Err(spec.error) && Abs() == old(Abs())
    {
      hide IsReachable;
      StepIsReachable(Abs(), CallApprove(signed, signer, id));
      if signer !in signed { return Err(HostAbort); }
      if signer !in signers { return Err(Unauthorized); }
      if id !in proposals { return Err(ProposalNotFound); }
      var proposal := proposals[id];
      if proposal.executed { return Err(ProposalAlreadyExecuted); }
      if signer in proposal.approvals { return Err(AlreadyApproved); }
      proposal := proposal.(approvals := proposal.approvals + [signer]);
      proposals := proposals[id := proposal];
      history := history + [Voted(id, signer)];
      return Ok(());
    }

    method RevokeMultisigApproval(signed: set<Address>, signer: Address, id: nat) returns (r: Result<()>)
      requires Valid()
      modifies this
      ensures Valid()
      ensures var spec := Revoke(old(Abs()), signed, signer, id);
        if spec.Ok? then r == Ok(()) && Abs() == spec.value else r == Err(spec.error) && Abs() == old(Abs())
    {
      hide IsReachable;
      StepIsReachable(Abs(), CallRevoke(signed, signer, id));
      if signer !in signed { return Err(HostAbort); }
      if id !in proposals { return Err(ProposalNotFound); }
      var proposal := proposals[id];
      if proposal.executed { return Err(ProposalAlreadyExecuted); }
      var index: Option<nat> := None;
      for i := 0 to |proposal.approvals|
        invariant index == None && signer !in proposal.approvals[..i]
      {
        if proposal.approvals[i] == signer {
          index := Some(i);
          break;
        }
      }
      if index == None { return Err(SignerNotFound); }
      FirstIndexIs(proposal.approvals, signer, index.value);
      proposal := proposal.(approvals := RemoveAt(proposal.approvals, index.value));
      proposals := proposals[id := proposal];
      history := history + [Unvoted(id, signer)];
      return Ok(());
    }

    method ExecuteMultisigAction(id: nat) returns (r: Result<()>)
      requires Valid()
      modifies this
      ensures Valid()
      ensures var spec := Execute(old(Abs()), id);
        if spec.Ok? then r == Ok(()) && Abs() == spec.value else r == Err(spec.error) && Abs() == old(Abs())
    {
      hide IsReachable;
      StepIsReachable(Abs(), CallExecute(id));
      if id !in proposals { return Err(ProposalNotFound); }
      var proposal := proposals[id];
      if proposal.executed { return Err(ProposalAlreadyExecuted); }
      if |proposal.approvals| < threshold { return Err(ThresholdNotMet); }
      var done := ExecuteSingleAdminOp(proposal.action);
      if done.Err? { return done; }
      proposals := proposals[id := proposal.(executed := true)];
      history := history + [Applied(id, proposal.action)];
      return Ok(());
    }

    /** The administrator's own setters. */
    method Configure(settings: Settings)
      requires Valid()
      modifies this
      ensures Valid() && Step(old(Abs()), CallConfigure(settings)) == Ok(Abs())
    {
      hide IsReachable;
      StepIsReachable(Abs(), CallConfigure(settings));
      this.settings := settings;
      history := history + [Changed(settings)];
    }

    /** `get_multisig_proposal`: its approvals are the signers whose vote for it stands. */
    method GetMultisigProposal(id: nat) returns (r: Option<Proposal>)
      requires Valid()
      ensures r == Find(proposals, id)
      ensures r.Some? ==>
        && Distinct(r.value.approvals)
        && Elements(r.value.approvals) == Supporters(history, id) <= Elements(signers)
        && (r.value.executed <==> exists k: nat :: AppliesAt(history, k, id))
    {
      hide Supporters, Elements, Distinct, Step, Sanctioned, Perform;
      ghost var initial: Settings, calls: seq<Call> :| Abs() == Run(Start(signers, threshold, initial), calls);
      StartOk(signers, threshold, initial);
      RunKeeps(Start(signers, threshold, initial), calls, initial);
      if id in proposals {
        assert ProposalOk(Abs(), id);
        return Some(proposals[id]);
      }
      return None;
    }

    method ExecuteSingleAdminOp(action: Action) returns (r: Result<()>)
      modifies `settings
      ensures var spec := Perform(old(settings), action);
        if spec.Ok? then r == Ok(()) && settings == spec.value else r == Err(spec.error) && settings == old(settings)
    {
      var name := action.opType;
      if name == "set_quota" {
        var quota := BytesToI128(action.payload);
        if quota.Err? { return Err(quota.error); }
        settings := settings.(quota := quota.value);
      } else if name == "pause" {
        settings := settings.(paused := true);
      } else if name == "unpause" {
        settings := settings.(paused := false);
      } else if name == "set_cooldown" || name == "set_lock" || name == "set_sandwich"
          || name == "set_slippage_threshold" {
        var value := BytesToU32(action.payload);
        if value.Err? { return Err(value.error); }
        if name == "set_cooldown" { settings := settings.(cooldown := value.value); }
        else if name == "set_lock" { settings := settings.(lockPeriod := value.value); }
        else if name == "set_sandwich" { settings := settings.(antiSandwich := value.value); }
        else {
          if value.value > MAX_BPS { return Err(SlippageTooHigh); }
          settings := settings.(slippageThreshold := value.value);
        }
      } else {
        return Err(InternalError);
      }
      return Ok(());
    }
  }

  lemma {:induction false} FirstIndexIs(s: seq<Address>, a: Address, i: nat)
    requires i < |s| && s[i] == a && a !in s[..i]
    ensures FirstIndex(s, a) == i
  {
    if i > 0 {
      assert s[..i][0] == s[0];
      assert s[1..][..i - 1] == s[..i][1..];
      FirstIndexIs(s[1..], a, i - 1);
    }
  }

  /** Reads the leading bytes one at a time, most significant first. */
  method ReadBigEndian(bytes: seq<Byte>, width: nat) returns (n: nat)
    requires width <= |bytes|
    ensures n == BigEndian(bytes[..width])
  {
    n := 0;
    for i := 0 to width
      invariant n == BigEndian(bytes[..i])
    {
      assert bytes[..i + 1][..i] == bytes[..i];
      n := 256 * n + bytes[i];
    }
  }

  method BytesToU32(bytes: seq<Byte>) returns (r: Result<nat>)
    ensures r == DecodeU32(bytes)
  {
    if |bytes| < 4 { return Err(InternalError); }
    var n := ReadBigEndian(bytes, 4);
    return Ok(n);
  }

  method BytesToI128(bytes: seq<Byte>) returns (r: Result<int>)
    ensures r == DecodeI128(bytes)
  {
    if |bytes| < 16 { return Err(InternalError); }
    var n := ReadBigEndian(bytes, 16);
    return Ok(if n > I128_MAX then n - TWO_128 else n);
  }
}
