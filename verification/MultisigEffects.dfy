/** What the actions of a multisig proposal do, told from their names and their encoded values, and which calls on
    a board succeed, told from the votes that stand. */
module MultisigEffects {
  import opened Prelude
  import opened Lists
  import opened Multisig

  // ---- actions ----

  /** The actions whose payload is a number of ledgers or of basis points. */
  predicate TakesU32(name: string) {
    name == "set_cooldown" || name == "set_lock" || name == "set_sandwich" || name == "set_slippage_threshold"
  }

  /** An action with an encoded value sets the one cell it is named for to that value; `pause` and `unpause` set and
      clear the flag whatever their payload; a slippage threshold above 10000 basis points is refused. */
  lemma ActionsDoWhatTheySay(s: Settings, n: U32, quota: I128, payload: seq<Byte>)
    ensures Perform(s, Action("set_cooldown", ToBytes(n, 4) + payload)) == Ok(s.(cooldown := n))
    ensures Perform(s, Action("set_lock", ToBytes(n, 4) + payload)) == Ok(s.(lockPeriod := n))
    ensures Perform(s, Action("set_sandwich", ToBytes(n, 4) + payload)) == Ok(s.(antiSandwich := n))
    ensures Perform(s, Action("set_slippage_threshold", ToBytes(n, 4) + payload)) ==
            if n <= 10_000 then Ok(s.(slippageThreshold := n)) else Err(SlippageTooHigh)
    ensures Perform(s, Action("set_quota", ToBytes(TwosComplement(quota), 16) + payload)) == Ok(s.(quota := quota))
    ensures Perform(s, Action("pause", payload)) == Ok(s.(paused := true))
    ensures Perform(s, Action("unpause", payload)) == Ok(s.(paused := false))
  {
    hide DecodeU32, DecodeI128, ToBytes;
    PayloadRoundTrip(n, quota, payload);
  }

  /** Any other action, and any payload too short for its value, is refused. */
  lemma OtherActionsAreRefused(s: Settings, a: Action)
    requires TakesU32(a.opType) ==> |a.payload| < 4
    requires a.opType == "set_quota" ==> |a.payload| < 16
    requires a.opType != "pause" && a.opType != "unpause"
    ensures Perform(s, a) == Err(InternalError)
  {
  }

  /** Executing a proposal marks it, records it, puts its action into effect, and leaves all else as it was. */
  lemma ExecutionTakesEffect(b: Board, id: nat)
    requires Execute(b, id).Ok?
    ensures id in b.proposals && !b.proposals[id].executed
    ensures var b', a := Execute(b, id).value, b.proposals[id].action;
      && TookEffect(b.settings, b'.settings, a)
      && b' == b.(proposals := b.proposals[id := b.proposals[id].(executed := true)], settings := b'.settings,
                  history := b.history + [Applied(id, a)])
  {
    hide Perform, TookEffect;
    PerformTakesEffect(b.settings, b.proposals[id].action);
  }

  /** A proposal is stored with the action, the proposer and the ledger of the call, not executed, under the next id,
      and stays that proposal through any later calls. */
  lemma ProposedIsStored(b: Board, propose: Call, after: seq<Call>)
    requires propose.CallPropose? && Step(b, propose).Ok?
    ensures b.nextId in Next(b, propose).proposals && b.nextId in Run(Next(b, propose), after).proposals
    ensures var made, p := Next(b, propose).proposals[b.nextId], Run(Next(b, propose), after).proposals[b.nextId];
      && !made.executed && made.approvals == [propose.proposer]
      && p.action == propose.action && p.creator == propose.proposer && p.createdAt == propose.ledger
  {
    hide Run;
    ProposalStays(Next(b, propose), after, b.nextId);
  }

  // ---- over whole runs ----

  /** Whether the contract is paused after a history: the last applied `pause` or `unpause`, or the administrator's
      own setting, decides. */
  function PausedAfter(initial: bool, h: seq<Event>): bool {
    if h == [] then initial
    else
      match h[|h| - 1]
      case Changed(s) => s.paused
      case Applied(_, a) =>
        if a.opType == "pause" then true
        else if a.opType == "unpause" then false
        else PausedAfter(initial, h[..|h| - 1])
      case _ => PausedAfter(initial, h[..|h| - 1])
  }

  lemma StepPauses(b: Board, call: Call, initial: bool)
    requires b.settings.paused == PausedAfter(initial, b.history) && Step(b, call).Ok?
    ensures var b' := Step(b, call).value; b'.settings.paused == PausedAfter(initial, b'.history)
  {
    hide Perform, RemoveAt, TookEffect;
    var b' := Step(b, call).value;
    assert b'.history[..|b.history|] == b.history;
    if call.CallExecute? {
      ExecutionTakesEffect(b, call.id);
      PauseOfEffect(b.settings, b'.settings, b.proposals[call.id].action);
    }
  }

  lemma PauseOfEffect(s: Settings, s': Settings, a: Action)
    requires TookEffect(s, s', a)
    ensures s'.paused == if a.opType == "pause" then true else if a.opType == "unpause" then false else s.paused
  {
  }

  lemma {:induction false} RunPauses(b: Board, calls: seq<Call>, initial: bool)
    requires b.settings.paused == PausedAfter(initial, b.history)
    ensures Run(b, calls).settings.paused == PausedAfter(initial, Run(b, calls).history)
    decreases |calls|
  {
    hide Step, PausedAfter;
    if calls != [] {
      if Step(b, calls[0]).Ok? { StepPauses(b, calls[0], initial); }
      RunPauses(Next(b, calls[0]), calls[1..], initial);
    }
  }

  /** Over every run the contract is paused exactly when the last of the executed pauses and unpauses and of the
      administrator's changes says so. */
  lemma PausedOverRuns(signers: seq<Address>, threshold: nat, initial: Settings, calls: seq<Call>)
    ensures var b := Run(Start(signers, threshold, initial), calls);
      b.settings.paused == PausedAfter(initial.paused, b.history)
  {
    RunPauses(Start(signers, threshold, initial), calls, initial.paused);
  }

  // ---- which calls succeed ----

  /** Why a call is refused, told from the votes that stand and the actions that took effect. */
  ghost function Refusal(b: Board, call: Call): Option<Error> {
    match call
    case CallPropose(signed, _, proposer, _) =>
      if proposer !in signed then Some(HostAbort)
      else if proposer !in b.signers then Some(Unauthorized)
      else if b.nextId >= U64_MAX then Some(HostAbort)
      else None
    case CallApprove(signed, signer, id) =>
      if signer !in signed then Some(HostAbort)
      else if signer !in b.signers then Some(Unauthorized)
      else if id !in b.proposals then Some(ProposalNotFound)
      else if exists k: nat :: AppliesAt(b.history, k, id) then Some(ProposalAlreadyExecuted)
      else if signer in Supporters(b.history, id) then Some(AlreadyApproved)
      else None
    case CallRevoke(signed, signer, id) =>
      if signer !in signed then Some(HostAbort)
      else if id !in b.proposals then Some(ProposalNotFound)
      else if exists k: nat :: AppliesAt(b.history, k, id) then Some(ProposalAlreadyExecuted)
      else if signer !in Supporters(b.history, id) then Some(SignerNotFound)
      else None
    case CallExecute(id) =>
      if id !in b.proposals then Some(ProposalNotFound)
      else if exists k: nat :: AppliesAt(b.history, k, id) then Some(ProposalAlreadyExecuted)
      else if |Supporters(b.history, id)| < b.threshold then Some(ThresholdNotMet)
      else if Perform(b.settings, b.proposals[id].action).Err?
      then Some(Perform(b.settings, b.proposals[id].action).error)
      else None
    case CallConfigure(_) => None
  }

  /** On every reachable board a call succeeds exactly when nothing speaks against it, and is otherwise refused with
      the first reason that does. A proposal or an approval adds the caller's vote, a revocation takes it away, an
      execution applies the action, and no call touches the votes of others. */
  lemma EveryCallIsDecided(signers: seq<Address>, threshold: nat, initial: Settings, calls: seq<Call>, call: Call)
    ensures var b := Run(Start(signers, threshold, initial), calls); var r := Step(b, call);
      && (match Refusal(b, call) case None => r.Ok? case Some(e) => r == Err(e))
      && (r.Ok? ==> r.value.history == b.history + [EventOf(b, call)])
  {
    hide Run, Perform, Step, Refusal;
    var b := Run(Start(signers, threshold, initial), calls);
    StartOk(signers, threshold, initial);
    RunKeeps(Start(signers, threshold, initial), calls, initial);
    BoardDecides(b, call, initial);
  }

  /** What a successful call records. */
  function EventOf(b: Board, call: Call): Event {
    match call
    case CallPropose(_, _, proposer, _) => Voted(b.nextId, proposer)
    case CallApprove(_, signer, id) => Voted(id, signer)
    case CallRevoke(_, signer, id) => Unvoted(id, signer)
    case CallExecute(id) => Applied(id, if id in b.proposals then b.proposals[id].action else Action("", []))
    case CallConfigure(settings) => Changed(settings)
  }

  lemma BoardDecides(b: Board, call: Call, initial: Settings)
    requires BoardOk(b, initial)
    ensures var r := Step(b, call);
      && (match Refusal(b, call) case None => r.Ok? case Some(e) => r == Err(e))
      && (r.Ok? ==> r.value.history == b.history + [EventOf(b, call)])
  {
    hide Perform, Supporters, Elements, Distinct, Sanctioned, RemoveAt;
    match call
    case CallPropose(_, _, _, _) =>
    case CallApprove(_, signer, id) => VotesOf(b, id, initial, signer);
    case CallRevoke(_, signer, id) => VotesOf(b, id, initial, signer);
    case CallExecute(id) => VotesOf(b, id, initial, Address(0));
    case CallConfigure(_) =>
  }

  lemma VotesOf(b: Board, id: nat, initial: Settings, signer: Address)
    requires BoardOk(b, initial)
    ensures id in b.proposals ==>
              var p := b.proposals[id];
              && (signer in p.approvals <==> signer in Supporters(b.history, id))
              && |p.approvals| == |Supporters(b.history, id)|
              && (p.executed <==> exists k: nat :: AppliesAt(b.history, k, id))
  {
    if id in b.proposals {
      assert ProposalOk(b, id);
      DistinctCount(b.proposals[id].approvals);
    }
  }
}
