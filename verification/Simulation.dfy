// The durable session simulates the in-memory kernel: every committed store
// step is matched by zero or more kernel calls that all succeed, under a
// relation that keeps the turn statuses exactly equal.
module Simulation {
  import opened Domain
  import opened SessionRules
  import opened SessionInvariants
  import opened SessionRuns
  import K = Council

  // Redaction substitutes text for text: it never blanks a prompt.
  ghost predicate KeepsText(san: string -> string) {
    forall text :: !Blank(text) ==> !Blank(san(text))
  }

  // The kernel stays connected under its own lease; the store tracks the
  // connection on the row and authority in the run.
  ghost predicate Related(san: string -> string, s: Session, k: K.Kernel) {
    && RowRelated(s, k)
    && k.pending.Keys == s.pending.Keys
    && (forall key :: key in s.pending ==> k.pending[key] == s.pending[key].text)
    && k.turns.Keys == s.turns.Keys
    && (forall key :: key in s.turns ==> TurnRelated(san, s.turns[key], k.turns[key]))
  }

  ghost predicate RowRelated(s: Session, k: K.Kernel) {
    && k.lease != "" && k.controller == ControllerConnected
    && k.state == s.state && k.lifecycle == s.lifecycle
    && k.active == s.active
    && k.visibility == s.visibility && k.recoveryContext == s.context
    && k.recoveryGen == s.recoveryGen && k.activeRecoveryGen == s.activeRecoveryGen
  }

  // Statuses agree; a completed or failed turn has the same result in both.
  ghost predicate TurnRelated(san: string -> string, t: Turn, r: K.Turn) {
    && t.status == r.status
    && t.prompt == san(r.prompt)
    && (t.status == TurnCompleted || t.status == TurnFailed ==> t.result == r.result)
  }

  // The kernel calls that match a committed command.
  function Calls(san: string -> string, s: Session, c: Command): seq<K.Call> {
    match c
    case QueuePrompt(_, key, text, _) => [K.CallQueue(key, san(text))]
    case ReplacePendingPrompt(_, key, text, _) => [K.CallReplace(key, san(text))]
    case DiscardPendingPrompt(_, key) => [K.CallDiscard(key)]
    case ReleaseTurn(_, key) => [K.CallRelease(key)]
    case RequestCancel(_, key) => CancelCall(s, key)
    case RecordTerminalOutcome(_, key, status, result) => OutcomeCalls(s, key, status, san(result))
    case RecordObservedExecutionOutcome(ref, status, result) => OutcomeCalls(s, ref.turnKey, status, san(result))
    case RecordHostLoss(_) => [K.CallRecordHostLoss]
    case ArchiveSession(_) => if s.lifecycle == SessionArchived then [] else [K.CallArchive]
    case SetControllerConnection(_, _) => []
    case RecordDispatchObservation(_, _) => []
    case RecordObservedDispatchAcknowledgement(_, _) => []
    case ReconcileSession(_, recovery, outcome) => ReconcileCalls(recovery, outcome, san(outcome.result))
    case ResolveAgyTurnUncertainty(_, _, ref, _, _) => AbandonCalls(s, ref.turnKey)
  }

  // A repeated cancellation request needs no call.
  function CancelCall(s: Session, key: string): seq<K.Call> {
    if key in s.turns && s.turns[key].status == TurnRunning then [K.CallRequestCancel] else []
  }

  // The store accepts `cancelled` straight from `running`; the kernel passes
  // through `cancelling`. An exact duplicate needs no call.
  function OutcomeCalls(s: Session, key: string, status: TurnStatus, result: string): seq<K.Call> {
    if key !in s.turns || s.turns[key].status.Terminal() then []
    else match status
      case TurnCompleted => [K.CallComplete(key, result)]
      case TurnFailed => [K.CallFail(key, result)]
      case TurnInterrupted => [K.CallInterrupt(key)]
      case _ =>
        if s.turns[key].status == TurnRunning then [K.CallRequestCancel, K.CallConfirmCancel(key)]
        else [K.CallConfirmCancel(key)]
  }

  // An active turn that is still reachable keeps its status: the kernel is
  // told `running` whatever was observed.
  function ReconcileCalls(r: RecoveryRef, o: ReconciliationOutcome, result: string): seq<K.Call> {
    match o.status
    case Uncertain => []
    case ReachableActive => [K.CallReconcileHost(r.turnKey, r.generation, TurnRunning, "")]
    case ReachableTerminal => [K.CallReconcileHost(r.turnKey, r.generation, o.observed, result)]
    case DefinitivelyMissing => [K.CallReconcileHost(r.turnKey, r.generation, TurnFailed, result)]
  }

  ghost predicate Matched(san: string -> string, after: Session, r: K.KernelResult) {
    r.Ok? && Related(san, after, r.value)
  }

  lemma One(k: K.Kernel, call: K.Call)
    ensures K.InvokeAll(k, [call]) == K.Invoke(k, call)
  {
    var r := K.Invoke(k, call);
    if r.Ok? {
      assert K.InvokeAll(r.value, [call][1..]) == Ok(r.value);
    }
  }

  lemma Two(k: K.Kernel, first: K.Call, second: K.Call)
    requires K.Invoke(k, first).Ok?
    ensures K.InvokeAll(k, [first, second]) == K.Invoke(K.Invoke(k, first).value, second)
  {
    One(K.Invoke(k, first).value, second);
    assert [first, second][1..] == [second];
  }

  lemma QueueCall(k: K.Kernel, key: string, text: string)
    requires k.Authorize(k.lease) == None && !Blank(key) && !Blank(text)
    requires k.active != Some(key) && key !in k.turns && (key in k.pending ==> k.pending[key] == text)
    ensures K.InvokeAll(k, [K.CallQueue(key, text)]) == Ok(k.(pending := k.pending[key := text]))
  {
    One(k, K.CallQueue(key, text));
    if key in k.pending {
      assert k.pending[key := text] == k.pending;
    }
  }

  lemma QueueMatched(san: string -> string, s: Session, k: K.Kernel, c: Command)
    requires Related(san, s, k) && Consistent(s)
    requires c.QueuePrompt? && !Blank(c.key) && !Blank(san(c.text)) && DecideQueue(san, s, c).Commit?
    ensures Matched(san, DecideQueue(san, s, c).after, K.InvokeAll(k, [K.CallQueue(c.key, san(c.text))]))
  {
    QueueCall(k, c.key, san(c.text));
    PromptStored(san, s, DecideQueue(san, s, c).after, k, c.key, Prompt(san(c.text), c.tools));
  }

  lemma PromptStored(san: string -> string, s: Session, after: Session, k: K.Kernel, key: string, prompt: Prompt)
    requires Related(san, s, k) && RowRelated(after, k)
    requires after.turns == s.turns && after.pending == s.pending[key := prompt]
    ensures Related(san, after, k.(pending := k.pending[key := prompt.text]))
  {
  }

  lemma ReplaceMatched(san: string -> string, s: Session, k: K.Kernel, c: Command)
    requires Related(san, s, k) && Consistent(s)
    requires c.ReplacePendingPrompt? && !Blank(san(c.text)) && DecideReplace(san, s, c).Commit?
    ensures Matched(san, DecideReplace(san, s, c).after, K.InvokeAll(k, [K.CallReplace(c.key, san(c.text))]))
  {
    One(k, K.CallReplace(c.key, san(c.text)));
  }

  lemma DiscardMatched(san: string -> string, s: Session, k: K.Kernel, c: Command)
    requires Related(san, s, k) && Consistent(s) && c.DiscardPendingPrompt? && DecideDiscard(s, c).Commit?
    ensures Matched(san, DecideDiscard(s, c).after, K.InvokeAll(k, [K.CallDiscard(c.key)]))
  {
    One(k, K.CallDiscard(c.key));
  }

  lemma ReleaseMatched(san: string -> string, s: Session, k: K.Kernel, gen: nat, c: Command)
    requires Related(san, s, k) && c.ReleaseTurn? && DecideRelease(san, s, gen, c).Commit?
    ensures Matched(san, DecideRelease(san, s, gen, c).after, K.InvokeAll(k, [K.CallRelease(c.key)]))
  {
    One(k, K.CallRelease(c.key));
  }

  lemma HostLossCall(k: K.Kernel, key: string)
    requires k.visibility == VisibilityReachable ==> Reserved(k, key)
    ensures K.InvokeAll(k, [K.CallRecordHostLoss]) ==
      Ok(if k.visibility == VisibilityHostLost then k
         else k.(recoveryGen := k.recoveryGen + 1, activeRecoveryGen := k.recoveryGen + 1,
                 visibility := VisibilityHostLost, recoveryContext := Some(key)))
  {
    One(k, K.CallRecordHostLoss);
  }

  lemma HostLossMatched(san: string -> string, s: Session, k: K.Kernel, c: Command)
    requires Related(san, s, k) && Consistent(s) && c.RecordHostLoss? && DecideHostLoss(s, c).Commit?
    ensures Matched(san, DecideHostLoss(s, c).after, K.InvokeAll(k, [K.CallRecordHostLoss]))
  {
    var key := if s.active.Some? then s.active.value else "";
    if s.visibility == VisibilityReachable {
      RelatedReserved(san, s, k, key);
    }
    HostLossCall(k, key);
  }

  lemma ArchiveCall(k: K.Kernel)
    requires k.Authorize(k.lease) == None && k.state == Parked && k.active == None
    requires k.visibility == VisibilityReachable
    ensures K.InvokeAll(k, [K.CallArchive]) == Ok(k.(state := Archived, lifecycle := SessionArchived))
  {
    One(k, K.CallArchive);
  }

  lemma ArchiveMatched(san: string -> string, s: Session, k: K.Kernel, c: Command)
    requires Related(san, s, k) && Consistent(s) && c.ArchiveSession? && DecideArchive(s, c).Commit?
    ensures s.lifecycle == SessionArchived ==> Related(san, DecideArchive(s, c).after, k)
    ensures s.lifecycle != SessionArchived ==>
              Matched(san, DecideArchive(s, c).after, K.InvokeAll(k, [K.CallArchive]))
  {
    if s.lifecycle != SessionArchived {
      ArchiveCall(k);
    }
  }

  // The kernel holds a reserved turn that every call may act on.
  predicate Reserved(k: K.Kernel, key: string) {
    && k.active == Some(key) && k.HasActiveTurn()
    && k.ActiveStatus().Live() && k.state == Running
    && k.Authorize(k.lease) == None
  }

  lemma RelatedReserved(san: string -> string, s: Session, k: K.Kernel, key: string)
    requires Related(san, s, k) && Consistent(s) && s.active == Some(key)
    ensures key in s.turns && Reserved(k, key) && k.turns[key].status == s.turns[key].status
  {
    assert TurnConsistent(s, key) && TurnRelated(san, s.turns[key], k.turns[key]);
  }

  lemma CancelCalls(k: K.Kernel, key: string)
    requires Reserved(k, key) && k.ActiveStatus() == TurnRunning
    ensures K.InvokeAll(k, [K.CallRequestCancel, K.CallConfirmCancel(key)]) == Ok(k.Finish(TurnCancelled, k.ActiveResult()))
  {
    var cancelling := k.Mark(TurnCancelling, k.ActiveResult());
    assert K.Invoke(k, K.CallRequestCancel) == Ok(cancelling);
    Two(k, K.CallRequestCancel, K.CallConfirmCancel(key));
    assert cancelling.Finish(TurnCancelled, k.ActiveResult()).turns == k.Finish(TurnCancelled, k.ActiveResult()).turns;
  }

  // What the kernel retains as the result of a turn it is told has ended.
  function Retained(k: K.Kernel, status: TurnStatus, result: string): string
    requires k.HasActiveTurn()
  {
    if status == TurnCompleted || status == TurnFailed then result else k.ActiveResult()
  }

  lemma OutcomeCallsFinish(s: Session, k: K.Kernel, key: string, status: TurnStatus, result: string)
    requires Reserved(k, key) && key in s.turns && s.turns[key].status == k.turns[key].status && status.Terminal()
    ensures K.InvokeAll(k, OutcomeCalls(s, key, status, result)) == Ok(k.Finish(status, Retained(k, status, result)))
  {
    if status == TurnCompleted {
      One(k, K.CallComplete(key, result));
    } else if status == TurnFailed {
      One(k, K.CallFail(key, result));
    } else if status == TurnInterrupted {
      One(k, K.CallInterrupt(key));
    } else if s.turns[key].status == TurnRunning {
      CancelCalls(k, key);
    } else {
      One(k, K.CallConfirmCancel(key));
    }
  }

  // The turn takes the same new status in both.
  lemma TurnMoves(san: string -> string, s: Session, after: Session, k: K.Kernel, l: K.Kernel,
                  key: string, status: TurnStatus, result: string, text: string)
    requires Related(san, s, k) && key in s.turns && RowRelated(after, l)
    requires after.pending == s.pending && l.pending == k.pending
    requires after.turns == s.turns[key := s.turns[key].(status := status, result := result)]
    requires l.turns == k.turns[key := K.Turn(k.turns[key].prompt, status, text)]
    requires status == TurnCompleted || status == TurnFailed ==> text == result
    ensures Related(san, after, l)
  {
  }

  lemma EndMatched(san: string -> string, s: Session, k: K.Kernel, key: string, status: TurnStatus, result: string)
    requires Related(san, s, k) && Consistent(s) && s.active == Some(key) && status.Terminal()
    ensures Matched(san, End(s, key, status, result), K.InvokeAll(k, OutcomeCalls(s, key, status, result)))
  {
    RelatedReserved(san, s, k, key);
    OutcomeCallsFinish(s, k, key, status, result);
    var text := Retained(k, status, result);
    TurnMoves(san, s, End(s, key, status, result), k, k.Finish(status, text), key, status, result, text);
  }

  lemma OutcomeMatched(san: string -> string, s: Session, k: K.Kernel, key: string, status: TurnStatus, result: string,
                       dup: string, rec: string)
    requires Related(san, s, k) && Consistent(s) && status.Terminal()
    requires DecideOutcome(s, key, status, result, dup, rec).Commit?
    ensures Matched(san, DecideOutcome(s, key, status, result, dup, rec).after,
                    K.InvokeAll(k, OutcomeCalls(s, key, status, result)))
  {
    OutcomeEndsActive(s, key, status, result, dup, rec);
    if !s.turns[key].status.Terminal() {
      EndMatched(san, s, k, key, status, result);
    }
  }

  // Reconciling the reserved turn with a status that ends it, or with
  // `running`, which keeps whatever status it has.
  lemma ReconcileCallEnds(k: K.Kernel, key: string, gen: nat, status: TurnStatus, result: string)
    requires Reserved(k, key) && key != "" && gen > 0 && k.activeRecoveryGen == gen
    requires k.visibility == VisibilityHostLost && status.Terminal()
    ensures K.InvokeAll(k, [K.CallReconcileHost(key, gen, status, result)]) == Ok(k.Finish(status, result).CloseRecovery())
  {
    One(k, K.CallReconcileHost(key, gen, status, result));
  }

  lemma ReconcileCallResumes(k: K.Kernel, key: string, gen: nat)
    requires Reserved(k, key) && key != "" && gen > 0 && k.activeRecoveryGen == gen
    requires k.visibility == VisibilityHostLost
    ensures K.InvokeAll(k, [K.CallReconcileHost(key, gen, TurnRunning, "")]) == Ok(k.CloseRecovery())
  {
    One(k, K.CallReconcileHost(key, gen, TurnRunning, ""));
    assert k.Mark(k.ActiveStatus(), k.ActiveResult()).turns == k.turns;
  }

  lemma ReconcileCallParked(k: K.Kernel, key: string, gen: nat, status: TurnStatus, result: string)
    requires k.active == None && k.recoveryContext == Some(key) && key != "" && gen > 0 && k.activeRecoveryGen == gen
    requires k.visibility == VisibilityHostLost && status.Terminal()
    ensures K.InvokeAll(k, [K.CallReconcileHost(key, gen, status, result)]) == Ok(k.CloseRecovery())
  {
    One(k, K.CallReconcileHost(key, gen, status, result));
  }

  lemma ReconcileActiveMatched(san: string -> string, s: Session, k: K.Kernel, r: RecoveryRef,
                               o: ReconciliationOutcome, result: string)
    requires Related(san, s, k) && Consistent(s) && r.turnKey != ""
    requires s.visibility == VisibilityHostLost && s.activeRecoveryGen == r.generation && s.active.Some?
    requires ReconcileActive(s, r.turnKey, o, result).Commit?
    ensures Matched(san, ReconcileActive(s, r.turnKey, o, result).after, K.InvokeAll(k, ReconcileCalls(r, o, result)))
  {
    var key, after := r.turnKey, ReconcileActive(s, r.turnKey, o, result).after;
    RelatedReserved(san, s, k, key);
    match o.status
    case Uncertain =>
    case ReachableActive => ReconcileCallResumes(k, key, r.generation);
    case ReachableTerminal =>
      ReconcileCallEnds(k, key, r.generation, o.observed, result);
      TurnMoves(san, s, after, k, k.Finish(o.observed, result).CloseRecovery(), key, o.observed, result, result);
    case DefinitivelyMissing =>
      ReconcileCallEnds(k, key, r.generation, TurnFailed, result);
      TurnMoves(san, s, after, k, k.Finish(TurnFailed, result).CloseRecovery(), key, TurnFailed, result, result);
  }

  lemma ReconcileParkedMatched(san: string -> string, s: Session, k: K.Kernel, r: RecoveryRef,
                               o: ReconciliationOutcome, result: string)
    requires Related(san, s, k) && Consistent(s) && r.turnKey != "" && ValidOutcome(o)
    requires s.visibility == VisibilityHostLost && s.activeRecoveryGen == r.generation && s.active == None
    requires ReconcileParked(s, r.turnKey, o).Commit?
    ensures Matched(san, ReconcileParked(s, r.turnKey, o).after, K.InvokeAll(k, ReconcileCalls(r, o, result)))
  {
    if o.status != Uncertain {
      ReconcileCallParked(k, r.turnKey, r.generation,
                          if o.status == ReachableTerminal then o.observed else TurnFailed, result);
    }
  }

  lemma ReconcileMatched(san: string -> string, s: Session, k: K.Kernel, c: Command)
    requires Related(san, s, k) && Consistent(s)
    requires c.ReconcileSession? && c.recovery.turnKey != "" && ValidOutcome(c.outcome)
    requires DecideReconcile(san, s, c).Commit?
    ensures Matched(san, DecideReconcile(san, s, c).after,
                    K.InvokeAll(k, ReconcileCalls(c.recovery, c.outcome, san(c.outcome.result))))
  {
    if s.active.Some? {
      ReconcileActiveMatched(san, s, k, c.recovery, c.outcome, san(c.outcome.result));
    } else {
      ReconcileParkedMatched(san, s, k, c.recovery, c.outcome, san(c.outcome.result));
    }
  }

  function AbandonCalls(s: Session, key: string): seq<K.Call> {
    if s.visibility == VisibilityHostLost then [K.CallReconcileHost(key, s.activeRecoveryGen, TurnInterrupted, "")]
    else [K.CallInterrupt(key)]
  }

  lemma AbandonCallsFinish(s: Session, k: K.Kernel, key: string)
    requires Reserved(k, key) && key != ""
    requires RowRelated(s, k) && RecoveryConsistent(s)
    ensures
      var text := if s.visibility == VisibilityHostLost then "" else k.ActiveResult();
      K.InvokeAll(k, AbandonCalls(s, key)) == Ok(k.Finish(TurnInterrupted, text).CloseRecovery())
  {
    if s.visibility == VisibilityHostLost {
      ReconcileCallEnds(k, key, s.activeRecoveryGen, TurnInterrupted, "");
    } else {
      One(k, K.CallInterrupt(key));
    }
  }

  lemma AbandonMatched(san: string -> string, s: Session, k: K.Kernel, open: bool, c: Command)
    requires Related(san, s, k) && Consistent(s)
    requires c.ResolveAgyTurnUncertainty? && !Blank(c.ref.turnKey) && DecideAbandon(san, s, open, c).Commit?
    ensures Matched(san, DecideAbandon(san, s, open, c).after, K.InvokeAll(k, AbandonCalls(s, c.ref.turnKey)))
  {
    var key := c.ref.turnKey;
    assert TurnConsistent(s, key);
    RelatedReserved(san, s, k, key);
    AbandonCallsFinish(s, k, key);
    var after := DecideAbandon(san, s, open, c).after;
    var l := K.InvokeAll(k, AbandonCalls(s, key)).value;
    TurnMoves(san, s, after, k, l, key, TurnInterrupted, after.turns[key].result, l.turns[key].result);
  }

  lemma CancelCallMarks(k: K.Kernel, key: string)
    requires Reserved(k, key) && k.ActiveStatus() == TurnRunning
    ensures K.InvokeAll(k, [K.CallRequestCancel]) == Ok(k.Mark(TurnCancelling, k.ActiveResult()))
  {
    One(k, K.CallRequestCancel);
  }

  lemma CancelMatched(san: string -> string, s: Session, k: K.Kernel, c: Command)
    requires Related(san, s, k) && Consistent(s) && c.RequestCancel? && DecideCancel(s, c).Commit?
    ensures Matched(san, DecideCancel(s, c).after, K.InvokeAll(k, CancelCall(s, c.key)))
  {
    var key, after := c.key, DecideCancel(s, c).after;
    RelatedReserved(san, s, k, key);
    if s.turns[key].status == TurnRunning {
      CancelCallMarks(k, key);
      TurnMoves(san, s, after, k, k.Mark(TurnCancelling, k.ActiveResult()), key, TurnCancelling,
                 s.turns[key].result, k.ActiveResult());
    }
  }

  // Connections and dispatch phases are the store's alone.
  lemma StoreOnlyCommandMatched(san: string -> string, s: Session, k: K.Kernel, c: Command)
    requires Related(san, s, k)
    ensures c.SetControllerConnection? && DecideConnection(s, c).Commit? ==> Related(san, DecideConnection(s, c).after, k)
    ensures c.RecordDispatchObservation? && DecideObservation(s, c).Commit? ==>
              Related(san, DecideObservation(s, c).after, k)
    ensures c.RecordObservedDispatchAcknowledgement? && DecideAcknowledgement(s, c).Commit? ==>
              Related(san, DecideAcknowledgement(s, c).after, k)
  {
  }

  lemma PromptCommandMatched(san: string -> string, s: Session, k: K.Kernel, gen: nat, open: bool, c: Command)
    requires Related(san, s, k) && Consistent(s) && KeepsText(san)
    requires Malformed(c) == None && Decide(san, s, gen, open, c).Commit?
    requires c.QueuePrompt? || c.ReplacePendingPrompt? || c.DiscardPendingPrompt? || c.ReleaseTurn?
    ensures Matched(san, Decide(san, s, gen, open, c).after, K.InvokeAll(k, Calls(san, s, c)))
  {
    match c
    case QueuePrompt(_, _, _, _) => QueueMatched(san, s, k, c);
    case ReplacePendingPrompt(_, _, _, _) => ReplaceMatched(san, s, k, c);
    case DiscardPendingPrompt(_, _) => DiscardMatched(san, s, k, c);
    case ReleaseTurn(_, _) => ReleaseMatched(san, s, k, gen, c);
  }

  lemma OutcomeCommandMatched(san: string -> string, s: Session, k: K.Kernel, gen: nat, open: bool, c: Command)
    requires Related(san, s, k) && Consistent(s)
    requires Malformed(c) == None && Decide(san, s, gen, open, c).Commit?
    requires c.RecordTerminalOutcome? || c.RecordObservedExecutionOutcome?
    ensures Matched(san, Decide(san, s, gen, open, c).after, K.InvokeAll(k, Calls(san, s, c)))
  {
    match c
    case RecordTerminalOutcome(_, key, status, result) =>
      OutcomeMatched(san, s, k, key, status, san(result), status.Name(), status.Name());
    case RecordObservedExecutionOutcome(ref, status, result) =>
      OutcomeMatched(san, s, k, ref.turnKey, status, san(result), status.Name() + ":duplicate",
                     status.Name() + IssuedBy(s, ref.turnKey));
  }

  lemma RecoveryCommandMatched(san: string -> string, s: Session, k: K.Kernel, gen: nat, open: bool, c: Command)
    requires Related(san, s, k) && Consistent(s)
    requires Malformed(c) == None && Decide(san, s, gen, open, c).Commit?
    requires c.ReconcileSession? || c.ResolveAgyTurnUncertainty?
    ensures Matched(san, Decide(san, s, gen, open, c).after, K.InvokeAll(k, Calls(san, s, c)))
  {
    if c.ReconcileSession? {
      ReconcileMatched(san, s, k, c);
    } else {
      AbandonMatched(san, s, k, open, c);
    }
  }

  lemma RowCommandMatched(san: string -> string, s: Session, k: K.Kernel, gen: nat, open: bool, c: Command)
    requires Related(san, s, k) && Consistent(s) && Decide(san, s, gen, open, c).Commit?
    requires c.RequestCancel? || c.RecordHostLoss? || c.ArchiveSession?
    ensures Matched(san, Decide(san, s, gen, open, c).after, K.InvokeAll(k, Calls(san, s, c)))
  {
    match c
    case RequestCancel(_, _) => CancelMatched(san, s, k, c);
    case RecordHostLoss(_) => HostLossMatched(san, s, k, c);
    case ArchiveSession(_) => ArchiveMatched(san, s, k, c);
  }

  // Every committed command is matched by its kernel calls.
  lemma CommandMatched(san: string -> string, s: Session, k: K.Kernel, gen: nat, open: bool, c: Command)
    requires Related(san, s, k) && Consistent(s) && KeepsText(san)
    requires Malformed(c) == None && Decide(san, s, gen, open, c).Commit?
    ensures Matched(san, Decide(san, s, gen, open, c).after, K.InvokeAll(k, Calls(san, s, c)))
  {
    if c.QueuePrompt? || c.ReplacePendingPrompt? || c.DiscardPendingPrompt? || c.ReleaseTurn? {
      PromptCommandMatched(san, s, k, gen, open, c);
    } else if c.RequestCancel? || c.RecordHostLoss? || c.ArchiveSession? {
      RowCommandMatched(san, s, k, gen, open, c);
    } else if c.SetControllerConnection? || c.RecordDispatchObservation? || c.RecordObservedDispatchAcknowledgement? {
      StoreOnlyCommandMatched(san, s, k, c);
    } else if c.RecordTerminalOutcome? || c.RecordObservedExecutionOutcome? {
      OutcomeCommandMatched(san, s, k, gen, open, c);
    } else {
      RecoveryCommandMatched(san, s, k, gen, open, c);
    }
  }

  function StepCalls(san: string -> string, s: Session, step: Step): seq<K.Call> {
    if step.Act? && Decided(san, s, step).Commit? then Calls(san, s, step.command) else []
  }

  // The kernel calls that match a whole run.
  function RunCalls(san: string -> string, s: Session, steps: seq<Step>): seq<K.Call>
    decreases |steps|
  {
    if steps == [] then [] else StepCalls(san, s, steps[0]) + RunCalls(san, Apply(san, s, steps[0]), steps[1..])
  }

  lemma CommitMeans(san: string -> string, s: Session, step: Step)
    requires step.Act? && Decided(san, s, step).Commit?
    ensures Malformed(step.command) == None && Decided(san, s, step) == Decide(san, s, step.gen, step.open, step.command)
    ensures Apply(san, s, step) == Decided(san, s, step).after
  {
  }

  lemma StepMatched(san: string -> string, s: Session, k: K.Kernel, step: Step)
    requires Related(san, s, k) && Consistent(s) && KeepsText(san)
    ensures Matched(san, Apply(san, s, step), K.InvokeAll(k, StepCalls(san, s, step)))
  {
    if step.Act? && Decided(san, s, step).Commit? {
      CommitMeans(san, s, step);
      CommandMatched(san, s, k, step.gen, step.open, step.command);
    }
  }

  // Simulation: along any run the kernel calls all succeed and leave a kernel
  // related to the store's session.
  lemma {:induction false} RunMatched(san: string -> string, s: Session, k: K.Kernel, steps: seq<Step>)
    requires Related(san, s, k) && Consistent(s) && KeepsText(san)
    ensures Matched(san, Run(san, s, steps), K.InvokeAll(k, RunCalls(san, s, steps)))
    decreases |steps|
  {
    if steps != [] {
      var next := Apply(san, s, steps[0]);
      var calls := StepCalls(san, s, steps[0]);
      StepMatched(san, s, k, steps[0]);
      StepSound(san, s, steps[0]);
      RunMatched(san, next, K.InvokeAll(k, calls).value, steps[1..]);
      K.InvokeAllConcat(k, calls, RunCalls(san, next, steps[1..]));
    }
  }

  // Telling the kernel the status that was observed of a reachable active
  // turn, as the store's caller saw it, keeps the two related exactly when
  // the observation is `running` or the turn is already cancelling: the
  // store leaves the turn alone, the kernel copies `cancelling`.
  lemma ObservedStatusAgrees(san: string -> string, s: Session, k: K.Kernel, key: string, o: ReconciliationOutcome)
    requires Related(san, s, k) && Consistent(s) && key != "" && s.active == Some(key)
    requires s.visibility == VisibilityHostLost && o.status == ReachableActive && o.observed.Live()
    ensures
      var after := ReconcileActive(s, key, o, "").after;
      Matched(san, after, k.ReconcileHost(key, s.activeRecoveryGen, o.observed, ""))
      <==> o.observed == TurnRunning || s.turns[key].status == TurnCancelling
  {
    RelatedReserved(san, s, k, key);
    ReconcileLive(k, key, s.activeRecoveryGen, o.observed);
    var l := k.ReconcileHost(key, s.activeRecoveryGen, o.observed, "").value;
    if o.observed == TurnRunning || s.turns[key].status == TurnCancelling {
      assert l.turns == k.turns;
    } else {
      assert !TurnRelated(san, s.turns[key], l.turns[key]);
    }
  }

  lemma ReconcileLive(k: K.Kernel, key: string, gen: nat, observed: TurnStatus)
    requires Reserved(k, key) && key != "" && gen > 0 && k.activeRecoveryGen == gen
    requires k.visibility == VisibilityHostLost && observed.Live()
    ensures
      var status := if observed == TurnRunning then k.ActiveStatus() else TurnCancelling;
      k.ReconcileHost(key, gen, observed, "") == Ok(k.Mark(status, k.ActiveResult()).CloseRecovery())
  {
  }
}
