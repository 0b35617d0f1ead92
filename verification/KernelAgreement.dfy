// The kernel taken by itself, and against the store: what every run of its
// calls keeps, and that it accepts a command exactly when the store does.
module KernelAgreement {
  import opened Domain
  import opened SessionRules
  import opened SessionInvariants
  import opened Simulation
  import K = Council
  import C = Commits

  // One live turn at most, the active one; nothing pending that was released;
  // a lost host is one open recovery episode.
  ghost predicate Orderly(k: K.Kernel) {
    && (k.state == Running <==> k.active.Some?)
    && (k.state == Archived <==> k.lifecycle == SessionArchived)
    && (k.active.Some? ==> k.active.value in k.turns)
    && (forall key :: key in k.turns ==>
          && (k.turns[key].status.Live() <==> k.active == Some(key))
          && (k.turns[key].status.Live() || k.turns[key].status.Terminal()))
    && k.pending.Keys !! k.turns.Keys
    && EpisodeOrderly(k)
  }

  ghost predicate EpisodeOrderly(k: K.Kernel) {
    && (k.visibility == VisibilityHostLost <==> k.activeRecoveryGen > 0)
    && (k.visibility == VisibilityHostLost <==> k.recoveryContext.Some?)
    && k.activeRecoveryGen <= k.recoveryGen
    && (k.lifecycle == SessionArchived ==> k.visibility == VisibilityReachable)
  }

  // The turn a call may change.
  function Named(k: K.Kernel, c: K.Call): Option<string> {
    match c
    case CallQueue(_, _) => None
    case CallReplace(_, _) => None
    case CallDiscard(_) => None
    case CallRelease(key) => Some(key)
    case CallRequestCancel => k.active
    case CallConfirmCancel(key) => Some(key)
    case CallComplete(key, _) => Some(key)
    case CallInterrupt(key) => Some(key)
    case CallFail(key, _) => Some(key)
    case CallRecordHostLoss => None
    case CallReconcileHost(key, _, _, _) => Some(key)
    case CallArchive => None
  }

  // History is kept: prompts stay, a terminal turn is final, only the named
  // turn moves, recovery generations grow and an archive is the end.
  ghost predicate Follows(k: K.Kernel, l: K.Kernel, named: Option<string>) {
    && l.lease == k.lease && l.controller == k.controller && l.recoveryGen >= k.recoveryGen
    && (forall key :: key in k.turns ==>
          && key in l.turns && l.turns[key].prompt == k.turns[key].prompt
          && (k.turns[key].status.Terminal() || named != Some(key) ==> l.turns[key] == k.turns[key]))
    && (forall key :: key in l.turns && key !in k.turns ==>
          named == Some(key) && key in k.pending && l.turns[key] == K.Turn(k.pending[key], TurnRunning, ""))
    && (k.lifecycle == SessionArchived ==> l == k)
  }

  lemma PromptCallSound(k: K.Kernel, c: K.Call)
    requires Orderly(k) && K.Invoke(k, c).Ok?
    requires c.CallQueue? || c.CallReplace? || c.CallDiscard? || c.CallRelease?
    ensures Orderly(K.Invoke(k, c).value) && Follows(k, K.Invoke(k, c).value, Named(k, c))
  {
  }

  lemma EndCallSound(k: K.Kernel, c: K.Call)
    requires Orderly(k) && K.Invoke(k, c).Ok?
    requires c.CallRequestCancel? || c.CallConfirmCancel? || c.CallComplete? || c.CallInterrupt? || c.CallFail?
    ensures Orderly(K.Invoke(k, c).value) && Follows(k, K.Invoke(k, c).value, Named(k, c))
  {
    if c.CallRequestCancel? {
      CancelSoundInKernel(k);
    } else if c.CallComplete? {
      FinishSound(k, TurnCompleted, c.result);
    } else if c.CallFail? {
      FinishSound(k, TurnFailed, c.reason);
    } else {
      FinishSound(k, if c.CallInterrupt? then TurnInterrupted else TurnCancelled, k.ActiveResult());
    }
  }

  // The active turn ends.
  lemma FinishSound(k: K.Kernel, status: TurnStatus, result: string)
    requires Orderly(k) && k.HasActiveTurn() && status.Terminal()
    ensures Orderly(k.Finish(status, result)) && Follows(k, k.Finish(status, result), k.active)
  {
  }

  lemma CancelSoundInKernel(k: K.Kernel)
    requires Orderly(k) && K.Invoke(k, K.CallRequestCancel).Ok?
    ensures
      var l := K.Invoke(k, K.CallRequestCancel).value;
      Orderly(l) && Follows(k, l, k.active)
  {
  }

  lemma HostCallSound(k: K.Kernel, c: K.Call)
    requires Orderly(k) && K.Invoke(k, c).Ok?
    requires c.CallRecordHostLoss? || c.CallArchive? || c.CallReconcileHost?
    ensures Orderly(K.Invoke(k, c).value) && Follows(k, K.Invoke(k, c).value, Named(k, c))
  {
  }

  // A call that is refused changes nothing; one that succeeds keeps order.
  lemma CallSound(k: K.Kernel, c: K.Call)
    requires Orderly(k)
    ensures
      var l := K.Outcome(k, K.Invoke(k, c));
      Orderly(l) && Follows(k, l, Named(k, c))
  {
    if K.Invoke(k, c).Ok? {
      if c.CallQueue? || c.CallReplace? || c.CallDiscard? || c.CallRelease? {
        PromptCallSound(k, c);
      } else if c.CallRecordHostLoss? || c.CallArchive? || c.CallReconcileHost? {
        HostCallSound(k, c);
      } else {
        EndCallSound(k, c);
      }
    }
  }

  // The kernel's own controller calls need its lease, its connection and a
  // session that is not archived.
  lemma LeaseIsAsked(k: K.Kernel, lease: string, key: string, text: string)
    requires k.Queue(lease, key, text).Ok? || k.Replace(lease, key, text).Ok? || k.Discard(lease, key).Ok?
             || k.Release(lease, key).Ok? || k.RequestCancel(lease).Ok? || k.Archive(lease).Ok?
    ensures lease != "" && lease == k.lease && k.lifecycle == SessionActive && k.controller == ControllerConnected
  {
  }

  function RunCallsOn(k: K.Kernel, calls: seq<K.Call>): K.Kernel
    decreases |calls|
  {
    if calls == [] then k else RunCallsOn(K.Outcome(k, K.Invoke(k, calls[0])), calls[1..])
  }

  // Over any run of calls, refused or not.
  lemma {:induction false} KernelRunSound(k: K.Kernel, calls: seq<K.Call>)
    requires Orderly(k)
    ensures Orderly(RunCallsOn(k, calls))
    ensures RunCallsOn(k, calls).recoveryGen >= k.recoveryGen
    ensures forall key :: key in k.turns ==> TurnStands(k, RunCallsOn(k, calls), key)
    decreases |calls|
  {
    if calls != [] {
      var l := K.Outcome(k, K.Invoke(k, calls[0]));
      CallSound(k, calls[0]);
      KernelRunSound(l, calls[1..]);
      forall key | key in k.turns ensures TurnStands(k, RunCallsOn(k, calls), key) {
        assert TurnStands(l, RunCallsOn(l, calls[1..]), key);
      }
    }
  }

  predicate TurnStands(k: K.Kernel, l: K.Kernel, key: string)
    requires key in k.turns
  {
    && key in l.turns && l.turns[key].prompt == k.turns[key].prompt
    && (k.turns[key].status.Terminal() ==> l.turns[key] == k.turns[key])
  }

  lemma NewKernelOrderly(lease: string)
    ensures Orderly(K.NewKernel(lease))
  {
  }

  // What the store asks of a prompt that the kernel does not keep: its tools.
  predicate ToolsAgree(s: Session, c: Command) {
    && (c.QueuePrompt? && c.key in s.pending ==> s.pending[c.key].tools == c.tools)
    && (c.ReplacePendingPrompt? && c.key in s.pending && c.stated.Some? ==> c.stated.value == s.pending[c.key].tools)
  }

  lemma PromptAcceptedMeans(san: string -> string, s: Session, k: K.Kernel, open: bool, c: Command)
    requires Related(san, s, k) && Consistent(s) && C.Current(s, c) && ToolsAgree(s, c)
    requires c.QueuePrompt? || c.ReplacePendingPrompt? || c.DiscardPendingPrompt?
    requires K.InvokeAll(k, Calls(san, s, c)).Ok?
    ensures C.Fits(san, s, open, c)
  {
    One(k, Calls(san, s, c)[0]);
  }

  lemma ReleaseAcceptedMeans(san: string -> string, s: Session, k: K.Kernel, open: bool, c: Command)
    requires Related(san, s, k) && Consistent(s) && C.Current(s, c) && c.ReleaseTurn?
    requires K.InvokeAll(k, [K.CallRelease(c.key)]).Ok?
    ensures C.Fits(san, s, open, c)
  {
    One(k, K.CallRelease(c.key));
  }

  lemma CancelAcceptedMeans(san: string -> string, s: Session, open: bool, c: Command)
    requires Consistent(s) && C.Current(s, c) && c.RequestCancel? && CancelCall(s, c.key) != []
    ensures C.Fits(san, s, open, c)
  {
    assert TurnConsistent(s, c.key);
  }

  lemma HostLossAcceptedMeans(san: string -> string, s: Session, k: K.Kernel, open: bool, c: Command)
    requires Related(san, s, k) && C.Current(s, c) && c.RecordHostLoss? && K.InvokeAll(k, [K.CallRecordHostLoss]).Ok?
    ensures C.Fits(san, s, open, c)
  {
    One(k, K.CallRecordHostLoss);
  }

  lemma ArchiveAcceptedMeans(san: string -> string, s: Session, k: K.Kernel, open: bool, c: Command)
    requires Related(san, s, k) && Consistent(s) && C.Current(s, c) && c.ArchiveSession?
    requires K.InvokeAll(k, [K.CallArchive]).Ok?
    ensures C.Fits(san, s, open, c)
  {
    ArchiveMeans(k);
    RelatedActive(san, s, k);
  }

  lemma ArchiveMeans(k: K.Kernel)
    requires K.InvokeAll(k, [K.CallArchive]).Ok?
    ensures k.state != Running && !k.HasActiveTurn() && k.visibility == VisibilityReachable
  {
    One(k, K.CallArchive);
  }

  lemma OutcomeAcceptedMeans(s: Session, key: string, status: TurnStatus, result: string)
    requires Consistent(s) && OutcomeCalls(s, key, status, result) != []
    ensures C.Settles(s, key, status, result)
  {
    assert TurnConsistent(s, key);
  }

  lemma ReconcileHostMeans(k: K.Kernel, key: string, gen: nat, status: TurnStatus, result: string)
    requires K.InvokeAll(k, [K.CallReconcileHost(key, gen, status, result)]).Ok?
    ensures k.visibility == VisibilityHostLost && k.activeRecoveryGen == gen
    ensures k.HasActiveTurn() ==> k.active == Some(key)
    ensures !k.HasActiveTurn() ==> k.recoveryContext == Some(key) && status.Terminal()
  {
    One(k, K.CallReconcileHost(key, gen, status, result));
  }

  lemma ReconcileAcceptedMeans(san: string -> string, s: Session, k: K.Kernel, open: bool, c: Command, status: TurnStatus,
                               result: string)
    requires Related(san, s, k) && Consistent(s) && c.ReconcileSession?
    requires status.Terminal() ==> c.outcome.status != ReachableActive
    requires K.InvokeAll(k, [K.CallReconcileHost(c.recovery.turnKey, c.recovery.generation, status, result)]).Ok?
    ensures C.Fits(san, s, open, c)
  {
    ReconcileHostMeans(k, c.recovery.turnKey, c.recovery.generation, status, result);
    RelatedActive(san, s, k);
    ReconcileFits(san, s, k, open, c);
  }

  lemma ReconcileFits(san: string -> string, s: Session, k: K.Kernel, open: bool, c: Command)
    requires RowRelated(s, k) && c.ReconcileSession? && (k.HasActiveTurn() <==> s.active.Some?)
    requires k.visibility == VisibilityHostLost && k.activeRecoveryGen == c.recovery.generation
    requires k.HasActiveTurn() ==> k.active == Some(c.recovery.turnKey)
    requires !k.HasActiveTurn() ==> k.recoveryContext == Some(c.recovery.turnKey) && c.outcome.status != ReachableActive
    ensures C.Fits(san, s, open, c)
  {
  }

  lemma RelatedActive(san: string -> string, s: Session, k: K.Kernel)
    requires Related(san, s, k) && Consistent(s)
    ensures k.HasActiveTurn() <==> s.active.Some?
  {
  }

  lemma ReconcileCallMeans(san: string -> string, s: Session, k: K.Kernel, open: bool, c: Command)
    requires Related(san, s, k) && Consistent(s) && c.ReconcileSession? && Calls(san, s, c) != []
    requires K.InvokeAll(k, Calls(san, s, c)).Ok?
    ensures C.Fits(san, s, open, c)
  {
    var result := san(c.outcome.result);
    match c.outcome.status
    case ReachableActive => ReconcileAcceptedMeans(san, s, k, open, c, TurnRunning, "");
    case ReachableTerminal => ReconcileAcceptedMeans(san, s, k, open, c, c.outcome.observed, result);
    case DefinitivelyMissing => ReconcileAcceptedMeans(san, s, k, open, c, TurnFailed, result);
  }

  lemma AcceptedMeans(san: string -> string, s: Session, k: K.Kernel, open: bool, c: Command)
    requires Related(san, s, k) && Consistent(s) && C.Current(s, c) && ToolsAgree(s, c)
    requires Calls(san, s, c) != [] && !c.ResolveAgyTurnUncertainty? && K.InvokeAll(k, Calls(san, s, c)).Ok?
    requires c.RecordObservedExecutionOutcome? ==> s.lifecycle == SessionActive
    ensures C.Fits(san, s, open, c)
  {
    match c
    case RecordTerminalOutcome(_, key, status, result) => OutcomeAcceptedMeans(s, key, status, san(result));
    case RecordObservedExecutionOutcome(ref, status, result) => OutcomeAcceptedMeans(s, ref.turnKey, status, san(result));
    case ReconcileSession(_, _, _) => ReconcileCallMeans(san, s, k, open, c);
    case RequestCancel(_, _) => CancelAcceptedMeans(san, s, open, c);
    case RecordHostLoss(_) => HostLossAcceptedMeans(san, s, k, open, c);
    case ArchiveSession(_) => ArchiveAcceptedMeans(san, s, k, open, c);
    case ReleaseTurn(_, _) => ReleaseAcceptedMeans(san, s, k, open, c);
    case _ => PromptAcceptedMeans(san, s, k, open, c);
  }

  // Whether a command for the kernel is accepted does not depend on which of
  // the two is asked: at the current version, with the tools the store holds,
  // the store commits exactly when the kernel takes the matching calls.
  lemma AcceptedIff(san: string -> string, s: Session, k: K.Kernel, gen: nat, open: bool, c: Command, op: string, lease: string)
    requires Related(san, s, k) && Consistent(s) && KeepsText(san)
    requires C.Formed(op, lease, c) && C.Current(s, c) && ToolsAgree(s, c)
    requires Calls(san, s, c) != [] && !c.ResolveAgyTurnUncertainty?
    requires c.RecordObservedExecutionOutcome? ==> s.lifecycle == SessionActive
    ensures Decide(san, s, gen, open, c).Commit? <==> K.InvokeAll(k, Calls(san, s, c)).Ok?
  {
    C.FormedIff(op, lease, c);
    C.DecidesIff(san, s, gen, open, c, op, lease);
    if Decide(san, s, gen, open, c).Commit? {
      CommandMatched(san, s, k, gen, open, c);
    } else if K.InvokeAll(k, Calls(san, s, c)).Ok? {
      AcceptedMeans(san, s, k, open, c);
    }
  }
}
