// What a refusal tells: whatever error a caller gets, the condition it names
// is there, in the arguments, in the run's authority, in the session or in the
// journal.
module Refusals {
  import opened Domain
  import opened SessionRules
  import opened ControllerRules
  import opened LeaseFencing
  import opened Database
  import opened StoreInvariants
  import C = Commits
  import T = Transitions

  // Said of the arguments alone.
  predicate ArgumentsLack(op: string, lease: string, c: Command, e: Error) {
    match e
    case InvalidExpectedVersion => C.Expected(c).Some? && C.Expected(c).value <= 0
    case EmptyOperationId => Blank(op)
    case EmptyTurnKey => C.Key(c).Some? && Blank(C.Key(c).value)
    case EmptyPrompt => (c.QueuePrompt? || c.ReplacePendingPrompt?) && Blank(c.text)
    case InvalidStatus => (c.RecordTerminalOutcome? || c.RecordObservedExecutionOutcome?) && !c.status.Terminal()
    case InvalidPhase => (c.RecordDispatchObservation? || c.RecordObservedDispatchAcknowledgement?) && !c.phase.Observation()
    case InvalidOutcome =>
      && c.ReconcileSession?
      && (c.outcome.ref != c.recovery || !C.Credible(c.outcome) || Blank(c.recovery.session) || Blank(c.recovery.turnKey)
          || c.recovery.generation == 0)
    case WrongExecutionAttempt =>
      c.ReconcileSession? && (c.ref.session != c.recovery.session || c.ref.turnKey != c.recovery.turnKey)
    case InvalidReference => c.ResolveAgyTurnUncertainty? && Unnamed(c.ref)
    case InvalidDisposition => c.ResolveAgyTurnUncertainty? && (!c.abandoned || Blank(c.reason))
    case InvalidParameters => c.ResolveAgyTurnUncertainty? && (Blank(op) || Blank(lease) || c.generation == 0)
    case _ => false
  }

  predicate Unnamed(ref: ExecutionRef) {
    Blank(ref.session) || Blank(ref.turnKey) || Blank(ref.attempt)
  }

  // Said of a reference to an execution.
  predicate ReferenceLacks(db: Db, ref: ExecutionRef, e: Error) {
    match e
    case InvalidReference => Unnamed(ref)
    case NoAcceptedExecution => ref.session !in db.sessions || ref.turnKey !in db.sessions[ref.session].intents
    case WrongExecutionAttempt =>
      && ref.session in db.sessions && ref.turnKey in db.sessions[ref.session].intents
      && db.sessions[ref.session].intents[ref.turnKey].attempt != ref.attempt
    case _ => false
  }

  // Said of a credential.
  ghost predicate CredentialLacks(a: Authority, lease: string, requireAdopted: bool, e: Error) {
    && Classify(a, lease, requireAdopted).Err?
    && match e
       case AdoptionRequired => Blank(lease) || !a.adopted
       case SessionIsArchived => a.archived
       case LeaseSuperseded => RetiredLease(a, lease)
       case Unauthorized => !RetiredLease(a, lease) && (a.adopted || !requireAdopted)
       case _ => false
  }

  // Said of the run of the session, and of whether there is one.
  ghost predicate AuthorityLacks(db: Db, lease: string, named: string, c: Command, e: Error) {
    var id := C.Subject(named, c);
    || (e == AdoptionRequired && C.Expected(c).Some? && Blank(lease))
    || (if id !in db.sessions then e == SessionNotFound
        else if db.sessions[id].run !in db.runs then e == RunNotFound
        else
          var a := db.runs[db.sessions[id].run];
          || (C.Expected(c).Some? && CredentialLacks(a, lease, !c.ArchiveSession?, e))
          || (e == GenerationMismatch && c.ResolveAgyTurnUncertainty? && Classify(a, lease, true).Ok?
              && Classify(a, lease, true).value != c.generation)
          || (C.Steers(c) && e == AdoptionRequired && ActiveGen(a) == None)
          || (C.Steers(c) && e == ControllerIsDisconnected && ActiveGen(a).Some? && !a.grants[ActiveGen(a).value].connected)
          || (e == Unauthorized && c.RecordDispatchObservation? && a.lease != lease))
  }

  // Said of the session.
  predicate SessionLacks(san: string -> string, s: Session, open: bool, c: Command, e: Error) {
    var key := if C.Key(c).Some? then C.Key(c).value else "";
    match e
    case StaleUpdate => C.Expected(c).Some? && s.version != C.Expected(c).value
    case SessionIsArchived => s.lifecycle == SessionArchived
    case ControllerIsDisconnected => C.Steers(c) && s.controller == ControllerDisconnected
    case HostIsLost => s.visibility == VisibilityHostLost
    case NotParked => s.state != Parked || s.active.Some?
    case PromptNotQueued => key !in s.pending
    case RequiredToolsImmutable =>
      c.ReplacePendingPrompt? && key in s.pending && c.stated.Some? && c.stated.value != s.pending[key].tools
    case KeyAlreadyActive => s.active == Some(key)
    case RetiredWithDifferentContent => c.QueuePrompt? && key in s.turns && s.turns[key].prompt != san(c.text)
    case TurnAlreadyExists => c.QueuePrompt? && key in s.turns && s.turns[key].prompt == san(c.text)
    case DuplicatePendingKey => c.QueuePrompt? && key in s.pending && s.pending[key] != Prompt(san(c.text), c.tools)
    case NoActiveTurn => s.state != Running || s.active != Some(key)
    case TurnNotFound => key !in s.turns
    case CannotCancel => key in s.turns && !s.turns[key].status.Live()
    case ConflictingTerminalOutcome =>
      && key in s.turns
      && if c.ResolveAgyTurnUncertainty? then !s.turns[key].status.Live()
         else
           && (c.RecordTerminalOutcome? || c.RecordObservedExecutionOutcome?) && s.turns[key].status.Terminal()
           && (s.turns[key].status != c.status || s.turns[key].result != san(c.result))
    case OutcomeDoesNotMatch =>
      && key in s.turns && !s.turns[key].status.Terminal()
      && (s.active != Some(key) || (s.state != Running && s.visibility == VisibilityReachable))
    case InactiveSession => s.state != Running || s.active == None
    case IntentNotFound => key !in s.intents
    case IntentAlreadyResolved => key in s.intents && s.intents[key].phase == Resolved
    case InvalidPhase => c.RecordDispatchObservation? && !c.phase.Observation()
    case HostNotLost => s.visibility == VisibilityReachable
    case StaleRecoveryGeneration => c.ReconcileSession? && s.activeRecoveryGen != c.recovery.generation
    case KeyDoesNotMatch => s.active != Some(key) && (s.active.Some? || s.context != Some(key))
    case ConflictsWithTerminal => c.ReconcileSession? && s.active == None && c.outcome.status == ReachableActive
    case CannotArchive => s.state == Running || s.active.Some? || s.visibility == VisibilityHostLost
    case NotAgySession => s.contributor != "agy"
    case NotRecovering => s.active != Some(key) && (s.active.Some? || s.context != Some(key))
    case AttemptNotUncertain => !open
    case ConstraintViolation => c.ReleaseTurn? && (key in s.turns || key in s.intents)
    case _ => false
  }

  // Said of the journal.
  predicate JournalHas(san: string -> string, db: Db, op: string, named: string, c: Command, e: Error) {
    && op in db.journal
    && match e
       case IdempotencyConflict =>
         db.journal[op].command != KindOf(c) || db.journal[op].fingerprint != CommandMark(san, named, c)
       case ConstraintViolation => true
       case _ => false
  }

  ghost predicate Explained(san: string -> string, db: Db, op: string, lease: string, named: string, c: Command, e: Error) {
    || ArgumentsLack(op, lease, c, e)
    || AuthorityLacks(db, lease, named, c, e)
    || (C.Expected(c) == None && !c.RecordDispatchObservation? && ReferenceLacks(db, C.Execution(c), e))
    || (c.ResolveAgyTurnUncertainty? && ReferenceLacks(db, c.ref, e))
    || (C.Subject(named, c) in db.sessions && SessionLacks(san, db.sessions[C.Subject(named, c)], C.Unsettled(db, c), c, e))
    || JournalHas(san, db, op, named, c, e)
  }

  lemma KeyArgumentsExplain(op: string, lease: string, c: Command)
    requires C.Expected(c).Some? && !c.ResolveAgyTurnUncertainty? && Arguments(op, lease, c).Some?
    ensures ArgumentsLack(op, lease, c, Arguments(op, lease, c).value)
  {
  }

  lemma ArgumentsExplain(op: string, lease: string, c: Command)
    requires Arguments(op, lease, c).Some?
    ensures ArgumentsLack(op, lease, c, Arguments(op, lease, c).value)
  {
    if C.Expected(c).Some? && !c.ResolveAgyTurnUncertainty? {
      KeyArgumentsExplain(op, lease, c);
    }
  }

  lemma ReferenceExplains(db: Db, ref: ExecutionRef)
    requires ResolveRef(db, ref).Some?
    ensures ReferenceLacks(db, ref, ResolveRef(db, ref).value)
  {
  }

  lemma CredentialExplains(a: Authority, lease: string, requireAdopted: bool)
    requires Classify(a, lease, requireAdopted).Err?
    ensures CredentialLacks(a, lease, requireAdopted, Classify(a, lease, requireAdopted).error)
  {
  }

  lemma GateExplains(san: string -> string, db: Db, op: string, lease: string, named: string, c: Command)
    requires Gate(db, lease, named, c).Err?
    ensures Explained(san, db, op, lease, named, c, Gate(db, lease, named, c).error)
  {
    if Evidence(c) {
      ReferenceExplains(db, Reference(c));
    } else {
      var id := C.Subject(named, c);
      if id in db.sessions && db.sessions[id].run in db.runs && Classify(db.runs[db.sessions[id].run], lease, !c.ArchiveSession?).Err? {
        CredentialExplains(db.runs[db.sessions[id].run], lease, !c.ArchiveSession?);
      }
    }
  }

  // One of its parts explains a refusal.
  lemma AuthorityExplains(san: string -> string, db: Db, op: string, lease: string, named: string, c: Command, e: Error)
    requires AuthorityLacks(db, lease, named, c, e) || (c.ResolveAgyTurnUncertainty? && ReferenceLacks(db, c.ref, e))
    ensures Explained(san, db, op, lease, named, c, e)
  {
  }

  lemma SessionExplains(san: string -> string, db: Db, op: string, lease: string, named: string, c: Command, e: Error)
    requires C.Subject(named, c) in db.sessions
    requires SessionLacks(san, db.sessions[C.Subject(named, c)], C.Unsettled(db, c), c, e)
    ensures Explained(san, db, op, lease, named, c, e)
  {
  }

  lemma JournalExplains(san: string -> string, db: Db, op: string, lease: string, named: string, c: Command, e: Error)
    requires JournalHas(san, db, op, named, c, e)
    ensures Explained(san, db, op, lease, named, c, e)
  {
  }

  lemma ReadySays(db: Db, lease: string, named: string, c: Command)
    requires Ready(db, lease, named, c).Some?
    ensures
      var e := Ready(db, lease, named, c).value;
      AuthorityLacks(db, lease, named, c, e) || (c.ResolveAgyTurnUncertainty? && ResolveRef(db, c.ref) == Some(e))
  {
  }

  lemma ReadyExplains(san: string -> string, db: Db, op: string, lease: string, named: string, c: Command)
    requires Ready(db, lease, named, c).Some?
    ensures Explained(san, db, op, lease, named, c, Ready(db, lease, named, c).value)
  {
    ReadySays(db, lease, named, c);
    if c.ResolveAgyTurnUncertainty? && ResolveRef(db, c.ref).Some? {
      ReferenceExplains(db, c.ref);
    }
    AuthorityExplains(san, db, op, lease, named, c, Ready(db, lease, named, c).value);
  }

  lemma PromptExplains(san: string -> string, s: Session, gen: nat, open: bool, c: Command)
    requires c.QueuePrompt? || c.ReplacePendingPrompt?
    requires Decide(san, s, gen, open, c).Refuse?
    ensures SessionLacks(san, s, open, c, Decide(san, s, gen, open, c).error)
  {
  }

  lemma TurnExplains(san: string -> string, s: Session, gen: nat, open: bool, c: Command)
    requires c.DiscardPendingPrompt? || c.ReleaseTurn? || c.RequestCancel?
    requires Decide(san, s, gen, open, c).Refuse?
    ensures SessionLacks(san, s, open, c, Decide(san, s, gen, open, c).error)
  {
  }

  lemma RowExplains(san: string -> string, s: Session, gen: nat, open: bool, c: Command)
    requires c.RecordHostLoss? || c.SetControllerConnection? || c.ArchiveSession?
    requires Decide(san, s, gen, open, c).Refuse?
    ensures SessionLacks(san, s, open, c, Decide(san, s, gen, open, c).error)
  {
  }

  lemma PhaseExplains(san: string -> string, s: Session, gen: nat, open: bool, c: Command)
    requires c.RecordDispatchObservation? || c.RecordObservedDispatchAcknowledgement?
    requires Decide(san, s, gen, open, c).Refuse?
    ensures SessionLacks(san, s, open, c, Decide(san, s, gen, open, c).error)
  {
  }

  lemma OutcomeExplains(san: string -> string, s: Session, gen: nat, open: bool, c: Command)
    requires c.RecordTerminalOutcome? || c.RecordObservedExecutionOutcome?
    requires Decide(san, s, gen, open, c).Refuse?
    ensures SessionLacks(san, s, open, c, Decide(san, s, gen, open, c).error)
  {
  }

  lemma ReconcileExplains(san: string -> string, s: Session, open: bool, c: Command)
    requires c.ReconcileSession? && Malformed(c) == None && DecideReconcile(san, s, c).Refuse?
    ensures SessionLacks(san, s, open, c, DecideReconcile(san, s, c).error)
  {
  }

  lemma AbandonExplains(san: string -> string, s: Session, open: bool, c: Command)
    requires c.ResolveAgyTurnUncertainty? && DecideAbandon(san, s, open, c).Refuse?
    ensures SessionLacks(san, s, open, c, DecideAbandon(san, s, open, c).error)
  {
  }

  lemma DecisionExplains(san: string -> string, s: Session, gen: nat, open: bool, c: Command)
    requires Malformed(c) == None && Decide(san, s, gen, open, c).Refuse?
    ensures SessionLacks(san, s, open, c, Decide(san, s, gen, open, c).error)
  {
    if c.QueuePrompt? || c.ReplacePendingPrompt? {
      PromptExplains(san, s, gen, open, c);
    } else if c.DiscardPendingPrompt? || c.ReleaseTurn? || c.RequestCancel? {
      TurnExplains(san, s, gen, open, c);
    } else if c.RecordDispatchObservation? || c.RecordObservedDispatchAcknowledgement? {
      PhaseExplains(san, s, gen, open, c);
    } else if c.RecordTerminalOutcome? || c.RecordObservedExecutionOutcome? {
      OutcomeExplains(san, s, gen, open, c);
    } else if c.ReconcileSession? {
      ReconcileExplains(san, s, open, c);
    } else if c.ResolveAgyTurnUncertainty? {
      AbandonExplains(san, s, open, c);
    } else {
      RowExplains(san, s, gen, open, c);
    }
  }

  lemma SettleSays(san: string -> string, db: Db, op: string, named: string, c: Command, d: Decision)
    requires Settle(san, db, op, named, c, d).reply.Refused?
    ensures
      var e := Settle(san, db, op, named, c, d).reply.error;
      if d.Refuse? then e == d.error else JournalHas(san, db, op, named, c, e)
  {
  }

  lemma ReadySettles(san: string -> string, db: Db, op: string, lease: string, named: string, gen: nat, c: Command)
    requires Ready(db, lease, named, c) == None
    ensures C.Subject(named, c) in db.sessions
    ensures NewDecision(san, db, op, lease, named, gen, c) ==
            Settle(san, db, op, named, c, Decide(san, db.sessions[C.Subject(named, c)], gen, C.Unsettled(db, c), c))
  {
  }

  lemma NewDecisionExplains(san: string -> string, db: Db, op: string, lease: string, named: string, gen: nat, c: Command)
    requires Malformed(c) == None && NewDecision(san, db, op, lease, named, gen, c).reply.Refused?
    ensures Explained(san, db, op, lease, named, c, NewDecision(san, db, op, lease, named, gen, c).reply.error)
  {
    if Ready(db, lease, named, c).Some? {
      ReadyExplains(san, db, op, lease, named, c);
    } else {
      ReadySettles(san, db, op, lease, named, gen, c);
      var s, open := db.sessions[C.Subject(named, c)], C.Unsettled(db, c);
      var d := Decide(san, s, gen, open, c);
      SettleSays(san, db, op, named, c, d);
      if d.Refuse? {
        DecisionExplains(san, s, gen, open, c);
        SessionExplains(san, db, op, lease, named, c, d.error);
      } else {
        JournalExplains(san, db, op, lease, named, c, NewDecision(san, db, op, lease, named, gen, c).reply.error);
      }
    }
  }

  lemma AnswerExplains(san: string -> string, db: Db, op: string, lease: string, named: string, gen: nat, c: Command)
    requires Malformed(c) == None && Answer(san, db, op, lease, named, gen, c).reply.Refused?
    ensures Explained(san, db, op, lease, named, c, Answer(san, db, op, lease, named, gen, c).reply.error)
  {
    if Answer(san, db, op, lease, named, gen, c) == NewDecision(san, db, op, lease, named, gen, c) {
      NewDecisionExplains(san, db, op, lease, named, gen, c);
    }
  }

  // Every refusal of a session command is true.
  lemma RefusalsAreTrue(san: string -> string, db: Db, op: string, lease: string, named: string, c: Command)
    requires ExecuteSession(san, db, op, lease, named, c).reply.Refused?
    ensures Explained(san, db, op, lease, named, c, ExecuteSession(san, db, op, lease, named, c).reply.error)
  {
    C.FormedIff(op, lease, c);
    if Arguments(op, lease, c).Some? {
      ArgumentsExplain(op, lease, c);
    } else if Gate(db, lease, named, c).Err? {
      GateExplains(san, db, op, lease, named, c);
    } else {
      AnswerExplains(san, db, op, lease, named, Gate(db, lease, named, c).value, c);
    }
  }

  // The lease a transition presents, of those that need a current one.
  function Presented(c: ControllerCommand): Option<string> {
    match c
    case Handoff(lease, _, _, _, _) => Some(lease)
    case Revoke(lease, recovery) => if recovery == None then Some(lease) else None
    case Connect(lease, _, _, _) => Some(lease)
    case Disconnect(lease, _, _) => Some(lease)
    case _ => None
  }

  // The generation it expects to act on.
  function Aimed(c: ControllerCommand): Option<nat> {
    match c
    case Adopt(_, _, _, recovery, _) => if recovery == None then None else Some(recovery.value.expected)
    case Handoff(_, expected, _, _, _) => Some(expected)
    case Revoke(_, recovery) => if recovery == None then None else Some(recovery.value.expected)
    case Recover(_, expected) => Some(expected)
    case Connect(_, expected, _, _) => Some(expected)
    case Disconnect(_, _, expected) => Some(expected)
  }

  // The generation it would act on.
  ghost function Found(a: Authority, c: ControllerCommand): Option<nat> {
    match c
    case Adopt(_, _, _, _, _) => Newest(a.grants, {Legacy, Revoked})
    case Revoke(_, recovery) => if recovery == None then ActiveGen(a) else Newest(a.grants, {Legacy, Active})
    case Recover(source, _) => Issued(a, source)
    case _ => ActiveGen(a)
  }

  // Said of the run.
  ghost predicate RunLacks(a: Authority, issuance: bool, c: ControllerCommand, e: Error) {
    || (Presented(c).Some? && CredentialLacks(a, Presented(c).value, true, e))
    || match e
       case AdoptionExists => c.Adopt? && a.adopted
       case Unauthorized => c.Adopt? && c.recovery == None && c.bootstrap != a.lease
       case GenerationMismatch => Aimed(c).Some? && Found(a, c) != Aimed(c)
       case NoGrantToRevoke => c.Revoke? && Found(a, c) == None
       case RecoveryUnavailable =>
         c.Recover? && (!issuance || Found(a, c) == None || a.grants[Found(a, c).value].status != Active)
       case _ => false
  }

  ghost predicate TransitionExplained(san: string -> string, db: Db, op: string, run: string, c: ControllerCommand, e: Error) {
    || (e == InvalidParameters && !T.Formed(op, c))
    || (e == AdoptionRequired && Presented(c).Some? && Blank(Presented(c).value))
    || (run !in db.runs && (e == RunNotFound || (e == RecoveryUnavailable && c.Recover?) || (e == NoGrantToRevoke && c.Revoke?)))
    || (run in db.runs && RunLacks(db.runs[run], c.Recover? && IsIssuance(db.journal, c.source), c, e))
    || (op in db.journal && e == IdempotencyConflict)
  }

  lemma AdoptExplains(san: string -> string, a: Authority, op: string, issuance: bool, c: ControllerCommand)
    requires c.Adopt? && DecideAdopt(san, a, op, c).RefuseController?
    ensures RunLacks(a, issuance, c, DecideAdopt(san, a, op, c).error)
  {
  }

  lemma RevokeExplains(san: string -> string, a: Authority, issuance: bool, c: ControllerCommand)
    requires c.Revoke? && DecideRevoke(san, a, c).RefuseController?
    ensures RunLacks(a, issuance, c, DecideRevoke(san, a, c).error)
  {
    if c.recovery == None && Classify(a, c.lease, true).Err? {
      CredentialExplains(a, c.lease, true);
    }
  }

  lemma RecoverExplains(a: Authority, issuance: bool, c: ControllerCommand)
    requires c.Recover? && DecideRecover(a, issuance, c).RefuseController?
    ensures RunLacks(a, issuance, c, DecideRecover(a, issuance, c).error)
  {
  }

  // A handoff, a connect and a disconnect ask for the lease, then for the
  // generation it authorises.
  lemma HolderExplains(san: string -> string, a: Authority, op: string, issuance: bool, c: ControllerCommand)
    requires Fenced(a) && (c.Handoff? || c.Connect? || c.Disconnect?)
    requires DecideController(san, a, op, issuance, c).RefuseController?
    ensures RunLacks(a, issuance, c, DecideController(san, a, op, issuance, c).error)
  {
    if Classify(a, c.lease, true).Err? {
      CredentialExplains(a, c.lease, true);
    } else {
      AuthorisedIsActive(a, c.lease);
    }
  }

  lemma AuthorisedIsActive(a: Authority, lease: string)
    requires Classify(a, lease, true).Ok?
    ensures ActiveGen(a) == Some(Classify(a, lease, true).value)
  {
  }

  lemma RunExplains(san: string -> string, a: Authority, op: string, issuance: bool, c: ControllerCommand)
    requires Fenced(a) && DecideController(san, a, op, issuance, c).RefuseController?
    ensures RunLacks(a, issuance, c, DecideController(san, a, op, issuance, c).error)
  {
    match c
    case Adopt(_, _, _, _, _) => AdoptExplains(san, a, op, issuance, c);
    case Revoke(_, _) => RevokeExplains(san, a, issuance, c);
    case Recover(_, _) => RecoverExplains(a, issuance, c);
    case _ => HolderExplains(san, a, op, issuance, c);
  }

  lemma DecidedExplains(san: string -> string, db: Db, op: string, run: string, c: ControllerCommand)
    requires SoundRuns(db) && ControllerDecided(san, db, op, run, c).RefuseController?
    ensures TransitionExplained(san, db, op, run, c, ControllerDecided(san, db, op, run, c).error)
  {
    if run in db.runs {
      RunExplains(san, db.runs[run], op, c.Recover? && IsIssuance(db.journal, c.source), c);
    }
  }

  lemma TransitionGateExplains(san: string -> string, db: Db, op: string, run: string, c: ControllerCommand)
    requires ControllerGate(db, run, c).Err?
    ensures TransitionExplained(san, db, op, run, c, ControllerGate(db, run, c).error)
  {
    GateSays(db, run, c);
    var e, lease := ControllerGate(db, run, c).error, Presented(c).value;
    if run in db.runs && !Blank(lease) {
      LeaseExplains(db.runs[run], c.Recover? && IsIssuance(db.journal, c.source), c, e);
    }
  }

  lemma LeaseExplains(a: Authority, issuance: bool, c: ControllerCommand, e: Error)
    requires Presented(c).Some? && !c.Handoff?
    requires match Classify(a, Presented(c).value, true)
             case Err(error) => e == error
             case Ok(gen) => e == GenerationMismatch && Aimed(c).Some? && Aimed(c) != Some(gen)
    ensures RunLacks(a, issuance, c, e)
  {
    if Classify(a, Presented(c).value, true).Err? {
      CredentialExplains(a, Presented(c).value, true);
    } else {
      AuthorisedIsActive(a, Presented(c).value);
    }
  }

  lemma GateSays(db: Db, run: string, c: ControllerCommand)
    requires ControllerGate(db, run, c).Err?
    ensures Presented(c).Some? && !c.Handoff?
    ensures
      var e, lease := ControllerGate(db, run, c).error, Presented(c).value;
      if Blank(lease) then e == AdoptionRequired
      else if run !in db.runs then e == RunNotFound
      else
        match Classify(db.runs[run], lease, true)
        case Err(error) => e == error
        case Ok(gen) => e == GenerationMismatch && Aimed(c).Some? && Aimed(c) != Some(gen)
  {
  }

  lemma TransitionAnswerExplains(san: string -> string, db: Db, op: string, run: string, target: nat, c: ControllerCommand)
    requires SoundRuns(db) && AnswerController(san, db, op, run, target, c).reply.Refused?
    ensures TransitionExplained(san, db, op, run, c, AnswerController(san, db, op, run, target, c).reply.error)
  {
    if ControllerDecided(san, db, op, run, c).RefuseController? {
      DecidedExplains(san, db, op, run, c);
    }
    if op in db.journal && db.journal[op].command == ControllerKind(c) && (c.Adopt? || c.Handoff?) {
      ControllerKindsGrant(c);
      assert IsIssuance(db.journal, op);
    }
  }

  // Every refusal of a controller transition is true.
  lemma TransitionRefusalsAreTrue(san: string -> string, db: Db, op: string, run: string, c: ControllerCommand)
    requires SoundRuns(db) && ExecuteController(san, db, op, run, c).reply.Refused?
    ensures TransitionExplained(san, db, op, run, c, ExecuteController(san, db, op, run, c).reply.error)
  {
    T.FormedIff(op, c);
    if T.Formed(op, c) {
      if ControllerGate(db, run, c).Err? {
        TransitionGateExplains(san, db, op, run, c);
      } else {
        TransitionAnswerExplains(san, db, op, run, ControllerGate(db, run, c).value, c);
      }
    }
  }
}
