// What each durable command does to one session, once its authority, its
// idempotency and its connection precondition have been settled
// (internal/storage/transitions.go, session_store.go, execution_outcomes.go,
// agy_disposition.go). A session is its row together with its pending
// prompts, turns and dispatch intents.
module SessionRules {
  import opened Domain

  datatype Prompt = Prompt(text: string, tools: seq<string>)

  datatype Turn = Turn(prompt: string, status: TurnStatus, result: string, attempt: string)

  datatype Phase = IntentRecorded | ReceiptAcknowledged | AcceptanceUnknown | Resolved
  {
    predicate Observation() {
      ReceiptAcknowledged? || AcceptanceUnknown?
    }

    function Name(): string {
      match this
      case IntentRecorded => "intent_recorded"
      case ReceiptAcknowledged => "receipt_acknowledged"
      case AcceptanceUnknown => "acceptance_unknown"
      case Resolved => "resolved"
    }
  }

  datatype Intent = Intent(attempt: string, phase: Phase, tools: seq<string>, issuedBy: nat)

  // An empty active key or recovery context is NULL in the table: None.
  datatype Session = Session(
    run: string,
    contributor: string,
    primary: bool,
    state: State,
    lifecycle: Lifecycle,
    controller: Connection,
    visibility: Visibility,
    active: Option<string>,
    context: Option<string>,
    recoveryGen: nat,
    activeRecoveryGen: nat,
    version: nat,
    pending: map<string, Prompt>,
    turns: map<string, Turn>,
    intents: map<string, Intent>)

  datatype ExecutionRef = ExecutionRef(session: string, turnKey: string, attempt: string)

  datatype RecoveryRef = RecoveryRef(session: string, turnKey: string, generation: nat)

  datatype ReconciliationStatus = ReachableActive | ReachableTerminal | DefinitivelyMissing | Uncertain

  datatype ReconciliationOutcome = ReconciliationOutcome(
    ref: RecoveryRef,
    reachability: Visibility,
    status: ReconciliationStatus,
    observed: TurnStatus,
    result: string)

  datatype Error =
    | InvalidExpectedVersion
    | EmptyOperationId
    | EmptyTurnKey
    | EmptyPrompt
    | InvalidReference
    | InvalidStatus
    | InvalidPhase
    | InvalidOutcome
    | InvalidDisposition
    | InvalidParameters
    | RunNotFound
    | SessionNotFound
    | AdoptionRequired
    | AdoptionExists
    | LeaseSuperseded
    | Unauthorized
    | GenerationMismatch
    | NoGrantToRevoke
    | RecoveryUnavailable
    | NoIssuance
    | ControllerIsDisconnected
    | IdempotencyConflict
    | ConstraintViolation
    | StaleUpdate
    | SessionIsArchived
    | HostIsLost
    | NotParked
    | PromptNotQueued
    | RequiredToolsImmutable
    | KeyAlreadyActive
    | RetiredWithDifferentContent
    | TurnAlreadyExists
    | DuplicatePendingKey
    | NoActiveTurn
    | TurnNotFound
    | CannotCancel
    | ConflictingTerminalOutcome
    | OutcomeDoesNotMatch
    | InactiveSession
    | IntentNotFound
    | IntentAlreadyResolved
    | NoAcceptedExecution
    | WrongExecutionAttempt
    | HostNotLost
    | StaleRecoveryGeneration
    | KeyDoesNotMatch
    | ConflictsWithTerminal
    | CannotArchive
    | NotAgySession
    | NotRecovering
    | AttemptNotUncertain

  datatype Command =
    | QueuePrompt(expected: int, key: string, text: string, tools: seq<string>)
    | ReplacePendingPrompt(expected: int, key: string, text: string, stated: Option<seq<string>>)
    | DiscardPendingPrompt(expected: int, key: string)
    | ReleaseTurn(expected: int, key: string)
    | RequestCancel(expected: int, key: string)
    | RecordTerminalOutcome(expected: int, key: string, status: TurnStatus, result: string)
    | RecordHostLoss(expected: int)
    | SetControllerConnection(expected: int, connection: Connection)
    | ArchiveSession(expected: int)
    | RecordDispatchObservation(key: string, phase: Phase)
    | RecordObservedExecutionOutcome(ref: ExecutionRef, status: TurnStatus, result: string)
    | RecordObservedDispatchAcknowledgement(ref: ExecutionRef, phase: Phase)
    | ReconcileSession(ref: ExecutionRef, recovery: RecoveryRef, outcome: ReconciliationOutcome)
    | ResolveAgyTurnUncertainty(generation: nat, expected: int, ref: ExecutionRef, abandoned: bool, reason: string)

  // A refusal leaves the session alone; a commit may too (a recorded no-op).
  datatype Decision =
    | Refuse(error: Error)
    | Commit(after: Session, turnKey: string, payload: string, attempt: string)

  // internal/adapter/types.go:236-271
  predicate ValidOutcome(o: ReconciliationOutcome) {
    && !Blank(o.ref.session) && !Blank(o.ref.turnKey) && o.ref.generation > 0
    && match o.status
       case ReachableActive => o.reachability == VisibilityReachable && o.observed.Live()
       case ReachableTerminal => o.reachability == VisibilityReachable && o.observed.Terminal()
       case DefinitivelyMissing => o.reachability == VisibilityReachable && o.observed == TurnFailed
       case Uncertain => o.reachability == VisibilityHostLost
  }

  predicate ValidRef(ref: ExecutionRef) {
    !Blank(ref.session) && !Blank(ref.turnKey) && !Blank(ref.attempt)
  }

  // The rendering att_<version>_<key>.
  function AttemptId(version: nat, key: string): string {
    "att_" + (Decimal(version) + "_" + key)
  }

  lemma AttemptIdInjective(v: nat, k: string, w: nat, l: string)
    requires AttemptId(v, k) == AttemptId(w, l)
    ensures v == w && k == l
  {
    var a, b := Decimal(v) + "_" + k, Decimal(w) + "_" + l;
    assert a == AttemptId(v, k)[4..] == AttemptId(w, l)[4..] == b;
    DecimalPrefixInjective(v, w, k, l);
  }

  function Bump(s: Session): Session {
    s.(version := s.version + 1)
  }

  // The guards that open every controller command: expected version, then
  // lifecycle, then the connection projection of the session row.
  function Current(s: Session, expected: int): Option<Error> {
    if s.version != expected then Some(StaleUpdate)
    else if s.lifecycle == SessionArchived then Some(SessionIsArchived)
    else None
  }

  function CurrentAndConnected(s: Session, expected: int): Option<Error> {
    if Current(s, expected).Some? then Current(s, expected)
    else if s.controller == ControllerDisconnected then Some(ControllerIsDisconnected)
    else None
  }

  // The turn takes its terminal outcome, its dispatch intent is resolved and
  // the session parks.
  function Finish(s: Session, key: string, status: TurnStatus, result: string): Session {
    s.(turns := Ended(s.turns, key, status, result), intents := Settled(s.intents, key), active := None, state := Parked,
       version := s.version + 1)
  }

  function Ended(turns: map<string, Turn>, key: string, status: TurnStatus, result: string): map<string, Turn> {
    if key in turns then turns[key := turns[key].(status := status, result := result)] else turns
  }

  function Settled(intents: map<string, Intent>, key: string): map<string, Intent> {
    if key in intents then intents[key := intents[key].(phase := Resolved)] else intents
  }

  function CloseRecovery(s: Session): Session {
    s.(visibility := VisibilityReachable, activeRecoveryGen := 0, context := None)
  }

  function DecideQueue(san: string -> string, s: Session, c: Command): Decision
    requires c.QueuePrompt?
  {
    var prompt := Prompt(san(c.text), c.tools);
    var refused := CurrentAndConnected(s, c.expected);
    if refused.Some? then Refuse(refused.value)
    else if s.active == Some(c.key) then Refuse(KeyAlreadyActive)
    else if c.key in s.turns then
      Refuse(if s.turns[c.key].prompt != prompt.text then RetiredWithDifferentContent else TurnAlreadyExists)
    else if c.key in s.pending then
      if s.pending[c.key] == prompt then Commit(s, c.key, prompt.text, "") else Refuse(DuplicatePendingKey)
    else Commit(Bump(s).(pending := s.pending[c.key := prompt]), c.key, prompt.text, "")
  }

  function DecideReplace(san: string -> string, s: Session, c: Command): Decision
    requires c.ReplacePendingPrompt?
  {
    var refused := CurrentAndConnected(s, c.expected);
    if refused.Some? then Refuse(refused.value)
    else if c.key !in s.pending then Refuse(PromptNotQueued)
    else if c.stated.Some? && c.stated.value != s.pending[c.key].tools then Refuse(RequiredToolsImmutable)
    else
      var text := san(c.text);
      Commit(Bump(s).(pending := s.pending[c.key := s.pending[c.key].(text := text)]), c.key, text, "")
  }

  function DecideDiscard(s: Session, c: Command): Decision
    requires c.DiscardPendingPrompt?
  {
    var refused := CurrentAndConnected(s, c.expected);
    if refused.Some? then Refuse(refused.value)
    else if c.key !in s.pending then Refuse(PromptNotQueued)
    else Commit(Bump(s).(pending := s.pending - {c.key}), c.key, "", "")
  }

  // The guards of a release; a released key cannot be released again.
  function ReleaseRefused(s: Session, expected: int, key: string): Option<Error> {
    if CurrentAndConnected(s, expected).Some? then CurrentAndConnected(s, expected)
    else if s.visibility == VisibilityHostLost then Some(HostIsLost)
    else if s.state != Parked || s.active.Some? then Some(NotParked)
    else if key !in s.pending then Some(PromptNotQueued)
    else if key in s.turns || key in s.intents then Some(ConstraintViolation)
    else None
  }

  function DecideRelease(san: string -> string, s: Session, gen: nat, c: Command): Decision
    requires c.ReleaseTurn?
  {
    var refused := ReleaseRefused(s, c.expected, c.key);
    if refused.Some? then Refuse(refused.value)
    else
      var attempt := AttemptId(s.version + 1, c.key);
      var prompt := san(s.pending[c.key].text);
      var after := Bump(s).(
        pending := s.pending - {c.key},
        turns := s.turns[c.key := Turn(prompt, TurnRunning, "", attempt)],
        intents := s.intents[c.key := Intent(attempt, IntentRecorded, s.pending[c.key].tools, gen)],
        active := Some(c.key),
        state := Running);
      Commit(after, c.key, prompt, attempt)
  }

  function DecideCancel(s: Session, c: Command): Decision
    requires c.RequestCancel?
  {
    var refused := CurrentAndConnected(s, c.expected);
    if refused.Some? then Refuse(refused.value)
    else if s.state != Running || s.active != Some(c.key) then Refuse(NoActiveTurn)
    else if c.key !in s.turns then Refuse(TurnNotFound)
    else if s.turns[c.key].status == TurnCancelling then Commit(s, c.key, "cancelling", "")
    else if s.turns[c.key].status != TurnRunning then Refuse(CannotCancel)
    else
      Commit(Bump(s).(turns := s.turns[c.key := s.turns[c.key].(status := TurnCancelling)]), c.key, "cancelling", "")
  }

  // Terminal outcomes arrive on two paths with the same terminal-conflict and
  // duplicate rules: under the controller's lease, and under the execution's
  // own identity.
  function DecideOutcome(s: Session, key: string, status: TurnStatus, result: string,
                         duplicate: string, recorded: string): Decision
  {
    if key !in s.turns then Refuse(TurnNotFound)
    else if s.turns[key].status.Terminal() then
      if s.turns[key].status == status && s.turns[key].result == result then Commit(s, key, duplicate, "")
      else Refuse(ConflictingTerminalOutcome)
    else if !AwaitsOutcome(s, key) then Refuse(OutcomeDoesNotMatch)
    else Commit(End(s, key, status, result), key, recorded, "")
  }

  // On a lost host the outcome may be the recovery context's.
  predicate AwaitsOutcome(s: Session, key: string) {
    if s.visibility == VisibilityHostLost then s.active == Some(key) || s.context == Some(key)
    else s.state == Running && s.active == Some(key)
  }

  // A lost host keeps its recovery episode, with the ended turn as context.
  function End(s: Session, key: string, status: TurnStatus, result: string): Session {
    Finish(s, key, status, result).(context := if s.visibility == VisibilityHostLost then Some(key) else s.context)
  }

  function IssuedBy(s: Session, key: string): string {
    ":issued_by_generation=" + Decimal(if key in s.intents then s.intents[key].issuedBy else 0)
  }

  function DecideHostLoss(s: Session, c: Command): Decision
    requires c.RecordHostLoss?
  {
    var refused := Current(s, c.expected);
    var key := if s.active.Some? then s.active.value else "";
    if refused.Some? then Refuse(refused.value)
    else if s.visibility == VisibilityHostLost then Commit(s, key, Decimal(s.activeRecoveryGen), "")
    else if s.state != Running || s.active == None then Refuse(InactiveSession)
    else
      var gen := s.recoveryGen + 1;
      var after := Bump(s).(
        recoveryGen := gen, activeRecoveryGen := gen, visibility := VisibilityHostLost, context := s.active);
      Commit(after, key, Decimal(gen), "")
  }

  function DecideConnection(s: Session, c: Command): Decision
    requires c.SetControllerConnection?
  {
    var refused := Current(s, c.expected);
    var payload := if c.connection == ControllerConnected then "connected" else "disconnected";
    if refused.Some? then Refuse(refused.value)
    else if s.controller == c.connection then Commit(s, "", payload, "")
    else Commit(Bump(s).(controller := c.connection), "", payload, "")
  }

  function DecideArchive(s: Session, c: Command): Decision
    requires c.ArchiveSession?
  {
    if s.version != c.expected then Refuse(StaleUpdate)
    else if s.lifecycle == SessionArchived then Commit(s, "", "", "")
    else if s.state == Running || s.active.Some? || s.visibility == VisibilityHostLost then Refuse(CannotArchive)
    else Commit(Bump(s).(lifecycle := SessionArchived, state := Archived), "", "", "")
  }

  function DecideObservation(s: Session, c: Command): Decision
    requires c.RecordDispatchObservation?
  {
    if c.key !in s.intents then Refuse(IntentNotFound)
    else if !c.phase.Observation() then Refuse(InvalidPhase)
    else if s.intents[c.key].phase == Resolved then Commit(s, c.key, "late_observation_ignored", "")
    else if s.intents[c.key].phase == c.phase then Commit(s, c.key, c.phase.Name(), "")
    else
      Commit(Bump(s).(intents := s.intents[c.key := s.intents[c.key].(phase := c.phase)]), c.key, c.phase.Name(), "")
  }

  function DecideAcknowledgement(s: Session, c: Command): Decision
    requires c.RecordObservedDispatchAcknowledgement?
  {
    var key := c.ref.turnKey;
    if key !in s.intents then Refuse(IntentNotFound)
    else if s.intents[key].phase == Resolved then Refuse(IntentAlreadyResolved)
    else
      Commit(Bump(s).(intents := s.intents[key := s.intents[key].(phase := c.phase)]), key,
             c.phase.Name() + IssuedBy(s, key), "")
  }

  function DecideReconcile(san: string -> string, s: Session, c: Command): Decision
    requires c.ReconcileSession?
  {
    if s.visibility != VisibilityHostLost then Refuse(HostNotLost)
    else if c.recovery.generation == 0 || s.activeRecoveryGen != c.recovery.generation then
      Refuse(StaleRecoveryGeneration)
    else if s.active.Some? then ReconcileActive(s, c.recovery.turnKey, c.outcome, san(c.outcome.result))
    else ReconcileParked(s, c.recovery.turnKey, c.outcome)
  }

  // The reserved turn is still on the lost host.
  function ReconcileActive(s: Session, key: string, o: ReconciliationOutcome, result: string): Decision {
    if s.active != Some(key) then Refuse(KeyDoesNotMatch)
    else match o.status
      case ReachableActive => Commit(CloseRecovery(Bump(s)), key, "reachable_active", "")
      case Uncertain => Commit(Bump(s), key, "uncertain", "")
      case ReachableTerminal =>
        if !o.observed.Terminal() then Refuse(InvalidStatus)
        else Commit(CloseRecovery(Finish(s, key, o.observed, result)), key, o.observed.Name(), "")
      case DefinitivelyMissing => Commit(CloseRecovery(Finish(s, key, TurnFailed, result)), key, TurnFailed.Name(), "")
  }

  // The turn ended while its host was lost.
  function ReconcileParked(s: Session, key: string, o: ReconciliationOutcome): Decision {
    if s.context != Some(key) then Refuse(KeyDoesNotMatch)
    else match o.status
      case ReachableActive => Refuse(ConflictsWithTerminal)
      case Uncertain => Commit(Bump(s), key, "uncertain", "")
      case _ => Commit(CloseRecovery(Bump(s)), key, "reconciled_post_terminal", "")
  }

  // A character of a JSON string as the encoder writes it.
  function JsonChar(c: char): string {
    if c == '"' || c == '\\' then ['\\', c]
    else if c == '\n' then "\\n"
    else if c == '\r' then "\\r"
    else if c == '\t' then "\\t"
    else if c == '\U{08}' then "\\b"
    else if c == '\U{0C}' then "\\f"
    else if c < ' ' || c in {'<', '>', '&', '\U{2028}', '\U{2029}'} then "\\u" + Hex(c as int, 4)
    else [c]
  }

  function Hex(n: nat, digits: nat): string {
    if digits == 0 then "" else Hex(n / 16, digits - 1) + ["0123456789abcdef"[n % 16]]
  }

  function JsonText(s: string): string
    decreases |s|
  {
    if s == [] then "" else JsonChar(s[0]) + JsonText(s[1..])
  }

  // The receipt's payload of an abandonment.
  function AbandonPayload(attempt: string, reason: string, generation: nat): string {
    "{\"attempt_id\":\"" + JsonText(attempt) + "\",\"disposition\":\"abandoned\",\"reason\":\"" + JsonText(reason)
      + "\",\"controller_generation\":" + Decimal(generation) + "}"
  }

  // `open`: the attempt row is non-terminal, uncertain and undisposed.
  function DecideAbandon(san: string -> string, s: Session, open: bool, c: Command): Decision
    requires c.ResolveAgyTurnUncertainty?
  {
    var key := c.ref.turnKey;
    if s.version != c.expected then Refuse(StaleUpdate)
    else if s.lifecycle == SessionArchived then Refuse(SessionIsArchived)
    else if s.controller != ControllerConnected then Refuse(ControllerIsDisconnected)
    else if s.contributor != "agy" then Refuse(NotAgySession)
    else if s.active.Some? && s.active != Some(key) then Refuse(NotRecovering)
    else if s.active != Some(key) && s.context != Some(key) then Refuse(NotRecovering)
    else if key !in s.turns then Refuse(TurnNotFound)
    else if !s.turns[key].status.Live() then Refuse(ConflictingTerminalOutcome)
    else if !open then Refuse(AttemptNotUncertain)
    else
      var reason := san(c.reason);
      var result := "controller abandoned uncertain attempt (native outcome unknown): " + reason;
      Commit(CloseRecovery(Finish(s, key, TurnInterrupted, result)), key,
             AbandonPayload(c.ref.attempt, reason, c.generation), "")
  }

  // `gen` is the controller generation that authorised the command.
  function Decide(san: string -> string, s: Session, gen: nat, open: bool, c: Command): Decision {
    match c
    case QueuePrompt(_, _, _, _) => DecideQueue(san, s, c)
    case ReplacePendingPrompt(_, _, _, _) => DecideReplace(san, s, c)
    case DiscardPendingPrompt(_, _) => DecideDiscard(s, c)
    case ReleaseTurn(_, _) => DecideRelease(san, s, gen, c)
    case RequestCancel(_, _) => DecideCancel(s, c)
    case RecordTerminalOutcome(expected, key, status, result) =>
      if Current(s, expected).Some? then Refuse(Current(s, expected).value)
      else DecideOutcome(s, key, status, san(result), status.Name(), status.Name())
    case RecordHostLoss(_) => DecideHostLoss(s, c)
    case SetControllerConnection(_, _) => DecideConnection(s, c)
    case ArchiveSession(_) => DecideArchive(s, c)
    case RecordDispatchObservation(_, _) => DecideObservation(s, c)
    case RecordObservedExecutionOutcome(ref, status, result) =>
      if s.lifecycle == SessionArchived then Refuse(SessionIsArchived)
      else
        DecideOutcome(s, ref.turnKey, status, san(result), status.Name() + ":duplicate",
                      status.Name() + IssuedBy(s, ref.turnKey))
    case RecordObservedDispatchAcknowledgement(_, _) => DecideAcknowledgement(s, c)
    case ReconcileSession(_, _, _) => DecideReconcile(san, s, c)
    case ResolveAgyTurnUncertainty(_, _, _, _, _) => DecideAbandon(san, s, open, c)
  }

  // The argument checks made before any row is read.
  function Malformed(c: Command): Option<Error> {
    match c
    case QueuePrompt(expected, key, text, _) => PromptArguments(expected, key, text)
    case ReplacePendingPrompt(expected, key, text, _) => PromptArguments(expected, key, text)
    case DiscardPendingPrompt(expected, key) => KeyArguments(expected, key)
    case ReleaseTurn(expected, key) => KeyArguments(expected, key)
    case RequestCancel(expected, key) => KeyArguments(expected, key)
    case RecordTerminalOutcome(expected, key, status, _) =>
      if KeyArguments(expected, key).Some? then KeyArguments(expected, key)
      else if !status.Terminal() then Some(InvalidStatus)
      else None
    case RecordHostLoss(expected) => if expected <= 0 then Some(InvalidExpectedVersion) else None
    case SetControllerConnection(expected, _) => if expected <= 0 then Some(InvalidExpectedVersion) else None
    case ArchiveSession(expected) => if expected <= 0 then Some(InvalidExpectedVersion) else None
    case RecordDispatchObservation(_, _) => None
    case RecordObservedExecutionOutcome(_, status, _) => if !status.Terminal() then Some(InvalidStatus) else None
    case RecordObservedDispatchAcknowledgement(_, phase) => if !phase.Observation() then Some(InvalidPhase) else None
    case ReconcileSession(ref, recovery, outcome) =>
      if !ValidOutcome(outcome) || outcome.ref != recovery then Some(InvalidOutcome)
      else if ref.session != recovery.session || ref.turnKey != recovery.turnKey then Some(WrongExecutionAttempt)
      else None
    case ResolveAgyTurnUncertainty(generation, expected, ref, abandoned, reason) =>
      if generation == 0 then Some(InvalidParameters)
      else if !ValidRef(ref) then Some(InvalidReference)
      else if expected <= 0 then Some(InvalidExpectedVersion)
      else if !abandoned || Blank(reason) then Some(InvalidDisposition)
      else None
  }

  function KeyArguments(expected: int, key: string): Option<Error> {
    if expected <= 0 then Some(InvalidExpectedVersion)
    else if Blank(key) then Some(EmptyTurnKey)
    else None
  }

  function PromptArguments(expected: int, key: string, text: string): Option<Error> {
    if KeyArguments(expected, key).Some? then KeyArguments(expected, key)
    else if Blank(text) then Some(EmptyPrompt)
    else None
  }
}
