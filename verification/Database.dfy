// The whole store as one value and every write transaction as one atomic step
// on it: authority, idempotent replay, the connection precondition and the
// decision, in the order each operation makes them.
module Database {
  import opened Domain
  import opened SessionRules
  import opened SessionRuns
  import opened ControllerRules
  import L = LaunchSlots

  // The command types of the journal. Observations of a dispatch by the
  // controller and by the execution share one.
  datatype Kind =
    | CreateRunKind
    | CreateSessionKind
    | QueueKind
    | ReplaceKind
    | DiscardKind
    | ReleaseKind
    | CancelKind
    | TerminalKind
    | HostLossKind
    | ConnectionKind
    | ArchiveKind
    | ObservationKind
    | OutcomeKind
    | ReconcileKind
    | AbandonKind
    | AdoptKind
    | HandoffKind
    | RevokeKind
    | RecoverKind
    | ConnectKind
    | DisconnectKind
  {
    // A journaled adoption or handoff.
    predicate Grants() {
      AdoptKind? || HandoffKind?
    }
  }

  datatype Receipt = Receipt(
    op: string,
    command: Kind,
    session: string,
    turnKey: string,
    version: nat,
    payload: string,
    attempt: string)

  // The hashed parts of a command, its type first. Required tools join only
  // when stated.
  datatype Fingerprint = Fingerprint(command: Kind, parts: seq<string>, tools: Option<seq<string>>)

  datatype Entry = Entry(command: Kind, fingerprint: Fingerprint, receipt: Receipt)

  // The agy attempts are rows by the execution they belong to.
  datatype Db = Db(
    runs: map<string, Authority>,
    sessions: map<string, Session>,
    journal: map<string, Entry>,
    attempts: map<ExecutionRef, L.Agy>)

  datatype Event =
    | CreateRun(op: string, run: string, digests: seq<string>, lease: string)
    | CreateSession(op: string, lease: string, session: string, birth: Birth)
    | SessionOp(op: string, lease: string, target: string, command: Command)
    | ControllerOp(op: string, run: string, controller: ControllerCommand)
    | AttemptBegins(ref: ExecutionRef)
    | AttemptMoves(ref: ExecutionRef, step: L.AgyStep)

  // A credential recovery answers with the source's issuance, not with its
  // own receipt.
  datatype Reply =
    | Fresh(receipt: Receipt)
    | Replayed(receipt: Receipt)
    | Disclosed(generation: nat, lease: string)
    | Refused(error: Error)
    | Recorded(refused: Option<L.SlotError>)

  datatype Outcome = Outcome(db: Db, reply: Reply)

  // Commands that name an execution act on that execution's session.
  function Target(named: string, c: Command): string {
    match c
    case RecordObservedExecutionOutcome(ref, _, _) => ref.session
    case RecordObservedDispatchAcknowledgement(ref, _) => ref.session
    case ReconcileSession(_, recovery, _) => recovery.session
    case ResolveAgyTurnUncertainty(_, _, ref, _, _) => ref.session
    case _ => named
  }

  // Evidence about an accepted execution: no controller authority is asked.
  predicate Evidence(c: Command) {
    c.RecordObservedExecutionOutcome? || c.RecordObservedDispatchAcknowledgement? || c.ReconcileSession?
  }

  // New decisions that need the run's controller to be connected.
  predicate NeedsConnection(c: Command) {
    || c.QueuePrompt? || c.ReplacePendingPrompt? || c.DiscardPendingPrompt? || c.ReleaseTurn?
    || c.RequestCancel? || c.ResolveAgyTurnUncertainty?
  }

  function KindOf(c: Command): Kind {
    match c
    case QueuePrompt(_, _, _, _) => QueueKind
    case ReplacePendingPrompt(_, _, _, _) => ReplaceKind
    case DiscardPendingPrompt(_, _) => DiscardKind
    case ReleaseTurn(_, _) => ReleaseKind
    case RequestCancel(_, _) => CancelKind
    case RecordTerminalOutcome(_, _, _, _) => TerminalKind
    case RecordHostLoss(_) => HostLossKind
    case SetControllerConnection(_, _) => ConnectionKind
    case ArchiveSession(_) => ArchiveKind
    case RecordDispatchObservation(_, _) => ObservationKind
    case RecordObservedExecutionOutcome(_, _, _) => OutcomeKind
    case RecordObservedDispatchAcknowledgement(_, _) => ObservationKind
    case ReconcileSession(_, _, _) => ReconcileKind
    case ResolveAgyTurnUncertainty(_, _, _, _, _) => AbandonKind
  }

  function StatusName(s: ReconciliationStatus): string {
    match s
    case ReachableActive => "reachable_active"
    case ReachableTerminal => "reachable_terminal"
    case DefinitivelyMissing => "definitively_missing"
    case Uncertain => "uncertain"
  }

  function CommandMark(san: string -> string, named: string, c: Command): Fingerprint {
    var kind, head := KindOf(c), [Target(named, c)];
    match c
    case QueuePrompt(_, key, text, tools) =>
      Fingerprint(kind, head + [key, san(text)], if tools == [] then None else Some(tools))
    case ReplacePendingPrompt(_, key, text, stated) => Fingerprint(kind, head + [key, san(text)], stated)
    case DiscardPendingPrompt(_, key) => Fingerprint(kind, head + [key], None)
    case ReleaseTurn(_, key) => Fingerprint(kind, head + [key], None)
    case RequestCancel(_, key) => Fingerprint(kind, head + [key], None)
    case RecordTerminalOutcome(_, key, status, result) => Fingerprint(kind, head + [key, status.Name(), san(result)], None)
    case RecordHostLoss(_) => Fingerprint(kind, head, None)
    case SetControllerConnection(_, connection) =>
      Fingerprint(kind, head + [if connection == ControllerConnected then "connected" else "disconnected"], None)
    case ArchiveSession(_) => Fingerprint(kind, head, None)
    case RecordDispatchObservation(key, phase) => Fingerprint(kind, head + [key, phase.Name()], None)
    case RecordObservedExecutionOutcome(ref, status, result) =>
      Fingerprint(kind, head + [ref.turnKey, ref.attempt, status.Name(), san(result)], None)
    case RecordObservedDispatchAcknowledgement(ref, phase) =>
      Fingerprint(kind, head + [ref.turnKey, ref.attempt, phase.Name()], None)
    case ReconcileSession(ref, recovery, o) =>
      Fingerprint(kind, head + [recovery.turnKey, ref.attempt, Decimal(recovery.generation), StatusName(o.status),
                          o.observed.Name(), o.result], None)
    case ResolveAgyTurnUncertainty(generation, _, ref, _, reason) =>
      Fingerprint(kind, head + [ref.turnKey, ref.attempt, "abandoned", san(reason), Decimal(generation)], None)
  }

  // What the journal says about an operation identity.
  datatype Lookup = Absent | Match(receipt: Receipt) | Clash

  function Find(journal: map<string, Entry>, op: string, command: Kind, mark: Fingerprint): Lookup {
    if op !in journal then Absent
    else if journal[op].command == command && journal[op].fingerprint == mark then Match(journal[op].receipt)
    else Clash
  }

  // Authority over a run, and over the run of a session.
  ghost function ClassifyRun(db: Db, run: string, lease: string, requireAdopted: bool): Result<nat, Error> {
    if Blank(lease) then Err(AdoptionRequired)
    else if run !in db.runs then Err(RunNotFound)
    else Classify(db.runs[run], lease, requireAdopted)
  }

  ghost function Authorize(db: Db, session: string, lease: string, requireAdopted: bool): Result<nat, Error> {
    if session !in db.sessions then Err(SessionNotFound)
    else ClassifyRun(db, db.sessions[session].run, lease, requireAdopted)
  }

  // The accepted execution a reference names, by its complete identity.
  function ResolveRef(db: Db, ref: ExecutionRef): Option<Error> {
    if !ValidRef(ref) then Some(InvalidReference)
    else if ref.session !in db.sessions || ref.turnKey !in db.sessions[ref.session].intents then Some(NoAcceptedExecution)
    else if db.sessions[ref.session].intents[ref.turnKey].attempt != ref.attempt then Some(WrongExecutionAttempt)
    else None
  }

  function Reference(c: Command): ExecutionRef
    requires Evidence(c)
  {
    match c
    case RecordObservedExecutionOutcome(ref, _, _) => ref
    case RecordObservedDispatchAcknowledgement(ref, _) => ref
    case ReconcileSession(ref, _, _) => ref
  }

  // The checks on the call's own arguments.
  function Arguments(op: string, lease: string, c: Command): Option<Error> {
    if c.RecordObservedExecutionOutcome? && Blank(op) then Some(EmptyOperationId)
    else if c.ResolveAgyTurnUncertainty? && (Blank(op) || Blank(lease)) then Some(InvalidParameters)
    else if Malformed(c).Some? then Malformed(c)
    else if c.RecordObservedDispatchAcknowledgement? && Blank(op) then Some(EmptyOperationId)
    else None
  }

  // What precedes the idempotency lookup: current authority for commands,
  // the execution's identity for evidence. The generation that authorised.
  ghost function Gate(db: Db, lease: string, named: string, c: Command): Result<nat, Error> {
    if Evidence(c) then
      match ResolveRef(db, Reference(c)) case Some(e) => Err(e) case None => Ok(0)
    else if c.RecordDispatchObservation? then Ok(0)
    else
      var who := Authorize(db, Target(named, c), lease, !c.ArchiveSession?);
      if c.ResolveAgyTurnUncertainty? && who.Ok? && who.value != c.generation then Err(GenerationMismatch)
      else who
  }

  // What a new decision needs beyond the gate.
  ghost function Ready(db: Db, lease: string, named: string, c: Command): Option<Error> {
    var target := Target(named, c);
    if target !in db.sessions then Some(SessionNotFound)
    else if db.sessions[target].run !in db.runs then Some(RunNotFound)
    else
      var run := db.runs[db.sessions[target].run];
      if NeedsConnection(c) && RequireConnected(run).Some? then RequireConnected(run)
      else CommandReady(db, run, lease, c)
  }

  // An observation asks for the run's lease, an abandonment for an execution.
  function CommandReady(db: Db, run: Authority, lease: string, c: Command): Option<Error> {
    if c.RecordDispatchObservation? && run.lease != lease then Some(Unauthorized)
    else if c.ResolveAgyTurnUncertainty? then ResolveRef(db, c.ref)
    else None
  }

  // A journaled release without a turn key is not recognised as a replay; the
  // unique journal key stops it at the insert.
  predicate Overlooked(journal: map<string, Entry>, op: string, c: Command) {
    c.ReleaseTurn? && op in journal && journal[op].receipt.turnKey == ""
  }

  // UPDATE agy_turn_attempts ... WHERE terminal = 0 AND observed_status =
  // 'uncertain' AND uncertainty_disposition IS NULL
  predicate Abandonable(attempts: map<ExecutionRef, L.Agy>, ref: ExecutionRef) {
    ref in attempts && !attempts[ref].terminal && L.Blocks(attempts[ref])
  }

  function AttemptsAfter(attempts: map<ExecutionRef, L.Agy>, c: Command): map<ExecutionRef, L.Agy> {
    if c.ResolveAgyTurnUncertainty? && c.ref in attempts then attempts[c.ref := L.NextAgy(attempts[c.ref], L.Abandon)]
    else attempts
  }

  function OpenAttempt(db: Db, c: Command): bool {
    c.ResolveAgyTurnUncertainty? && Abandonable(db.attempts, c.ref)
  }

  // The journal entry and the new rows commit together.
  function CommitSession(san: string -> string, db: Db, op: string, named: string, c: Command, d: Decision): Outcome
    requires d.Commit?
  {
    var target := Target(named, c);
    var receipt := Receipt(op, KindOf(c), target, d.turnKey, d.after.version, d.payload, d.attempt);
    Outcome(
      db.(sessions := db.sessions[target := d.after],
          journal := db.journal[op := Entry(KindOf(c), CommandMark(san, named, c), receipt)],
          attempts := AttemptsAfter(db.attempts, c)),
      Fresh(receipt))
  }

  // A refusal changes nothing, and a reused journal key stops the commit.
  function Settle(san: string -> string, db: Db, op: string, named: string, c: Command, d: Decision): Outcome {
    if d.Refuse? then Outcome(db, Refused(d.error))
    else if op in db.journal then Outcome(db, Refused(ConstraintViolation))
    else CommitSession(san, db, op, named, c, d)
  }

  // A decision that nothing stands in the way of.
  ghost function NewDecision(san: string -> string, db: Db, op: string, lease: string, named: string, gen: nat,
                             c: Command): Outcome
  {
    if Ready(db, lease, named, c).Some? then Outcome(db, Refused(Ready(db, lease, named, c).value))
    else Settle(san, db, op, named, c, Decide(san, db.sessions[Target(named, c)], gen, OpenAttempt(db, c), c))
  }

  // Past the gate, a journaled operation is answered from its entry and
  // anything else is a new decision.
  ghost function Answer(san: string -> string, db: Db, op: string, lease: string, named: string, gen: nat,
                        c: Command): Outcome
  {
    if Overlooked(db.journal, op, c) then NewDecision(san, db, op, lease, named, gen, c)
    else
      match Find(db.journal, op, KindOf(c), CommandMark(san, named, c))
      case Match(receipt) => Outcome(db, Replayed(receipt))
      case Clash => Outcome(db, Refused(IdempotencyConflict))
      case Absent => NewDecision(san, db, op, lease, named, gen, c)
  }

  ghost function ExecuteSession(san: string -> string, db: Db, op: string, lease: string, named: string,
                                c: Command): Outcome
  {
    if Arguments(op, lease, c).Some? then Outcome(db, Refused(Arguments(op, lease, c).value))
    else
      match Gate(db, lease, named, c)
      case Err(e) => Outcome(db, Refused(e))
      case Ok(gen) => Answer(san, db, op, lease, named, gen, c)
  }

  // Every session of the run takes the projection.
  function ProjectRun(sessions: map<string, Session>, run: string, connection: Connection): map<string, Session> {
    map id | id in sessions ::
      if sessions[id].run == run then ProjectConnection(sessions[id], connection) else sessions[id]
  }

  function ControllerKind(c: ControllerCommand): Kind {
    match c
    case Adopt(_, _, _, _, _) => AdoptKind
    case Handoff(_, _, _, _, _) => HandoffKind
    case Revoke(_, _) => RevokeKind
    case Recover(_, _) => RecoverKind
    case Connect(_, _, _, _) => ConnectKind
    case Disconnect(_, _, _) => DisconnectKind
  }

  // `target` is the generation a revocation is aimed at. Secrets and random
  // values never join the fingerprint.
  function ControllerMark(san: string -> string, run: string, target: nat, c: ControllerCommand): Fingerprint {
    var kind, head := ControllerKind(c), [run];
    match c
    case Adopt(harness, ref, _, recovery, _) => Fingerprint(kind, head + [harness, ref, AdoptMode(san, recovery)], None)
    case Handoff(_, expected, harness, ref, _) => Fingerprint(kind, head + [harness, ref, Decimal(expected)], None)
    case Revoke(_, recovery) =>
      var aim := if recovery.Some? then "recovery-gen=" + Decimal(target) else "controller-gen=" + Decimal(target);
      Fingerprint(kind, head + [aim, RevokeMode(san, recovery)], None)
    case Recover(source, expected) => Fingerprint(kind, head + [source, Decimal(expected)], None)
    case Connect(_, expected, _, _) => Fingerprint(kind, head + [Decimal(expected)], None)
    case Disconnect(_, attachment, expected) => Fingerprint(kind, head + [attachment, Decimal(expected)], None)
  }

  // Authority that precedes the replay of a controller transition. Adoption,
  // handoff, recovery and an operator's revocation replay first.
  ghost function ControllerGate(db: Db, run: string, c: ControllerCommand): Result<nat, Error> {
    match c
    case Revoke(lease, recovery) => if recovery.Some? then Ok(recovery.value.expected) else ClassifyRun(db, run, lease, true)
    case Connect(lease, expected, _, _) => AtGeneration(ClassifyRun(db, run, lease, true), expected)
    case Disconnect(lease, _, expected) => AtGeneration(ClassifyRun(db, run, lease, true), expected)
    case _ => Ok(0)
  }

  function AtGeneration(who: Result<nat, Error>, expected: nat): Result<nat, Error> {
    if who.Ok? && who.value != expected then Err(GenerationMismatch) else who
  }

  // The source of a credential recovery is a journaled adoption or handoff.
  predicate IsIssuance(journal: map<string, Entry>, source: string) {
    source in journal && journal[source].command.Grants()
  }

  ghost predicate HasIssuance(db: Db, op: string) {
    exists run :: run in db.runs && Issued(db.runs[run], op).Some?
  }

  function CommitControl(san: string -> string, db: Db, op: string, run: string, target: nat, c: ControllerCommand,
                         d: ControllerDecision): Outcome
    requires d.CommitController?
  {
    var receipt := Receipt(op, ControllerKind(c), "", "", d.generation, d.payload, "");
    Outcome(
      db.(runs := db.runs[run := d.after],
          sessions := if d.projection.Some? then ProjectRun(db.sessions, run, d.projection.value) else db.sessions,
          journal := db.journal[op := Entry(ControllerKind(c), ControllerMark(san, run, target, c), receipt)]),
      if c.Recover? then Disclose(d) else Fresh(receipt))
  }

  function Disclose(d: ControllerDecision): Reply
    requires d.CommitController?
  {
    Disclosed(d.generation, if d.generation in d.after.grants then d.after.grants[d.generation].lease else "")
  }

  // The decision on a run, or the refusal where there is no such run.
  ghost function ControllerDecided(san: string -> string, db: Db, op: string, run: string,
                                   c: ControllerCommand): ControllerDecision
  {
    if run in db.runs then DecideController(san, db.runs[run], op, c.Recover? && IsIssuance(db.journal, c.source), c)
    else
      match c
      case Recover(_, _) => RefuseController(RecoveryUnavailable)
      case Revoke(_, recovery) => RefuseController(if recovery.Some? then NoGrantToRevoke else RunNotFound)
      case Handoff(lease, _, _, _, _) => RefuseController(if Blank(lease) then AdoptionRequired else RunNotFound)
      case _ => RefuseController(RunNotFound)
  }

  // A committed grant resolves its issuance again; a recovery resolves the
  // source's again, which may since have been retired.
  ghost function ReplayController(san: string -> string, db: Db, op: string, run: string, c: ControllerCommand,
                                  receipt: Receipt): Reply
  {
    if (c.Adopt? || c.Handoff?) && !HasIssuance(db, op) then Refused(NoIssuance)
    else if !c.Recover? then Replayed(receipt)
    else
      var d := ControllerDecided(san, db, op, run, c);
      if d.RefuseController? then Refused(d.error) else Disclose(d)
  }

  ghost function NewControl(san: string -> string, db: Db, op: string, run: string, target: nat,
                            c: ControllerCommand): Outcome
  {
    var d := ControllerDecided(san, db, op, run, c);
    if d.RefuseController? then Outcome(db, Refused(d.error)) else CommitControl(san, db, op, run, target, c, d)
  }

  ghost function AnswerController(san: string -> string, db: Db, op: string, run: string, target: nat,
                                  c: ControllerCommand): Outcome
  {
    match Find(db.journal, op, ControllerKind(c), ControllerMark(san, run, target, c))
    case Match(receipt) => Outcome(db, ReplayController(san, db, op, run, c, receipt))
    case Clash => Outcome(db, Refused(IdempotencyConflict))
    case Absent => NewControl(san, db, op, run, target, c)
  }

  ghost function ExecuteController(san: string -> string, db: Db, op: string, run: string, c: ControllerCommand): Outcome {
    if MalformedController(op, c) then Outcome(db, Refused(InvalidParameters))
    else
      match ControllerGate(db, run, c)
      case Err(e) => Outcome(db, Refused(e))
      case Ok(target) => AnswerController(san, db, op, run, target, c)
  }

  function RunMark(run: string, digests: seq<string>, lease: string): Fingerprint {
    Fingerprint(CreateRunKind, [run] + digests + [lease], None)
  }

  predicate MalformedRun(run: string, digests: seq<string>, lease: string) {
    Blank(run) || Blank(lease) || exists d :: d in digests && Blank(d)
  }

  function ExecuteCreateRun(db: Db, op: string, run: string, digests: seq<string>, lease: string): Outcome {
    var mark := RunMark(run, digests, lease);
    var receipt := Receipt(op, CreateRunKind, "", "", 1, "", "");
    if MalformedRun(run, digests, lease) then Outcome(db, Refused(InvalidParameters))
    else
      match Find(db.journal, op, CreateRunKind, mark)
      case Match(r) => Outcome(db, Replayed(r))
      case Clash => Outcome(db, Refused(IdempotencyConflict))
      case Absent =>
        if run in db.runs then Outcome(db, Refused(ConstraintViolation))
        else
          Outcome(db.(runs := db.runs[run := NewAuthority(lease, op)],
                      journal := db.journal[op := Entry(CreateRunKind, mark, receipt)]),
                  Fresh(receipt))
  }

  // The record a new session is created from.
  datatype Birth = Birth(run: string, contributor: string, primary: bool, state: State, visibility: Visibility,
    recoveryGen: nat)
  {
    // What callers pass.
    predicate Proper() {
      state == Parked && visibility == VisibilityReachable && recoveryGen == 0
    }
  }

  // The row is the caller's record; its connection is projected from the run,
  // never assumed, and the recovery generation fills both columns.
  ghost function NewSession(a: Authority, b: Birth): Session {
    var connection := if RequireConnected(a) == None then ControllerConnected else ControllerDisconnected;
    Session(b.run, b.contributor, b.primary, b.state, SessionActive, connection, b.visibility, None, None, b.recoveryGen,
            b.recoveryGen, 1, map[], map[], map[])
  }

  // The unique keys a new session row must respect.
  predicate SessionTaken(db: Db, session: string, b: Birth) {
    || session in db.sessions
    || b.contributor !in ROSTER
    || (b.primary && exists id :: id in db.sessions && db.sessions[id].run == b.run
                                  && db.sessions[id].contributor == b.contributor && db.sessions[id].primary)
  }

  function StateName(s: State): string {
    match s
    case Parked => "parked"
    case Running => "running"
    case Archived => "archived"
  }

  // The recovery generation is no part of it.
  function BirthMark(session: string, b: Birth): Fingerprint {
    Fingerprint(CreateSessionKind,
                [session, b.run, b.contributor, if b.primary then "true" else "false", StateName(b.state),
                 if b.visibility == VisibilityReachable then "reachable" else "host_lost"],
                None)
  }

  ghost function ExecuteCreateSession(db: Db, op: string, lease: string, session: string, b: Birth): Outcome {
    var mark := BirthMark(session, b);
    var receipt := Receipt(op, CreateSessionKind, session, "", 1, "", "");
    if ClassifyRun(db, b.run, lease, false).Err? then Outcome(db, Refused(ClassifyRun(db, b.run, lease, false).error))
    else
      match Find(db.journal, op, CreateSessionKind, mark)
      case Match(r) => Outcome(db, Replayed(r))
      case Clash => Outcome(db, Refused(IdempotencyConflict))
      case Absent =>
        if SessionTaken(db, session, b) then Outcome(db, Refused(ConstraintViolation))
        else
          Outcome(db.(sessions := db.sessions[session := NewSession(db.runs[b.run], b)],
                      journal := db.journal[op := Entry(CreateSessionKind, mark, receipt)]),
                  Fresh(receipt))
  }

  ghost function Execute(san: string -> string, db: Db, e: Event): Outcome {
    match e
    case CreateRun(op, run, digests, lease) => ExecuteCreateRun(db, op, run, digests, lease)
    case CreateSession(op, lease, session, birth) => ExecuteCreateSession(db, op, lease, session, birth)
    case SessionOp(op, lease, target, c) => ExecuteSession(san, db, op, lease, target, c)
    case ControllerOp(op, run, c) => ExecuteController(san, db, op, run, c)
    case AttemptBegins(ref) => ExecuteInsert(db, ref)
    case AttemptMoves(ref, step) => ExecuteMove(db, ref, step)
  }

  // An attempt row is inserted once, by its unique key.
  function ExecuteInsert(db: Db, ref: ExecutionRef): Outcome {
    if ref in db.attempts then Outcome(db, Recorded(Some(L.AttemptExists)))
    else Outcome(db.(attempts := db.attempts[ref := L.NEW_AGY]), Recorded(None))
  }

  // The steps of an attempt; it is abandoned only through its session.
  function ExecuteMove(db: Db, ref: ExecutionRef, step: L.AgyStep): Outcome {
    if step.Abandon? then Outcome(db, Recorded(Some(L.DispositionRefused)))
    else if ref !in db.attempts then Outcome(db, Recorded(L.RefuseMissing(step)))
    else
      Outcome(db.(attempts := db.attempts[ref := L.NextAgy(db.attempts[ref], step)]),
              Recorded(L.RefuseAgy(db.attempts[ref], step)))
  }

  const EMPTY_DB := Db(map[], map[], map[], map[])

  ghost function History(san: string -> string, db: Db, events: seq<Event>): Db
    decreases |events|
  {
    if events == [] then db else History(san, Execute(san, db, events[0]).db, events[1..])
  }
}
