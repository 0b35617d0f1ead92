// Evidence is independent of authority: recording what an accepted execution
// did commutes with every controller transition, so no rotation between
// release and outcome can lose or alter the result.
module EvidenceIndependence {
  import opened Domain
  import opened SessionRules
  import opened SessionRuns
  import opened ControllerRules
  import opened Database
  import opened StoreInvariants

  // Both refuse alike, or both commit the same step around the projection.
  ghost predicate Commutes(connection: Connection, d: Decision, e: Decision) {
    match d
    case Refuse(error) => e == d
    case Commit(after, key, payload, attempt) =>
      e == Commit(ProjectConnection(after, connection), key, payload, attempt)
  }

  lemma FinishProjects(s: Session, connection: Connection, key: string, status: TurnStatus, result: string)
    ensures Finish(ProjectConnection(s, connection), key, status, result) ==
            ProjectConnection(Finish(s, key, status, result), connection)
  {
  }

  lemma CloseProjects(s: Session, connection: Connection)
    ensures CloseRecovery(ProjectConnection(s, connection)) == ProjectConnection(CloseRecovery(s), connection)
    ensures Bump(ProjectConnection(s, connection)) == ProjectConnection(Bump(s), connection)
  {
  }

  lemma EndProjects(s: Session, connection: Connection, key: string, status: TurnStatus, result: string)
    ensures End(ProjectConnection(s, connection), key, status, result) ==
            ProjectConnection(End(s, key, status, result), connection)
  {
    if s.controller == connection {
      assert ProjectConnection(s, connection) == s;
    }
  }

  lemma GuardsIgnoreConnection(s: Session, connection: Connection, key: string)
    ensures AwaitsOutcome(ProjectConnection(s, connection), key) == AwaitsOutcome(s, key)
    ensures ProjectConnection(s, connection).turns == s.turns
  {
  }

  lemma OutcomeCommutes(s: Session, connection: Connection, key: string, status: TurnStatus, result: string,
                        dup: string, rec: string)
    ensures Commutes(connection, DecideOutcome(s, key, status, result, dup, rec),
                     DecideOutcome(ProjectConnection(s, connection), key, status, result, dup, rec))
  {
    GuardsIgnoreConnection(s, connection, key);
    if key in s.turns && !s.turns[key].status.Terminal() && AwaitsOutcome(s, key) {
      EndProjects(s, connection, key, status, result);
    }
  }

  lemma AcknowledgementCommutes(s: Session, connection: Connection, c: Command)
    requires c.RecordObservedDispatchAcknowledgement?
    ensures Commutes(connection, DecideAcknowledgement(s, c), DecideAcknowledgement(ProjectConnection(s, connection), c))
  {
  }

  lemma ReconcileActiveCommutes(s: Session, connection: Connection, key: string, o: ReconciliationOutcome, result: string)
    ensures Commutes(connection, ReconcileActive(s, key, o, result),
                     ReconcileActive(ProjectConnection(s, connection), key, o, result))
  {
    var status := if o.status == ReachableTerminal then o.observed else TurnFailed;
    FinishProjects(s, connection, key, status, result);
    CloseProjects(s, connection);
    CloseProjects(Bump(s), connection);
    CloseProjects(Finish(s, key, status, result), connection);
  }

  lemma ReconcileParkedCommutes(s: Session, connection: Connection, key: string, o: ReconciliationOutcome)
    ensures Commutes(connection, ReconcileParked(s, key, o), ReconcileParked(ProjectConnection(s, connection), key, o))
  {
    CloseProjects(s, connection);
    CloseProjects(Bump(s), connection);
  }

  lemma ReconcileCommutes(san: string -> string, s: Session, connection: Connection, c: Command)
    requires c.ReconcileSession?
    ensures Commutes(connection, DecideReconcile(san, s, c), DecideReconcile(san, ProjectConnection(s, connection), c))
  {
    if s.active.Some? {
      ReconcileActiveCommutes(s, connection, c.recovery.turnKey, c.outcome, san(c.outcome.result));
    } else {
      ReconcileParkedCommutes(s, connection, c.recovery.turnKey, c.outcome);
    }
  }

  lemma EvidenceStepCommutes(san: string -> string, s: Session, connection: Connection, gen: nat, open: bool, c: Command)
    requires Evidence(c)
    ensures Commutes(connection, Decide(san, s, gen, open, c), Decide(san, ProjectConnection(s, connection), gen, open, c))
  {
    match c
    case RecordObservedExecutionOutcome(ref, status, result) =>
      OutcomeCommutes(s, connection, ref.turnKey, status, san(result), status.Name() + ":duplicate",
                      status.Name() + IssuedBy(s, ref.turnKey));
    case RecordObservedDispatchAcknowledgement(_, _) => AcknowledgementCommutes(s, connection, c);
    case ReconcileSession(_, _, _) => ReconcileCommutes(san, s, connection, c);
  }

  // What a controller transition does to one session, and to all of them.
  function Seen(s: Session, run: string, projection: Option<Connection>): Session {
    if projection.Some? && s.run == run then ProjectConnection(s, projection.value) else s
  }

  function SeenAll(sessions: map<string, Session>, run: string, projection: Option<Connection>): map<string, Session> {
    if projection.Some? then ProjectRun(sessions, run, projection.value) else sessions
  }

  ghost predicate SeenAlike(run: string, projection: Option<Connection>, d: Decision, e: Decision) {
    match d
    case Refuse(error) => e == d
    case Commit(after, key, payload, attempt) => e == Commit(Seen(after, run, projection), key, payload, attempt)
  }

  lemma EvidenceSeenAlike(san: string -> string, s: Session, run: string, projection: Option<Connection>, gen: nat,
                          open: bool, c: Command)
    requires Evidence(c)
    ensures SeenAlike(run, projection, Decide(san, s, gen, open, c),
                      Decide(san, Seen(s, run, projection), gen, open, c))
  {
    var d := Decide(san, s, gen, open, c);
    if d.Commit? {
      CommandKeepsRun(san, s, gen, open, c);
    }
    if projection.Some? && s.run == run {
      EvidenceStepCommutes(san, s, projection.value, gen, open, c);
    }
  }

  // Two stores that differ, as far as one piece of evidence can tell, by a
  // controller transition of `run`.
  ghost predicate Shifted(db: Db, other: Db, op: string, run: string, projection: Option<Connection>) {
    && other.sessions == SeenAll(db.sessions, run, projection)
    && other.runs.Keys == db.runs.Keys
    && other.attempts == db.attempts
    && (op in other.journal <==> op in db.journal)
    && (op in db.journal ==> other.journal[op] == db.journal[op])
  }

  // Replies agree up to the version the receipt reports.
  predicate SameAnswer(r: Reply, q: Reply) {
    if r.Fresh? then q.Fresh? && q.receipt == r.receipt.(version := q.receipt.version) else q == r
  }

  ghost predicate ShiftedOutcome(o: Outcome, p: Outcome, run: string, projection: Option<Connection>) {
    && p.db.sessions == SeenAll(o.db.sessions, run, projection)
    && p.db.attempts == o.db.attempts
    && SameAnswer(o.reply, p.reply)
  }

  lemma CommitShifts(san: string -> string, db: Db, other: Db, op: string, named: string, c: Command, d: Decision,
                     e: Decision, run: string, projection: Option<Connection>)
    requires Evidence(c) && Shifted(db, other, op, run, projection) && SeenAlike(run, projection, d, e)
    requires Target(named, c) in db.sessions && d.Commit? && e.Commit?
    ensures ShiftedOutcome(CommitSession(san, db, op, named, c, d), CommitSession(san, other, op, named, c, e), run, projection)
  {
    SeenPut(db.sessions, run, projection, Target(named, c), d.after);
  }

  lemma SeenPut(sessions: map<string, Session>, run: string, projection: Option<Connection>, id: string, s: Session)
    ensures SeenAll(sessions[id := s], run, projection) == SeenAll(sessions, run, projection)[id := Seen(s, run, projection)]
  {
  }

  lemma SettleShifts(san: string -> string, db: Db, other: Db, op: string, named: string, c: Command, d: Decision,
                     e: Decision, run: string, projection: Option<Connection>)
    requires Evidence(c) && Shifted(db, other, op, run, projection) && SeenAlike(run, projection, d, e)
    requires Target(named, c) in db.sessions
    ensures ShiftedOutcome(Settle(san, db, op, named, c, d), Settle(san, other, op, named, c, e), run, projection)
    ensures Settle(san, other, op, named, c, e).db.runs == other.runs
  {
    if d.Commit? && e.Commit? {
      CommitShifts(san, db, other, op, named, c, d, e, run, projection);
    }
  }

  lemma TargetShifts(db: Db, other: Db, op: string, id: string, run: string, projection: Option<Connection>)
    requires Shifted(db, other, op, run, projection)
    ensures id in other.sessions <==> id in db.sessions
    ensures id in db.sessions ==> other.sessions[id] == Seen(db.sessions[id], run, projection)
    ensures id in db.sessions ==>
      other.sessions[id].intents == db.sessions[id].intents && other.sessions[id].run == db.sessions[id].run
  {
  }

  lemma GateShifts(db: Db, other: Db, op: string, lease: string, named: string, c: Command, run: string,
                   projection: Option<Connection>)
    requires Evidence(c) && Shifted(db, other, op, run, projection)
    ensures Gate(other, lease, named, c) == Gate(db, lease, named, c)
  {
    TargetShifts(db, other, op, Reference(c).session, run, projection);
  }

  lemma ReadyShifts(db: Db, other: Db, op: string, lease: string, named: string, c: Command, run: string,
                    projection: Option<Connection>)
    requires Evidence(c) && Shifted(db, other, op, run, projection)
    ensures Ready(other, lease, named, c) == Ready(db, lease, named, c)
  {
    TargetShifts(db, other, op, Target(named, c), run, projection);
  }

  lemma DecisionShifts(san: string -> string, db: Db, other: Db, op: string, named: string, gen: nat, c: Command,
                       run: string, projection: Option<Connection>, s: Session, t: Session)
    requires Evidence(c) && Shifted(db, other, op, run, projection)
    requires Target(named, c) in db.sessions && t == Seen(s, run, projection)
    ensures ShiftedOutcome(Settle(san, db, op, named, c, Decide(san, s, gen, false, c)),
                           Settle(san, other, op, named, c, Decide(san, t, gen, false, c)), run, projection)
    ensures Settle(san, other, op, named, c, Decide(san, t, gen, false, c)).db.runs == other.runs
  {
    EvidenceSeenAlike(san, s, run, projection, gen, false, c);
    SettleShifts(san, db, other, op, named, c, Decide(san, s, gen, false, c), Decide(san, t, gen, false, c), run, projection);
  }

  lemma NewEvidenceMeans(san: string -> string, db: Db, op: string, lease: string, named: string, gen: nat, c: Command)
    requires Evidence(c) && Ready(db, lease, named, c) == None
    ensures Target(named, c) in db.sessions
    ensures NewDecision(san, db, op, lease, named, gen, c) ==
            Settle(san, db, op, named, c, Decide(san, db.sessions[Target(named, c)], gen, false, c))
  {
  }

  lemma NewEvidenceShifts(san: string -> string, db: Db, other: Db, op: string, lease: string, named: string, gen: nat,
                          c: Command, run: string, projection: Option<Connection>)
    requires Evidence(c) && Shifted(db, other, op, run, projection)
    ensures ShiftedOutcome(NewDecision(san, db, op, lease, named, gen, c), NewDecision(san, other, op, lease, named, gen, c),
                           run, projection)
    ensures NewDecision(san, other, op, lease, named, gen, c).db.runs == other.runs
  {
    var target := Target(named, c);
    ReadyShifts(db, other, op, lease, named, c, run, projection);
    TargetShifts(db, other, op, target, run, projection);
    if Ready(db, lease, named, c) == None {
      NewEvidenceMeans(san, db, op, lease, named, gen, c);
      NewEvidenceMeans(san, other, op, lease, named, gen, c);
      DecisionShifts(san, db, other, op, named, gen, c, run, projection, db.sessions[target], other.sessions[target]);
    }
  }

  lemma AnswerShifts(san: string -> string, db: Db, other: Db, op: string, lease: string, named: string, gen: nat,
                     c: Command, run: string, projection: Option<Connection>)
    requires Evidence(c) && Shifted(db, other, op, run, projection)
    ensures ShiftedOutcome(Answer(san, db, op, lease, named, gen, c), Answer(san, other, op, lease, named, gen, c),
                           run, projection)
    ensures Answer(san, other, op, lease, named, gen, c).db.runs == other.runs
  {
    FindShifts(db, other, op, KindOf(c), CommandMark(san, named, c), run, projection);
    if Find(db.journal, op, KindOf(c), CommandMark(san, named, c)) == Absent {
      NewEvidenceShifts(san, db, other, op, lease, named, gen, c, run, projection);
    }
  }

  lemma FindShifts(db: Db, other: Db, op: string, command: Kind, mark: Fingerprint, run: string,
                   projection: Option<Connection>)
    requires Shifted(db, other, op, run, projection)
    ensures Find(other.journal, op, command, mark) == Find(db.journal, op, command, mark)
  {
  }

  // The same evidence, recorded on either side of a controller transition.
  lemma EvidenceShifts(san: string -> string, db: Db, other: Db, op: string, lease: string, named: string, c: Command,
                       run: string, projection: Option<Connection>)
    requires Evidence(c) && Shifted(db, other, op, run, projection)
    ensures ShiftedOutcome(ExecuteSession(san, db, op, lease, named, c), ExecuteSession(san, other, op, lease, named, c),
                           run, projection)
    ensures ExecuteSession(san, other, op, lease, named, c).db.runs == other.runs
  {
    GateShifts(db, other, op, lease, named, c, run, projection);
    if Gate(db, lease, named, c).Ok? {
      AnswerShifts(san, db, other, op, lease, named, Gate(db, lease, named, c).value, c, run, projection);
    }
  }

  // Evidence is invisible to a controller transition.
  ghost predicate Unseen(db: Db, other: Db, op: string) {
    && other.runs == db.runs
    && (op in other.journal <==> op in db.journal)
    && (op in db.journal ==> other.journal[op] == db.journal[op])
    && (forall source :: IsIssuance(other.journal, source) <==> IsIssuance(db.journal, source))
  }

  lemma ControllerGuardsUnmoved(san: string -> string, db: Db, other: Db, op: string, run: string, c: ControllerCommand)
    requires Unseen(db, other, op)
    ensures ControllerGate(other, run, c) == ControllerGate(db, run, c)
    ensures ControllerDecided(san, other, op, run, c) == ControllerDecided(san, db, op, run, c)
    ensures HasIssuance(other, op) == HasIssuance(db, op)
  {
    if c.Recover? {
      assert IsIssuance(other.journal, c.source) == IsIssuance(db.journal, c.source);
    }
  }

  lemma NewControlUnmoved(san: string -> string, db: Db, other: Db, op: string, run: string, target: nat, c: ControllerCommand)
    requires other.runs == db.runs
    requires ControllerDecided(san, other, op, run, c) == ControllerDecided(san, db, op, run, c)
    ensures NewControl(san, other, op, run, target, c).reply == NewControl(san, db, op, run, target, c).reply
    ensures NewControl(san, other, op, run, target, c).db.runs == NewControl(san, db, op, run, target, c).db.runs
  {
  }

  lemma ReplayUnmoved(san: string -> string, db: Db, other: Db, op: string, run: string, c: ControllerCommand, receipt: Receipt)
    requires ControllerDecided(san, other, op, run, c) == ControllerDecided(san, db, op, run, c)
    requires HasIssuance(other, op) == HasIssuance(db, op)
    ensures ReplayController(san, other, op, run, c, receipt) == ReplayController(san, db, op, run, c, receipt)
  {
  }

  lemma AnswerUnmoved(san: string -> string, db: Db, other: Db, op: string, run: string, target: nat, c: ControllerCommand)
    requires Unseen(db, other, op)
    ensures AnswerController(san, other, op, run, target, c).reply == AnswerController(san, db, op, run, target, c).reply
    ensures AnswerController(san, other, op, run, target, c).db.runs == AnswerController(san, db, op, run, target, c).db.runs
  {
    ControllerGuardsUnmoved(san, db, other, op, run, c);
    match Find(db.journal, op, ControllerKind(c), ControllerMark(san, run, target, c))
    case Match(receipt) => ReplayUnmoved(san, db, other, op, run, c, receipt);
    case Clash =>
    case Absent => NewControlUnmoved(san, db, other, op, run, target, c);
  }

  // What a controller transition answers, and the authority it leaves, do not
  // depend on evidence recorded before it.
  lemma ControllerReplyUnmoved(san: string -> string, db: Db, other: Db, op: string, run: string, c: ControllerCommand)
    requires Unseen(db, other, op)
    ensures ExecuteController(san, other, op, run, c).reply == ExecuteController(san, db, op, run, c).reply
    ensures ExecuteController(san, other, op, run, c).db.runs == ExecuteController(san, db, op, run, c).db.runs
  {
    ControllerGuardsUnmoved(san, db, other, op, run, c);
    if ControllerGate(db, run, c).Ok? {
      AnswerUnmoved(san, db, other, op, run, ControllerGate(db, run, c).value, c);
    }
  }

  lemma ControllerShifts(san: string -> string, db: Db, op: string, run: string, c: ControllerCommand, o: Outcome,
                         projection: Option<Connection>)
    requires o == ExecuteController(san, db, op, run, c)
    requires projection == (var d := ControllerDecided(san, db, op, run, c);
                            if o.reply.Fresh? && d.CommitController? then d.projection else None)
    ensures o.db.sessions == SeenAll(db.sessions, run, projection)
    ensures o.db.attempts == db.attempts && o.db.runs.Keys == db.runs.Keys
    ensures forall k :: k != op ==> (k in o.db.journal <==> k in db.journal)
    ensures forall k :: k != op && k in db.journal ==> o.db.journal[k] == db.journal[k]
  {
    ControllerOpEffect(san, db, op, run, c, o);
  }

  lemma EvidenceUnseen(san: string -> string, db: Db, op: string, lease: string, named: string, c: Command, o: Outcome,
                       other: string)
    requires Evidence(c) && o == ExecuteSession(san, db, op, lease, named, c) && op != other
    ensures Unseen(db, o.db, other)
  {
    SessionOpEffect(san, db, op, lease, named, c, o);
    EffectUnseen(san, db, op, named, Authorised(db, lease, named, c), c, o, other);
  }

  lemma EffectUnseen(san: string -> string, db: Db, op: string, named: string, gen: nat, c: Command, o: Outcome, other: string)
    requires SessionEffect(san, db, op, named, gen, c, o) && op != other
    ensures Unseen(db, o.db, other)
  {
    SessionKindsGrantNothing(c);
    forall source ensures IsIssuance(o.db.journal, source) <==> IsIssuance(db.journal, source) {
      assert source != op ==> (source in o.db.journal <==> source in db.journal);
    }
  }

  // A result recorded before a rotation and after it is the same result: both
  // orders reach the same sessions, runs and attempts, the controller gets the
  // same answer, and so does the evidence up to the version in its receipt.
  lemma EvidenceCommutes(san: string -> string, db: Db, op: string, lease: string, named: string, c: Command,
                         turn: string, run: string, transition: ControllerCommand,
                         first: Outcome, after: Outcome, moved: Outcome, late: Outcome)
    requires Evidence(c) && op != turn
    requires first == ExecuteSession(san, db, op, lease, named, c)
    requires after == ExecuteController(san, first.db, turn, run, transition)
    requires moved == ExecuteController(san, db, turn, run, transition)
    requires late == ExecuteSession(san, moved.db, op, lease, named, c)
    ensures late.db.sessions == after.db.sessions
    ensures late.db.runs == after.db.runs && late.db.attempts == after.db.attempts
    ensures SameAnswer(first.reply, late.reply) && after.reply == moved.reply
  {
    var d := ControllerDecided(san, db, turn, run, transition);
    var projection := if moved.reply.Fresh? && d.CommitController? then d.projection else None;
    EvidenceUnseen(san, db, op, lease, named, c, first, turn);
    ControllerGuardsUnmoved(san, db, first.db, turn, run, transition);
    ControllerReplyUnmoved(san, db, first.db, turn, run, transition);
    ControllerShifts(san, db, turn, run, transition, moved, projection);
    EvidenceShifts(san, db, moved.db, op, lease, named, c, run, projection);
    ControllerShifts(san, first.db, turn, run, transition, after, projection);
  }
}
