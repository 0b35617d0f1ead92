// The store over whole histories. Each session lives a session run and each
// run's authority a controller run, so everything proved of those holds in
// every reachable database.
module StoreInvariants {
  import opened Domain
  import opened SessionRules
  import opened SessionInvariants
  import opened SessionRuns
  import opened ControllerRules
  import opened LeaseFencing
  import opened Database

  // The steps one event makes on one session.
  ghost function SessionSteps(san: string -> string, db: Db, e: Event, id: string): seq<Step> {
    match e
    case SessionOp(op, lease, named, c) =>
      if Execute(san, db, e).reply.Fresh? && Target(named, c) == id then
        [Act(Authorised(db, lease, named, c), OpenAttempt(db, c), c)]
      else []
    case ControllerOp(op, run, c) =>
      var d := ControllerDecided(san, db, op, run, c);
      if Execute(san, db, e).reply.Fresh? && d.CommitController? && d.projection.Some?
         && id in db.sessions && db.sessions[id].run == run then
        [Project(d.projection.value)]
      else []
    case _ => []
  }

  lemma One(san: string -> string, s: Session, step: Step)
    ensures Run(san, s, [step]) == Apply(san, s, step)
  {
    assert Run(san, Apply(san, s, step), [step][1..]) == Apply(san, s, step);
  }

  // A session command leaves the database alone or makes one step on its
  // session and journals itself.
  ghost predicate SessionEffect(san: string -> string, db: Db, op: string, named: string, gen: nat, c: Command, o: Outcome) {
    || (o.db == db && !o.reply.Fresh?)
    || (&& o.reply.Fresh? && Target(named, c) in db.sessions && op !in db.journal
        && o.db.runs == db.runs
        && o.db.sessions == db.sessions[Target(named, c) :=
             Apply(san, db.sessions[Target(named, c)], Act(gen, OpenAttempt(db, c), c))]
        && op in o.db.journal && o.db.journal == db.journal[op := o.db.journal[op]]
        && o.db.journal[op].command == KindOf(c))
  }

  lemma SettleEffect(san: string -> string, db: Db, op: string, named: string, gen: nat, c: Command, d: Decision)
    requires Target(named, c) in db.sessions
    requires d.Commit? ==> d.after == Apply(san, db.sessions[Target(named, c)], Act(gen, OpenAttempt(db, c), c))
    ensures SessionEffect(san, db, op, named, gen, c, Settle(san, db, op, named, c, d))
  {
  }

  lemma ApplyAct(san: string -> string, s: Session, gen: nat, open: bool, c: Command)
    requires Malformed(c) == None && Decide(san, s, gen, open, c).Commit?
    ensures Apply(san, s, Act(gen, open, c)) == Decide(san, s, gen, open, c).after
  {
  }

  lemma NewDecisionEffect(san: string -> string, db: Db, op: string, lease: string, named: string, gen: nat, c: Command)
    requires Malformed(c) == None
    ensures SessionEffect(san, db, op, named, gen, c, NewDecision(san, db, op, lease, named, gen, c))
  {
    if Ready(db, lease, named, c) == None {
      var d := Decide(san, db.sessions[Target(named, c)], gen, OpenAttempt(db, c), c);
      if d.Commit? {
        ApplyAct(san, db.sessions[Target(named, c)], gen, OpenAttempt(db, c), c);
      }
      SettleEffect(san, db, op, named, gen, c, d);
    }
  }

  ghost function Authorised(db: Db, lease: string, named: string, c: Command): nat {
    if Gate(db, lease, named, c).Ok? then Gate(db, lease, named, c).value else 0
  }

  lemma SessionOpEffect(san: string -> string, db: Db, op: string, lease: string, named: string, c: Command, o: Outcome)
    requires o == ExecuteSession(san, db, op, lease, named, c)
    ensures SessionEffect(san, db, op, named, Authorised(db, lease, named, c), c, o)
    ensures o.reply.Fresh? ==> Gate(db, lease, named, c).Ok?
  {
    if Arguments(op, lease, c) == None && Gate(db, lease, named, c).Ok? {
      NewDecisionEffect(san, db, op, lease, named, Gate(db, lease, named, c).value, c);
    }
  }

  // A controller command leaves the database alone or moves its run's
  // authority, projects on the run's sessions and journals itself.
  ghost predicate ControllerEffect(db: Db, op: string, run: string, c: ControllerCommand, d: ControllerDecision, o: Outcome) {
    || (o.db == db && !o.reply.Fresh?)
    || (&& run in db.runs && d.CommitController? && op !in db.journal
        && (o.reply.Fresh? || d.projection == None)
        && o.db.runs == db.runs[run := d.after]
        && o.db.sessions == (if d.projection.Some? then ProjectRun(db.sessions, run, d.projection.value) else db.sessions)
        && op in o.db.journal && o.db.journal == db.journal[op := o.db.journal[op]]
        && o.db.journal[op].command == ControllerKind(c))
  }

  lemma AnswerControllerEffect(san: string -> string, db: Db, op: string, run: string, target: nat, c: ControllerCommand)
    ensures ControllerEffect(db, op, run, c, ControllerDecided(san, db, op, run, c),
                             AnswerController(san, db, op, run, target, c))
  {
  }

  lemma ControllerOpEffect(san: string -> string, db: Db, op: string, run: string, c: ControllerCommand, o: Outcome)
    requires o == ExecuteController(san, db, op, run, c)
    ensures ControllerEffect(db, op, run, c, ControllerDecided(san, db, op, run, c), o)
    ensures o.db != db ==> !MalformedController(op, c)
  {
    if ControllerGate(db, run, c).Ok? {
      AnswerControllerEffect(san, db, op, run, ControllerGate(db, run, c).value, c);
    }
  }

  // Refinement: an event acts on a session as its steps do.
  lemma EventIsSteps(san: string -> string, db: Db, e: Event, id: string)
    requires id in db.sessions
    ensures id in Execute(san, db, e).db.sessions
    ensures Execute(san, db, e).db.sessions[id] == Run(san, db.sessions[id], SessionSteps(san, db, e, id))
  {
    match e
    case SessionOp(op, lease, named, c) => SessionOpIsSteps(san, db, op, lease, named, c, id);
    case ControllerOp(op, run, c) => ControllerOpIsSteps(san, db, op, run, c, id);
    case _ =>
  }

  lemma SessionOpIsSteps(san: string -> string, db: Db, op: string, lease: string, named: string, c: Command, id: string)
    requires id in db.sessions
    ensures
      var e := SessionOp(op, lease, named, c);
      id in Execute(san, db, e).db.sessions
      && Execute(san, db, e).db.sessions[id] == Run(san, db.sessions[id], SessionSteps(san, db, e, id))
  {
    SessionOpEffect(san, db, op, lease, named, c, ExecuteSession(san, db, op, lease, named, c));
    One(san, db.sessions[id], Act(Authorised(db, lease, named, c), OpenAttempt(db, c), c));
  }

  lemma ControllerOpIsSteps(san: string -> string, db: Db, op: string, run: string, c: ControllerCommand, id: string)
    requires id in db.sessions
    ensures
      var e := ControllerOp(op, run, c);
      id in Execute(san, db, e).db.sessions
      && Execute(san, db, e).db.sessions[id] == Run(san, db.sessions[id], SessionSteps(san, db, e, id))
  {
    var o, d := ExecuteController(san, db, op, run, c), ControllerDecided(san, db, op, run, c);
    ControllerOpEffect(san, db, op, run, c, o);
    EffectProjects(db, op, run, c, d, o, id);
    if d.CommitController? && d.projection.Some? {
      One(san, db.sessions[id], Project(d.projection.value));
    }
  }

  lemma EffectProjects(db: Db, op: string, run: string, c: ControllerCommand, d: ControllerDecision, o: Outcome, id: string)
    requires id in db.sessions && ControllerEffect(db, op, run, c, d, o)
    ensures id in o.db.sessions
    ensures o.db.sessions[id] ==
      if o.reply.Fresh? && d.CommitController? && d.projection.Some? && db.sessions[id].run == run then
        ProjectConnection(db.sessions[id], d.projection.value)
      else db.sessions[id]
  {
  }

  ghost function HistorySteps(san: string -> string, db: Db, events: seq<Event>, id: string): seq<Step>
    decreases |events|
  {
    if events == [] then []
    else SessionSteps(san, db, events[0], id) + HistorySteps(san, Execute(san, db, events[0]).db, events[1..], id)
  }

  // Over any history a session lives the session run of its steps: finality,
  // conservation, version identity and simulation carry over.
  lemma {:induction false} HistoryIsRun(san: string -> string, db: Db, events: seq<Event>, id: string)
    requires id in db.sessions
    ensures id in History(san, db, events).sessions
    ensures History(san, db, events).sessions[id] == Run(san, db.sessions[id], HistorySteps(san, db, events, id))
    decreases |events|
  {
    if events != [] {
      var next := Execute(san, db, events[0]).db;
      EventIsSteps(san, db, events[0], id);
      HistoryIsRun(san, next, events[1..], id);
      RunConcat(san, db.sessions[id], SessionSteps(san, db, events[0], id), HistorySteps(san, next, events[1..], id));
    }
  }

  // Sessions belong to a run, authority is fenced, and every journaled
  // adoption or handoff has its grant.
  ghost predicate SoundRuns(db: Db) {
    && (forall id :: id in db.sessions ==> db.sessions[id].run in db.runs)
    && (forall run :: run in db.runs ==> Fenced(db.runs[run]))
    && (forall op :: op in db.journal && IsIssuance(db.journal, op) ==> HasIssuance(db, op))
  }

  // And every session is consistent.
  ghost predicate SoundStore(db: Db) {
    SoundRuns(db) && forall id :: id in db.sessions ==> Consistent(db.sessions[id])
  }

  ghost predicate RunsKept(db: Db, after: Db) {
    forall run :: run in db.runs ==> run in after.runs && GrantsKept(db.runs[run], after.runs[run])
  }

  lemma IssuanceKept(db: Db, after: Db, op: string)
    requires HasIssuance(db, op) && RunsKept(db, after)
    ensures HasIssuance(after, op)
  {
    var run :| run in db.runs && Issued(db.runs[run], op).Some?;
    var gen := Issued(db.runs[run], op).value;
    assert after.runs[run].grants[gen].grantedBy == op;
  }

  lemma IssuancesKept(db: Db, after: Db, op: string)
    requires SoundRuns(db) && RunsKept(db, after)
    requires op in after.journal && after.journal == db.journal[op := after.journal[op]]
    requires after.journal[op].command.Grants() ==> HasIssuance(after, op)
    ensures forall k :: k in after.journal && IsIssuance(after.journal, k) ==> HasIssuance(after, k)
  {
    forall k | k in after.journal && IsIssuance(after.journal, k) ensures HasIssuance(after, k) {
      if k != op {
        assert IsIssuance(db.journal, k);
        IssuanceKept(db, after, k);
      }
    }
  }

  ghost predicate KeepsRun(s: Session, d: Decision) {
    d.Commit? ==> d.after.run == s.run
  }

  lemma RowCommandsKeepRun(san: string -> string, s: Session, gen: nat, open: bool, c: Command)
    requires c.QueuePrompt? || c.ReplacePendingPrompt? || c.DiscardPendingPrompt? || c.ReleaseTurn? || c.RequestCancel?
             || c.RecordHostLoss? || c.SetControllerConnection? || c.ArchiveSession?
    ensures KeepsRun(s, Decide(san, s, gen, open, c))
  {
  }

  lemma OutcomeKeepsRun(s: Session, key: string, status: TurnStatus, result: string, dup: string, rec: string)
    ensures KeepsRun(s, DecideOutcome(s, key, status, result, dup, rec))
  {
  }

  lemma ReconcileKeepsRun(san: string -> string, s: Session, c: Command)
    requires c.ReconcileSession?
    ensures KeepsRun(s, DecideReconcile(san, s, c))
  {
  }

  lemma AbandonKeepsRun(san: string -> string, s: Session, open: bool, c: Command)
    requires c.ResolveAgyTurnUncertainty?
    ensures KeepsRun(s, DecideAbandon(san, s, open, c))
  {
  }

  lemma CommandKeepsRun(san: string -> string, s: Session, gen: nat, open: bool, c: Command)
    ensures KeepsRun(s, Decide(san, s, gen, open, c))
  {
    match c
    case RecordTerminalOutcome(_, key, status, result) =>
      OutcomeKeepsRun(s, key, status, san(result), status.Name(), status.Name());
    case RecordObservedExecutionOutcome(ref, status, result) =>
      OutcomeKeepsRun(s, ref.turnKey, status, san(result), status.Name() + ":duplicate",
                      status.Name() + IssuedBy(s, ref.turnKey));
    case ReconcileSession(_, _, _) => ReconcileKeepsRun(san, s, c);
    case ResolveAgyTurnUncertainty(_, _, _, _, _) => AbandonKeepsRun(san, s, open, c);
    case RecordDispatchObservation(_, _) =>
    case RecordObservedDispatchAcknowledgement(_, _) =>
    case _ => RowCommandsKeepRun(san, s, gen, open, c);
  }

  // No step moves a session to another run.
  lemma StepKeepsRun(san: string -> string, s: Session, step: Step)
    ensures Apply(san, s, step).run == s.run
  {
    if step.Act? {
      CommandKeepsRun(san, s, step.gen, step.open, step.command);
    }
  }

  lemma SessionEffectSound(san: string -> string, db: Db, op: string, named: string, gen: nat, c: Command, o: Outcome)
    requires SoundRuns(db) && SessionEffect(san, db, op, named, gen, c, o)
    ensures SoundRuns(o.db) && RunsKept(db, o.db)
  {
    if o.reply.Fresh? {
      var id := Target(named, c);
      var step := Act(gen, OpenAttempt(db, c), c);
      StepKeepsRun(san, db.sessions[id], step);
      SessionKindsGrantNothing(c);
      SessionReplaced(db, o.db, op, id, Apply(san, db.sessions[id], step));
    }
  }

  lemma SessionKindsGrantNothing(c: Command)
    ensures !KindOf(c).Grants()
  {
  }

  lemma ControllerKindsGrant(c: ControllerCommand)
    ensures ControllerKind(c).Grants() <==> c.Adopt? || c.Handoff?
  {
  }

  lemma SessionReplaced(db: Db, after: Db, op: string, id: string, s: Session)
    requires SoundRuns(db) && id in db.sessions && s.run == db.sessions[id].run
    requires after.runs == db.runs && after.sessions == db.sessions[id := s]
    requires op in after.journal && after.journal == db.journal[op := after.journal[op]]
    requires !after.journal[op].command.Grants()
    ensures SoundRuns(after) && RunsKept(db, after)
  {
    SameRunsKept(db, after);
    IssuancesKept(db, after, op);
    forall k | k in after.sessions ensures after.sessions[k].run in after.runs {
      assert k in db.sessions && after.sessions[k].run == db.sessions[k].run;
    }
  }

  lemma SameRunsKept(db: Db, after: Db)
    requires after.runs == db.runs
    ensures RunsKept(db, after)
  {
  }

  lemma RunPutKept(db: Db, after: Db, run: string, a: Authority)
    requires run in db.runs && GrantsKept(db.runs[run], a) && after.runs == db.runs[run := a]
    ensures RunsKept(db, after)
  {
  }

  lemma SessionOpSound(san: string -> string, db: Db, op: string, lease: string, named: string, c: Command, o: Outcome)
    requires SoundRuns(db) && o == ExecuteSession(san, db, op, lease, named, c)
    ensures SoundRuns(o.db) && RunsKept(db, o.db)
  {
    SessionOpEffect(san, db, op, lease, named, c, o);
    SessionEffectSound(san, db, op, named, Authorised(db, lease, named, c), c, o);
  }

  lemma ControllerOpSound(san: string -> string, db: Db, op: string, run: string, c: ControllerCommand, o: Outcome)
    requires SoundRuns(db) && o == ExecuteController(san, db, op, run, c)
    ensures SoundRuns(o.db) && RunsKept(db, o.db)
  {
    ControllerOpEffect(san, db, op, run, c, o);
    if o.db != db {
      var d := ControllerDecided(san, db, op, run, c);
      ControllerFences(san, db.runs[run], op, c.Recover? && IsIssuance(db.journal, c.source), c);
      if c.Adopt? || c.Handoff? {
        GrantIssued(san, db.runs[run], op, c, d);
      }
      ControllerEffectSound(db, op, run, c, d, o);
    }
  }

  lemma GrantIssued(san: string -> string, a: Authority, op: string, c: ControllerCommand, d: ControllerDecision)
    requires c.Adopt? || c.Handoff?
    requires d == DecideController(san, a, op, false, c) && d.CommitController?
    ensures Issued(d.after, op).Some?
  {
    assert exists n: nat :: n in d.after.grants && d.after.grants[n].grantedBy == op by {
      var vacated := if c.Adopt? then a else Retire(a, Classify(a, c.lease, true).value, Superseded);
      assert d.after.grants[NextGen(vacated.grants)].grantedBy == op;
    }
  }

  lemma ControllerEffectSound(db: Db, op: string, run: string, c: ControllerCommand, d: ControllerDecision, o: Outcome)
    requires SoundRuns(db) && ControllerEffect(db, op, run, c, d, o) && o.db != db
    requires Fenced(d.after) && GrantsKept(db.runs[run], d.after)
    requires c.Adopt? || c.Handoff? ==> Issued(d.after, op).Some?
    ensures SoundRuns(o.db) && RunsKept(db, o.db)
  {
    ControllerKindsGrant(c);
    if c.Adopt? || c.Handoff? {
      assert HasIssuance(o.db, op) by {
        assert Issued(o.db.runs[run], op).Some?;
      }
    }
    if d.projection.Some? {
      ProjectionKeepsRuns(db.sessions, run, d.projection.value);
    }
    RunReplaced(db, o.db, op, run, d.after);
  }

  lemma ProjectionKeepsRuns(sessions: map<string, Session>, run: string, connection: Connection)
    ensures ProjectRun(sessions, run, connection).Keys == sessions.Keys
    ensures forall id :: id in sessions ==> ProjectRun(sessions, run, connection)[id].run == sessions[id].run
  {
  }

  lemma RunReplaced(db: Db, after: Db, op: string, run: string, a: Authority)
    requires SoundRuns(db) && run in db.runs && Fenced(a) && GrantsKept(db.runs[run], a)
    requires after.runs == db.runs[run := a] && after.sessions.Keys == db.sessions.Keys
    requires forall id :: id in db.sessions ==> after.sessions[id].run == db.sessions[id].run
    requires op in after.journal && after.journal == db.journal[op := after.journal[op]]
    requires after.journal[op].command.Grants() ==> HasIssuance(after, op)
    ensures SoundRuns(after) && RunsKept(db, after)
  {
    RunPutKept(db, after, run, a);
    IssuancesKept(db, after, op);
    forall r | r in after.runs ensures Fenced(after.runs[r]) {
      assert r in db.runs;
    }
    forall id | id in after.sessions ensures after.sessions[id].run in after.runs {
      assert after.sessions[id].run == db.sessions[id].run;
    }
  }

  // A new run, or a new session of a run, under an operation that grants
  // nothing.
  lemma CreationSound(db: Db, after: Db, op: string)
    requires SoundRuns(db) && RunsKept(db, after)
    requires forall run :: run in after.runs && run !in db.runs ==> Fenced(after.runs[run])
    requires forall run :: run in db.runs ==> after.runs[run] == db.runs[run]
    requires forall id :: id in after.sessions ==> after.sessions[id].run in after.runs
    requires op in after.journal && after.journal == db.journal[op := after.journal[op]]
    requires !after.journal[op].command.Grants()
    ensures SoundRuns(after)
  {
    IssuancesKept(db, after, op);
  }

  lemma CreateRunEffect(db: Db, op: string, run: string, digests: seq<string>, lease: string, o: Outcome)
    requires o == ExecuteCreateRun(db, op, run, digests, lease)
    ensures o.db == db ||
            (run !in db.runs && op in o.db.journal && o.db.journal[op].command == CreateRunKind
             && o.db == db.(runs := db.runs[run := NewAuthority(lease, op)], journal := db.journal[op := o.db.journal[op]]))
  {
  }

  lemma RunAdded(db: Db, after: Db, op: string, run: string, lease: string)
    requires SoundRuns(db) && run !in db.runs && op in after.journal && after.journal[op].command == CreateRunKind
    requires after == db.(runs := db.runs[run := NewAuthority(lease, op)], journal := db.journal[op := after.journal[op]])
    ensures SoundRuns(after) && RunsKept(db, after)
  {
    NewAuthorityFenced(lease, op);
    CreationSound(db, after, op);
  }

  lemma CreateRunSound(db: Db, op: string, run: string, digests: seq<string>, lease: string, o: Outcome)
    requires SoundRuns(db) && o == ExecuteCreateRun(db, op, run, digests, lease)
    ensures SoundRuns(o.db) && RunsKept(db, o.db)
  {
    CreateRunEffect(db, op, run, digests, lease, o);
    if o.db != db {
      RunAdded(db, o.db, op, run, lease);
    }
  }

  // A creation leaves the store alone or adds one session of an existing run.
  ghost predicate SessionBorn(db: Db, op: string, session: string, b: Birth, o: Outcome) {
    || (o.db == db && !o.reply.Fresh?)
    || (&& o.reply.Fresh? && session !in db.sessions && b.run in db.runs
        && op in o.db.journal && o.db.journal[op].command == CreateSessionKind
        && o.db == db.(sessions := db.sessions[session := NewSession(db.runs[b.run], b)],
                       journal := db.journal[op := o.db.journal[op]]))
  }

  lemma CreateSessionEffect(db: Db, op: string, lease: string, session: string, b: Birth, o: Outcome)
    requires o == ExecuteCreateSession(db, op, lease, session, b)
    ensures SessionBorn(db, op, session, b, o)
  {
  }

  lemma SessionAdded(db: Db, after: Db, op: string, session: string, s: Session)
    requires SoundRuns(db) && s.run in db.runs && op in after.journal && after.journal[op].command == CreateSessionKind
    requires after == db.(sessions := db.sessions[session := s], journal := db.journal[op := after.journal[op]])
    ensures SoundRuns(after) && RunsKept(db, after)
  {
    CreationSound(db, after, op);
  }

  lemma CreateSessionSound(db: Db, op: string, lease: string, session: string, b: Birth, o: Outcome)
    requires SoundRuns(db) && o == ExecuteCreateSession(db, op, lease, session, b)
    ensures SoundRuns(o.db) && RunsKept(db, o.db)
  {
    CreateSessionEffect(db, op, lease, session, b, o);
    if o.reply.Fresh? {
      SessionAdded(db, o.db, op, session, NewSession(db.runs[b.run], b));
    }
  }

  lemma AttemptsEffect(san: string -> string, db: Db, e: Event)
    requires e.AttemptBegins? || e.AttemptMoves?
    ensures Execute(san, db, e).db == db.(attempts := Execute(san, db, e).db.attempts)
  {
  }

  lemma AttemptsSound(db: Db, after: Db)
    requires SoundRuns(db) && after == db.(attempts := after.attempts)
    ensures SoundRuns(after) && RunsKept(db, after)
  {
    SameRunsKept(db, after);
    forall op | op in db.journal && IsIssuance(after.journal, op) ensures HasIssuance(after, op) {
      assert IsIssuance(db.journal, op);
      IssuanceKept(db, after, op);
    }
  }

  // One transaction keeps every run fenced and every issuance present.
  lemma EventKeepsRuns(san: string -> string, db: Db, e: Event)
    requires SoundRuns(db)
    ensures SoundRuns(Execute(san, db, e).db) && RunsKept(db, Execute(san, db, e).db)
  {
    var o := Execute(san, db, e);
    match e
    case SessionOp(op, lease, named, c) => SessionOpSound(san, db, op, lease, named, c, o);
    case ControllerOp(op, run, c) => ControllerOpSound(san, db, op, run, c, o);
    case CreateRun(op, run, digests, lease) => CreateRunSound(db, op, run, digests, lease, o);
    case CreateSession(op, lease, session, birth) => CreateSessionSound(db, op, lease, session, birth, o);
    case _ =>
      AttemptsEffect(san, db, e);
      AttemptsSound(db, o.db);
  }

  lemma {:induction false} HistoryKeepsRuns(san: string -> string, db: Db, events: seq<Event>)
    requires SoundRuns(db)
    ensures SoundRuns(History(san, db, events))
    decreases |events|
  {
    if events != [] {
      EventKeepsRuns(san, db, events[0]);
      HistoryKeepsRuns(san, Execute(san, db, events[0]).db, events[1..]);
    }
  }

  // A new session is consistent exactly when it is created as callers do.
  lemma NewSessionConsistent(a: Authority, b: Birth)
    ensures Consistent(NewSession(a, b)) <==> b.Proper()
  {
  }

  predicate ProperEvent(e: Event) {
    e.CreateSession? ==> e.birth.Proper()
  }

  lemma EventKeepsSessions(san: string -> string, db: Db, e: Event, id: string)
    requires id in db.sessions && Consistent(db.sessions[id])
    ensures id in Execute(san, db, e).db.sessions && Consistent(Execute(san, db, e).db.sessions[id])
  {
    EventIsSteps(san, db, e, id);
    RunSound(san, db.sessions[id], SessionSteps(san, db, e, id));
  }

  // Nothing but a creation changes which sessions there are.
  lemma OnlyCreationAdds(san: string -> string, db: Db, e: Event)
    requires !e.CreateSession?
    ensures Execute(san, db, e).db.sessions.Keys == db.sessions.Keys
  {
    match e
    case SessionOp(op, lease, named, c) => SessionOpEffect(san, db, op, lease, named, c, Execute(san, db, e));
    case ControllerOp(op, run, c) => ControllerOpEffect(san, db, op, run, c, Execute(san, db, e));
    case _ =>
  }

  // What a transaction adds to the sessions: nothing, or the one it creates.
  ghost predicate Adds(db: Db, e: Event, o: Outcome) {
    && (forall id :: id in db.sessions ==> id in o.db.sessions && Consistent(o.db.sessions[id]))
    && (forall id :: id in o.db.sessions && id !in db.sessions ==>
      e.CreateSession? && o.reply.Fresh? && id == e.session && (Consistent(o.db.sessions[id]) <==> e.birth.Proper()))
    && (e.CreateSession? && o.reply.Fresh? ==> e.session in o.db.sessions && e.session !in db.sessions)
  }

  lemma BirthAdds(db: Db, e: Event, o: Outcome, s: Session)
    requires forall id :: id in db.sessions ==> Consistent(db.sessions[id])
    requires e.CreateSession? && o.reply.Fresh? && e.session !in db.sessions && (Consistent(s) <==> e.birth.Proper())
    requires o.db.sessions == db.sessions[e.session := s]
    ensures Adds(db, e, o)
  {
  }

  lemma OthersAdd(db: Db, e: Event, o: Outcome)
    requires !e.CreateSession? && o.db.sessions.Keys == db.sessions.Keys
    requires forall id :: id in db.sessions ==> id in o.db.sessions && Consistent(o.db.sessions[id])
    ensures Adds(db, e, o)
  {
  }

  lemma EventAdds(san: string -> string, db: Db, e: Event, o: Outcome)
    requires SoundStore(db) && o == Execute(san, db, e)
    ensures Adds(db, e, o)
  {
    if e.CreateSession? {
      CreateSessionEffect(db, e.op, e.lease, e.session, e.birth, o);
      if o.reply.Fresh? {
        NewSessionConsistent(db.runs[e.birth.run], e.birth);
        BirthAdds(db, e, o, NewSession(db.runs[e.birth.run], e.birth));
      }
    } else {
      forall id | id in db.sessions ensures id in o.db.sessions && Consistent(o.db.sessions[id]) {
        EventKeepsSessions(san, db, e, id);
      }
      OnlyCreationAdds(san, db, e);
      OthersAdd(db, e, o);
    }
  }

  lemma AddsSoundIff(db: Db, e: Event, o: Outcome)
    requires SoundRuns(o.db) && Adds(db, e, o)
    ensures SoundStore(o.db) <==> !o.reply.Fresh? || ProperEvent(e)
  {
  }

  // One transaction keeps the store sound, unless it commits the creation of a
  // session in some other state than callers ask for: an if and only if.
  lemma EventSound(san: string -> string, db: Db, e: Event)
    requires SoundStore(db)
    ensures SoundStore(Execute(san, db, e).db) <==> !Execute(san, db, e).reply.Fresh? || ProperEvent(e)
    ensures RunsKept(db, Execute(san, db, e).db)
  {
    EventKeepsRuns(san, db, e);
    EventAdds(san, db, e, Execute(san, db, e));
    AddsSoundIff(db, e, Execute(san, db, e));
  }

  // Every store reachable by such transactions is sound.
  lemma {:induction false} HistorySound(san: string -> string, db: Db, events: seq<Event>)
    requires SoundStore(db) && forall e :: e in events ==> ProperEvent(e)
    ensures SoundStore(History(san, db, events))
    decreases |events|
  {
    if events != [] {
      EventSound(san, db, events[0]);
      HistorySound(san, Execute(san, db, events[0]).db, events[1..]);
    }
  }
}
