// What the promises of single commits mean over whole histories: a lease that
// lost its authority commands nothing any more, a commit acts on what its
// caller read, an outcome on record is never contradicted, and a released
// execution keeps the tools and the generation it was issued with.
module CommitHistories {
  import opened Domain
  import opened SessionRules
  import opened SessionInvariants
  import opened SessionRuns
  import opened ControllerRules
  import opened LeaseFencing
  import opened Database
  import opened Histories
  import S = StoreInvariants
  import C = Commits

  // No later transition of the run hands out that very lease again.
  predicate NeverReissued(events: seq<Event>, run: string, lease: string) {
    forall e :: e in events && e.ControllerOp? && e.run == run ==> Candidate(e.controller) != Some(lease)
  }

  lemma TransitionKeepsSpent(san: string -> string, db: Db, op: string, target: string, c: ControllerCommand, run: string,
                             lease: string, o: Outcome)
    requires S.SoundRuns(db) && run in db.runs && Spent(db.runs[run], lease)
    requires o == ExecuteController(san, db, op, target, c) && (target == run ==> Candidate(c) != Some(lease))
    ensures run in o.db.runs && Spent(o.db.runs[run], lease)
  {
    S.ControllerOpEffect(san, db, op, target, c, o);
    if o.db != db {
      var d := ControllerDecided(san, db, op, target, c);
      if target == run {
        DecisionKeepsSpent(san, db.runs[run], op, c.Recover? && IsIssuance(db.journal, c.source), c, lease);
      }
      EffectKeepsSpent(db, op, target, c, d, run, lease, o);
    }
  }

  lemma DecisionKeepsSpent(san: string -> string, a: Authority, op: string, issuance: bool, c: ControllerCommand, lease: string)
    requires Fenced(a) && Spent(a, lease) && Candidate(c) != Some(lease) && !MalformedController(op, c)
    requires DecideController(san, a, op, issuance, c).CommitController?
    ensures Spent(DecideController(san, a, op, issuance, c).after, lease)
  {
    SpentStaysSpent(san, a, ControllerStep(op, issuance, c), lease);
  }

  lemma EffectKeepsSpent(db: Db, op: string, target: string, c: ControllerCommand, d: ControllerDecision, run: string,
                         lease: string, o: Outcome)
    requires S.ControllerEffect(db, op, target, c, d, o) && o.db != db
    requires run in db.runs && Spent(db.runs[run], lease) && (target == run ==> Spent(d.after, lease))
    ensures run in o.db.runs && Spent(o.db.runs[run], lease)
  {
    assert o.db.runs[run] == if target == run then d.after else db.runs[run];
  }

  lemma {:induction false} HistoryKeepsSpent(san: string -> string, db: Db, events: seq<Event>, run: string, lease: string)
    requires S.SoundRuns(db) && run in db.runs && Spent(db.runs[run], lease) && NeverReissued(events, run, lease)
    ensures run in History(san, db, events).runs && Fenced(History(san, db, events).runs[run])
    ensures Spent(History(san, db, events).runs[run], lease)
    decreases |events|
  {
    if events != [] {
      var e, o := events[0], Execute(san, db, events[0]);
      if e.ControllerOp? {
        TransitionKeepsSpent(san, db, e.op, e.run, e.controller, run, lease, o);
      } else {
        OthersKeepRuns(san, db, e, o, run);
      }
      S.EventKeepsRuns(san, db, e);
      HistoryKeepsSpent(san, o.db, events[1..], run, lease);
    }
  }

  // A lease that has lost its authority, and is never issued again, commands
  // no session of the run after any history: every command under it is refused
  // and changes nothing.
  lemma RetiredLeaseIsShutOut(san: string -> string, db: Db, events: seq<Event>, run: string, lease: string, later: Db,
                              op: string, named: string, c: Command)
    requires S.SoundRuns(db) && run in db.runs && Spent(db.runs[run], lease) && NeverReissued(events, run, lease)
    requires later == History(san, db, events) && C.Expected(c).Some?
    requires C.Subject(named, c) in later.sessions ==> later.sessions[C.Subject(named, c)].run == run
    ensures ExecuteSession(san, later, op, lease, named, c).db == later
    ensures ExecuteSession(san, later, op, lease, named, c).reply.Refused?
  {
    HistoryKeepsSpent(san, db, events, run, lease);
    SpentNeverAuthorised(later.runs[run], lease, !c.ArchiveSession?);
    C.SessionReplies(san, later, op, lease, named, c);
    if !ExecuteSession(san, later, op, lease, named, c).reply.Refused? {
      C.AuthorityIsAsked(san, later, op, lease, named, c);
    }
  }

  // In particular whoever a handoff, a revocation or the first adoption
  // deprives: `n` is the grant that the transition retires.
  lemma DeposedControllerIsShutOut(san: string -> string, db: Db, turn: string, run: string, transition: ControllerCommand,
                                   n: nat, moved: Outcome, events: seq<Event>, later: Db, op: string, named: string, c: Command)
    requires S.SoundRuns(db) && run in db.runs && moved == ExecuteController(san, db, turn, run, transition)
    requires n in db.runs[run].grants && !db.runs[run].grants[n].status.Retired()
    requires run in moved.db.runs && n in moved.db.runs[run].grants && moved.db.runs[run].grants[n].status.Retired()
    requires Candidate(transition) != Some(db.runs[run].grants[n].lease)
    requires NeverReissued(events, run, db.runs[run].grants[n].lease)
    requires later == History(san, moved.db, events) && C.Expected(c).Some?
    requires C.Subject(named, c) in later.sessions ==> later.sessions[C.Subject(named, c)].run == run
    ensures
      var again := ExecuteSession(san, later, op, db.runs[run].grants[n].lease, named, c);
      again.db == later && again.reply.Refused?
  {
    S.ControllerOpEffect(san, db, turn, run, transition, moved);
    S.ControllerOpSound(san, db, turn, run, transition, moved);
    var step := ControllerStep(turn, transition.Recover? && IsIssuance(db.journal, transition.source), transition);
    RetirementSpends(san, db.runs[run], step, n, moved.db.runs[run]);
    RetiredLeaseIsShutOut(san, moved.db, events, run, db.runs[run].grants[n].lease, later, op, named, c);
  }

  // Optimistic concurrency: a command that commits at the version its caller
  // read acts on the very session the caller read, whatever happened between.
  lemma CommitSeesWhatWasRead(san: string -> string, db: Db, before: seq<Event>, between: seq<Event>, read: Db, now: Db,
                              op: string, lease: string, named: string, c: Command)
    requires read == History(san, db, before) && now == History(san, read, between)
    requires
      var id := C.Subject(named, c);
      id in db.sessions && Consistent(db.sessions[id]) && id in read.sessions && id in now.sessions
    requires C.Expected(c) == Some(read.sessions[C.Subject(named, c)].version)
    requires ExecuteSession(san, now, op, lease, named, c).reply.Fresh?
    ensures now.sessions[C.Subject(named, c)] == read.sessions[C.Subject(named, c)]
  {
    SessionPoints(san, db, before, between, C.Subject(named, c));
    C.CommitsIff(san, now, op, lease, named, c);
  }

  // After an archive nothing commits on a session but another archive, and the
  // observation of a dispatch, which comes late and changes nothing of it.
  lemma ArchivedCommitsIff(san: string -> string, db: Db, op: string, lease: string, named: string, c: Command, o: Outcome)
    requires o == ExecuteSession(san, db, op, lease, named, c)
    requires
      var id := C.Subject(named, c);
      id in db.sessions && Consistent(db.sessions[id]) && db.sessions[id].lifecycle == SessionArchived
    ensures o.reply.Fresh? <==>
      C.Admissible(san, db, op, lease, named, c) && (c.ArchiveSession? || c.RecordDispatchObservation?)
    ensures o.db.sessions == db.sessions
  {
    var id := C.Subject(named, c);
    C.CommitsIff(san, db, op, lease, named, c);
    C.SessionReplies(san, db, op, lease, named, c);
    if o.reply.Fresh? {
      ArchivedFits(san, db.sessions[id], C.Unsettled(db, c), c);
      C.CommitLeaves(san, db, op, lease, named, c, o);
      assert o.db.sessions[id] == db.sessions[id];
    }
  }

  lemma ArchivedFits(san: string -> string, s: Session, open: bool, c: Command)
    requires Consistent(s) && s.lifecycle == SessionArchived && C.Fits(san, s, open, c)
    ensures c.ArchiveSession? || c.RecordDispatchObservation?
    ensures c.RecordDispatchObservation? ==> s.intents[c.key].phase == Resolved
  {
    if c.RecordObservedDispatchAcknowledgement? {
      IdleIsResolved(s, c.ref.turnKey);
    } else if c.RecordDispatchObservation? {
      IdleIsResolved(s, c.key);
    }
  }

  lemma IdleIsResolved(s: Session, key: string)
    requires Consistent(s) && s.active == None && key in s.intents
    ensures s.intents[key].phase == Resolved
  {
    assert TurnConsistent(s, key);
  }

  // Such an observation does commit: on every archived session, for every turn
  // it ever released.
  lemma LateObservationCommits(san: string -> string, db: Db, op: string, id: string, key: string, phase: Phase)
    requires op !in db.journal && id in db.sessions && db.sessions[id].run in db.runs
    requires key in db.sessions[id].intents && phase.Observation()
    ensures ExecuteSession(san, db, op, db.runs[db.sessions[id].run].lease, id, RecordDispatchObservation(key, phase)).reply.Fresh?
  {
    C.CommitsIff(san, db, op, db.runs[db.sessions[id].run].lease, id, RecordDispatchObservation(key, phase));
  }

  // The outcome that one of the two outcome commands reports.
  function Reported(san: string -> string, c: Command): (TurnStatus, string)
    requires c.RecordTerminalOutcome? || c.RecordObservedExecutionOutcome?
  {
    (c.status, san(c.result))
  }

  // A committed outcome is the one on record.
  lemma OutcomeIsRecorded(san: string -> string, db: Db, op: string, lease: string, named: string, c: Command, o: Outcome)
    requires o == ExecuteSession(san, db, op, lease, named, c) && o.reply.Fresh?
    requires c.RecordTerminalOutcome? || c.RecordObservedExecutionOutcome?
    requires C.Subject(named, c) in db.sessions ==> Consistent(db.sessions[C.Subject(named, c)])
    ensures C.Subject(named, c) in o.db.sessions && C.Key(c).value in o.db.sessions[C.Subject(named, c)].turns
    ensures
      var turn := o.db.sessions[C.Subject(named, c)].turns[C.Key(c).value];
      (turn.status, turn.result) == Reported(san, c) && turn.status.Terminal()
  {
    C.CommitLeaves(san, db, op, lease, named, c, o);
  }

  lemma ContradictionDoesNotFit(san: string -> string, s: Session, open: bool, c: Command)
    requires c.RecordTerminalOutcome? || c.RecordObservedExecutionOutcome?
    requires C.Key(c).value in s.turns
    requires
      var turn := s.turns[C.Key(c).value];
      turn.status.Terminal() && (turn.status, turn.result) != Reported(san, c)
    ensures !C.Fits(san, s, open, c)
  {
  }

  // A turn stays as it ended, and every intent as it was issued.
  lemma TurnStays(san: string -> string, db: Db, events: seq<Event>, id: string, key: string)
    requires id in db.sessions && Consistent(db.sessions[id]) && key in db.sessions[id].turns
    ensures id in History(san, db, events).sessions
    ensures TurnKept(db.sessions[id], History(san, db, events).sessions[id], key)
  {
    S.HistoryIsRun(san, db, events, id);
    RunSound(san, db.sessions[id], S.HistorySteps(san, db, events, id));
  }

  // Over any history since a turn ended, an outcome that contradicts the one
  // on record is never acknowledged and changes nothing, whoever reports it.
  lemma ContradictionNeverCommits(san: string -> string, db: Db, events: seq<Event>, later: Db, op: string, lease: string,
                                  named: string, c: Command)
    requires c.RecordTerminalOutcome? || c.RecordObservedExecutionOutcome?
    requires later == History(san, db, events)
    requires
      var id, key := C.Subject(named, c), C.Key(c).value;
      id in db.sessions && Consistent(db.sessions[id]) && key in db.sessions[id].turns
      && var turn := db.sessions[id].turns[key];
         turn.status.Terminal() && (turn.status, turn.result) != Reported(san, c)
    ensures ExecuteSession(san, later, op, lease, named, c).db == later
    ensures !ExecuteSession(san, later, op, lease, named, c).reply.Fresh?
  {
    var id := C.Subject(named, c);
    TurnStays(san, db, events, id, C.Key(c).value);
    C.SessionReplies(san, later, op, lease, named, c);
    C.CommitsIff(san, later, op, lease, named, c);
    ContradictionDoesNotFit(san, later.sessions[id], C.Unsettled(later, c), c);
  }

  // What a release commits with.
  lemma ReleaseLeaves(san: string -> string, db: Db, op: string, lease: string, id: string, expected: int, key: string,
                      first: Outcome)
    requires first == ExecuteSession(san, db, op, lease, id, ReleaseTurn(expected, key)) && first.reply.Fresh?
    requires id in db.sessions ==> Consistent(db.sessions[id])
    ensures id in db.sessions && key in db.sessions[id].pending && db.sessions[id].run in db.runs
    ensures id in first.db.sessions && key in first.db.sessions[id].turns && key in first.db.sessions[id].intents
    ensures
      var intent := first.db.sessions[id].intents[key];
      && intent.attempt == first.reply.receipt.attempt
      && intent.tools == db.sessions[id].pending[key].tools
      && Holds(db.runs[db.sessions[id].run], intent.issuedBy, lease)
  {
    var c := ReleaseTurn(expected, key);
    C.CommitLeaves(san, db, op, lease, id, c, first);
    C.ReceiptReports(san, db, op, lease, id, c, first);
    AuthorisedHolds(db.runs[db.sessions[id].run], lease);
  }

  // Generation `n` is active and this is its lease.
  predicate Holds(a: Authority, n: nat, lease: string) {
    n in a.grants && a.grants[n].status == Active && a.grants[n].lease == lease
  }

  lemma AuthorisedHolds(a: Authority, lease: string)
    ensures Classify(a, lease, true).Ok? ==> Holds(a, Classify(a, lease, true).value, lease)
  {
  }

  // A release issues its execution with the tools its prompt was queued with,
  // under the active grant whose lease asked for it, and that is on record for
  // ever.
  lemma ReleaseIssues(san: string -> string, db: Db, op: string, lease: string, id: string, expected: int, key: string,
                      first: Outcome, events: seq<Event>, later: Db)
    requires first == ExecuteSession(san, db, op, lease, id, ReleaseTurn(expected, key)) && first.reply.Fresh?
    requires id in db.sessions ==> Consistent(db.sessions[id])
    requires later == History(san, first.db, events)
    ensures id in db.sessions && key in db.sessions[id].pending && db.sessions[id].run in db.runs
    ensures id in later.sessions && key in later.sessions[id].intents
    ensures
      var intent := later.sessions[id].intents[key];
      && intent.attempt == first.reply.receipt.attempt
      && intent.tools == db.sessions[id].pending[key].tools
      && Holds(db.runs[db.sessions[id].run], intent.issuedBy, lease)
  {
    ReleaseLeaves(san, db, op, lease, id, expected, key, first);
    ConsistentAfter(san, db, op, lease, id, ReleaseTurn(expected, key), first);
    TurnStays(san, first.db, events, id, key);
  }

  lemma ConsistentAfter(san: string -> string, db: Db, op: string, lease: string, named: string, c: Command, o: Outcome)
    requires o == ExecuteSession(san, db, op, lease, named, c)
    requires C.Subject(named, c) in db.sessions && Consistent(db.sessions[C.Subject(named, c)])
    ensures C.Subject(named, c) in o.db.sessions && Consistent(o.db.sessions[C.Subject(named, c)])
  {
    S.EventKeepsSessions(san, db, SessionOp(op, lease, named, c), C.Subject(named, c));
  }
}
