// Exactly once under retries: an operation identity commits at most once, and
// repeating it anywhere later returns the original receipt or a refusal and
// changes no table.
module Retries {
  import opened Domain
  import opened SessionRules
  import opened ControllerRules
  import opened Database

  function OpOf(e: Event): Option<string> {
    match e
    case CreateRun(op, _, _, _) => Some(op)
    case CreateSession(op, _, _, _) => Some(op)
    case SessionOp(op, _, _, _) => Some(op)
    case ControllerOp(op, _, _) => Some(op)
    case AttemptBegins(_) => None
    case AttemptMoves(_, _) => None
  }

  predicate Journaled(db: Db, e: Event) {
    OpOf(e).Some? && OpOf(e).value in db.journal
  }

  // The journal is append-only.
  ghost predicate JournalKept(db: Db, after: Db) {
    forall op :: op in db.journal ==> op in after.journal && after.journal[op] == db.journal[op]
  }

  // A step either leaves every table alone or journals its operation for the
  // first time.
  ghost predicate Atomic(db: Db, op: string, o: Outcome) {
    || (o.db == db && !o.reply.Fresh?)
    || (op !in db.journal && op in o.db.journal && o.db.journal == db.journal[op := o.db.journal[op]]
        && o.db.journal[op].receipt.op == op
        && (o.reply.Fresh? || o.reply.Disclosed?)
        && (o.reply.Fresh? ==> o.reply.receipt == o.db.journal[op].receipt))
  }

  lemma SettleAtomic(san: string -> string, db: Db, op: string, named: string, c: Command, d: Decision)
    ensures Atomic(db, op, Settle(san, db, op, named, c, d))
    ensures
      var o := Settle(san, db, op, named, c, d);
      o.reply.Fresh? ==>
        o.db.journal[op] == Entry(KindOf(c), CommandMark(san, named, c), o.reply.receipt)
  {
  }

  lemma NewDecisionAtomic(san: string -> string, db: Db, op: string, lease: string, named: string, gen: nat, c: Command)
    ensures Atomic(db, op, NewDecision(san, db, op, lease, named, gen, c))
    ensures
      var o := NewDecision(san, db, op, lease, named, gen, c);
      o.reply.Fresh? ==>
        o.db.journal[op] == Entry(KindOf(c), CommandMark(san, named, c), o.reply.receipt)
  {
    if Ready(db, lease, named, c) == None {
      SettleAtomic(san, db, op, named, c, Decide(san, db.sessions[Target(named, c)], gen, OpenAttempt(db, c), c));
    }
  }

  lemma SessionOpAtomic(san: string -> string, db: Db, op: string, lease: string, named: string, c: Command)
    ensures Atomic(db, op, ExecuteSession(san, db, op, lease, named, c))
    ensures
      var o := ExecuteSession(san, db, op, lease, named, c);
      o.reply.Fresh? ==>
        o.db.journal[op] == Entry(KindOf(c), CommandMark(san, named, c), o.reply.receipt)
  {
    if Arguments(op, lease, c) == None && Gate(db, lease, named, c).Ok? {
      NewDecisionAtomic(san, db, op, lease, named, Gate(db, lease, named, c).value, c);
    }
  }

  lemma NewControlAtomic(san: string -> string, db: Db, op: string, run: string, target: nat, c: ControllerCommand)
    requires op !in db.journal
    ensures Atomic(db, op, NewControl(san, db, op, run, target, c))
  {
  }

  lemma AnswerControllerAtomic(san: string -> string, db: Db, op: string, run: string, target: nat, c: ControllerCommand)
    ensures Atomic(db, op, AnswerController(san, db, op, run, target, c))
  {
    if op !in db.journal {
      NewControlAtomic(san, db, op, run, target, c);
    }
  }

  lemma ControllerOpAtomic(san: string -> string, db: Db, op: string, run: string, c: ControllerCommand)
    ensures Atomic(db, op, ExecuteController(san, db, op, run, c))
  {
    if ControllerGate(db, run, c).Ok? {
      AnswerControllerAtomic(san, db, op, run, ControllerGate(db, run, c).value, c);
    }
  }

  lemma CreationAtomic(db: Db, e: Event, san: string -> string)
    requires e.CreateRun? || e.CreateSession?
    ensures Atomic(db, e.op, Execute(san, db, e))
  {
  }

  lemma StepAtomic(san: string -> string, db: Db, e: Event)
    requires OpOf(e).Some?
    ensures Atomic(db, OpOf(e).value, Execute(san, db, e))
  {
    match e
    case SessionOp(op, lease, target, c) => SessionOpAtomic(san, db, op, lease, target, c);
    case ControllerOp(op, run, c) => ControllerOpAtomic(san, db, op, run, c);
    case _ => CreationAtomic(db, e, san);
  }

  // Whatever command it now carries, a journaled operation changes nothing.
  lemma RepeatChangesNothing(san: string -> string, db: Db, e: Event)
    requires Journaled(db, e)
    ensures Execute(san, db, e).db == db && !Execute(san, db, e).reply.Fresh?
  {
    StepAtomic(san, db, e);
  }

  lemma {:induction false} HistoryKeepsJournal(san: string -> string, db: Db, events: seq<Event>)
    ensures JournalKept(db, History(san, db, events))
    decreases |events|
  {
    if events != [] {
      if OpOf(events[0]).Some? {
        StepAtomic(san, db, events[0]);
      }
      HistoryKeepsJournal(san, Execute(san, db, events[0]).db, events[1..]);
    }
  }

  // The history with every repeat of a committed operation removed.
  ghost function WithoutRepeats(san: string -> string, db: Db, events: seq<Event>): seq<Event>
    decreases |events|
  {
    if events == [] then []
    else
      var rest := WithoutRepeats(san, Execute(san, db, events[0]).db, events[1..]);
      if Journaled(db, events[0]) then rest else [events[0]] + rest
  }

  // A history with repeats ends where the history without them does.
  lemma {:induction false} RepeatsDoNotMatter(san: string -> string, db: Db, events: seq<Event>)
    ensures History(san, db, WithoutRepeats(san, db, events)) == History(san, db, events)
    decreases |events|
  {
    if events != [] {
      var next := Execute(san, db, events[0]).db;
      RepeatsDoNotMatter(san, next, events[1..]);
      var kept := WithoutRepeats(san, db, events);
      if Journaled(db, events[0]) {
        RepeatChangesNothing(san, db, events[0]);
      } else {
        assert kept[0] == events[0] && kept[1..] == WithoutRepeats(san, next, events[1..]);
      }
    }
  }

  // The answer to a repeated session command: what the arguments or the
  // current authority refuse, and otherwise the original receipt.
  function RepeatReply(blocked: Option<Error>, receipt: Receipt): Reply {
    match blocked case Some(e) => Refused(e) case None => Replayed(receipt)
  }

  ghost function Blocked(db: Db, op: string, lease: string, named: string, c: Command): Option<Error> {
    if Arguments(op, lease, c).Some? then Arguments(op, lease, c)
    else match Gate(db, lease, named, c) case Err(e) => Some(e) case Ok(_) => None
  }

  // A journaled operation is answered from its entry.
  lemma JournaledReply(san: string -> string, db: Db, op: string, lease: string, named: string, c: Command)
    requires op in db.journal && !Overlooked(db.journal, op, c)
    ensures
      var o := ExecuteSession(san, db, op, lease, named, c);
      var e := db.journal[op];
      if e.command == KindOf(c) && e.fingerprint == CommandMark(san, named, c) then
        o.reply == RepeatReply(Blocked(db, op, lease, named, c), e.receipt)
      else o.reply.Refused?
  {
    if Gate(db, lease, named, c).Ok? {
      SessionEntryAnswers(san, db, op, lease, named, Gate(db, lease, named, c).value, c);
    }
  }

  lemma SessionEntryAnswers(san: string -> string, db: Db, op: string, lease: string, named: string, gen: nat, c: Command)
    requires op in db.journal && !Overlooked(db.journal, op, c)
    ensures
      var e := db.journal[op];
      Answer(san, db, op, lease, named, gen, c) == Outcome(db,
        if e.command == KindOf(c) && e.fingerprint == CommandMark(san, named, c) then Replayed(e.receipt)
        else Refused(IdempotencyConflict))
  {
  }

  // Answered from its entry whatever command it now carries, unless that is a
  // release and the entry has no turn key.
  lemma RepeatAnswered(san: string -> string, db: Db, op: string, lease: string, named: string, c: Command, e: Entry)
    requires op in db.journal && db.journal[op] == e && (e.command == ReleaseKind ==> e.receipt.turnKey != "")
    ensures
      var again := ExecuteSession(san, db, op, lease, named, c);
      && again.db == db
      && if e.command == KindOf(c) && e.fingerprint == CommandMark(san, named, c) then
           again.reply == RepeatReply(Blocked(db, op, lease, named, c), e.receipt)
         else again.reply.Refused?
  {
    SessionOpAtomic(san, db, op, lease, named, c);
    if Overlooked(db.journal, op, c) {
      OverlookedRefused(san, db, op, lease, named, c);
    } else {
      JournaledReply(san, db, op, lease, named, c);
    }
  }

  lemma OverlookedRefused(san: string -> string, db: Db, op: string, lease: string, named: string, c: Command)
    requires Overlooked(db.journal, op, c)
    ensures ExecuteSession(san, db, op, lease, named, c).reply.Refused?
  {
  }

  // A committed release is journaled under its turn key.
  lemma CommittedNotOverlooked(san: string -> string, db: Db, op: string, lease: string, named: string, c: Command)
    requires ExecuteSession(san, db, op, lease, named, c).reply.Fresh?
    ensures KindOf(c) == ReleaseKind ==> ExecuteSession(san, db, op, lease, named, c).reply.receipt.turnKey != ""
  {
    if KindOf(c) == ReleaseKind {
      FreshRelease(san, db, op, lease, named, Gate(db, lease, named, c).value, c);
    }
  }

  lemma FreshRelease(san: string -> string, db: Db, op: string, lease: string, named: string, gen: nat, c: Command)
    requires c.ReleaseTurn? && c.key != "" && Answer(san, db, op, lease, named, gen, c).reply.Fresh?
    ensures Answer(san, db, op, lease, named, gen, c).reply.receipt.turnKey == c.key
  {
  }

  // Once a session command has committed, every later repetition with the same
  // operation identity and fingerprint, whatever lease or expected version it
  // presents, gets its receipt back or an authority refusal; another
  // fingerprint is refused. Either way no table changes.
  lemma CommittedReplays(san: string -> string, db: Db, op: string, lease: string, named: string, c: Command,
                         first: Outcome, later: Db, events: seq<Event>, lease': string, named': string, c': Command)
    requires first == ExecuteSession(san, db, op, lease, named, c) && first.reply.Fresh?
    requires later == History(san, first.db, events)
    ensures
      var again := ExecuteSession(san, later, op, lease', named', c');
      && again.db == later
      && if KindOf(c') == KindOf(c) && CommandMark(san, named', c') == CommandMark(san, named, c) then
           again.reply == RepeatReply(Blocked(later, op, lease', named', c'), first.reply.receipt)
         else again.reply.Refused?
  {
    SessionOpAtomic(san, db, op, lease, named, c);
    CommittedNotOverlooked(san, db, op, lease, named, c);
    HistoryKeepsJournal(san, first.db, events);
    RepeatAnswered(san, later, op, lease', named', c', first.db.journal[op]);
  }

  // The creation of a run, repeated anywhere later.
  lemma RunCreationReplays(san: string -> string, db: Db, e: Event, first: Outcome, events: seq<Event>, later: Db, again: Event)
    requires e.CreateRun? && first == Execute(san, db, e) && first.reply.Fresh?
    requires later == History(san, first.db, events) && again.CreateRun? && again.op == e.op
    ensures Execute(san, later, again) == Outcome(later,
      if MalformedRun(again.run, again.digests, again.lease) then Refused(InvalidParameters)
      else if RunMark(again.run, again.digests, again.lease) == RunMark(e.run, e.digests, e.lease) then
        Replayed(first.reply.receipt)
      else Refused(IdempotencyConflict))
  {
    HistoryKeepsJournal(san, first.db, events);
    assert later.journal[e.op] == Entry(CreateRunKind, RunMark(e.run, e.digests, e.lease), first.reply.receipt);
  }

  // The creation of a session, repeated anywhere later: its receipt, or the
  // refusal of the authority that precedes the replay.
  lemma SessionCreationReplays(san: string -> string, db: Db, e: Event, first: Outcome, events: seq<Event>, later: Db,
                               again: Event)
    requires e.CreateSession? && first == Execute(san, db, e) && first.reply.Fresh?
    requires later == History(san, first.db, events) && again.CreateSession? && again.op == e.op
    ensures Execute(san, later, again) == Outcome(later,
      match ClassifyRun(later, again.birth.run, again.lease, false)
      case Err(error) => Refused(error)
      case Ok(_) =>
        if BirthMark(again.session, again.birth) == BirthMark(e.session, e.birth) then Replayed(first.reply.receipt)
        else Refused(IdempotencyConflict))
  {
    HistoryKeepsJournal(san, first.db, events);
    assert later.journal[e.op] == Entry(CreateSessionKind, BirthMark(e.session, e.birth), first.reply.receipt);
  }
}
