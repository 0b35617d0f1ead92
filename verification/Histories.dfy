// What a whole history of transactions means for one session of the store,
// from its creation on, and for a repeated controller transition.
module Histories {
  import opened Domain
  import opened SessionRules
  import opened SessionInvariants
  import opened SessionRuns
  import opened ControllerRules
  import opened LeaseFencing
  import opened Simulation
  import opened Database
  import opened StoreInvariants
  import opened Retries
  import K = Council
  import L = LaunchSlots

  // A session as CreateSession leaves it.
  ghost predicate Newborn(s: Session) {
    && s.state == Parked && s.lifecycle == SessionActive && s.visibility == VisibilityReachable
    && s.active == None && s.context == None && s.recoveryGen == 0 && s.activeRecoveryGen == 0
    && s.version == 1 && s.pending == map[] && s.turns == map[] && s.intents == map[]
  }

  // What a committed creation leaves: the caller's record, disturbing no other
  // session. It begins a life exactly when callers' state was asked for.
  lemma CreationIsBirth(san: string -> string, db: Db, op: string, lease: string, id: string, b: Birth)
    requires Execute(san, db, CreateSession(op, lease, id, b)).reply.Fresh?
    ensures
      var after := Execute(san, db, CreateSession(op, lease, id, b)).db;
      && id !in db.sessions && b.run in db.runs
      && after.sessions == db.sessions[id := NewSession(db.runs[b.run], b)]
      && (Newborn(after.sessions[id]) <==> b.Proper())
      && (after.sessions[id].controller == ControllerConnected <==> RequireConnected(db.runs[b.run]) == None)
  {
    CreateSessionEffect(db, op, lease, id, b, Execute(san, db, CreateSession(op, lease, id, b)));
  }

  const NO_PROMPTS := Ledger({}, {}, map[], map[], map[], map[])

  // The life of a session: after any history since its creation it is
  // consistent, its prompts are accounted for by the commands committed on it,
  // and a kernel that was given the matching calls is in the related state.
  lemma SessionLife(san: string -> string, db: Db, events: seq<Event>, id: string, lease: string,
                    steps: seq<Step>, s: Session)
    requires id in db.sessions && Newborn(db.sessions[id]) && KeepsText(san) && lease != ""
    requires steps == HistorySteps(san, db, events, id) && id in History(san, db, events).sessions
    requires s == History(san, db, events).sessions[id]
    ensures Consistent(s)
    ensures Accounted(Account(san, db.sessions[id], NO_PROMPTS, steps), s)
    ensures Matched(san, s, K.InvokeAll(K.NewKernel(lease), RunCalls(san, db.sessions[id], steps)))
  {
    var born := db.sessions[id];
    HistoryIsRun(san, db, events, id);
    NewbornMatchesKernel(san, born, lease);
    RunSound(san, born, steps);
    RunAccounted(san, born, NO_PROMPTS, steps);
    RunMatched(san, born, K.NewKernel(lease), steps);
  }

  lemma NewbornMatchesKernel(san: string -> string, s: Session, lease: string)
    requires Newborn(s) && lease != ""
    ensures Consistent(s) && Accounted(NO_PROMPTS, s) && Related(san, s, K.NewKernel(lease))
  {
  }

  // Finality and version identity between any two points of a history: a
  // terminal turn reads the same for ever, and equal versions mean equal rows,
  // prompts, turns and intents.
  lemma SessionPoints(san: string -> string, db: Db, earlier: seq<Event>, later: seq<Event>, id: string)
    requires id in db.sessions && Consistent(db.sessions[id])
    requires id in History(san, db, earlier).sessions
    requires id in History(san, History(san, db, earlier), later).sessions
    ensures Later(History(san, db, earlier).sessions[id], History(san, History(san, db, earlier), later).sessions[id])
  {
    var middle := History(san, db, earlier);
    HistoryIsRun(san, db, earlier, id);
    RunSound(san, db.sessions[id], HistorySteps(san, db, earlier, id));
    HistoryIsRun(san, middle, later, id);
    RunSound(san, middle.sessions[id], HistorySteps(san, middle, later, id));
  }

  lemma RecoveryNeverFresh(san: string -> string, db: Db, op: string, run: string, c: ControllerCommand)
    requires c.Recover?
    ensures !ExecuteController(san, db, op, run, c).reply.Fresh?
  {
  }

  // The entry a committed transition leaves in the journal.
  ghost predicate JournaledAs(o: Outcome, op: string, c: ControllerCommand) {
    && o.reply.Fresh? && op in o.db.journal
    && o.db.journal[op].command == ControllerKind(c) && o.db.journal[op].receipt == o.reply.receipt
  }

  lemma JournaledEffect(db: Db, op: string, run: string, c: ControllerCommand, d: ControllerDecision, o: Outcome)
    requires Atomic(db, op, o) && ControllerEffect(db, op, run, c, d, o) && o.reply.Fresh?
    ensures JournaledAs(o, op, c)
  {
  }

  lemma JournaledTransition(san: string -> string, db: Db, op: string, run: string, c: ControllerCommand, first: Outcome)
    requires first == ExecuteController(san, db, op, run, c) && first.reply.Fresh?
    ensures JournaledAs(first, op, c)
  {
    ControllerOpAtomic(san, db, op, run, c);
    ControllerOpEffect(san, db, op, run, c, first);
    JournaledEffect(db, op, run, c, ControllerDecided(san, db, op, run, c), first);
  }

  // The answer to a transition whose operation is journaled as `e`.
  ghost predicate AnsweredFrom(san: string -> string, db: Db, op: string, run: string, c: ControllerCommand, e: Entry,
                               again: Outcome)
  {
    && again.db == db
    && match ControllerGate(db, run, c)
       case Err(error) => again.reply == Refused(error)
       case Ok(target) =>
         again.reply == if e.command == ControllerKind(c) && e.fingerprint == ControllerMark(san, run, target, c)
                        then Replayed(e.receipt) else Refused(IdempotencyConflict)
  }

  lemma EntryAnswers(san: string -> string, db: Db, op: string, run: string, target: nat, c: ControllerCommand, e: Entry)
    requires op in db.journal && db.journal[op] == e && (c.Recover? ==> e.command != RecoverKind)
    requires e.command == ControllerKind(c) && (c.Adopt? || c.Handoff?) ==> HasIssuance(db, op)
    ensures AnswerController(san, db, op, run, target, c) == Outcome(db,
      if e.command == ControllerKind(c) && e.fingerprint == ControllerMark(san, run, target, c) then Replayed(e.receipt)
      else Refused(IdempotencyConflict))
  {
  }

  lemma JournaledAnswer(san: string -> string, db: Db, op: string, run: string, c: ControllerCommand, e: Entry)
    requires SoundRuns(db) && !MalformedController(op, c) && op in db.journal && db.journal[op] == e
    requires c.Recover? ==> e.command != RecoverKind
    ensures AnsweredFrom(san, db, op, run, c, e, ExecuteController(san, db, op, run, c))
  {
    ControllerKindsGrant(c);
    if e.command == ControllerKind(c) && (c.Adopt? || c.Handoff?) {
      assert IsIssuance(db.journal, op);
    }
    if ControllerGate(db, run, c).Ok? {
      EntryAnswers(san, db, op, run, ControllerGate(db, run, c).value, c, e);
    }
  }

  // A controller transition repeated anywhere later: past the authority that
  // precedes its replay it gets its receipt back, or a conflict if it names
  // another command; either way no table changes.
  lemma TransitionReplays(san: string -> string, db: Db, op: string, run: string, c: ControllerCommand, first: Outcome,
                          events: seq<Event>, later: Db, run': string, c': ControllerCommand)
    requires SoundRuns(db) && first == ExecuteController(san, db, op, run, c) && first.reply.Fresh?
    requires later == History(san, first.db, events) && !MalformedController(op, c')
    ensures
      && JournaledAs(first, op, c)
      && AnsweredFrom(san, later, op, run', c', first.db.journal[op], ExecuteController(san, later, op, run', c'))
  {
    JournaledTransition(san, db, op, run, c, first);
    ControllerOpSound(san, db, op, run, c, first);
    HistoryKeepsJournal(san, first.db, events);
    HistoryKeepsRuns(san, first.db, events);
    if c.Recover? {
      RecoveryNeverFresh(san, db, op, run, c);
    }
    JournaledAnswer(san, later, op, run', c', first.db.journal[op]);
  }

  // Which grant an operation made in a run is settled once it is journaled.
  lemma SameIssuance(a: Authority, b: Authority, source: string)
    requires GrantsKept(a, b)
    requires forall n :: n in b.grants && n !in a.grants ==> b.grants[n].grantedBy != source
    ensures Issued(b, source) == Issued(a, source)
  {
    if Issued(b, source).Some? {
      assert Issued(b, source).value in a.grants;
    }
    if Issued(a, source).Some? {
      assert b.grants[Issued(a, source).value].grantedBy == source;
    }
  }

  lemma TransitionKeepsIssuance(san: string -> string, a: Authority, op: string, issuance: bool, c: ControllerCommand,
                                source: string)
    requires Fenced(a) && !MalformedController(op, c) && op != source
    requires DecideController(san, a, op, issuance, c).CommitController?
    ensures
      var after := DecideController(san, a, op, issuance, c).after;
      GrantsKept(a, after) && Issued(after, source) == Issued(a, source)
  {
    var step := ControllerStep(op, issuance, c);
    var after := ApplyController(san, a, step);
    ControllerFences(san, a, op, issuance, c);
    forall n | n in after.grants && n !in a.grants ensures after.grants[n].grantedBy != source {
      NewRowCarriesCandidate(san, a, step, n);
    }
    SameIssuance(a, after, source);
  }

  // What a history leaves of one run's grants.
  ghost predicate AuthorityKept(db: Db, later: Db, run: string, source: string)
    requires run in db.runs
  {
    run in later.runs && GrantsKept(db.runs[run], later.runs[run])
    && Issued(later.runs[run], source) == Issued(db.runs[run], source)
  }

  lemma ControllerKeepsAuthority(san: string -> string, db: Db, op: string, target: string, c: ControllerCommand, run: string,
                                 source: string, o: Outcome)
    requires SoundRuns(db) && run in db.runs && source in db.journal && o == ExecuteController(san, db, op, target, c)
    ensures AuthorityKept(db, o.db, run, source)
  {
    ControllerOpEffect(san, db, op, target, c, o);
    if o.db != db && target == run {
      TransitionKeepsIssuance(san, db.runs[run], op, c.Recover? && IsIssuance(db.journal, c.source), c, source);
    }
    EffectKeepsAuthority(db, op, target, c, ControllerDecided(san, db, op, target, c), run, source, o);
  }

  lemma EffectKeepsAuthority(db: Db, op: string, target: string, c: ControllerCommand, d: ControllerDecision, run: string,
                             source: string, o: Outcome)
    requires run in db.runs && ControllerEffect(db, op, target, c, d, o)
    requires o.db != db && target == run ==>
      GrantsKept(db.runs[run], d.after) && Issued(d.after, source) == Issued(db.runs[run], source)
    ensures AuthorityKept(db, o.db, run, source)
  {
  }

  lemma EventKeepsAuthority(san: string -> string, db: Db, e: Event, run: string, source: string)
    requires SoundRuns(db) && run in db.runs && source in db.journal
    ensures AuthorityKept(db, Execute(san, db, e).db, run, source)
  {
    var o := Execute(san, db, e);
    if e.ControllerOp? {
      ControllerKeepsAuthority(san, db, e.op, e.run, e.controller, run, source, o);
    } else {
      OthersKeepRuns(san, db, e, o, run);
      SameRunKeepsAuthority(db, o.db, run, source);
    }
  }

  lemma SameRunKeepsAuthority(db: Db, after: Db, run: string, source: string)
    requires run in db.runs && run in after.runs && after.runs[run] == db.runs[run]
    ensures AuthorityKept(db, after, run, source)
  {
  }

  lemma OthersKeepRuns(san: string -> string, db: Db, e: Event, o: Outcome, run: string)
    requires !e.ControllerOp? && o == Execute(san, db, e) && run in db.runs
    ensures run in o.db.runs && o.db.runs[run] == db.runs[run]
  {
    match e
    case SessionOp(op, lease, named, c) => SessionOpEffect(san, db, op, lease, named, c, o);
    case CreateRun(op, target, digests, lease) => CreateRunEffect(db, op, target, digests, lease, o);
    case CreateSession(op, lease, id, b) => CreateSessionEffect(db, op, lease, id, b, o);
    case _ =>
  }

  lemma JournalStays(san: string -> string, db: Db, e: Event, op: string)
    requires op in db.journal
    ensures op in Execute(san, db, e).db.journal
  {
    if OpOf(e).Some? {
      StepAtomic(san, db, e);
    }
  }

  lemma AuthorityKeptTransitive(a: Db, b: Db, c: Db, run: string, source: string)
    requires run in a.runs && AuthorityKept(a, b, run, source) && AuthorityKept(b, c, run, source)
    ensures AuthorityKept(a, c, run, source)
  {
    GrantsKeptTransitive(a.runs[run], b.runs[run], c.runs[run]);
  }

  lemma {:induction false} HistoryKeepsAuthority(san: string -> string, db: Db, events: seq<Event>, run: string, source: string)
    requires SoundRuns(db) && run in db.runs && source in db.journal
    ensures AuthorityKept(db, History(san, db, events), run, source)
    decreases |events|
  {
    if events != [] {
      var next := Execute(san, db, events[0]).db;
      EventKeepsRuns(san, db, events[0]);
      EventKeepsAuthority(san, db, events[0], run, source);
      JournalStays(san, db, events[0], source);
      HistoryKeepsAuthority(san, next, events[1..], run, source);
      AuthorityKeptTransitive(db, next, History(san, next, events[1..]), run, source);
    }
  }

  // What a disclosed credential says of the store it came from.
  ghost predicate Discloses(db: Db, op: string, run: string, c: ControllerCommand, o: Outcome, mark: Fingerprint)
    requires c.Recover?
  {
    && run in db.runs && IsIssuance(db.journal, c.source) && Issued(db.runs[run], c.source) == Some(c.expected)
    && o.reply == Disclosed(c.expected, db.runs[run].grants[c.expected].lease)
    && op in o.db.journal && o.db.journal[op].command == RecoverKind && o.db.journal[op].fingerprint == mark
    && o.db.runs == db.runs && IsIssuance(o.db.journal, c.source)
  }

  lemma DisclosureMeans(san: string -> string, db: Db, op: string, run: string, c: ControllerCommand, o: Outcome)
    requires c.Recover? && !MalformedController(op, c)
    requires o == ExecuteController(san, db, op, run, c) && o.reply.Disclosed?
    ensures Discloses(db, op, run, c, o, ControllerMark(san, run, 0, c))
  {
  }

  // What lasts of a disclosure: its journal entry, the issuance it resolved
  // and the secret it disclosed.
  ghost predicate DisclosureStands(later: Db, op: string, run: string, c: ControllerCommand, mark: Fingerprint, lease: string)
    requires c.Recover?
  {
    && op in later.journal && later.journal[op].command == RecoverKind && later.journal[op].fingerprint == mark
    && run in later.runs && IsIssuance(later.journal, c.source) && Issued(later.runs[run], c.source) == Some(c.expected)
    && later.runs[run].grants[c.expected].lease == lease
  }

  lemma DisclosureLasts(san: string -> string, db: Db, op: string, run: string, c: ControllerCommand, first: Outcome,
                        mark: Fingerprint, events: seq<Event>)
    requires c.Recover? && Discloses(db, op, run, c, first, mark) && SoundRuns(first.db)
    ensures DisclosureStands(History(san, first.db, events), op, run, c, mark, db.runs[run].grants[c.expected].lease)
  {
    var later := History(san, first.db, events);
    HistoryKeepsJournal(san, first.db, events);
    HistoryKeepsAuthority(san, first.db, events, run, c.source);
    assert later.journal[op] == first.db.journal[op] && later.journal[c.source] == first.db.journal[c.source];
  }

  // A recovery answered from a journal that holds its operation.
  lemma RecoveryAnswer(san: string -> string, later: Db, op: string, run: string, c: ControllerCommand, lease: string)
    requires c.Recover? && !MalformedController(op, c)
    requires DisclosureStands(later, op, run, c, ControllerMark(san, run, 0, c), lease)
    ensures ExecuteController(san, later, op, run, c) == Outcome(later,
      if later.runs[run].grants[c.expected].status == Active then Disclosed(c.expected, lease)
      else Refused(RecoveryUnavailable))
  {
  }

  // A credential recovery that has disclosed once: repeated anywhere later it
  // discloses the same generation and the same secret while that grant is
  // active, and is refused as unavailable once it is not.
  lemma RecoveryReplays(san: string -> string, db: Db, op: string, run: string, c: ControllerCommand, first: Outcome,
                        events: seq<Event>, later: Db)
    requires SoundRuns(db) && c.Recover? && first == ExecuteController(san, db, op, run, c) && first.reply.Disclosed?
    requires later == History(san, first.db, events)
    ensures run in later.runs && c.expected in later.runs[run].grants
    ensures ExecuteController(san, later, op, run, c) == Outcome(later,
      if later.runs[run].grants[c.expected].status == Active then first.reply else Refused(RecoveryUnavailable))
  {
    DisclosureMeans(san, db, op, run, c, first);
    ControllerOpSound(san, db, op, run, c, first);
    DisclosureLasts(san, db, op, run, c, first, ControllerMark(san, run, 0, c), events);
    RecoveryAnswer(san, later, op, run, c, first.reply.lease);
  }

  // The same operation with any other command is refused and changes nothing.
  lemma RecoveryReused(san: string -> string, db: Db, op: string, run: string, c: ControllerCommand, first: Outcome,
                       events: seq<Event>, later: Db, run': string, c': ControllerCommand)
    requires c.Recover? && first == ExecuteController(san, db, op, run, c) && first.reply.Disclosed?
    requires later == History(san, first.db, events)
    requires c' != c || run' != run
    ensures
      var again := ExecuteController(san, later, op, run', c');
      again.db == later && again.reply.Refused?
  {
    DisclosureMeans(san, db, op, run, c, first);
    HistoryKeepsJournal(san, first.db, events);
    assert later.journal[op] == first.db.journal[op];
    RecoverMarkInjective(san, run, c, run', c');
    ClashRefused(san, later, op, run', c');
  }

  lemma RecoverMarkInjective(san: string -> string, run: string, c: ControllerCommand, run': string, c': ControllerCommand)
    requires c.Recover?
    ensures c'.Recover? && ControllerMark(san, run', 0, c') == ControllerMark(san, run, 0, c) ==> run' == run && c' == c
  {
    var p, q := ControllerMark(san, run, 0, c).parts, ControllerMark(san, run', 0, c').parts;
    if c'.Recover? && q == p {
      assert p[0] == run && p[1] == c.source && p[2] == Decimal(c.expected);
      assert q[0] == run' && q[1] == c'.source && q[2] == Decimal(c'.expected);
      DecimalInjective(c.expected, c'.expected);
    }
  }

  lemma ClashRefused(san: string -> string, db: Db, op: string, run: string, c: ControllerCommand)
    requires op in db.journal && db.journal[op].command == RecoverKind
    requires !c.Recover? || db.journal[op].fingerprint != ControllerMark(san, run, 0, c)
    ensures ExecuteController(san, db, op, run, c).db == db && ExecuteController(san, db, op, run, c).reply.Refused?
  {
  }

  // Turns and their attempts outlive everything: an execution accepted once
  // resolves for ever.
  lemma ReferenceStays(san: string -> string, db: Db, events: seq<Event>, ref: ExecutionRef)
    requires ResolveRef(db, ref) == None && Consistent(db.sessions[ref.session])
    ensures ResolveRef(History(san, db, events), ref) == None
  {
    var s := db.sessions[ref.session];
    HistoryIsRun(san, db, events, ref.session);
    RunSound(san, s, HistorySteps(san, db, events, ref.session));
    AttemptStays(s, Run(san, s, HistorySteps(san, db, events, ref.session)), ref.turnKey);
  }

  lemma AttemptStays(s: Session, t: Session, key: string)
    requires Consistent(s) && Consistent(t) && Later(s, t) && key in s.intents
    ensures key in t.intents && t.intents[key].attempt == s.intents[key].attempt
  {
    assert TurnConsistent(s, key);
    assert TurnKept(s, t, key);
    assert TurnConsistent(t, key);
  }

  // The fingerprint of evidence names its execution.
  lemma MarkNamesReference(san: string -> string, named: string, c: Command, named': string, c': Command)
    requires Evidence(c) && Evidence(c') && Malformed(c) == None && Malformed(c') == None
    requires CommandMark(san, named', c') == CommandMark(san, named, c)
    ensures Reference(c') == Reference(c)
  {
    var p, q := CommandMark(san, named, c).parts, CommandMark(san, named', c').parts;
    assert p[0] == Reference(c).session && p[1] == Reference(c).turnKey && p[2] == Reference(c).attempt;
    assert q[0] == Reference(c').session && q[1] == Reference(c').turnKey && q[2] == Reference(c').attempt;
  }

  lemma EvidencePasses(san: string -> string, db: Db, op: string, lease: string, named: string, c: Command)
    requires Evidence(c) && ExecuteSession(san, db, op, lease, named, c).reply.Fresh?
    ensures Arguments(op, lease, c) == None && ResolveRef(db, Reference(c)) == None
  {
  }

  lemma EvidenceArguments(op: string, lease: string, lease': string, c: Command)
    requires Evidence(c)
    ensures Arguments(op, lease', c) == Arguments(op, lease, c)
    ensures Arguments(op, lease, c) == None ==> Malformed(c) == None
  {
  }

  lemma EvidenceUnblocked(db: Db, op: string, lease: string, named: string, c: Command)
    requires Evidence(c) && (Arguments(op, lease, c) == None ==> ResolveRef(db, Reference(c)) == None)
    ensures Blocked(db, op, lease, named, c) == Arguments(op, lease, c)
  {
  }

  lemma CommittedReferenceStays(san: string -> string, db: Db, e: Event, events: seq<Event>, ref: ExecutionRef)
    requires ResolveRef(db, ref) == None && Consistent(db.sessions[ref.session])
    ensures ResolveRef(History(san, Execute(san, db, e).db, events), ref) == None
  {
    assert ([e] + events)[1..] == events;
    ReferenceStays(san, db, [e] + events, ref);
  }

  // Evidence, once committed, is never lost to a later refusal: repeated
  // anywhere later, under any lease, it gets its receipt back, and so does any
  // other well-formed evidence with its fingerprint.
  lemma EvidenceReplays(san: string -> string, db: Db, op: string, lease: string, named: string, c: Command,
                        first: Outcome, later: Db, events: seq<Event>, lease': string, named': string, c': Command)
    requires Evidence(c) && first == ExecuteSession(san, db, op, lease, named, c) && first.reply.Fresh?
    requires Reference(c).session in db.sessions ==> Consistent(db.sessions[Reference(c).session])
    requires later == History(san, first.db, events)
    requires Evidence(c') && KindOf(c') == KindOf(c) && CommandMark(san, named', c') == CommandMark(san, named, c)
    ensures ExecuteSession(san, later, op, lease', named', c') ==
            Outcome(later, RepeatReply(Arguments(op, lease', c'), first.reply.receipt))
    ensures c' == c ==> Arguments(op, lease', c') == None
  {
    EvidencePasses(san, db, op, lease, named, c);
    EvidenceArguments(op, lease, lease', c);
    EvidenceArguments(op, lease', lease', c');
    CommittedReferenceStays(san, db, SessionOp(op, lease, named, c), events, Reference(c));
    if Arguments(op, lease', c') == None {
      MarkNamesReference(san, named, c, named', c');
    }
    EvidenceUnblocked(later, op, lease', named', c');
    CommittedReplays(san, db, op, lease, named, c, first, later, events, lease', named', c');
  }

  // Over any history an attempt row stays, keeps at most one launch, settles
  // once and is abandoned for good.
  lemma {:induction false} AttemptsSettle(san: string -> string, db: Db, events: seq<Event>, ref: ExecutionRef)
    requires ref in db.attempts && L.AgyInv(db.attempts[ref])
    ensures ref in History(san, db, events).attempts
    ensures L.AgyInv(History(san, db, events).attempts[ref])
    ensures L.AgyLater(db.attempts[ref], History(san, db, events).attempts[ref])
    decreases |events|
  {
    if events != [] {
      var next := Execute(san, db, events[0]).db;
      var step := AttemptStep(san, db, events[0], ref);
      L.AgySettlesOnce(db.attempts[ref], step);
      AttemptsSettle(san, next, events[1..], ref);
    }
  }

  // The step one transaction makes on an attempt, if any.
  lemma AttemptStep(san: string -> string, db: Db, e: Event, ref: ExecutionRef) returns (steps: seq<L.AgyStep>)
    requires ref in db.attempts
    ensures ref in Execute(san, db, e).db.attempts
    ensures Execute(san, db, e).db.attempts[ref] == L.RunAgy(db.attempts[ref], steps)
  {
    steps := [];
    if e.AttemptMoves? && e.ref == ref && !e.step.Abandon? {
      steps := [e.step];
      OneAttemptStep(db.attempts[ref], e.step);
    } else if e.SessionOp? {
      SessionMovesAttempts(san, db, e.op, e.lease, e.target, e.command);
      if Execute(san, db, e).db.attempts[ref] != db.attempts[ref] {
        steps := [L.Abandon];
        OneAttemptStep(db.attempts[ref], L.Abandon);
      }
    } else if e.ControllerOp? {
      ControllerMovesNoAttempt(san, db, e.op, e.run, e.controller);
    }
  }

  lemma OneAttemptStep(a: L.Agy, step: L.AgyStep)
    ensures L.RunAgy(a, [step]) == L.NextAgy(a, step)
  {
    assert L.RunAgy(L.NextAgy(a, step), [step][1..]) == L.NextAgy(a, step);
  }

  // A session command touches no attempt but the one it abandons.
  predicate MovesAttempts(db: Db, after: Db, c: Command) {
    after.attempts == db.attempts || after.attempts == AttemptsAfter(db.attempts, c)
  }

  lemma SettleMovesAttempts(san: string -> string, db: Db, op: string, named: string, c: Command, d: Decision)
    ensures MovesAttempts(db, Settle(san, db, op, named, c, d).db, c)
  {
  }

  lemma NewDecisionMovesAttempts(san: string -> string, db: Db, op: string, lease: string, named: string, gen: nat, c: Command)
    ensures MovesAttempts(db, NewDecision(san, db, op, lease, named, gen, c).db, c)
  {
    if Ready(db, lease, named, c) == None {
      var d := Decide(san, db.sessions[Target(named, c)], gen, OpenAttempt(db, c), c);
      SettleMovesAttempts(san, db, op, named, c, d);
    }
  }

  lemma AnswerMovesAttempts(san: string -> string, db: Db, op: string, lease: string, named: string, gen: nat, c: Command)
    ensures MovesAttempts(db, Answer(san, db, op, lease, named, gen, c).db, c)
  {
    NewDecisionMovesAttempts(san, db, op, lease, named, gen, c);
  }

  lemma SessionMovesAttempts(san: string -> string, db: Db, op: string, lease: string, named: string, c: Command)
    ensures MovesAttempts(db, ExecuteSession(san, db, op, lease, named, c).db, c)
  {
    if Gate(db, lease, named, c).Ok? {
      AnswerMovesAttempts(san, db, op, lease, named, Gate(db, lease, named, c).value, c);
    }
  }

  lemma ControllerMovesNoAttempt(san: string -> string, db: Db, op: string, run: string, c: ControllerCommand)
    ensures ExecuteController(san, db, op, run, c).db.attempts == db.attempts
  {
  }
}
