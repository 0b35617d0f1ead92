// What a committed command promises its caller, stated on the stored rows and
// not on the decision: under which authority, at which version and in which
// state it commits, exactly, and what it leaves.
module Commits {
  import opened Domain
  import opened SessionRules
  import opened SessionInvariants
  import opened ControllerRules
  import opened Database
  import opened Retries
  import L = LaunchSlots

  // The controller's own commands are those that carry an expected version.
  function Expected(c: Command): Option<int> {
    match c
    case QueuePrompt(expected, _, _, _) => Some(expected)
    case ReplacePendingPrompt(expected, _, _, _) => Some(expected)
    case DiscardPendingPrompt(expected, _) => Some(expected)
    case ReleaseTurn(expected, _) => Some(expected)
    case RequestCancel(expected, _) => Some(expected)
    case RecordTerminalOutcome(expected, _, _, _) => Some(expected)
    case RecordHostLoss(expected) => Some(expected)
    case SetControllerConnection(expected, _) => Some(expected)
    case ArchiveSession(expected) => Some(expected)
    case ResolveAgyTurnUncertainty(_, expected, _, _, _) => Some(expected)
    case RecordDispatchObservation(_, _) => None
    case RecordObservedExecutionOutcome(_, _, _) => None
    case RecordObservedDispatchAcknowledgement(_, _) => None
    case ReconcileSession(_, _, _) => None
  }

  // The session a command is about: evidence and abandonments name it in their
  // reference, the others are called on it.
  function Subject(named: string, c: Command): string {
    match c
    case RecordObservedExecutionOutcome(ref, _, _) => ref.session
    case RecordObservedDispatchAcknowledgement(ref, _) => ref.session
    case ReconcileSession(_, recovery, _) => recovery.session
    case ResolveAgyTurnUncertainty(_, _, ref, _, _) => ref.session
    case _ => named
  }

  // Those that steer the session need its controller to be there.
  predicate Steers(c: Command) {
    || c.QueuePrompt? || c.ReplacePendingPrompt? || c.DiscardPendingPrompt? || c.ReleaseTurn? || c.RequestCancel?
    || c.ResolveAgyTurnUncertainty?
  }

  // What an adapter may report of a lost host: that it cannot be reached, or,
  // of one that can, a turn's status.
  predicate Credible(o: ReconciliationOutcome) {
    match o.status
    case ReachableActive => o.reachability == VisibilityReachable && o.observed.Live()
    case ReachableTerminal => o.reachability == VisibilityReachable && o.observed.Terminal()
    case DefinitivelyMissing => o.reachability == VisibilityReachable && o.observed == TurnFailed
    case Uncertain => o.reachability == VisibilityHostLost
  }

  // What the arguments alone must satisfy.
  predicate Formed(op: string, lease: string, c: Command) {
    && (Expected(c).Some? ==> Expected(c).value > 0)
    && match c
       case QueuePrompt(_, key, text, _) => !Blank(key) && !Blank(text)
       case ReplacePendingPrompt(_, key, text, _) => !Blank(key) && !Blank(text)
       case DiscardPendingPrompt(_, key) => !Blank(key)
       case ReleaseTurn(_, key) => !Blank(key)
       case RequestCancel(_, key) => !Blank(key)
       case RecordTerminalOutcome(_, key, status, _) => !Blank(key) && status.Terminal()
       case RecordObservedExecutionOutcome(_, status, _) => !Blank(op) && status.Terminal()
       case RecordObservedDispatchAcknowledgement(_, phase) => !Blank(op) && phase.Observation()
       case ReconcileSession(ref, recovery, o) =>
         && o.ref == recovery && ref.session == recovery.session && ref.turnKey == recovery.turnKey
         && !Blank(recovery.session) && !Blank(recovery.turnKey) && recovery.generation > 0 && Credible(o)
       case ResolveAgyTurnUncertainty(generation, _, ref, abandoned, reason) =>
         && !Blank(op) && !Blank(lease) && generation > 0 && abandoned && !Blank(reason)
         && !Blank(ref.session) && !Blank(ref.turnKey) && !Blank(ref.attempt)
       case _ => true
  }

  lemma FormedIff(op: string, lease: string, c: Command)
    ensures Arguments(op, lease, c) == None <==> Formed(op, lease, c)
    ensures Arguments(op, lease, c) == None ==> Malformed(c) == None
  {
  }

  // The store released this very turn, under this attempt.
  predicate Accepted(db: Db, ref: ExecutionRef) {
    && !Blank(ref.session) && !Blank(ref.turnKey) && !Blank(ref.attempt)
    && ref.session in db.sessions && ref.turnKey in db.sessions[ref.session].intents
    && db.sessions[ref.session].intents[ref.turnKey].attempt == ref.attempt
  }

  // The credential is current for the run of the session: its active grant's
  // lease, or for an archive the legacy handle. An abandonment names the
  // generation too. Evidence asks for no lease, but for an accepted execution.
  ghost predicate Authorised(db: Db, lease: string, named: string, c: Command) {
    var target := Subject(named, c);
    && (Expected(c).Some? ==>
          && target in db.sessions && db.sessions[target].run in db.runs
          && Classify(db.runs[db.sessions[target].run], lease, !c.ArchiveSession?).Ok?
          && (c.ResolveAgyTurnUncertainty? ==>
                Classify(db.runs[db.sessions[target].run], lease, true) == Ok(c.generation)))
    && (Expected(c) == None && !c.RecordDispatchObservation? ==> Accepted(db, Execution(c)))
  }

  function Execution(c: Command): ExecutionRef
    requires Expected(c) == None && !c.RecordDispatchObservation?
  {
    c.ref
  }

  lemma GateAsks(db: Db, lease: string, named: string, c: Command)
    ensures Gate(db, lease, named, c).Ok? <==> Authorised(db, lease, named, c)
    ensures Expected(c).Some? && Authorised(db, lease, named, c) ==>
      Gate(db, lease, named, c) == Classify(db.runs[db.sessions[Subject(named, c)].run], lease, !c.ArchiveSession?)
  {
  }

  // Neither a commit nor a replay without current authority: whatever is not
  // refused has been asked for it.
  lemma AuthorityIsAsked(san: string -> string, db: Db, op: string, lease: string, named: string, c: Command)
    requires !ExecuteSession(san, db, op, lease, named, c).reply.Refused?
    ensures Formed(op, lease, c) && Authorised(db, lease, named, c)
  {
    FormedIff(op, lease, c);
    GateAsks(db, lease, named, c);
  }

  // The same, as what a retry has to pass.
  lemma BlockedIff(db: Db, op: string, lease: string, named: string, c: Command)
    ensures Blocked(db, op, lease, named, c) == None <==> Formed(op, lease, c) && Authorised(db, lease, named, c)
  {
    FormedIff(op, lease, c);
    GateAsks(db, lease, named, c);
  }

  // A session command is answered fresh, from its entry, or not at all.
  lemma SessionReplies(san: string -> string, db: Db, op: string, lease: string, named: string, c: Command)
    ensures
      var o := ExecuteSession(san, db, op, lease, named, c);
      && (o.reply.Fresh? || o.reply.Replayed? || o.reply.Refused?)
      && (!o.reply.Fresh? ==> o.db == db)
  {
    SessionOpAtomic(san, db, op, lease, named, c);
    if Arguments(op, lease, c) == None && Gate(db, lease, named, c).Ok? {
      AnswerReplies(san, db, op, lease, named, Gate(db, lease, named, c).value, c);
    }
  }

  lemma AnswerReplies(san: string -> string, db: Db, op: string, lease: string, named: string, gen: nat, c: Command)
    ensures
      var r := Answer(san, db, op, lease, named, gen, c).reply;
      r.Fresh? || r.Replayed? || r.Refused?
  {
  }

  // What a new decision needs of the run beyond the credential.
  ghost predicate Attended(db: Db, lease: string, named: string, c: Command) {
    var target := Subject(named, c);
    && target in db.sessions && db.sessions[target].run in db.runs
    && (Steers(c) ==> RequireConnected(db.runs[db.sessions[target].run]) == None)
    && (c.RecordDispatchObservation? ==> db.runs[db.sessions[target].run].lease == lease)
    && (c.ResolveAgyTurnUncertainty? ==> Accepted(db, c.ref))
  }

  lemma ReadyIff(db: Db, lease: string, named: string, c: Command)
    ensures Ready(db, lease, named, c) == None <==> Attended(db, lease, named, c)
  {
  }

  // Nothing has happened to the session since the caller read this version.
  predicate Current(s: Session, c: Command) {
    && (Expected(c).Some? ==> s.version == Expected(c).value)
    && (Expected(c).Some? && !c.ArchiveSession? ==> s.lifecycle == SessionActive)
    && (Steers(c) ==> s.controller == ControllerConnected)
  }

  // An outcome either repeats the one on record or ends the awaited turn.
  predicate Settles(s: Session, key: string, status: TurnStatus, result: string) {
    && key in s.turns
    && if s.turns[key].status.Terminal() then s.turns[key].status == status && s.turns[key].result == result
       else if s.visibility == VisibilityHostLost then s.active == Some(key) || s.context == Some(key)
       else s.state == Running && s.active == Some(key)
  }

  // What the session itself must look like. `open`: the attempt of an
  // abandoned turn is uncertain and neither settled nor abandoned.
  predicate Fits(san: string -> string, s: Session, open: bool, c: Command) {
    && Current(s, c)
    && match c
       case QueuePrompt(_, key, text, tools) =>
         s.active != Some(key) && key !in s.turns && (key in s.pending ==> s.pending[key] == Prompt(san(text), tools))
       case ReplacePendingPrompt(_, key, _, stated) =>
         key in s.pending && (stated.Some? ==> stated.value == s.pending[key].tools)
       case DiscardPendingPrompt(_, key) => key in s.pending
       case ReleaseTurn(_, key) =>
         && s.visibility == VisibilityReachable && s.state == Parked && s.active == None
         && key in s.pending && key !in s.turns && key !in s.intents
       case RequestCancel(_, key) =>
         s.state == Running && s.active == Some(key) && key in s.turns && s.turns[key].status.Live()
       case RecordTerminalOutcome(_, key, status, result) => Settles(s, key, status, san(result))
       case RecordHostLoss(_) => s.visibility == VisibilityHostLost || (s.state == Running && s.active.Some?)
       case SetControllerConnection(_, _) => true
       case ArchiveSession(_) =>
         s.lifecycle == SessionArchived || (s.state != Running && s.active == None && s.visibility == VisibilityReachable)
       case RecordDispatchObservation(key, phase) => key in s.intents && phase.Observation()
       case RecordObservedExecutionOutcome(ref, status, result) =>
         s.lifecycle == SessionActive && Settles(s, ref.turnKey, status, san(result))
       case RecordObservedDispatchAcknowledgement(ref, _) =>
         ref.turnKey in s.intents && s.intents[ref.turnKey].phase != Resolved
       case ReconcileSession(_, recovery, o) =>
         && s.visibility == VisibilityHostLost && s.activeRecoveryGen == recovery.generation
         && (s.active.Some? ==> s.active == Some(recovery.turnKey))
         && (s.active == None ==> s.context == Some(recovery.turnKey) && o.status != ReachableActive)
       case ResolveAgyTurnUncertainty(_, _, ref, _, _) =>
         && s.contributor == "agy" && open
         && (s.active == Some(ref.turnKey) || (s.active == None && s.context == Some(ref.turnKey)))
         && ref.turnKey in s.turns && s.turns[ref.turnKey].status.Live()
  }

  lemma PromptFits(san: string -> string, s: Session, gen: nat, open: bool, c: Command)
    requires c.QueuePrompt? || c.ReplacePendingPrompt? || c.DiscardPendingPrompt?
    ensures Decide(san, s, gen, open, c).Commit? <==> Fits(san, s, open, c)
  {
  }

  lemma TurnFits(san: string -> string, s: Session, gen: nat, open: bool, c: Command)
    requires c.ReleaseTurn? || c.RequestCancel?
    ensures Decide(san, s, gen, open, c).Commit? <==> Fits(san, s, open, c)
  {
  }

  lemma RowFits(san: string -> string, s: Session, gen: nat, open: bool, c: Command)
    requires c.RecordHostLoss? || c.SetControllerConnection? || c.ArchiveSession?
    ensures Decide(san, s, gen, open, c).Commit? <==> Fits(san, s, open, c)
  {
  }

  lemma SettlesIff(s: Session, key: string, status: TurnStatus, result: string, dup: string, rec: string)
    ensures DecideOutcome(s, key, status, result, dup, rec).Commit? <==> Settles(s, key, status, result)
  {
  }

  lemma OutcomeFits(san: string -> string, s: Session, gen: nat, open: bool, c: Command)
    requires c.RecordTerminalOutcome? || c.RecordObservedExecutionOutcome?
    ensures Decide(san, s, gen, open, c).Commit? <==> Fits(san, s, open, c)
  {
    match c
    case RecordTerminalOutcome(_, key, status, result) =>
      SettlesIff(s, key, status, san(result), status.Name(), status.Name());
    case RecordObservedExecutionOutcome(ref, status, result) =>
      SettlesIff(s, ref.turnKey, status, san(result), status.Name() + ":duplicate",
                 status.Name() + IssuedBy(s, ref.turnKey));
  }

  lemma PhaseFits(san: string -> string, s: Session, gen: nat, open: bool, c: Command)
    requires c.RecordDispatchObservation? || c.RecordObservedDispatchAcknowledgement?
    ensures Decide(san, s, gen, open, c).Commit? <==> Fits(san, s, open, c)
  {
  }

  lemma RecoveryFits(san: string -> string, s: Session, gen: nat, open: bool, c: Command, op: string, lease: string)
    requires c.ReconcileSession? || c.ResolveAgyTurnUncertainty?
    requires Formed(op, lease, c)
    ensures Decide(san, s, gen, open, c).Commit? <==> Fits(san, s, open, c)
  {
  }

  lemma DecidesIff(san: string -> string, s: Session, gen: nat, open: bool, c: Command, op: string, lease: string)
    requires Formed(op, lease, c)
    ensures Decide(san, s, gen, open, c).Commit? <==> Fits(san, s, open, c)
  {
    if c.QueuePrompt? || c.ReplacePendingPrompt? || c.DiscardPendingPrompt? {
      PromptFits(san, s, gen, open, c);
    } else if c.ReleaseTurn? || c.RequestCancel? {
      TurnFits(san, s, gen, open, c);
    } else if c.RecordHostLoss? || c.SetControllerConnection? || c.ArchiveSession? {
      RowFits(san, s, gen, open, c);
    } else if c.RecordTerminalOutcome? || c.RecordObservedExecutionOutcome? {
      OutcomeFits(san, s, gen, open, c);
    } else if c.RecordDispatchObservation? || c.RecordObservedDispatchAcknowledgement? {
      PhaseFits(san, s, gen, open, c);
    } else {
      RecoveryFits(san, s, gen, open, c, op, lease);
    }
  }

  // Everything a new command needs, and nothing more.
  ghost predicate Admissible(san: string -> string, db: Db, op: string, lease: string, named: string, c: Command) {
    && op !in db.journal && Formed(op, lease, c)
    && Authorised(db, lease, named, c) && Attended(db, lease, named, c)
    && Fits(san, db.sessions[Subject(named, c)], Unsettled(db, c), c)
  }

  predicate Unsettled(db: Db, c: Command) {
    && c.ResolveAgyTurnUncertainty? && c.ref in db.attempts
    && var a := db.attempts[c.ref];
       !a.terminal && a.observed == L.ObservedUncertain && !a.abandoned
  }

  lemma FreshIff(san: string -> string, db: Db, op: string, lease: string, named: string, gen: nat, c: Command)
    ensures Answer(san, db, op, lease, named, gen, c).reply.Fresh? <==>
      && op !in db.journal && Ready(db, lease, named, c) == None
      && Decide(san, db.sessions[Subject(named, c)], gen, OpenAttempt(db, c), c).Commit?
    ensures Answer(san, db, op, lease, named, gen, c).reply.Fresh? ==>
      Answer(san, db, op, lease, named, gen, c) ==
        CommitSession(san, db, op, named, c, Decide(san, db.sessions[Subject(named, c)], gen, OpenAttempt(db, c), c))
  {
  }

  // A command commits exactly when it is admissible.
  lemma CommitsIff(san: string -> string, db: Db, op: string, lease: string, named: string, c: Command)
    ensures ExecuteSession(san, db, op, lease, named, c).reply.Fresh? <==> Admissible(san, db, op, lease, named, c)
  {
    FormedIff(op, lease, c);
    GateAsks(db, lease, named, c);
    ReadyIff(db, lease, named, c);
    if Formed(op, lease, c) && Gate(db, lease, named, c).Ok? {
      var gen := Gate(db, lease, named, c).value;
      FreshIff(san, db, op, lease, named, gen, c);
      if Attended(db, lease, named, c) {
        DecidesIff(san, db.sessions[Subject(named, c)], gen, OpenAttempt(db, c), c, op, lease);
      }
    }
  }

  // The turn under that key takes its outcome, and only that turn.
  ghost predicate Ends(s: Session, t: Session, key: string, status: TurnStatus, result: string) {
    && key in s.turns && t.turns == s.turns[key := s.turns[key].(status := status, result := result)]
    && t.active == None && t.state == Parked
    && t.intents.Keys == s.intents.Keys
    && (key in s.intents ==> t.intents[key] == s.intents[key].(phase := Resolved))
    && (forall k :: k in s.intents && k != key ==> t.intents[k] == s.intents[k])
  }

  // What no other command touches.
  ghost predicate Keeps(s: Session, t: Session, c: Command) {
    && (t == s || t.version == s.version + 1)
    && t.run == s.run && t.contributor == s.contributor && t.primary == s.primary
    && (!c.SetControllerConnection? ==> t.controller == s.controller)
    && (!c.ArchiveSession? ==> t.lifecycle == s.lifecycle)
    && (!c.QueuePrompt? && !c.ReplacePendingPrompt? && !c.DiscardPendingPrompt? && !c.ReleaseTurn? ==>
          t.pending == s.pending)
    && (Steers(c) && !c.ResolveAgyTurnUncertainty? ==> SameEpisode(s, t))
    && (Steers(c) && !c.ReleaseTurn? && !c.ResolveAgyTurnUncertainty? ==> t.active == s.active && t.state == s.state)
  }

  predicate SameEpisode(s: Session, t: Session) {
    && t.visibility == s.visibility && t.context == s.context
    && t.recoveryGen == s.recoveryGen && t.activeRecoveryGen == s.activeRecoveryGen
  }

  predicate Recovered(t: Session) {
    t.visibility == VisibilityReachable && t.context == None && t.activeRecoveryGen == 0
  }

  // Turns and their intents stay as they are.
  predicate SameTurns(s: Session, t: Session) {
    t.turns == s.turns && t.intents == s.intents
  }

  // What a commit leaves of the session. `gen`: the generation that
  // authorised it.
  ghost predicate Leaves(san: string -> string, s: Session, t: Session, gen: nat, c: Command) {
    && Keeps(s, t, c)
    && match c
       case QueuePrompt(_, key, text, tools) => t.pending == s.pending[key := Prompt(san(text), tools)] && SameTurns(s, t)
       case ReplacePendingPrompt(_, key, text, _) =>
         key in s.pending && t.pending == s.pending[key := Prompt(san(text), s.pending[key].tools)] && SameTurns(s, t)
       case DiscardPendingPrompt(_, key) => t.pending == s.pending - {key} && SameTurns(s, t)
       case ReleaseTurn(_, key) =>
         && key in s.pending && t.pending == s.pending - {key} && t.active == Some(key) && t.state == Running
         && var attempt := AttemptId(t.version, key);
            && t.turns == s.turns[key := Turn(san(s.pending[key].text), TurnRunning, "", attempt)]
            && t.intents == s.intents[key := Intent(attempt, IntentRecorded, s.pending[key].tools, gen)]
       case RequestCancel(_, key) =>
         key in s.turns && t.turns == s.turns[key := s.turns[key].(status := TurnCancelling)] && t.intents == s.intents
       case RecordTerminalOutcome(_, key, status, result) => Concludes(s, t, key, status, san(result))
       case RecordObservedExecutionOutcome(ref, status, result) => Concludes(s, t, ref.turnKey, status, san(result))
       case RecordHostLoss(_) =>
         && SameTurns(s, t) && t.active == s.active && t.state == s.state
         && if s.visibility == VisibilityHostLost then t == s
            else
              t.visibility == VisibilityHostLost && t.recoveryGen == t.activeRecoveryGen == s.recoveryGen + 1
              && t.context == s.active
       case SetControllerConnection(_, connection) => t == s.(controller := connection, version := t.version)
       case ArchiveSession(_) =>
         t.lifecycle == SessionArchived && SameTurns(s, t) && SameEpisode(s, t) && (s.lifecycle == SessionArchived ==> t == s)
       case RecordDispatchObservation(key, phase) =>
         && key in s.intents
         && if s.intents[key].phase == Resolved then t == s
            else t == s.(intents := s.intents[key := s.intents[key].(phase := phase)], version := t.version)
       case RecordObservedDispatchAcknowledgement(ref, phase) =>
         && ref.turnKey in s.intents
         && t == s.(intents := s.intents[ref.turnKey := s.intents[ref.turnKey].(phase := phase)], version := t.version)
       case ReconcileSession(_, recovery, o) => Reconciles(s, t, recovery.turnKey, o, san(o.result))
       case ResolveAgyTurnUncertainty(_, _, ref, _, _) =>
         Recovered(t) && ref.turnKey in t.turns && Ends(s, t, ref.turnKey, TurnInterrupted, t.turns[ref.turnKey].result)
  }

  // The outcome on record is this one, new or old.
  ghost predicate Concludes(s: Session, t: Session, key: string, status: TurnStatus, result: string) {
    && key in s.turns && key in t.turns && t.turns[key].status == status && t.turns[key].result == result
    && if s.turns[key].status.Terminal() then t == s else Ends(s, t, key, status, result)
  }

  ghost predicate Reconciles(s: Session, t: Session, key: string, o: ReconciliationOutcome, result: string) {
    if o.status == Uncertain then t == s.(version := s.version + 1)
    else if s.active == None || o.status == ReachableActive then
      Recovered(t) && SameTurns(s, t) && t.active == s.active && t.state == s.state
    else
      Recovered(t) && Ends(s, t, key, if o.status == ReachableTerminal then o.observed else TurnFailed, result)
  }

  lemma PromptLeaves(san: string -> string, s: Session, gen: nat, open: bool, c: Command)
    requires c.QueuePrompt? || c.ReplacePendingPrompt? || c.DiscardPendingPrompt?
    requires Decide(san, s, gen, open, c).Commit?
    ensures Leaves(san, s, Decide(san, s, gen, open, c).after, gen, c)
  {
  }

  lemma TurnLeaves(san: string -> string, s: Session, gen: nat, open: bool, c: Command)
    requires c.ReleaseTurn? || c.RequestCancel?
    requires Decide(san, s, gen, open, c).Commit?
    ensures Leaves(san, s, Decide(san, s, gen, open, c).after, gen, c)
  {
  }

  lemma RowLeaves(san: string -> string, s: Session, gen: nat, open: bool, c: Command)
    requires c.RecordHostLoss? || c.SetControllerConnection? || c.ArchiveSession?
    requires Decide(san, s, gen, open, c).Commit?
    ensures Leaves(san, s, Decide(san, s, gen, open, c).after, gen, c)
  {
  }

  lemma OutcomeConcludes(s: Session, key: string, status: TurnStatus, result: string, dup: string, rec: string)
    requires DecideOutcome(s, key, status, result, dup, rec).Commit?
    ensures Concludes(s, DecideOutcome(s, key, status, result, dup, rec).after, key, status, result)
  {
  }

  lemma OutcomeLeaves(san: string -> string, s: Session, gen: nat, open: bool, c: Command)
    requires c.RecordTerminalOutcome? || c.RecordObservedExecutionOutcome?
    requires Decide(san, s, gen, open, c).Commit?
    ensures Leaves(san, s, Decide(san, s, gen, open, c).after, gen, c)
  {
    match c
    case RecordTerminalOutcome(_, key, status, result) =>
      OutcomeConcludes(s, key, status, san(result), status.Name(), status.Name());
    case RecordObservedExecutionOutcome(ref, status, result) =>
      OutcomeConcludes(s, ref.turnKey, status, san(result), status.Name() + ":duplicate",
                       status.Name() + IssuedBy(s, ref.turnKey));
  }

  lemma PhaseLeaves(san: string -> string, s: Session, gen: nat, open: bool, c: Command)
    requires c.RecordDispatchObservation? || c.RecordObservedDispatchAcknowledgement?
    requires Decide(san, s, gen, open, c).Commit?
    ensures Leaves(san, s, Decide(san, s, gen, open, c).after, gen, c)
  {
  }

  lemma FinishEnds(s: Session, key: string, status: TurnStatus, result: string)
    requires key in s.turns
    ensures Ends(s, CloseRecovery(Finish(s, key, status, result)), key, status, result)
    ensures Recovered(CloseRecovery(Finish(s, key, status, result)))
  {
  }

  lemma ReconcileLeaves(s: Session, key: string, o: ReconciliationOutcome, result: string)
    requires Consistent(s)
    ensures ReconcileActive(s, key, o, result).Commit? ==> Reconciles(s, ReconcileActive(s, key, o, result).after, key, o, result)
    ensures s.active == None && ReconcileParked(s, key, o).Commit? ==>
      Reconciles(s, ReconcileParked(s, key, o).after, key, o, result)
  {
    if s.active == Some(key) {
      FinishEnds(s, key, if o.status == ReachableTerminal then o.observed else TurnFailed, result);
    }
  }

  predicate SameHead(s: Session, t: Session) {
    && t.run == s.run && t.contributor == s.contributor && t.primary == s.primary && t.controller == s.controller
    && t.lifecycle == s.lifecycle && t.pending == s.pending && t.version == s.version + 1
  }

  lemma HeadKeeps(s: Session, t: Session, c: Command)
    requires SameHead(s, t) && (c.ReconcileSession? || c.ResolveAgyTurnUncertainty?)
    ensures Keeps(s, t, c)
  {
  }

  lemma ReconcileKeepsHead(s: Session, key: string, o: ReconciliationOutcome, result: string)
    ensures ReconcileActive(s, key, o, result).Commit? ==> SameHead(s, ReconcileActive(s, key, o, result).after)
    ensures ReconcileParked(s, key, o).Commit? ==> SameHead(s, ReconcileParked(s, key, o).after)
  {
    BumpKeepsHead(s);
    FinishKeepsHead(s, key, if o.status == ReachableTerminal then o.observed else TurnFailed, result);
  }

  lemma BumpKeepsHead(s: Session)
    ensures SameHead(s, Bump(s)) && SameHead(s, CloseRecovery(Bump(s)))
  {
  }

  lemma FinishKeepsHead(s: Session, key: string, status: TurnStatus, result: string)
    ensures SameHead(s, CloseRecovery(Finish(s, key, status, result)))
  {
  }

  lemma AbandonKeepsHead(san: string -> string, s: Session, open: bool, c: Command)
    requires c.ResolveAgyTurnUncertainty? && DecideAbandon(san, s, open, c).Commit?
    ensures SameHead(s, DecideAbandon(san, s, open, c).after)
  {
  }

  lemma AbandonEnds(san: string -> string, s: Session, open: bool, c: Command, t: Session)
    requires c.ResolveAgyTurnUncertainty? && DecideAbandon(san, s, open, c).Commit? && t == DecideAbandon(san, s, open, c).after
    ensures Recovered(t) && c.ref.turnKey in t.turns
    ensures Ends(s, t, c.ref.turnKey, TurnInterrupted, t.turns[c.ref.turnKey].result)
  {
    FinishEnds(s, c.ref.turnKey, TurnInterrupted, t.turns[c.ref.turnKey].result);
  }

  lemma RecoveryLeaves(san: string -> string, s: Session, gen: nat, open: bool, c: Command)
    requires Consistent(s) && (c.ReconcileSession? || c.ResolveAgyTurnUncertainty?)
    requires Decide(san, s, gen, open, c).Commit?
    ensures Leaves(san, s, Decide(san, s, gen, open, c).after, gen, c)
  {
    if c.ReconcileSession? {
      ReconcileKeepsHead(s, c.recovery.turnKey, c.outcome, san(c.outcome.result));
      ReconcileLeaves(s, c.recovery.turnKey, c.outcome, san(c.outcome.result));
    } else {
      AbandonKeepsHead(san, s, open, c);
      AbandonEnds(san, s, open, c, DecideAbandon(san, s, open, c).after);
    }
    HeadKeeps(s, Decide(san, s, gen, open, c).after, c);
  }

  lemma DecisionLeaves(san: string -> string, s: Session, gen: nat, open: bool, c: Command)
    requires Consistent(s) && Decide(san, s, gen, open, c).Commit?
    ensures Leaves(san, s, Decide(san, s, gen, open, c).after, gen, c)
  {
    if c.QueuePrompt? || c.ReplacePendingPrompt? || c.DiscardPendingPrompt? {
      PromptLeaves(san, s, gen, open, c);
    } else if c.ReleaseTurn? || c.RequestCancel? {
      TurnLeaves(san, s, gen, open, c);
    } else if c.RecordHostLoss? || c.SetControllerConnection? || c.ArchiveSession? {
      RowLeaves(san, s, gen, open, c);
    } else if c.RecordTerminalOutcome? || c.RecordObservedExecutionOutcome? {
      OutcomeLeaves(san, s, gen, open, c);
    } else if c.RecordDispatchObservation? || c.RecordObservedDispatchAcknowledgement? {
      PhaseLeaves(san, s, gen, open, c);
    } else {
      RecoveryLeaves(san, s, gen, open, c);
    }
  }

  // The generation that authorises a command; evidence needs none.
  ghost function AuthorisedBy(db: Db, lease: string, named: string, c: Command): nat
    requires Authorised(db, lease, named, c)
  {
    if Expected(c).Some? then Classify(db.runs[db.sessions[Subject(named, c)].run], lease, !c.ArchiveSession?).value else 0
  }

  // An abandonment is recorded on its attempt as well.
  predicate AttemptsFollow(db: Db, after: Db, c: Command) {
    if c.ResolveAgyTurnUncertainty? && c.ref in db.attempts then
      c.ref in after.attempts && after.attempts == db.attempts[c.ref := after.attempts[c.ref]]
      && after.attempts[c.ref] == db.attempts[c.ref].(abandoned := after.attempts[c.ref].abandoned)
    else after.attempts == db.attempts
  }

  lemma CommitOf(san: string -> string, db: Db, op: string, lease: string, named: string, c: Command)
    requires ExecuteSession(san, db, op, lease, named, c).reply.Fresh?
    ensures Admissible(san, db, op, lease, named, c)
    ensures
      var d := Decide(san, db.sessions[Subject(named, c)], AuthorisedBy(db, lease, named, c), OpenAttempt(db, c), c);
      d.Commit? && ExecuteSession(san, db, op, lease, named, c) == CommitSession(san, db, op, named, c, d)
  {
    CommitsIff(san, db, op, lease, named, c);
    FormedIff(op, lease, c);
    GateAsks(db, lease, named, c);
    FreshIff(san, db, op, lease, named, Gate(db, lease, named, c).value, c);
    assert Gate(db, lease, named, c).value == AuthorisedBy(db, lease, named, c) by {
      if Expected(c) == None {
        EvidenceGateIsZero(db, lease, named, c);
      }
    }
  }

  lemma EvidenceGateIsZero(db: Db, lease: string, named: string, c: Command)
    requires Expected(c) == None && Gate(db, lease, named, c).Ok?
    ensures Gate(db, lease, named, c).value == 0
  {
  }

  lemma CommitWrites(san: string -> string, db: Db, op: string, named: string, c: Command, d: Decision, o: Outcome)
    requires d.Commit? && o == CommitSession(san, db, op, named, c, d)
    ensures o.db.sessions == db.sessions[Subject(named, c) := d.after] && o.db.runs == db.runs
    ensures AttemptsFollow(db, o.db, c)
    ensures c.ResolveAgyTurnUncertainty? && Unsettled(db, c) ==> c.ref in o.db.attempts && o.db.attempts[c.ref].abandoned
  {
  }

  // A commit leaves its own session as promised and everything else as it was.
  lemma CommitLeaves(san: string -> string, db: Db, op: string, lease: string, named: string, c: Command, o: Outcome)
    requires o == ExecuteSession(san, db, op, lease, named, c) && o.reply.Fresh?
    requires Subject(named, c) in db.sessions ==> Consistent(db.sessions[Subject(named, c)])
    ensures Admissible(san, db, op, lease, named, c)
    ensures
      var id := Subject(named, c);
      && id in o.db.sessions && o.db.sessions == db.sessions[id := o.db.sessions[id]]
      && Leaves(san, db.sessions[id], o.db.sessions[id], AuthorisedBy(db, lease, named, c), c)
      && o.db.runs == db.runs && AttemptsFollow(db, o.db, c)
      && (c.ResolveAgyTurnUncertainty? ==> c.ref in o.db.attempts && o.db.attempts[c.ref].abandoned)
  {
    CommitOf(san, db, op, lease, named, c);
    var s, gen := db.sessions[Subject(named, c)], AuthorisedBy(db, lease, named, c);
    DecisionLeaves(san, s, gen, OpenAttempt(db, c), c);
    CommitWrites(san, db, op, named, c, Decide(san, s, gen, OpenAttempt(db, c), c), o);
  }

  // The turn key a command is about.
  function Key(c: Command): Option<string> {
    match c
    case QueuePrompt(_, key, _, _) => Some(key)
    case ReplacePendingPrompt(_, key, _, _) => Some(key)
    case DiscardPendingPrompt(_, key) => Some(key)
    case ReleaseTurn(_, key) => Some(key)
    case RequestCancel(_, key) => Some(key)
    case RecordTerminalOutcome(_, key, _, _) => Some(key)
    case RecordDispatchObservation(key, _) => Some(key)
    case RecordObservedExecutionOutcome(ref, _, _) => Some(ref.turnKey)
    case RecordObservedDispatchAcknowledgement(ref, _) => Some(ref.turnKey)
    case ReconcileSession(_, recovery, _) => Some(recovery.turnKey)
    case ResolveAgyTurnUncertainty(_, _, ref, _, _) => Some(ref.turnKey)
    case _ => None
  }

  // The receipt names the operation, the session, the turn and the version of
  // the row it left; a release hands out the stored prompt and attempt, a host
  // loss the recovery generation. Evidence is told which generation issued
  // the execution, or that its outcome was on record already.
  ghost predicate Reports(r: Receipt, op: string, id: string, s: Session, t: Session, c: Command) {
    && r.op == op && r.session == id && r.version == t.version
    && (Key(c).Some? ==> r.turnKey == Key(c).value)
    && (c.QueuePrompt? || c.ReplacePendingPrompt? ==> c.key in t.pending && r.payload == t.pending[c.key].text)
    && (c.ReleaseTurn? ==>
          && c.key in t.turns && c.key in t.intents
          && r.payload == t.turns[c.key].prompt && r.attempt == t.turns[c.key].attempt == t.intents[c.key].attempt)
    && (c.RecordHostLoss? ==> r.payload == Decimal(t.activeRecoveryGen))
    && (c.RecordObservedDispatchAcknowledgement? && c.ref.turnKey in t.intents ==>
          r.payload == c.phase.Name() + (":issued_by_generation=" + Decimal(t.intents[c.ref.turnKey].issuedBy)))
    && (c.RecordObservedExecutionOutcome? && c.ref.turnKey in s.turns && c.ref.turnKey in t.intents ==>
          r.payload == if s.turns[c.ref.turnKey].status.Terminal() then c.status.Name() + ":duplicate"
                       else c.status.Name() + (":issued_by_generation=" + Decimal(t.intents[c.ref.turnKey].issuedBy)))
  }

  lemma DecisionReports(san: string -> string, s: Session, gen: nat, open: bool, c: Command, op: string, id: string)
    requires Decide(san, s, gen, open, c).Commit?
    ensures
      var d := Decide(san, s, gen, open, c);
      Reports(Receipt(op, KindOf(c), id, d.turnKey, d.after.version, d.payload, d.attempt), op, id, s, d.after, c)
  {
  }

  lemma ReceiptReports(san: string -> string, db: Db, op: string, lease: string, named: string, c: Command, o: Outcome)
    requires o == ExecuteSession(san, db, op, lease, named, c) && o.reply.Fresh?
    ensures Subject(named, c) in db.sessions && Subject(named, c) in o.db.sessions
    ensures Reports(o.reply.receipt, op, Subject(named, c), db.sessions[Subject(named, c)], o.db.sessions[Subject(named, c)], c)
  {
    CommitOf(san, db, op, lease, named, c);
    DecisionReports(san, db.sessions[Subject(named, c)], AuthorisedBy(db, lease, named, c), OpenAttempt(db, c), c, op,
                    Subject(named, c));
  }

  // The same request: the same kind of command on the same session with the
  // same arguments, texts up to sanitisation. Lease and expected version may
  // differ, and an outcome's free fields that its checks determine.
  predicate SameRequest(san: string -> string, named: string, c: Command, named': string, c': Command) {
    && Subject(named', c') == Subject(named, c)
    && match c
       case QueuePrompt(_, key, text, tools) =>
         c'.QueuePrompt? && c'.key == key && san(c'.text) == san(text) && c'.tools == tools
       case ReplacePendingPrompt(_, key, text, stated) =>
         c'.ReplacePendingPrompt? && c'.key == key && san(c'.text) == san(text) && c'.stated == stated
       case DiscardPendingPrompt(_, key) => c'.DiscardPendingPrompt? && c'.key == key
       case ReleaseTurn(_, key) => c'.ReleaseTurn? && c'.key == key
       case RequestCancel(_, key) => c'.RequestCancel? && c'.key == key
       case RecordTerminalOutcome(_, key, status, result) =>
         c'.RecordTerminalOutcome? && c'.key == key && c'.status == status && san(c'.result) == san(result)
       case RecordHostLoss(_) => c'.RecordHostLoss?
       case SetControllerConnection(_, connection) => c'.SetControllerConnection? && c'.connection == connection
       case ArchiveSession(_) => c'.ArchiveSession?
       case RecordDispatchObservation(key, phase) => c'.RecordDispatchObservation? && c'.key == key && c'.phase == phase
       case RecordObservedExecutionOutcome(ref, status, result) =>
         c'.RecordObservedExecutionOutcome? && c'.ref == ref && c'.status == status && san(c'.result) == san(result)
       case RecordObservedDispatchAcknowledgement(ref, phase) =>
         c'.RecordObservedDispatchAcknowledgement? && c'.ref == ref && c'.phase == phase
       case ReconcileSession(ref, recovery, o) =>
         && c'.ReconcileSession? && c'.ref.attempt == ref.attempt && c'.recovery == recovery
         && c'.outcome.status == o.status && c'.outcome.observed == o.observed && c'.outcome.result == o.result
       case ResolveAgyTurnUncertainty(generation, _, ref, _, reason) =>
         c'.ResolveAgyTurnUncertainty? && c'.generation == generation && c'.ref == ref && san(c'.reason) == san(reason)
  }

  lemma StatusApart(a: TurnStatus, b: TurnStatus)
    requires a.Name() == b.Name()
    ensures a == b
  {
  }

  lemma PhaseApart(a: Phase, b: Phase)
    requires a.Name() == b.Name()
    ensures a == b
  {
  }

  // Two commands have one fingerprint exactly when they are one request.
  lemma MarkSays(san: string -> string, named: string, c: Command, named': string, c': Command)
    ensures CommandMark(san, named', c') == CommandMark(san, named, c) <==> SameRequest(san, named, c, named', c')
  {
    if CommandMark(san, named', c') == CommandMark(san, named, c) {
      EqualMarks(san, named, c, named', c');
    }
  }

  // The parts of equal fingerprints, one by one.
  ghost predicate SameParts(p: seq<string>, q: seq<string>) {
    && |q| == |p| && |p| > 0 && q[0] == p[0]
    && (|p| > 1 ==> q[1] == p[1]) && (|p| > 2 ==> q[2] == p[2]) && (|p| > 3 ==> q[3] == p[3])
    && (|p| > 4 ==> q[4] == p[4]) && (|p| > 5 ==> q[5] == p[5]) && (|p| > 6 ==> q[6] == p[6])
  }

  lemma PlainMarks(san: string -> string, named: string, c: Command, named': string, c': Command)
    requires c.QueuePrompt? || c.ReplacePendingPrompt? || c.DiscardPendingPrompt? || c.ReleaseTurn? || c.RequestCancel?
             || c.RecordHostLoss? || c.SetControllerConnection? || c.ArchiveSession?
    requires CommandMark(san, named', c') == CommandMark(san, named, c)
    requires SameParts(CommandMark(san, named, c).parts, CommandMark(san, named', c').parts)
    ensures SameRequest(san, named, c, named', c')
  {
  }

  lemma EvidenceMarks(san: string -> string, named: string, c: Command, named': string, c': Command)
    requires c.RecordTerminalOutcome? || c.RecordDispatchObservation? || c.RecordObservedExecutionOutcome?
             || c.RecordObservedDispatchAcknowledgement?
    requires CommandMark(san, named', c') == CommandMark(san, named, c)
    requires SameParts(CommandMark(san, named, c).parts, CommandMark(san, named', c').parts)
    ensures SameRequest(san, named, c, named', c')
  {
    match c
    case RecordTerminalOutcome(_, _, status, _) => StatusApart(status, c'.status);
    case RecordDispatchObservation(_, phase) => PhaseApart(phase, c'.phase);
    case RecordObservedExecutionOutcome(_, status, _) => StatusApart(status, c'.status);
    case RecordObservedDispatchAcknowledgement(_, phase) => PhaseApart(phase, c'.phase);
  }

  lemma ReconcileMarks(san: string -> string, named: string, c: Command, named': string, c': Command)
    requires c.ReconcileSession? && CommandMark(san, named', c') == CommandMark(san, named, c)
    requires SameParts(CommandMark(san, named, c).parts, CommandMark(san, named', c').parts)
    ensures SameRequest(san, named, c, named', c')
  {
    assert c'.ReconcileSession?;
    DecimalInjective(c.recovery.generation, c'.recovery.generation);
    OutcomesApart(c.outcome, c'.outcome);
  }

  lemma OutcomesApart(a: ReconciliationOutcome, b: ReconciliationOutcome)
    requires StatusName(a.status) == StatusName(b.status) && a.observed.Name() == b.observed.Name()
    ensures a.status == b.status && a.observed == b.observed
  {
  }

  lemma AbandonMarks(san: string -> string, named: string, c: Command, named': string, c': Command)
    requires c.ResolveAgyTurnUncertainty? && CommandMark(san, named', c') == CommandMark(san, named, c)
    requires SameParts(CommandMark(san, named, c).parts, CommandMark(san, named', c').parts)
    ensures SameRequest(san, named, c, named', c')
  {
    assert c'.ResolveAgyTurnUncertainty?;
    DecimalInjective(c.generation, c'.generation);
  }

  lemma EqualMarks(san: string -> string, named: string, c: Command, named': string, c': Command)
    requires CommandMark(san, named', c') == CommandMark(san, named, c)
    ensures SameRequest(san, named, c, named', c')
  {
    assert SameParts(CommandMark(san, named, c).parts, CommandMark(san, named', c').parts);
    if c.ReconcileSession? {
      ReconcileMarks(san, named, c, named', c');
    } else if c.ResolveAgyTurnUncertainty? {
      AbandonMarks(san, named, c, named', c');
    } else if Evidence(c) || c.RecordTerminalOutcome? || c.RecordDispatchObservation? {
      EvidenceMarks(san, named, c, named', c');
    } else {
      PlainMarks(san, named, c, named', c');
    }
  }

  // A retry of a committed operation gets the original receipt exactly when it
  // is the same request under current authority, and never commits again.
  lemma RetriesIff(san: string -> string, db: Db, op: string, lease: string, named: string, c: Command, first: Outcome,
                   later: Db, events: seq<Event>, lease': string, named': string, c': Command)
    requires first == ExecuteSession(san, db, op, lease, named, c) && first.reply.Fresh?
    requires later == History(san, first.db, events)
    ensures
      var again := ExecuteSession(san, later, op, lease', named', c');
      && again.db == later && !again.reply.Fresh?
      && (again.reply == Replayed(first.reply.receipt) <==>
            SameRequest(san, named, c, named', c') && Formed(op, lease', c') && Authorised(later, lease', named', c'))
  {
    CommittedReplays(san, db, op, lease, named, c, first, later, events, lease', named', c');
    MarkSays(san, named, c, named', c');
    BlockedIff(later, op, lease', named', c');
    MarkKind(san, named, c);
    MarkKind(san, named', c');
  }

  lemma MarkKind(san: string -> string, named: string, c: Command)
    ensures CommandMark(san, named, c).command == KindOf(c)
  {
  }
}
