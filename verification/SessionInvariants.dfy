// What every committed command keeps true of a session, and what it can never
// change: the relational invariant behind hydration, terminal finality and
// the row version.
module SessionInvariants {
  import opened Domain
  import opened SessionRules

  // Only the active turn is live; every turn has its intent, resolved exactly
  // when the turn is terminal; a lost host is an open recovery episode whose
  // context is the active turn or a turn that ended while the host was lost.
  ghost predicate Consistent(s: Session) {
    && s.version >= 1
    && (s.state == Running <==> s.active.Some?)
    && (s.state == Archived <==> s.lifecycle == SessionArchived)
    && (s.active.Some? ==> s.active.value in s.turns)
    && s.intents.Keys == s.turns.Keys
    && s.pending.Keys !! s.turns.Keys
    && RecoveryConsistent(s)
    && TurnsConsistent(s)
  }

  ghost predicate TurnsConsistent(s: Session) {
    forall k :: k in s.turns ==> TurnConsistent(s, k)
  }

  ghost predicate TurnConsistent(s: Session, k: string)
    requires k in s.turns
  {
    && (s.turns[k].status.Live() || s.turns[k].status.Terminal())
    && (s.turns[k].status.Live() <==> s.active == Some(k))
    && k in s.intents
    && s.intents[k].attempt == s.turns[k].attempt
    && (s.intents[k].phase == Resolved <==> s.turns[k].status.Terminal())
    && Stamped(s, k)
  }

  // The attempt identity names the version at which the turn was released.
  ghost predicate Stamped(s: Session, k: string)
    requires k in s.turns
  {
    exists v: nat :: 1 < v <= s.version && s.turns[k].attempt == AttemptId(v, k)
  }

  ghost predicate RecoveryConsistent(s: Session) {
    && (s.visibility == VisibilityHostLost <==> s.activeRecoveryGen > 0)
    && (s.visibility == VisibilityHostLost <==> s.context.Some?)
    && (s.activeRecoveryGen > 0 ==> s.activeRecoveryGen == s.recoveryGen)
    && (s.context.Some? ==> s.context.value in s.turns && (s.active == None || s.active == s.context))
    && (s.state == Archived ==> s.visibility == VisibilityReachable)
  }

  // What a step may never do to a session: change its content without raising
  // the version, move it to another run, reopen a recovery generation, or
  // rewrite history.
  ghost predicate Evolves(s: Session, after: Session) {
    && (after == s || after.version == s.version + 1)
    && after.run == s.run && after.contributor == s.contributor && after.primary == s.primary
    && after.recoveryGen >= s.recoveryGen
    && forall k :: k in s.turns ==> TurnKept(s, after, k)
  }

  // A released turn stays, with its prompt and its attempt, and so does its
  // intent, with the tools and the generation it was issued under; once
  // terminal the turn is final.
  ghost predicate TurnKept(s: Session, after: Session, k: string)
    requires k in s.turns
  {
    && k in after.turns
    && after.turns[k].prompt == s.turns[k].prompt
    && after.turns[k].attempt == s.turns[k].attempt
    && (s.turns[k].status.Terminal() ==> after.turns[k] == s.turns[k])
    && (k in s.intents ==> k in after.intents && SameIntent(s.intents[k], after.intents[k]))
  }

  // Only its phase may have moved.
  predicate SameIntent(i: Intent, j: Intent) {
    j.attempt == i.attempt && j.tools == i.tools && j.issuedBy == i.issuedBy
  }

  ghost predicate Sound(s: Session, d: Decision) {
    d.Commit? ==> Consistent(d.after) && Evolves(s, d.after)
  }

  // A stamp survives any step that keeps the attempt and does not lower the
  // version.
  lemma StampedLater(s: Session, after: Session, k: string)
    requires k in s.turns && k in after.turns && Stamped(s, k)
    requires after.turns[k].attempt == s.turns[k].attempt && after.version >= s.version
    ensures Stamped(after, k)
  {
    var v: nat :| 1 < v <= s.version && s.turns[k].attempt == AttemptId(v, k);
    assert v <= after.version;
  }

  // Two turns of one session never share an attempt identity.
  lemma AttemptsInjective(s: Session, k: string, l: string)
    requires Consistent(s) && k in s.turns && l in s.turns
    requires s.turns[k].attempt == s.turns[l].attempt
    ensures k == l
  {
    assert TurnConsistent(s, k) && TurnConsistent(s, l);
    var v: nat :| 1 < v <= s.version && s.turns[k].attempt == AttemptId(v, k);
    var w: nat :| 1 < w <= s.version && s.turns[l].attempt == AttemptId(w, l);
    AttemptIdInjective(v, k, w, l);
  }

  ghost predicate SameSession(s: Session, after: Session) {
    && after.run == s.run && after.contributor == s.contributor && after.primary == s.primary
    && after.version == s.version + 1
    && after.recoveryGen >= s.recoveryGen
  }

  // Steps that keep the turns and the active key.
  lemma RowStep(s: Session, after: Session)
    requires Consistent(s) && SameSession(s, after)
    requires after.turns == s.turns && after.active == s.active && after.intents == s.intents
    requires after.state == s.state || (s.active == None && after.state != Running)
    requires after.state == Archived <==> after.lifecycle == SessionArchived
    requires after.pending.Keys !! s.turns.Keys && RecoveryConsistent(after)
    ensures Consistent(after) && Evolves(s, after)
  {
    forall k | k in after.turns ensures TurnConsistent(after, k) {
      assert TurnConsistent(s, k);
      StampedLater(s, after, k);
    }
  }

  // The live turn ends, whatever becomes of the recovery episode.
  lemma EndStep(s: Session, after: Session, key: string, status: TurnStatus, result: string)
    requires Consistent(s) && s.active == Some(key) && status.Terminal() && SameSession(s, after)
    requires after.turns == s.turns[key := s.turns[key].(status := status, result := result)]
    requires after.intents == s.intents[key := s.intents[key].(phase := Resolved)]
    requires after.active == None && after.state == Parked && after.lifecycle == s.lifecycle
    requires after.pending == s.pending && RecoveryConsistent(after)
    ensures Consistent(after) && Evolves(s, after)
  {
    forall k | k in after.turns ensures TurnConsistent(after, k) && (k in s.turns ==> TurnKept(s, after, k)) {
      assert TurnConsistent(s, k);
      StampedLater(s, after, k);
    }
  }

  lemma QueueSound(san: string -> string, s: Session, c: Command)
    requires Consistent(s) && c.QueuePrompt?
    ensures Sound(s, DecideQueue(san, s, c))
  {
    var d := DecideQueue(san, s, c);
    if d.Commit? && d.after.version != s.version {
      RowStep(s, d.after);
    }
  }

  lemma ReplaceSound(san: string -> string, s: Session, c: Command)
    requires Consistent(s) && c.ReplacePendingPrompt?
    ensures Sound(s, DecideReplace(san, s, c))
  {
    var d := DecideReplace(san, s, c);
    if d.Commit? {
      RowStep(s, d.after);
    }
  }

  lemma DiscardSound(s: Session, c: Command)
    requires Consistent(s) && c.DiscardPendingPrompt?
    ensures Sound(s, DecideDiscard(s, c))
  {
    var d := DecideDiscard(s, c);
    if d.Commit? {
      RowStep(s, d.after);
    }
  }

  // A released prompt becomes the one live turn.
  lemma StartStep(s: Session, after: Session, key: string, turn: Turn, intent: Intent)
    requires Consistent(s) && SameSession(s, after)
    requires s.state == Parked && s.visibility == VisibilityReachable && key !in s.turns
    requires turn.status == TurnRunning && intent.phase == IntentRecorded
    requires turn.attempt == intent.attempt == AttemptId(s.version + 1, key)
    requires after.turns == s.turns[key := turn] && after.intents == s.intents[key := intent]
    requires after.active == Some(key) && after.state == Running && after.lifecycle == s.lifecycle
    requires after.pending == s.pending - {key}
    requires after.visibility == s.visibility && after.context == s.context
    requires after.recoveryGen == s.recoveryGen && after.activeRecoveryGen == s.activeRecoveryGen
    ensures Consistent(after) && Evolves(s, after)
  {
    forall k | k in after.turns ensures TurnConsistent(after, k) {
      if k == key {
        assert Stamped(after, k);
      } else {
        assert TurnConsistent(s, k);
        StampedLater(s, after, k);
      }
    }
  }

  lemma ReleaseSound(san: string -> string, s: Session, gen: nat, c: Command)
    requires Consistent(s) && c.ReleaseTurn?
    ensures Sound(s, DecideRelease(san, s, gen, c))
  {
    var d := DecideRelease(san, s, gen, c);
    if d.Commit? {
      StartStep(s, d.after, c.key, d.after.turns[c.key], d.after.intents[c.key]);
    }
  }

  lemma CancelSound(s: Session, c: Command)
    requires Consistent(s) && c.RequestCancel?
    ensures Sound(s, DecideCancel(s, c))
  {
    var d := DecideCancel(s, c);
    if d.Commit? && d.after.version != s.version {
      forall k | k in s.turns ensures TurnConsistent(d.after, k) && TurnKept(s, d.after, k) {
        assert TurnConsistent(s, k);
        StampedLater(s, d.after, k);
      }
    }
  }

  // An outcome that is recorded, rather than repeated, ends the active turn.
  lemma OutcomeEndsActive(s: Session, key: string, status: TurnStatus, result: string, dup: string, rec: string)
    requires Consistent(s) && DecideOutcome(s, key, status, result, dup, rec).Commit?
    ensures key in s.turns
    ensures s.turns[key].status.Terminal() ==> DecideOutcome(s, key, status, result, dup, rec).after == s
    ensures !s.turns[key].status.Terminal() ==>
              s.active == Some(key) && DecideOutcome(s, key, status, result, dup, rec).after == End(s, key, status, result)
  {
    assert TurnConsistent(s, key);
  }

  lemma EndSound(s: Session, key: string, status: TurnStatus, result: string)
    requires Consistent(s) && s.active == Some(key) && status.Terminal()
    ensures Consistent(End(s, key, status, result)) && Evolves(s, End(s, key, status, result))
  {
    assert TurnConsistent(s, key);
    EndStep(s, End(s, key, status, result), key, status, result);
  }

  lemma OutcomeSound(s: Session, key: string, status: TurnStatus, result: string, dup: string, rec: string)
    requires Consistent(s) && status.Terminal()
    ensures Sound(s, DecideOutcome(s, key, status, result, dup, rec))
  {
    var d := DecideOutcome(s, key, status, result, dup, rec);
    if d.Commit? {
      OutcomeEndsActive(s, key, status, result, dup, rec);
      if !s.turns[key].status.Terminal() {
        EndSound(s, key, status, result);
      }
    }
  }

  lemma HostLossSound(s: Session, c: Command)
    requires Consistent(s) && c.RecordHostLoss?
    ensures Sound(s, DecideHostLoss(s, c))
  {
    var d := DecideHostLoss(s, c);
    if d.Commit? && d.after.version != s.version {
      RowStep(s, d.after);
    }
  }

  lemma ConnectionSound(s: Session, c: Command)
    requires Consistent(s) && c.SetControllerConnection?
    ensures Sound(s, DecideConnection(s, c))
  {
    var d := DecideConnection(s, c);
    if d.Commit? && d.after.version != s.version {
      RowStep(s, d.after);
    }
  }

  lemma ArchiveSound(s: Session, c: Command)
    requires Consistent(s) && c.ArchiveSession?
    ensures Sound(s, DecideArchive(s, c))
  {
    var d := DecideArchive(s, c);
    if d.Commit? && d.after.version != s.version {
      RowStep(s, d.after);
    }
  }

  lemma PhaseStep(s: Session, key: string, phase: Phase)
    requires Consistent(s) && key in s.intents && s.intents[key].phase != Resolved && phase.Observation()
    ensures
      var after := Bump(s).(intents := s.intents[key := s.intents[key].(phase := phase)]);
      Consistent(after) && Evolves(s, after)
  {
    var after := Bump(s).(intents := s.intents[key := s.intents[key].(phase := phase)]);
    forall k | k in after.turns ensures TurnConsistent(after, k) {
      assert TurnConsistent(s, k);
      StampedLater(s, after, k);
    }
  }

  lemma ObservationSound(s: Session, c: Command)
    requires Consistent(s) && c.RecordDispatchObservation?
    ensures Sound(s, DecideObservation(s, c))
  {
    var d := DecideObservation(s, c);
    if d.Commit? {
      if s.intents[c.key].phase != Resolved && s.intents[c.key].phase != c.phase {
        PhaseStep(s, c.key, c.phase);
      }
    }
  }

  lemma AcknowledgementSound(s: Session, c: Command)
    requires Consistent(s) && c.RecordObservedDispatchAcknowledgement? && c.phase.Observation()
    ensures Sound(s, DecideAcknowledgement(s, c))
  {
    var d := DecideAcknowledgement(s, c);
    if d.Commit? {
      PhaseStep(s, c.ref.turnKey, c.phase);
    }
  }

  lemma ReconcileSound(san: string -> string, s: Session, c: Command)
    requires Consistent(s) && c.ReconcileSession?
    ensures Sound(s, DecideReconcile(san, s, c))
  {
    if s.visibility == VisibilityHostLost {
      if s.active.Some? {
        ReconcileActiveSound(s, c.recovery.turnKey, c.outcome, san(c.outcome.result));
      } else {
        ReconcileParkedSound(s, c.recovery.turnKey, c.outcome);
      }
    }
  }

  lemma ReconcileActiveSound(s: Session, key: string, o: ReconciliationOutcome, result: string)
    requires Consistent(s)
    ensures Sound(s, ReconcileActive(s, key, o, result))
  {
    var d := ReconcileActive(s, key, o, result);
    if d.Commit? {
      if o.status == ReachableActive || o.status == Uncertain {
        RowStep(s, d.after);
      } else {
        EndStep(s, d.after, key, if o.status == ReachableTerminal then o.observed else TurnFailed, result);
      }
    }
  }

  lemma ReconcileParkedSound(s: Session, key: string, o: ReconciliationOutcome)
    requires Consistent(s) && s.active == None
    ensures Sound(s, ReconcileParked(s, key, o))
  {
    var d := ReconcileParked(s, key, o);
    if d.Commit? {
      RowStep(s, d.after);
    }
  }

  lemma AbandonSound(san: string -> string, s: Session, open: bool, c: Command)
    requires Consistent(s) && c.ResolveAgyTurnUncertainty?
    ensures Sound(s, DecideAbandon(san, s, open, c))
  {
    var d := DecideAbandon(san, s, open, c);
    if d.Commit? {
      assert TurnConsistent(s, c.ref.turnKey);
      EndStep(s, d.after, c.ref.turnKey, TurnInterrupted,
              "controller abandoned uncertain attempt (native outcome unknown): " + san(c.reason));
    }
  }

  // Every well-formed command that commits keeps the session consistent and
  // its history intact.
  lemma CommitSound(san: string -> string, s: Session, gen: nat, open: bool, c: Command)
    requires Consistent(s) && Malformed(c) == None
    ensures Sound(s, Decide(san, s, gen, open, c))
  {
    match c
    case QueuePrompt(_, _, _, _) => QueueSound(san, s, c);
    case ReplacePendingPrompt(_, _, _, _) => ReplaceSound(san, s, c);
    case DiscardPendingPrompt(_, _) => DiscardSound(s, c);
    case ReleaseTurn(_, _) => ReleaseSound(san, s, gen, c);
    case RequestCancel(_, _) => CancelSound(s, c);
    case RecordTerminalOutcome(_, key, status, result) =>
      OutcomeSound(s, key, status, san(result), status.Name(), status.Name());
    case RecordHostLoss(_) => HostLossSound(s, c);
    case SetControllerConnection(_, _) => ConnectionSound(s, c);
    case ArchiveSession(_) => ArchiveSound(s, c);
    case RecordDispatchObservation(_, _) => ObservationSound(s, c);
    case RecordObservedExecutionOutcome(ref, status, result) =>
      OutcomeSound(s, ref.turnKey, status, san(result), status.Name() + ":duplicate",
                   status.Name() + IssuedBy(s, ref.turnKey));
    case RecordObservedDispatchAcknowledgement(_, _) => AcknowledgementSound(s, c);
    case ReconcileSession(_, _, _) => ReconcileSound(san, s, c);
    case ResolveAgyTurnUncertainty(_, _, _, _, _) => AbandonSound(san, s, open, c);
  }
}
