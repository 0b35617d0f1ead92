// The body of each session command as the store runs it inside its write
// transaction: reads and guards in order, then one statement after another
// (internal/storage/session_store.go, transitions.go, execution_outcomes.go,
// agy_disposition.go). Each is proved against its decision on the session.
module SessionTransactions {
  import opened Domain
  import opened SessionRules
  import opened Tables

  // What goes on the receipt besides the version.
  datatype Change = Change(turnKey: string, payload: string, attempt: string)

  // The transaction does to the tables what the decision does to the session,
  // and nothing else; a refused one changes nothing.
  ghost predicate Performs(t: Tables, out: Tables, id: string, r: Result<Change, Error>, d: Decision)
    requires t.Valid() && id in t.sessions
  {
    match d
    case Refuse(error) => r == Err(error) && out == t
    case Commit(after, key, payload, attempt) =>
      r == Ok(Change(key, payload, attempt)) && Touches(t, out, id) && SessionAt(out, id) == after
  }

  // The version and lifecycle guards that open a command, and the connection
  // projection of the session row.
  method CheckRow(t: Tables, id: string, expected: int, connected: bool) returns (refused: Option<Error>)
    requires t.Valid() && id in t.sessions
    ensures refused == if connected then CurrentAndConnected(SessionAt(t, id), expected)
                       else Current(SessionAt(t, id), expected)
  {
    var row := t.sessions[id];
    if row.version != expected {
      return Some(StaleUpdate);
    }
    if row.lifecycle == SessionArchived {
      return Some(SessionIsArchived);
    }
    if connected && row.controller == ControllerDisconnected {
      return Some(ControllerIsDisconnected);
    }
    return None;
  }

  method QueuePromptRows(san: string -> string, t: Tables, id: string, expected: int, key: string, text: string,
                         tools: seq<string>)
    returns (out: Tables, r: Result<Change, Error>)
    requires t.Valid() && id in t.sessions
    ensures Performs(t, out, id, r, DecideQueue(san, SessionAt(t, id), QueuePrompt(expected, key, text, tools)))
  {
    var row, prompts, turns := t.sessions[id], t.prompts[id], t.turns[id];
    var sanitized := san(text);
    var refused := CheckRow(t, id, expected, true);
    if refused.Some? {
      return t, Err(refused.value);
    }
    if row.active == Some(key) {
      return t, Err(KeyAlreadyActive);
    }
    if key in turns {
      return t, Err(if turns[key].prompt != sanitized then RetiredWithDifferentContent else TurnAlreadyExists);
    }
    if key in prompts {
      if prompts[key].text == sanitized && prompts[key].tools == tools {
        TouchesSelf(t, id);
        return t, Ok(Change(key, sanitized, ""));
      }
      return t, Err(DuplicatePendingKey);
    }
    prompts := prompts[key := Prompt(sanitized, tools)];
    row := row.(version := row.version + 1);
    out := Write(t, id, row, prompts, turns, t.intents[id]);
    r := Ok(Change(key, sanitized, ""));
  }

  method ReplacePendingPromptRows(san: string -> string, t: Tables, id: string, expected: int, key: string, text: string,
                                  stated: Option<seq<string>>)
    returns (out: Tables, r: Result<Change, Error>)
    requires t.Valid() && id in t.sessions
    ensures Performs(t, out, id, r,
                     DecideReplace(san, SessionAt(t, id), ReplacePendingPrompt(expected, key, text, stated)))
  {
    var row, prompts := t.sessions[id], t.prompts[id];
    var refused := CheckRow(t, id, expected, true);
    if refused.Some? {
      return t, Err(refused.value);
    }
    if stated.Some? {
      if key !in prompts {
        return t, Err(PromptNotQueued);
      }
      if prompts[key].tools != stated.value {
        return t, Err(RequiredToolsImmutable);
      }
    }
    if key !in prompts {
      return t, Err(PromptNotQueued);
    }
    prompts := prompts[key := prompts[key].(text := san(text))];
    row := row.(version := row.version + 1);
    out := Write(t, id, row, prompts, t.turns[id], t.intents[id]);
    r := Ok(Change(key, san(text), ""));
  }

  method DiscardPendingPromptRows(t: Tables, id: string, expected: int, key: string)
    returns (out: Tables, r: Result<Change, Error>)
    requires t.Valid() && id in t.sessions
    ensures Performs(t, out, id, r, DecideDiscard(SessionAt(t, id), DiscardPendingPrompt(expected, key)))
  {
    var row, prompts := t.sessions[id], t.prompts[id];
    var refused := CheckRow(t, id, expected, true);
    if refused.Some? {
      return t, Err(refused.value);
    }
    if key !in prompts {
      return t, Err(PromptNotQueued);
    }
    prompts := prompts - {key};
    row := row.(version := row.version + 1);
    out := Write(t, id, row, prompts, t.turns[id], t.intents[id]);
    r := Ok(Change(key, "", ""));
  }

  // The guards of a release, the two unique indexes included.
  method CheckRelease(t: Tables, id: string, expected: int, key: string) returns (refused: Option<Error>)
    requires t.Valid() && id in t.sessions
    ensures refused == ReleaseRefused(SessionAt(t, id), expected, key)
  {
    var row := t.sessions[id];
    refused := CheckRow(t, id, expected, true);
    if refused.Some? {
      return;
    }
    if row.visibility == VisibilityHostLost {
      return Some(HostIsLost);
    }
    if row.state != Parked || row.active.Some? {
      return Some(NotParked);
    }
    if key !in t.prompts[id] {
      return Some(PromptNotQueued);
    }
    if key in t.turns[id] || key in t.intents[id] {
      return Some(ConstraintViolation);
    }
    return None;
  }

  method ReleaseTurnRows(san: string -> string, t: Tables, id: string, gen: nat, expected: int, key: string)
    returns (out: Tables, r: Result<Change, Error>)
    requires t.Valid() && id in t.sessions
    ensures Performs(t, out, id, r, DecideRelease(san, SessionAt(t, id), gen, ReleaseTurn(expected, key)))
  {
    var refused := CheckRelease(t, id, expected, key);
    if refused.Some? {
      return t, Err(refused.value);
    }
    var row, prompts, turns, intents := t.sessions[id], t.prompts[id], t.turns[id], t.intents[id];
    var pending := prompts[key];
    prompts := prompts - {key};
    var prompt := san(pending.text);
    var version := row.version + 1;
    var attempt := AttemptId(version, key);
    turns := turns[key := Turn(prompt, TurnRunning, "", attempt)];
    intents := intents[key := Intent(attempt, IntentRecorded, pending.tools, gen)];
    row := row.(active := Some(key), state := Running, version := version);
    out := Write(t, id, row, prompts, turns, intents);
    r := Ok(Change(key, prompt, attempt));
  }

  method RequestCancelRows(t: Tables, id: string, expected: int, key: string)
    returns (out: Tables, r: Result<Change, Error>)
    requires t.Valid() && id in t.sessions
    ensures Performs(t, out, id, r, DecideCancel(SessionAt(t, id), RequestCancel(expected, key)))
  {
    var row, turns := t.sessions[id], t.turns[id];
    var refused := CheckRow(t, id, expected, true);
    if refused.Some? {
      return t, Err(refused.value);
    }
    if row.state != Running || row.active != Some(key) {
      return t, Err(NoActiveTurn);
    }
    if key !in turns {
      return t, Err(TurnNotFound);
    }
    if turns[key].status == TurnCancelling {
      TouchesSelf(t, id);
      return t, Ok(Change(key, "cancelling", ""));
    }
    if turns[key].status != TurnRunning {
      return t, Err(CannotCancel);
    }
    turns := turns[key := turns[key].(status := TurnCancelling)];
    row := row.(version := row.version + 1);
    out := Write(t, id, row, t.prompts[id], turns, t.intents[id]);
    r := Ok(Change(key, "cancelling", ""));
  }

  // The updates of the turn, its intent and the session row that end a turn.
  method EndTurn(t: Tables, id: string, key: string, status: TurnStatus, result: string, row: SessionRow)
    returns (out: Tables)
    requires t.Valid() && id in t.sessions && row.run == t.sessions[id].run
    ensures Touches(t, out, id)
    ensures SessionAt(out, id) ==
            Join(row, t.prompts[id], Ended(t.turns[id], key, status, result), Settled(t.intents[id], key))
  {
    var turns, intents := t.turns[id], t.intents[id];
    if key in turns {
      turns := turns[key := turns[key].(status := status, result := result)];
    }
    if key in intents {
      intents := intents[key := intents[key].(phase := Resolved)];
    }
    out := Write(t, id, row, t.prompts[id], turns, intents);
  }

  // UPDATE sessions: park, keeping an open recovery episode and its context.
  function ParkedRow(row: SessionRow, key: string): SessionRow {
    if row.visibility == VisibilityHostLost then
      row.(active := None, state := Parked, context := Some(key), version := row.version + 1)
    else row.(active := None, state := Parked, version := row.version + 1)
  }

  lemma ParkedJoins(row: SessionRow, prompts: map<string, Prompt>, turns: map<string, Turn>, intents: map<string, Intent>,
                    key: string, status: TurnStatus, result: string)
    ensures Join(ParkedRow(row, key), prompts, Ended(turns, key, status, result), Settled(intents, key)) ==
            End(Join(row, prompts, turns, intents), key, status, result)
  {
  }

  method Park(t: Tables, id: string, key: string, status: TurnStatus, result: string) returns (out: Tables)
    requires t.Valid() && id in t.sessions
    ensures Touches(t, out, id) && SessionAt(out, id) == End(SessionAt(t, id), key, status, result)
  {
    out := EndTurn(t, id, key, status, result, ParkedRow(t.sessions[id], key));
    ParkedJoins(t.sessions[id], t.prompts[id], t.turns[id], t.intents[id], key, status, result);
  }

  // UPDATE sessions: park and close the recovery episode.
  method ParkReachable(t: Tables, id: string, key: string, status: TurnStatus, result: string) returns (out: Tables)
    requires t.Valid() && id in t.sessions
    ensures Touches(t, out, id) && SessionAt(out, id) == CloseRecovery(Finish(SessionAt(t, id), key, status, result))
  {
    var row := t.sessions[id];
    row := row.(active := None, state := Parked, visibility := VisibilityReachable, activeRecoveryGen := 0,
                context := None, version := row.version + 1);
    out := EndTurn(t, id, key, status, result, row);
  }

  // UPDATE sessions: the host is reachable again.
  method ReopenHost(t: Tables, id: string) returns (out: Tables)
    requires t.Valid() && id in t.sessions
    ensures Touches(t, out, id) && SessionAt(out, id) == CloseRecovery(Bump(SessionAt(t, id)))
  {
    var row := t.sessions[id];
    row := row.(visibility := VisibilityReachable, activeRecoveryGen := 0, context := None, version := row.version + 1);
    out := Write(t, id, row, t.prompts[id], t.turns[id], t.intents[id]);
  }

  // UPDATE sessions: only the row version.
  method BumpRow(t: Tables, id: string) returns (out: Tables)
    requires t.Valid() && id in t.sessions
    ensures Touches(t, out, id) && SessionAt(out, id) == Bump(SessionAt(t, id))
  {
    var row := t.sessions[id];
    out := Write(t, id, row.(version := row.version + 1), t.prompts[id], t.turns[id], t.intents[id]);
  }

  // The guards of an outcome: a refusal, a duplicate, or a turn to end.
  method CheckOutcome(s: SessionRow, turns: map<string, Turn>, key: string, status: TurnStatus, result: string)
    returns (refused: Option<Error>, again: bool)
    ensures forall prompts, intents, duplicate, recorded :: var joined := Join(s, prompts, turns, intents);
      DecideOutcome(joined, key, status, result, duplicate, recorded) ==
        if refused.Some? then Refuse(refused.value)
        else if again then Commit(joined, key, duplicate, "")
        else Commit(End(joined, key, status, result), key, recorded, "")
  {
    if key !in turns {
      return Some(TurnNotFound), false;
    }
    var turn := turns[key];
    if turn.status.Terminal() {
      again := turn.status == status && turn.result == result;
      refused := if again then None else Some(ConflictingTerminalOutcome);
      return;
    }
    var awaited := if s.visibility == VisibilityHostLost then s.active == Some(key) || s.context == Some(key)
                   else s.state == Running && s.active == Some(key);
    return if awaited then None else Some(OutcomeDoesNotMatch), false;
  }

  // The part the two outcome operations share, from the turn query on.
  method OutcomeRows(t: Tables, id: string, key: string, status: TurnStatus, result: string, duplicate: string,
                     recorded: string)
    returns (out: Tables, r: Result<Change, Error>)
    requires t.Valid() && id in t.sessions
    ensures Performs(t, out, id, r, DecideOutcome(SessionAt(t, id), key, status, result, duplicate, recorded))
  {
    var refused, again := CheckOutcome(t.sessions[id], t.turns[id], key, status, result);
    if refused.Some? {
      return t, Err(refused.value);
    }
    if again {
      TouchesSelf(t, id);
      return t, Ok(Change(key, duplicate, ""));
    }
    out := Park(t, id, key, status, result);
    r := Ok(Change(key, recorded, ""));
  }

  method RecordHostLossRows(t: Tables, id: string, expected: int) returns (out: Tables, r: Result<Change, Error>)
    requires t.Valid() && id in t.sessions
    ensures Performs(t, out, id, r, DecideHostLoss(SessionAt(t, id), RecordHostLoss(expected)))
  {
    var row := t.sessions[id];
    var key := if row.active.Some? then row.active.value else "";
    var refused := CheckRow(t, id, expected, false);
    if refused.Some? {
      return t, Err(refused.value);
    }
    if row.visibility == VisibilityHostLost {
      TouchesSelf(t, id);
      return t, Ok(Change(key, Decimal(row.activeRecoveryGen), ""));
    }
    if row.state != Running || row.active == None {
      return t, Err(InactiveSession);
    }
    var gen := row.recoveryGen + 1;
    row := row.(recoveryGen := gen, activeRecoveryGen := gen, visibility := VisibilityHostLost, context := row.active,
                version := row.version + 1);
    out := Write(t, id, row, t.prompts[id], t.turns[id], t.intents[id]);
    r := Ok(Change(key, Decimal(gen), ""));
  }

  method SetControllerConnectionRows(t: Tables, id: string, expected: int, connection: Connection)
    returns (out: Tables, r: Result<Change, Error>)
    requires t.Valid() && id in t.sessions
    ensures Performs(t, out, id, r, DecideConnection(SessionAt(t, id), SetControllerConnection(expected, connection)))
  {
    var row := t.sessions[id];
    var payload := if connection == ControllerConnected then "connected" else "disconnected";
    var refused := CheckRow(t, id, expected, false);
    if refused.Some? {
      return t, Err(refused.value);
    }
    if row.controller == connection {
      TouchesSelf(t, id);
      return t, Ok(Change("", payload, ""));
    }
    row := row.(controller := connection, version := row.version + 1);
    out := Write(t, id, row, t.prompts[id], t.turns[id], t.intents[id]);
    r := Ok(Change("", payload, ""));
  }

  method ArchiveSessionRows(t: Tables, id: string, expected: int) returns (out: Tables, r: Result<Change, Error>)
    requires t.Valid() && id in t.sessions
    ensures Performs(t, out, id, r, DecideArchive(SessionAt(t, id), ArchiveSession(expected)))
  {
    var row := t.sessions[id];
    if row.version != expected {
      return t, Err(StaleUpdate);
    }
    if row.lifecycle == SessionArchived {
      TouchesSelf(t, id);
      return t, Ok(Change("", "", ""));
    }
    if row.state == Running || row.active.Some? || row.visibility == VisibilityHostLost {
      return t, Err(CannotArchive);
    }
    row := row.(lifecycle := SessionArchived, state := Archived, version := row.version + 1);
    out := Write(t, id, row, t.prompts[id], t.turns[id], t.intents[id]);
    r := Ok(Change("", "", ""));
  }

  method RecordDispatchObservationRows(t: Tables, id: string, key: string, phase: Phase)
    returns (out: Tables, r: Result<Change, Error>)
    requires t.Valid() && id in t.sessions
    ensures Performs(t, out, id, r, DecideObservation(SessionAt(t, id), RecordDispatchObservation(key, phase)))
  {
    var row, intents := t.sessions[id], t.intents[id];
    if key !in intents {
      return t, Err(IntentNotFound);
    }
    if !phase.Observation() {
      return t, Err(InvalidPhase);
    }
    var current := intents[key].phase;
    if current == Resolved || current == phase {
      TouchesSelf(t, id);
      return t, Ok(Change(key, if current == Resolved then "late_observation_ignored" else phase.Name(), ""));
    }
    intents := intents[key := intents[key].(phase := phase)];
    row := row.(version := row.version + 1);
    out := Write(t, id, row, t.prompts[id], t.turns[id], intents);
    r := Ok(Change(key, phase.Name(), ""));
  }

  method AcknowledgementRows(t: Tables, id: string, ref: ExecutionRef, phase: Phase)
    returns (out: Tables, r: Result<Change, Error>)
    requires t.Valid() && id in t.sessions
    ensures Performs(t, out, id, r,
                     DecideAcknowledgement(SessionAt(t, id), RecordObservedDispatchAcknowledgement(ref, phase)))
  {
    var row, intents := t.sessions[id], t.intents[id];
    var key := ref.turnKey;
    if key !in intents {
      return t, Err(IntentNotFound);
    }
    if intents[key].phase == Resolved {
      return t, Err(IntentAlreadyResolved);
    }
    var issuing := intents[key].issuedBy;
    intents := intents[key := intents[key].(phase := phase)];
    row := row.(version := row.version + 1);
    out := Write(t, id, row, t.prompts[id], t.turns[id], intents);
    r := Ok(Change(key, phase.Name() + (":issued_by_generation=" + Decimal(issuing)), ""));
  }

  method ReconcileSessionRows(san: string -> string, t: Tables, id: string, ref: ExecutionRef, recovery: RecoveryRef,
                              o: ReconciliationOutcome)
    returns (out: Tables, r: Result<Change, Error>)
    requires t.Valid() && id in t.sessions
    ensures Performs(t, out, id, r, DecideReconcile(san, SessionAt(t, id), ReconcileSession(ref, recovery, o)))
  {
    var row := t.sessions[id];
    if row.visibility != VisibilityHostLost {
      return t, Err(HostNotLost);
    }
    if recovery.generation == 0 || row.activeRecoveryGen != recovery.generation {
      return t, Err(StaleRecoveryGeneration);
    }
    if row.active.Some? {
      out, r := ReconcileActiveRows(t, id, recovery.turnKey, o, san(o.result));
    } else {
      out, r := ReconcileParkedRows(t, id, recovery.turnKey, o);
    }
  }

  method ReconcileActiveRows(t: Tables, id: string, key: string, o: ReconciliationOutcome, result: string)
    returns (out: Tables, r: Result<Change, Error>)
    requires t.Valid() && id in t.sessions
    ensures Performs(t, out, id, r, ReconcileActive(SessionAt(t, id), key, o, result))
  {
    var row := t.sessions[id];
    if row.active != Some(key) {
      return t, Err(KeyDoesNotMatch);
    }
    match o.status {
      case ReachableActive =>
        out := ReopenHost(t, id);
        r := Ok(Change(key, "reachable_active", ""));
      case Uncertain =>
        out := BumpRow(t, id);
        r := Ok(Change(key, "uncertain", ""));
      case _ =>
        var status := if o.status == ReachableTerminal then o.observed else TurnFailed;
        if !status.Terminal() {
          return t, Err(InvalidStatus);
        }
        out := ParkReachable(t, id, key, status, result);
        r := Ok(Change(key, status.Name(), ""));
    }
  }

  method ReconcileParkedRows(t: Tables, id: string, key: string, o: ReconciliationOutcome)
    returns (out: Tables, r: Result<Change, Error>)
    requires t.Valid() && id in t.sessions
    ensures Performs(t, out, id, r, ReconcileParked(SessionAt(t, id), key, o))
  {
    var row := t.sessions[id];
    if row.context != Some(key) {
      return t, Err(KeyDoesNotMatch);
    }
    match o.status {
      case ReachableActive =>
        return t, Err(ConflictsWithTerminal);
      case Uncertain =>
        out := BumpRow(t, id);
        r := Ok(Change(key, "uncertain", ""));
      case _ =>
        out := ReopenHost(t, id);
        r := Ok(Change(key, "reconciled_post_terminal", ""));
    }
  }

  method ResolveAgyTurnUncertaintyRows(san: string -> string, t: Tables, id: string, open: bool, generation: nat,
                                       expected: int, ref: ExecutionRef, abandoned: bool, reason: string)
    returns (out: Tables, r: Result<Change, Error>)
    requires t.Valid() && id in t.sessions
    ensures Performs(t, out, id, r, DecideAbandon(san, SessionAt(t, id), open,
                     ResolveAgyTurnUncertainty(generation, expected, ref, abandoned, reason)))
  {
    var row, turns := t.sessions[id], t.turns[id];
    var key, sanitized := ref.turnKey, san(reason);
    if row.version != expected {
      return t, Err(StaleUpdate);
    }
    if row.lifecycle == SessionArchived {
      return t, Err(SessionIsArchived);
    }
    if row.controller != ControllerConnected {
      return t, Err(ControllerIsDisconnected);
    }
    if row.contributor != "agy" {
      return t, Err(NotAgySession);
    }
    if (row.active.Some? && row.active != Some(key)) || (row.active != Some(key) && row.context != Some(key)) {
      return t, Err(NotRecovering);
    }
    if key !in turns {
      return t, Err(TurnNotFound);
    }
    if !turns[key].status.Live() {
      return t, Err(ConflictingTerminalOutcome);
    }
    if !open {
      return t, Err(AttemptNotUncertain);
    }
    out := ParkReachable(t, id, key, TurnInterrupted,
                         "controller abandoned uncertain attempt (native outcome unknown): " + sanitized);
    r := Ok(Change(key, AbandonPayload(ref.attempt, sanitized, generation), ""));
  }
}
