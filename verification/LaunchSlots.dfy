// Launch slots and attempt verdicts: codex allows a first launch and one
// redispatch under verified absence (internal/storage/codex_state.go), agy
// exactly one launch (internal/storage/agy_state.go, agy_disposition.go).
module LaunchSlots {
  import opened Domain

  datatype LaunchState = Reserved | Started | StartFailed | Dead

  datatype Observed = ObservedUncertain | ObservedMissing | ObservedCompleted | ObservedFailed | ObservedCancelled
    | ObservedInterrupted

  datatype SlotError =
    | UnknownAttempt
    | AttemptExists
    | NotProtected
    | NoAttestation
    | AbsenceNotVerified
    | SlotUnavailable
    | AbsenceRefused
    | VerdictRefused
    | DispositionRefused
    | UnknownLaunchState

  // Launch rows in the order of their reservation numbers.
  function Live(rows: seq<LaunchState>): nat {
    if rows == [] then 0 else Live(rows[..|rows| - 1]) + (if rows[|rows| - 1] == StartFailed then 0 else 1)
  }

  predicate AnyRan(rows: seq<LaunchState>) {
    exists i :: 0 <= i < |rows| && (rows[i] == Started || rows[i] == Dead)
  }

  lemma LiveAppend(rows: seq<LaunchState>, s: LaunchState)
    ensures Live(rows + [s]) == Live(rows) + if s == StartFailed then 0 else 1
  {
    assert (rows + [s])[..|rows|] == rows;
  }

  lemma {:induction false} LivePut(rows: seq<LaunchState>, i: nat, s: LaunchState)
    requires i < |rows|
    ensures Live(rows[i := s]) + (if rows[i] == StartFailed then 0 else 1) ==
            Live(rows) + if s == StartFailed then 0 else 1
    decreases |rows|
  {
    var n := |rows| - 1;
    if i == n {
      assert rows[i := s][..n] == rows[..n];
    } else {
      LivePut(rows[..n], i, s);
      assert rows[i := s][..n] == rows[..n][i := s];
    }
  }

  // Protection, its attestation and the decision on absence are frozen on the
  // attempt or written once.
  datatype Codex = Codex(
    protection: string,
    attestation: Option<string>,
    absence: bool,
    consumed: bool,
    count: int,
    observed: Observed,
    rows: seq<LaunchState>)

  predicate Attested(a: Codex, attestations: set<string>) {
    a.attestation.Some? && !Blank(a.attestation.value) && a.attestation.value in attestations
  }

  function Reserve(a: Codex, attestations: set<string>): Result<Codex, SlotError> {
    var reserved := a.(count := a.count + 1, rows := a.rows + [Reserved]);
    if a.count == 0 then Ok(reserved)
    else if a.count == 1 && !a.consumed && AnyRan(a.rows) then
      if a.protection != "protected" then Err(NotProtected)
      else if !Attested(a, attestations) then Err(NoAttestation)
      else if !a.absence then Err(AbsenceNotVerified)
      else Ok(reserved.(consumed := true))
    else Err(SlotUnavailable)
  }

  // The states a launch can be reported in; any other report is refused.
  predicate Reportable(s: LaunchState) {
    s != Reserved
  }

  // No row, no effect; there is no guard on the state the row is in.
  function RecordState(a: Codex, i: nat, s: LaunchState): Codex
    requires Reportable(s)
  {
    var rows := if i < |a.rows| then a.rows[i := s] else a.rows;
    if s == StartFailed && a.count > 0 && a.observed == ObservedUncertain then
      a.(rows := rows, count := a.count - 1, observed := ObservedMissing)
    else a.(rows := rows)
  }

  function VerifyAbsence(a: Codex, attestations: set<string>): Result<Codex, SlotError> {
    if a.protection == "protected" && a.attestation.Some? && a.attestation.value != "" && !a.absence
       && a.attestation.value in attestations then Ok(a.(absence := true))
    else Err(AbsenceRefused)
  }

  ghost predicate Bounded(a: Codex) {
    Live(a.rows) <= a.count <= 2
  }

  // A recorded absence, a spent redispatch and a second slot have their
  // protected evidence.
  ghost predicate Evidenced(a: Codex, attestations: set<string>) {
    && (a.absence ==> a.protection == "protected" && a.attestation.Some? && a.attestation.value in attestations)
    && (a.consumed ==> a.protection == "protected" && Attested(a, attestations) && a.absence)
    && (a.count == 2 ==> a.consumed)
  }

  lemma ReserveKeepsBounds(a: Codex, attestations: set<string>)
    requires Bounded(a) && Evidenced(a, attestations) && Reserve(a, attestations).Ok?
    ensures Bounded(Reserve(a, attestations).value) && Evidenced(Reserve(a, attestations).value, attestations)
    ensures Live(Reserve(a, attestations).value.rows) == Live(a.rows) + 1
  {
    LiveAppend(a.rows, Reserved);
  }

  // A row that has failed to start is brought back, or fails again while the
  // attempt reads uncertain.
  predicate Undermines(a: Codex, i: nat, s: LaunchState) {
    && i < |a.rows| && a.rows[i] == StartFailed
    && (s != StartFailed || (a.count > 0 && a.observed == ObservedUncertain))
  }

  // A failure reported for a row that does not exist.
  predicate Phantom(a: Codex, i: nat, s: LaunchState) {
    i >= |a.rows| && s == StartFailed && a.count > 0 && a.observed == ObservedUncertain
  }

  // The bound survives a recorded launch state exactly when the record does
  // not undermine a failed row, or name a missing one, with every slot taken.
  lemma RecordKeepsBoundIff(a: Codex, i: nat, s: LaunchState)
    requires Bounded(a) && Reportable(s)
    ensures Bounded(RecordState(a, i, s)) <==>
            !((Undermines(a, i, s) || Phantom(a, i, s)) && Live(a.rows) == a.count)
  {
    if i < |a.rows| {
      LivePut(a.rows, i, s);
    }
  }

  // The transitions callers make: reserved, then started, then dead; or
  // reserved, then failed to start.
  predicate Disciplined(a: Codex, i: nat, s: LaunchState) {
    && i < |a.rows|
    && match s
       case Reserved => false
       case Started => a.rows[i] == Reserved
       case StartFailed => a.rows[i] == Reserved
       case Dead => a.rows[i] == Started
  }

  // A row that was never reserved into a live state counts against the bound:
  // one failed launch, reported as started after all, exceeds its slots.
  lemma RevivalBreaksBound()
    ensures
      var a := Codex("advisory", None, false, false, 0, ObservedUncertain, []);
      var failed := RecordState(Reserve(a, {}).value, 0, StartFailed);
      Bounded(failed) && !Bounded(RecordState(failed, 0, Started))
  {
    var a := Codex("advisory", None, false, false, 0, ObservedUncertain, []);
    var reserved := Reserve(a, {}).value;
    var failed := RecordState(reserved, 0, StartFailed);
    LiveAppend([], Reserved);
    LivePut(reserved.rows, 0, StartFailed);
    LivePut(failed.rows, 0, Started);
  }

  datatype CodexStep =
    | ReserveLaunch
    | RecordLaunch(row: nat, state: LaunchState)
    | RecordAbsence
    | Observe(observed: Observed)
    | Attest(id: string)

  datatype CodexWorld = CodexWorld(attempt: Codex, attestations: set<string>)

  function Or(r: Result<Codex, SlotError>, a: Codex): Codex {
    match r case Ok(after) => after case Err(_) => a
  }

  function NextCodex(w: CodexWorld, step: CodexStep): CodexWorld {
    match step
    case ReserveLaunch => w.(attempt := Or(Reserve(w.attempt, w.attestations), w.attempt))
    case RecordLaunch(row, state) =>
      if Reportable(state) then w.(attempt := RecordState(w.attempt, row, state)) else w
    case RecordAbsence => w.(attempt := Or(VerifyAbsence(w.attempt, w.attestations), w.attempt))
    case Observe(observed) => w.(attempt := w.attempt.(observed := observed))
    case Attest(id) => w.(attestations := w.attestations + {id})
  }

  function RunCodex(w: CodexWorld, steps: seq<CodexStep>): CodexWorld
    decreases |steps|
  {
    if steps == [] then w else RunCodex(NextCodex(w, steps[0]), steps[1..])
  }

  predicate DisciplinedRun(w: CodexWorld, steps: seq<CodexStep>)
    decreases |steps|
  {
    steps == [] ||
    ((steps[0].RecordLaunch? ==> Disciplined(w.attempt, steps[0].row, steps[0].state))
     && DisciplinedRun(NextCodex(w, steps[0]), steps[1..]))
  }

  ghost predicate CodexInv(w: CodexWorld) {
    Bounded(w.attempt) && Evidenced(w.attempt, w.attestations)
  }

  // Over any disciplined run at most two launches that did not fail to start,
  // and a second only for a protected attempt with an existing attestation and
  // a recorded absence.
  lemma {:induction false} LaunchesAreBounded(w: CodexWorld, steps: seq<CodexStep>)
    requires CodexInv(w) && DisciplinedRun(w, steps)
    ensures
      var after := RunCodex(w, steps);
      && Live(after.attempt.rows) <= after.attempt.count <= 2
      && (Live(after.attempt.rows) == 2 ==>
            after.attempt.protection == "protected" && Attested(after.attempt, after.attestations) && after.attempt.absence)
    decreases |steps|
  {
    if steps != [] {
      StepBounded(w, steps[0]);
      LaunchesAreBounded(NextCodex(w, steps[0]), steps[1..]);
    }
  }

  lemma StepBounded(w: CodexWorld, step: CodexStep)
    requires CodexInv(w) && (step.RecordLaunch? ==> Disciplined(w.attempt, step.row, step.state))
    ensures CodexInv(NextCodex(w, step))
  {
    match step
    case ReserveLaunch =>
      if Reserve(w.attempt, w.attestations).Ok? {
        ReserveKeepsBounds(w.attempt, w.attestations);
      }
    case RecordLaunch(row, state) => RecordKeepsBoundIff(w.attempt, row, state);
    case _ =>
  }

  // The codex attempt and its launch rows, updated in place.
  class CodexAttempt {
    const protection: string
    const attestation: Option<string>
    var absence: bool
    var consumed: bool
    var count: int
    var observed: Observed
    var rows: seq<LaunchState>

    ghost function View(): Codex
      reads this
    {
      Codex(protection, attestation, absence, consumed, count, observed, rows)
    }

    constructor (protection: string, attestation: Option<string>)
      ensures View() == Codex(protection, attestation, false, false, 0, ObservedUncertain, [])
    {
      this.protection, this.attestation := protection, attestation;
      absence, consumed, count, observed, rows := false, false, 0, ObservedUncertain, [];
    }

    method ReserveCodexLaunch(attestations: set<string>) returns (r: Result<nat, SlotError>)
      modifies this`count, this`consumed, this`rows
      ensures match Reserve(old(View()), attestations)
              case Ok(after) => r == Ok(|old(rows)|) && View() == after
              case Err(e) => r == Err(e) && View() == old(View())
    {
      var ran := exists i :: 0 <= i < |rows| && (rows[i] == Started || rows[i] == Dead);
      if count == 0 {
      } else if count == 1 && !consumed && ran {
        if protection != "protected" {
          return Err(NotProtected);
        }
        if attestation == None || Blank(attestation.value) || attestation.value !in attestations {
          return Err(NoAttestation);
        }
        if !absence {
          return Err(AbsenceNotVerified);
        }
        consumed := true;
      } else {
        return Err(SlotUnavailable);
      }
      var row: nat := |rows|;
      rows := rows + [Reserved];
      count := count + 1;
      return Ok(row);
    }

    method RecordCodexLaunchState(row: nat, state: LaunchState) returns (e: Option<SlotError>)
      modifies this`rows, this`count, this`observed
      ensures Reportable(state) ==> e == None && View() == RecordState(old(View()), row, state)
      ensures !Reportable(state) ==> e == Some(UnknownLaunchState) && View() == old(View())
    {
      if state == Reserved {
        return Some(UnknownLaunchState);
      }
      if row < |rows| {
        rows := rows[row := state];
      }
      if state == StartFailed && count > 0 && observed == ObservedUncertain {
        count := count - 1;
        observed := ObservedMissing;
      }
      return None;
    }

    method RecordCodexAbsenceVerified(attestations: set<string>) returns (e: Option<SlotError>)
      modifies this`absence
      ensures match VerifyAbsence(old(View()), attestations)
              case Ok(after) => e == None && View() == after
              case Err(error) => e == Some(error) && View() == old(View())
    {
      if protection == "protected" && attestation.Some? && attestation.value != "" && !absence
         && attestation.value in attestations {
        absence := true;
        return None;
      }
      return Some(AbsenceRefused);
    }
  }

  // An agy attempt: one launch, one verdict, at most one disposition.
  datatype Agy = Agy(
    count: int,
    rows: seq<LaunchState>,
    observed: Observed,
    terminal: bool,
    result: string,
    abandoned: bool)

  const NEW_AGY := Agy(0, [], ObservedUncertain, false, "", false)

  datatype AgyStep =
    | ReserveAgy
    | RecordAgy(row: nat, state: LaunchState)
    | SetMissing
    | SetTerminal(verdict: Observed, payload: string)
    | Abandon

  predicate Verdict(o: Observed) {
    o.ObservedCompleted? || o.ObservedFailed? || o.ObservedCancelled?
  }

  // HasAgyUnresolvedAttempts, for one attempt.
  predicate Blocks(a: Agy) {
    a.observed == ObservedUncertain && !a.abandoned
  }

  function NextAgy(a: Agy, step: AgyStep): Agy {
    match step
    case ReserveAgy => if a.count != 0 then a else a.(count := a.count + 1, rows := a.rows + [Reserved])
    case RecordAgy(row, state) =>
      if !Reportable(state) then a else
      var rows := if row < |a.rows| then a.rows[row := state] else a.rows;
      a.(rows := rows,
         observed := if state == StartFailed && a.observed == ObservedUncertain then ObservedMissing else a.observed)
    case SetMissing =>
      if !a.terminal && a.observed == ObservedUncertain then a.(observed := ObservedMissing) else a
    case SetTerminal(verdict, payload) =>
      if Verdict(verdict) && !a.terminal && a.observed == ObservedUncertain then
        a.(terminal := true, result := payload, observed := verdict)
      else a
    case Abandon => if !a.terminal && Blocks(a) then a.(abandoned := true) else a
  }

  // What refuses a step. Re-recording `missing` succeeds without an effect.
  function RefuseAgy(a: Agy, step: AgyStep): Option<SlotError> {
    match step
    case ReserveAgy => if a.count == 0 then None else Some(SlotUnavailable)
    case RecordAgy(_, state) => if Reportable(state) then None else Some(UnknownLaunchState)
    case SetMissing =>
      if !a.terminal && (a.observed == ObservedUncertain || a.observed == ObservedMissing) then None
      else Some(VerdictRefused)
    case SetTerminal(verdict, _) =>
      if Verdict(verdict) && !a.terminal && a.observed == ObservedUncertain then None else Some(VerdictRefused)
    case Abandon => if !a.terminal && Blocks(a) then None else Some(DispositionRefused)
  }

  // Steps on an attempt that has no row: a report updates no row, a verdict
  // is refused like a second one, and the others look for the attempt first.
  function RefuseMissing(step: AgyStep): Option<SlotError> {
    match step
    case ReserveAgy => Some(UnknownAttempt)
    case RecordAgy(_, state) => if Reportable(state) then None else Some(UnknownLaunchState)
    case SetMissing => Some(UnknownAttempt)
    case SetTerminal(_, _) => Some(VerdictRefused)
    case Abandon => Some(DispositionRefused)
  }

  // What an accepted step leaves: the one launch, the state reported of it, a
  // failed start read as missing, and the verdict with its payload.
  lemma AcceptedAgyStep(a: Agy, step: AgyStep)
    requires AgyInv(a) && RefuseAgy(a, step) == None
    ensures
      var b := NextAgy(a, step);
      && (step.ReserveAgy? ==> b == a.(count := 1, rows := [Reserved]))
      && (step.RecordAgy? && step.row < |a.rows| ==> b.rows == a.rows[step.row := step.state])
      && (step.RecordAgy? ==> b.count == a.count && |b.rows| == |a.rows| && b.terminal == a.terminal && b.result == a.result)
      && (step.RecordAgy? && step.state == StartFailed ==> b.observed != ObservedUncertain)
      && (step.RecordAgy? && step.state != StartFailed ==> b.observed == a.observed)
      && (step.SetMissing? ==> b == a.(observed := ObservedMissing))
      && (step.SetTerminal? ==> b == a.(terminal := true, result := step.payload, observed := step.verdict))
      && (step.Abandon? ==> b == a.(abandoned := true) && !Blocks(b))
  {
  }

  lemma RefusedChangesNothing(a: Agy, step: AgyStep)
    requires RefuseAgy(a, step).Some?
    ensures NextAgy(a, step) == a
  {
  }

  function RunAgy(a: Agy, steps: seq<AgyStep>): Agy
    decreases |steps|
  {
    if steps == [] then a else RunAgy(NextAgy(a, steps[0]), steps[1..])
  }

  // One launch ever; a verdict, once given, stands with its result; the
  // session is blocked no more.
  ghost predicate AgyLater(a: Agy, b: Agy) {
    && (a.observed != ObservedUncertain ==> b.observed == a.observed)
    && (a.terminal ==> b.terminal && b.result == a.result)
    && (a.abandoned ==> b.abandoned)
    && (!Blocks(a) ==> !Blocks(b))
    && |b.rows| >= |a.rows|
  }

  ghost predicate AgyInv(a: Agy) {
    |a.rows| == a.count <= 1 && (a.terminal ==> Verdict(a.observed))
  }

  lemma {:induction false} AgySettlesOnce(a: Agy, steps: seq<AgyStep>)
    requires AgyInv(a)
    ensures AgyInv(RunAgy(a, steps)) && AgyLater(a, RunAgy(a, steps))
    decreases |steps|
  {
    if steps != [] {
      assert AgyInv(NextAgy(a, steps[0])) && AgyLater(a, NextAgy(a, steps[0]));
      AgySettlesOnce(NextAgy(a, steps[0]), steps[1..]);
    }
  }

  class AgyAttempt {
    var count: int
    var rows: seq<LaunchState>
    var observed: Observed
    var terminal: bool
    var result: string
    var abandoned: bool

    ghost function View(): Agy
      reads this
    {
      Agy(count, rows, observed, terminal, result, abandoned)
    }

    constructor ()
      ensures View() == NEW_AGY
    {
      count, rows, observed, terminal, result, abandoned := 0, [], ObservedUncertain, false, "", false;
    }

    method ReserveAgyLaunch() returns (r: Result<nat, SlotError>)
      modifies this`count, this`rows
      ensures View() == NextAgy(old(View()), ReserveAgy)
      ensures match RefuseAgy(old(View()), ReserveAgy) case None => r == Ok(|old(rows)|) case Some(e) => r == Err(e)
    {
      if count != 0 {
        return Err(SlotUnavailable);
      }
      var row: nat := |rows|;
      rows := rows + [Reserved];
      count := count + 1;
      return Ok(row);
    }

    method RecordAgyLaunchState(row: nat, state: LaunchState) returns (e: Option<SlotError>)
      modifies this`rows, this`observed
      ensures View() == NextAgy(old(View()), RecordAgy(row, state))
      ensures e == RefuseAgy(old(View()), RecordAgy(row, state))
    {
      if state == Reserved {
        return Some(UnknownLaunchState);
      }
      if row < |rows| {
        rows := rows[row := state];
      }
      if state == StartFailed && observed == ObservedUncertain {
        observed := ObservedMissing;
      }
      return None;
    }

    method SetAgyAttemptObservedStatus(status: Observed) returns (e: Option<SlotError>)
      modifies this`observed
      ensures status == ObservedMissing ==> View() == NextAgy(old(View()), SetMissing)
      ensures status != ObservedMissing ==> View() == old(View())
      ensures e == if status == ObservedMissing then RefuseAgy(old(View()), SetMissing) else Some(VerdictRefused)
    {
      if status != ObservedMissing {
        return Some(VerdictRefused);
      }
      if !terminal && observed == ObservedUncertain {
        observed := ObservedMissing;
        return None;
      }
      if !terminal && observed == status {
        return None;
      }
      return Some(VerdictRefused);
    }

    method SetAgyAttemptTerminal(verdict: Observed, payload: string) returns (e: Option<SlotError>)
      modifies this`terminal, this`result, this`observed
      ensures View() == NextAgy(old(View()), SetTerminal(verdict, payload))
      ensures e == RefuseAgy(old(View()), SetTerminal(verdict, payload))
    {
      if !Verdict(verdict) {
        return Some(VerdictRefused);
      }
      if terminal || observed != ObservedUncertain {
        return Some(VerdictRefused);
      }
      terminal, result, observed := true, payload, verdict;
      return None;
    }

    // The attempt's part of ResolveAgyTurnUncertainty.
    method Dispose() returns (e: Option<SlotError>)
      modifies this`abandoned
      ensures View() == NextAgy(old(View()), Abandon)
      ensures e == RefuseAgy(old(View()), Abandon)
    {
      if terminal || observed != ObservedUncertain || abandoned {
        return Some(DispositionRefused);
      }
      abandoned := true;
      return None;
    }
  }
}
