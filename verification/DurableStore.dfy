// The durable store: every operation is one write transaction on a private
// copy of the tables, replaced by its commit. Each is proved to be the atomic
// step that `Database` describes, whatever it refuses.
module DurableStore {
  import opened Domain
  import opened SessionRules
  import opened ControllerRules
  import opened Database
  import opened Tables
  import opened SessionTransactions
  import opened ControllerTransactions
  import L = LaunchSlots

  // resolveExecutionRef
  method ResolveExecutionRef(t: Tables, ref: ExecutionRef) returns (refused: Option<Error>)
    requires t.Valid()
    ensures refused == ResolveRef(View(t), ref)
  {
    if !ValidRef(ref) {
      return Some(InvalidReference);
    }
    if ref.session !in t.sessions || ref.turnKey !in t.intents[ref.session] {
      return Some(NoAcceptedExecution);
    }
    if t.intents[ref.session][ref.turnKey].attempt != ref.attempt {
      return Some(WrongExecutionAttempt);
    }
    return None;
  }

  // authorizeSessionController
  method AuthorizeSession(t: Tables, id: string, lease: string, requireAdopted: bool) returns (r: Result<nat, Error>)
    requires t.Valid()
    ensures r == Authorize(View(t), id, lease, requireAdopted)
  {
    if id !in t.sessions {
      return Err(SessionNotFound);
    }
    r := ClassifyCredential(t, t.sessions[id].run, lease, requireAdopted);
  }

  // What comes before the idempotency lookup.
  method CheckGate(t: Tables, lease: string, named: string, c: Command) returns (r: Result<nat, Error>)
    requires t.Valid()
    ensures r == Gate(View(t), lease, named, c)
  {
    if Evidence(c) {
      var refused := ResolveExecutionRef(t, Reference(c));
      return if refused.Some? then Err(refused.value) else Ok(0);
    }
    if c.RecordDispatchObservation? {
      return Ok(0);
    }
    r := AuthorizeSession(t, Target(named, c), lease, !c.ArchiveSession?);
    if c.ResolveAgyTurnUncertainty? && r.Ok? && r.value != c.generation {
      return Err(GenerationMismatch);
    }
  }

  // requireRunConnected, for the commands that call it.
  method CheckNeeded(t: Tables, run: string, c: Command) returns (refused: Option<Error>)
    requires t.Valid() && run in t.runs
    ensures refused == if NeedsConnection(c) then RequireConnected(AuthorityAt(t, run)) else None
  {
    refused := None;
    if NeedsConnection(c) {
      refused := CheckRunConnected(t, run);
    }
  }

  // What a new decision needs beyond it.
  method CheckReady(t: Tables, lease: string, named: string, c: Command) returns (refused: Option<Error>)
    requires t.Valid()
    ensures refused == Ready(View(t), lease, named, c)
  {
    var id := Target(named, c);
    if id !in t.sessions {
      return Some(SessionNotFound);
    }
    var run := t.sessions[id].run;
    refused := CheckNeeded(t, run, c);
    if refused.Some? {
      return;
    }
    refused := CheckCommand(t, run, lease, c);
  }

  // What single commands ask besides.
  method CheckCommand(t: Tables, run: string, lease: string, c: Command) returns (refused: Option<Error>)
    requires t.Valid() && run in t.runs
    ensures refused == CommandReady(View(t), AuthorityAt(t, run), lease, c)
  {
    if c.RecordDispatchObservation? && t.runs[run].lease != lease {
      return Some(Unauthorized);
    }
    if c.ResolveAgyTurnUncertainty? {
      refused := ResolveExecutionRef(t, c.ref);
      return;
    }
    return None;
  }

  method RecordTerminalOutcomeRows(san: string -> string, t: Tables, id: string, expected: int, key: string,
                                   status: TurnStatus, result: string)
    returns (out: Tables, r: Result<Change, Error>)
    requires t.Valid() && id in t.sessions
    ensures Performs(t, out, id, r, if Current(SessionAt(t, id), expected).Some?
                                    then Refuse(Current(SessionAt(t, id), expected).value)
                                    else DecideOutcome(SessionAt(t, id), key, status, san(result), status.Name(), status.Name()))
  {
    var refused := CheckRow(t, id, expected, false);
    if refused.Some? {
      return t, Err(refused.value);
    }
    out, r := OutcomeRows(t, id, key, status, san(result), status.Name(), status.Name());
  }

  method RecordObservedOutcomeRows(san: string -> string, t: Tables, id: string, ref: ExecutionRef, status: TurnStatus,
                                   result: string)
    returns (out: Tables, r: Result<Change, Error>)
    requires t.Valid() && id in t.sessions
    ensures Performs(t, out, id, r,
              if SessionAt(t, id).lifecycle == SessionArchived then Refuse(SessionIsArchived)
              else DecideOutcome(SessionAt(t, id), ref.turnKey, status, san(result), status.Name() + ":duplicate",
                                 status.Name() + IssuedBy(SessionAt(t, id), ref.turnKey)))
  {
    if t.sessions[id].lifecycle == SessionArchived {
      return t, Err(SessionIsArchived);
    }
    var issuing := if ref.turnKey in t.intents[id] then t.intents[id][ref.turnKey].issuedBy else 0;
    out, r := OutcomeRows(t, id, ref.turnKey, status, san(result), status.Name() + ":duplicate",
                          status.Name() + (":issued_by_generation=" + Decimal(issuing)));
  }

  // The journal entry that commits with the rows.
  lemma JournaledView(san: string -> string, t: Tables, out: Tables, op: string, named: string, c: Command, d: Decision,
                      done: Tables, receipt: Receipt)
    requires t.Valid() && d.Commit? && Touches(t, out, Target(named, c)) && SessionAt(out, Target(named, c)) == d.after
    requires receipt == Receipt(op, KindOf(c), Target(named, c), d.turnKey, d.after.version, d.payload, d.attempt)
    requires done == out.(
      journal := out.journal[op := Entry(KindOf(c), CommandMark(san, named, c), receipt)],
      attempts := AttemptsAfter(out.attempts, c))
    ensures done.Valid() && Outcome(View(done), Fresh(receipt)) == CommitSession(san, View(t), op, named, c, d)
  {
    TouchesView(t, out, Target(named, c));
    SameRowsSeen(out, done);
  }

  // The journal and the attempts stand beside the joined tables.
  lemma SameRowsSeen(t: Tables, out: Tables)
    requires t.Valid() && out == t.(journal := out.journal, attempts := out.attempts)
    ensures out.Valid() && View(out) == View(t).(journal := out.journal, attempts := out.attempts)
  {
    RunsStay(t, out);
    SessionsStay(t, out);
  }

  // checkOrRecordIdempotency, then the preconditions of a new decision.
  method Replay(san: string -> string, t: Tables, op: string, lease: string, named: string, gen: nat, c: Command)
    returns (answer: Option<Reply>)
    requires t.Valid()
    ensures answer.Some? ==> Outcome(View(t), answer.value) == Answer(san, View(t), op, lease, named, gen, c)
    ensures answer == None ==>
      && Ready(View(t), lease, named, c) == None
      && Answer(san, View(t), op, lease, named, gen, c) == NewDecision(san, View(t), op, lease, named, gen, c)
  {
    if !Overlooked(t.journal, op, c) {
      match Find(t.journal, op, KindOf(c), CommandMark(san, named, c)) {
        case Match(receipt) => return Some(Replayed(receipt));
        case Clash => return Some(Refused(IdempotencyConflict));
        case Absent =>
      }
    }
    var refused := CheckReady(t, lease, named, c);
    answer := if refused.Some? then Some(Refused(refused.value)) else None;
  }

  // The arguments and the gate come first.
  method Prepare(san: string -> string, t: Tables, op: string, lease: string, named: string, c: Command)
    returns (gen: nat, answer: Option<Reply>)
    requires t.Valid()
    ensures answer.Some? ==> Outcome(View(t), answer.value) == ExecuteSession(san, View(t), op, lease, named, c)
    ensures answer == None ==>
      && Ready(View(t), lease, named, c) == None
      && ExecuteSession(san, View(t), op, lease, named, c) == NewDecision(san, View(t), op, lease, named, gen, c)
  {
    gen := 0;
    var refused := Arguments(op, lease, c);
    if refused.Some? {
      return 0, Some(Refused(refused.value));
    }
    var who := CheckGate(t, lease, named, c);
    if who.Err? {
      return 0, Some(Refused(who.error));
    }
    gen := who.value;
    answer := Replay(san, t, op, lease, named, gen, c);
  }

  lemma ReadySettles(san: string -> string, t: Tables, op: string, lease: string, named: string, gen: nat, c: Command)
    requires t.Valid() && Ready(View(t), lease, named, c) == None
    ensures Target(named, c) in t.sessions
    ensures NewDecision(san, View(t), op, lease, named, gen, c) ==
            Settle(san, View(t), op, named, c,
                   Decide(san, SessionAt(t, Target(named, c)), gen, OpenAttempt(View(t), c), c))
  {
  }

  // Everything before the command's own rows. Either the transaction is
  // answered here or what remains is to settle the decision on the session.
  method Open(san: string -> string, t: Tables, op: string, lease: string, named: string, c: Command)
    returns (gen: nat, answer: Option<Reply>)
    requires t.Valid()
    ensures answer.Some? ==> Outcome(View(t), answer.value) == ExecuteSession(san, View(t), op, lease, named, c)
    ensures answer == None ==>
      && Target(named, c) in t.sessions
      && ExecuteSession(san, View(t), op, lease, named, c) ==
           Settle(san, View(t), op, named, c,
                  Decide(san, SessionAt(t, Target(named, c)), gen, OpenAttempt(View(t), c), c))
  {
    gen, answer := Prepare(san, t, op, lease, named, c);
    if answer == None {
      ReadySettles(san, t, op, lease, named, gen, c);
    }
  }

  // The receipt and the journal entry, beside the rows.
  method CommitRows(san: string -> string, t: Tables, op: string, named: string, c: Command, rows: Tables, change: Change,
                    ghost d: Decision)
    returns (out: Tables, receipt: Receipt)
    requires t.Valid() && Target(named, c) in t.sessions && d.Commit?
    requires Performs(t, rows, Target(named, c), Ok(change), d)
    ensures out.Valid() && Outcome(View(out), Fresh(receipt)) == CommitSession(san, View(t), op, named, c, d)
  {
    receipt := Receipt(op, KindOf(c), Target(named, c), change.turnKey, rows.sessions[Target(named, c)].version,
                       change.payload, change.attempt);
    out := rows.(
      journal := rows.journal[op := Entry(KindOf(c), CommandMark(san, named, c), receipt)],
      attempts := AttemptsAfter(rows.attempts, c));
    JournaledView(san, t, rows, op, named, c, d, out, receipt);
  }

  // The commit, unless the decision or a reused journal key stops it.
  method Close(san: string -> string, t: Tables, op: string, named: string, c: Command, rows: Tables,
               r: Result<Change, Error>, ghost d: Decision)
    returns (out: Tables, reply: Reply)
    requires t.Valid() && Target(named, c) in t.sessions && Performs(t, rows, Target(named, c), r, d)
    ensures out.Valid() && Outcome(View(out), reply) == Settle(san, View(t), op, named, c, d)
  {
    if r.Err? || op in t.journal {
      return t, Refused(if r.Err? then r.error else ConstraintViolation);
    }
    var receipt;
    out, receipt := CommitRows(san, t, op, named, c, rows, r.value, d);
    reply := Fresh(receipt);
  }

  // What comes before the replay of a controller transition.
  method CheckControllerGate(t: Tables, run: string, c: ControllerCommand) returns (r: Result<nat, Error>)
    requires t.Valid()
    ensures r == ControllerGate(View(t), run, c)
  {
    match c {
      case Revoke(lease, recovery) =>
        if recovery.Some? {
          return Ok(recovery.value.expected);
        }
        r := ClassifyCredential(t, run, lease, true);
      case Connect(lease, expected, _, _) =>
        r := ClassifyCredential(t, run, lease, true);
        r := AtGeneration(r, expected);
      case Disconnect(lease, _, expected) =>
        r := ClassifyCredential(t, run, lease, true);
        r := AtGeneration(r, expected);
      case _ => r := Ok(0);
    }
  }

  // A journaled operation granted some run's lease.
  method CheckIssuance(t: Tables, op: string) returns (issued: bool)
    requires t.Valid()
    ensures issued == HasIssuance(View(t), op)
  {
    issued := exists run :: run in t.leases && exists n :: n in t.leases[run] && t.leases[run][n].grantedBy == op;
    if issued {
      var run, n :| run in t.leases && n in t.leases[run] && t.leases[run][n].grantedBy == op;
      assert Issued(View(t).runs[run], op).Some?;
    }
  }

  // The answer to a journaled controller transition.
  method ReplayControl(san: string -> string, t: Tables, op: string, run: string, c: ControllerCommand, receipt: Receipt)
    returns (reply: Reply)
    requires t.Valid()
    ensures reply == ReplayController(san, View(t), op, run, c, receipt)
  {
    if c.Adopt? || c.Handoff? {
      var issued := CheckIssuance(t, op);
      return if issued then Replayed(receipt) else Refused(NoIssuance);
    }
    if !c.Recover? {
      return Replayed(receipt);
    }
    if run !in t.runs {
      return Refused(RecoveryUnavailable);
    }
    var r := RecoverRows(t, run, c.source, c.expected);
    if r.Err? {
      return Refused(r.error);
    }
    reply := Disclosed(r.value.generation, LeaseOf(t, run, r.value.generation));
  }

  function LeaseOf(t: Tables, run: string, gen: nat): string {
    if run in t.leases && gen in t.leases[run] then t.leases[run][gen].lease else ""
  }

  // The refusal of a transition on a run that does not exist.
  function NoRun(c: ControllerCommand): Error {
    match c
    case Recover(_, _) => RecoveryUnavailable
    case Revoke(_, recovery) => if recovery.Some? then NoGrantToRevoke else RunNotFound
    case Handoff(lease, _, _, _, _) => if Blank(lease) then AdoptionRequired else RunNotFound
    case _ => RunNotFound
  }

  ghost function SettleControl(san: string -> string, db: Db, op: string, run: string, target: nat, c: ControllerCommand,
                               d: ControllerDecision): Outcome
  {
    if d.RefuseController? then Outcome(db, Refused(d.error)) else CommitControl(san, db, op, run, target, c, d)
  }

  // Everything before a transition's own rows.
  method OpenControl(san: string -> string, t: Tables, op: string, run: string, c: ControllerCommand)
    returns (target: nat, answer: Option<Reply>)
    requires t.Valid()
    ensures answer.Some? ==> Outcome(View(t), answer.value) == ExecuteController(san, View(t), op, run, c)
    ensures answer == None ==>
      && run in t.runs && ControllerGate(View(t), run, c) == Ok(target)
      && ExecuteController(san, View(t), op, run, c) ==
           SettleControl(san, View(t), op, run, target, c,
             DecideController(san, AuthorityAt(t, run), op, c.Recover? && IsIssuance(t.journal, c.source), c))
  {
    target := 0;
    if MalformedController(op, c) {
      return 0, Some(Refused(InvalidParameters));
    }
    var who := CheckControllerGate(t, run, c);
    if who.Err? {
      return 0, Some(Refused(who.error));
    }
    target := who.value;
    match Find(t.journal, op, ControllerKind(c), ControllerMark(san, run, target, c)) {
      case Match(receipt) =>
        var reply := ReplayControl(san, t, op, run, c, receipt);
        return target, Some(reply);
      case Clash => return target, Some(Refused(IdempotencyConflict));
      case Absent =>
    }
    answer := if run !in t.runs then Some(Refused(NoRun(c))) else None;
  }

  lemma LeaseSeen(rows: Tables, run: string, a: Authority, gen: nat)
    requires rows.Valid() && run in View(rows).runs && View(rows).runs[run] == a
    ensures run in rows.runs
    ensures LeaseOf(rows, run, gen) == if gen in a.grants then a.grants[gen].lease else ""
  {
    assert AuthorityAt(rows, run) == a;
  }

  lemma JournalAdded(t: Tables, op: string, entry: Entry)
    requires t.Valid()
    ensures t.(journal := t.journal[op := entry]).Valid()
    ensures View(t.(journal := t.journal[op := entry])) == View(t).(journal := t.journal[op := entry])
  {
    SameRowsSeen(t, t.(journal := t.journal[op := entry]));
  }

  // The receipt, the journal entry and the commit of a transition.
  method CloseControl(san: string -> string, t: Tables, op: string, run: string, target: nat, c: ControllerCommand,
                      rows: Tables, r: Result<Move, Error>, ghost d: ControllerDecision)
    returns (out: Tables, reply: Reply)
    requires t.Valid() && run in t.runs && PerformsControl(t, rows, run, r, d)
    ensures out.Valid() && Outcome(View(out), reply) == SettleControl(san, View(t), op, run, target, c, d)
  {
    if r.Err? {
      return t, Refused(r.error);
    }
    var receipt := Receipt(op, ControllerKind(c), "", "", r.value.generation, r.value.payload, "");
    var entry := Entry(ControllerKind(c), ControllerMark(san, run, target, c), receipt);
    out := rows.(journal := rows.journal[op := entry]);
    JournalAdded(rows, op, entry);
    LeaseSeen(rows, run, d.after, r.value.generation);
    reply := if c.Recover? then Disclosed(r.value.generation, LeaseOf(rows, run, r.value.generation)) else Fresh(receipt);
  }

  // The rows of a new run, and of a new session.
  function WithRun(t: Tables, run: string, lease: string, op: string): (out: Tables)
    requires t.Valid() && run !in t.runs
    ensures out.Valid() && View(out) == View(t).(runs := View(t).runs[run := NewAuthority(lease, op)])
  {
    var out := t.(runs := t.runs[run := RunRow(lease, false, false)], leases := t.leases[run := NewAuthority(lease, op).grants]);
    RunAdded(t, out, run);
    out
  }

  lemma RunAdded(t: Tables, out: Tables, run: string)
    requires t.Valid() && out.Valid() && run !in t.runs && run in out.runs
    requires out == t.(runs := t.runs[run := out.runs[run]], leases := t.leases[run := out.leases[run]])
    ensures View(out) == View(t).(runs := View(t).runs[run := AuthorityAt(out, run)])
  {
    forall r | r in t.runs ensures AuthorityAt(out, r) == AuthorityAt(t, r) {
      assert out.runs[r] == t.runs[r] && out.leases[r] == t.leases[r];
    }
    RunsGrow(t, out, run);
    SessionsStay(t, out);
  }

  lemma RunsGrow(t: Tables, out: Tables, run: string)
    requires t.Valid() && out.Valid() && out.runs.Keys == t.runs.Keys + {run} && run !in t.runs
    requires forall r :: r in t.runs ==> AuthorityAt(out, r) == AuthorityAt(t, r)
    ensures RunsOf(out) == RunsOf(t)[run := AuthorityAt(out, run)]
  {
  }

  lemma SessionsStay(t: Tables, out: Tables)
    requires t.Valid() && out.Valid() && out.sessions == t.sessions
    requires out.prompts == t.prompts && out.turns == t.turns && out.intents == t.intents
    ensures SessionsOf(out) == SessionsOf(t)
  {
  }

  function WithSession(t: Tables, id: string, row: SessionRow): (out: Tables)
    requires t.Valid() && id !in t.sessions && row.run in t.runs
    ensures out.Valid()
    ensures View(out) == View(t).(sessions := View(t).sessions[id := Join(row, map[], map[], map[])])
  {
    var out := t.(sessions := t.sessions[id := row], prompts := t.prompts[id := map[]], turns := t.turns[id := map[]],
                  intents := t.intents[id := map[]]);
    SessionAdded(t, out, id, row);
    out
  }

  // A row is added and the rows of other sessions stay.
  ghost predicate Inserted(t: Tables, out: Tables, id: string, row: SessionRow) {
    && t.Valid() && id !in t.sessions && row.run in t.runs
    && out == t.(sessions := t.sessions[id := row], prompts := t.prompts[id := map[]], turns := t.turns[id := map[]],
                 intents := t.intents[id := map[]])
  }

  lemma InsertedValid(t: Tables, out: Tables, id: string, row: SessionRow)
    requires Inserted(t, out, id, row)
    ensures out.Valid() && id in out.sessions && SessionAt(out, id) == Join(row, map[], map[], map[])
    ensures RunsOf(out) == RunsOf(t)
  {
    RunsStay(t, out);
  }

  lemma InsertedElsewhere(t: Tables, out: Tables, id: string, row: SessionRow, j: string)
    requires Inserted(t, out, id, row) && out.Valid() && j in t.sessions
    ensures j != id && j in out.sessions && SessionAt(out, j) == SessionAt(t, j)
  {
  }

  lemma SessionAdded(t: Tables, out: Tables, id: string, row: SessionRow)
    requires Inserted(t, out, id, row)
    ensures out.Valid()
    ensures View(out) == View(t).(sessions := View(t).sessions[id := Join(row, map[], map[], map[])])
  {
    InsertedValid(t, out, id, row);
    forall j | j in SessionsOf(t) ensures j != id && j in SessionsOf(out) && SessionsOf(out)[j] == SessionsOf(t)[j] {
      InsertedElsewhere(t, out, id, row, j);
    }
    MapGrows(SessionsOf(t), SessionsOf(out), id);
  }

  lemma MapGrows<V>(f: map<string, V>, g: map<string, V>, id: string)
    requires id in g && forall j :: j in g && j != id ==> j in f
    requires forall j :: j in f ==> j != id && j in g && g[j] == f[j]
    ensures g == f[id := g[id]]
  {
  }

  // The primary key, the contributor check and the unique primary index.
  method CheckTaken(t: Tables, session: string, b: Birth) returns (taken: bool)
    requires t.Valid()
    ensures taken == SessionTaken(View(t), session, b)
  {
    if session in t.sessions || b.contributor !in ROSTER {
      return true;
    }
    taken := b.primary && exists id :: id in t.sessions && IsPrimary(t.sessions[id], b.run, b.contributor);
    PrimarySeen(t, b.run, b.contributor);
  }

  predicate IsPrimary(row: SessionRow, run: string, contributor: string) {
    row.run == run && row.contributor == contributor && row.primary
  }

  lemma PrimarySeen(t: Tables, run: string, contributor: string)
    requires t.Valid()
    ensures (exists id :: id in t.sessions && IsPrimary(t.sessions[id], run, contributor)) <==>
            (exists id :: id in View(t).sessions && View(t).sessions[id].run == run
                          && View(t).sessions[id].contributor == contributor && View(t).sessions[id].primary)
  {
    assert forall id :: id in t.sessions ==> View(t).sessions[id] == SessionAt(t, id);
  }

  ghost predicate Foretells(r: Result<Option<Receipt>, Error>, db: Db, release: Outcome) {
    match r
    case Err(e) => release == Outcome(db, Refused(e))
    case Ok(None) => !release.reply.Replayed?
    case Ok(Some(receipt)) => release == Outcome(db, Replayed(receipt))
  }

  lemma UnknownReleaseIsNew(san: string -> string, db: Db, op: string, lease: string, id: string, c: Command)
    requires c.ReleaseTurn? && (op !in db.journal || Overlooked(db.journal, op, c))
    ensures !ExecuteSession(san, db, op, lease, id, c).reply.Replayed?
  {
  }

  lemma KnownRelease(san: string -> string, db: Db, op: string, lease: string, id: string, expected: int, key: string)
    requires expected > 0 && !Blank(key) && op in db.journal && db.journal[op].receipt.turnKey != ""
    ensures
      var e := db.journal[op];
      ExecuteSession(san, db, op, lease, id, Command.ReleaseTurn(expected, key)) == Outcome(db,
        match Authorize(db, id, lease, true)
        case Err(error) => Refused(error)
        case Ok(_) =>
          if e.command == ReleaseKind && e.fingerprint == Fingerprint(ReleaseKind, [id, key], None) then Replayed(e.receipt)
          else Refused(IdempotencyConflict))
  {
    assert [id] + [key] == [id, key];
  }

  lemma UnauthorisedRelease(san: string -> string, db: Db, op: string, lease: string, id: string, expected: int, key: string)
    requires expected > 0 && !Blank(key) && Authorize(db, id, lease, true).Err?
    ensures ExecuteSession(san, db, op, lease, id, Command.ReleaseTurn(expected, key)) ==
            Outcome(db, Refused(Authorize(db, id, lease, true).error))
  {
  }

  lemma AttemptsSeen(t: Tables, attempts: map<ExecutionRef, L.Agy>)
    requires t.Valid()
    ensures t.(attempts := attempts).Valid() && View(t.(attempts := attempts)) == View(t).(attempts := attempts)
  {
    SameRowsSeen(t, t.(attempts := attempts));
  }

  // `committed` is what the last commit left; a transaction works on a copy.
  class Store {
    var committed: Tables
    const san: string -> string

    ghost predicate Valid()
      reads this
    {
      committed.Valid()
    }

    ghost function Contents(): Db
      reads this
      requires Valid()
    {
      View(committed)
    }

    constructor (san: string -> string)
      ensures Valid() && Contents() == EMPTY_DB && this.san == san
    {
      this.san := san;
      committed := Tables(map[], map[], map[], map[], map[], map[], map[], map[]);
    }

    method QueuePrompt(op: string, lease: string, id: string, expected: int, key: string, text: string,
                       tools: seq<string>)
      returns (reply: Reply)
      requires Valid()
      modifies this`committed
      ensures Valid()
      ensures Outcome(Contents(), reply) ==
              ExecuteSession(san, old(Contents()), op, lease, id, Command.QueuePrompt(expected, key, text, tools))
    {
      var tx, c := committed, Command.QueuePrompt(expected, key, text, tools);
      var gen, answer := Open(san, tx, op, lease, id, c);
      if answer.Some? {
        return answer.value;
      }
      ghost var d := DecideQueue(san, SessionAt(tx, id), c);
      var rows, r := QueuePromptRows(san, tx, id, expected, key, text, tools);
      committed, reply := Close(san, tx, op, id, c, rows, r, d);
    }

    method ReplacePendingPrompt(op: string, lease: string, id: string, expected: int, key: string, text: string,
                                stated: Option<seq<string>>)
      returns (reply: Reply)
      requires Valid()
      modifies this`committed
      ensures Valid()
      ensures Outcome(Contents(), reply) ==
              ExecuteSession(san, old(Contents()), op, lease, id, Command.ReplacePendingPrompt(expected, key, text, stated))
    {
      var tx, c := committed, Command.ReplacePendingPrompt(expected, key, text, stated);
      var gen, answer := Open(san, tx, op, lease, id, c);
      if answer.Some? {
        return answer.value;
      }
      ghost var d := DecideReplace(san, SessionAt(tx, id), c);
      var rows, r := ReplacePendingPromptRows(san, tx, id, expected, key, text, stated);
      committed, reply := Close(san, tx, op, id, c, rows, r, d);
    }

    method DiscardPendingPrompt(op: string, lease: string, id: string, expected: int, key: string)
      returns (reply: Reply)
      requires Valid()
      modifies this`committed
      ensures Valid()
      ensures Outcome(Contents(), reply) ==
              ExecuteSession(san, old(Contents()), op, lease, id, Command.DiscardPendingPrompt(expected, key))
    {
      var tx, c := committed, Command.DiscardPendingPrompt(expected, key);
      var gen, answer := Open(san, tx, op, lease, id, c);
      if answer.Some? {
        return answer.value;
      }
      ghost var d := DecideDiscard(SessionAt(tx, id), c);
      var rows, r := DiscardPendingPromptRows(tx, id, expected, key);
      committed, reply := Close(san, tx, op, id, c, rows, r, d);
    }

    method ReleaseTurn(op: string, lease: string, id: string, expected: int, key: string) returns (reply: Reply)
      requires Valid()
      modifies this`committed
      ensures Valid()
      ensures Outcome(Contents(), reply) ==
              ExecuteSession(san, old(Contents()), op, lease, id, Command.ReleaseTurn(expected, key))
    {
      var tx, c := committed, Command.ReleaseTurn(expected, key);
      var gen, answer := Open(san, tx, op, lease, id, c);
      if answer.Some? {
        return answer.value;
      }
      ghost var d := DecideRelease(san, SessionAt(tx, id), gen, c);
      var rows, r := ReleaseTurnRows(san, tx, id, gen, expected, key);
      committed, reply := Close(san, tx, op, id, c, rows, r, d);
    }

    // What a release with this operation would be answered, without making
    // one: its committed receipt, a refusal, or that it would be new.
    method FindCommittedRelease(op: string, lease: string, id: string, key: string)
      returns (r: Result<Option<Receipt>, Error>)
      requires Valid()
      ensures forall expected: int {:trigger Command.ReleaseTurn(expected, key)} :: expected > 0 && !Blank(key) ==>
        Foretells(r, Contents(), ExecuteSession(san, Contents(), op, lease, id, Command.ReleaseTurn(expected, key)))
    {
      var who := AuthorizeSession(committed, id, lease, true);
      if who.Err? {
        forall expected: int | expected > 0 && !Blank(key)
          ensures ExecuteSession(san, Contents(), op, lease, id, Command.ReleaseTurn(expected, key)) ==
                  Outcome(Contents(), Refused(who.error))
        {
          UnauthorisedRelease(san, Contents(), op, lease, id, expected, key);
        }
        return Err(who.error);
      }
      if op !in committed.journal || committed.journal[op].receipt.turnKey == "" {
        forall expected: int | expected > 0 && !Blank(key)
          ensures !ExecuteSession(san, Contents(), op, lease, id, Command.ReleaseTurn(expected, key)).reply.Replayed?
        {
          UnknownReleaseIsNew(san, Contents(), op, lease, id, Command.ReleaseTurn(expected, key));
        }
        return Ok(None);
      }
      var e := committed.journal[op];
      r := if e.command == ReleaseKind && e.fingerprint == Fingerprint(ReleaseKind, [id, key], None) then Ok(Some(e.receipt))
           else Err(IdempotencyConflict);
      forall expected: int | expected > 0 && !Blank(key)
        ensures Foretells(r, Contents(), ExecuteSession(san, Contents(), op, lease, id, Command.ReleaseTurn(expected, key)))
      {
        KnownRelease(san, Contents(), op, lease, id, expected, key);
      }
    }

    method RequestCancel(op: string, lease: string, id: string, expected: int, key: string) returns (reply: Reply)
      requires Valid()
      modifies this`committed
      ensures Valid()
      ensures Outcome(Contents(), reply) ==
              ExecuteSession(san, old(Contents()), op, lease, id, Command.RequestCancel(expected, key))
    {
      var tx, c := committed, Command.RequestCancel(expected, key);
      var gen, answer := Open(san, tx, op, lease, id, c);
      if answer.Some? {
        return answer.value;
      }
      ghost var d := DecideCancel(SessionAt(tx, id), c);
      var rows, r := RequestCancelRows(tx, id, expected, key);
      committed, reply := Close(san, tx, op, id, c, rows, r, d);
    }

    method RecordTerminalOutcome(op: string, lease: string, id: string, expected: int, key: string,
                                 status: TurnStatus, result: string)
      returns (reply: Reply)
      requires Valid()
      modifies this`committed
      ensures Valid()
      ensures Outcome(Contents(), reply) ==
              ExecuteSession(san, old(Contents()), op, lease, id, Command.RecordTerminalOutcome(expected, key, status, result))
    {
      var tx, c := committed, Command.RecordTerminalOutcome(expected, key, status, result);
      var gen, answer := Open(san, tx, op, lease, id, c);
      if answer.Some? {
        return answer.value;
      }
      ghost var d := Decide(san, SessionAt(tx, id), gen, OpenAttempt(View(tx), c), c);
      var rows, r := RecordTerminalOutcomeRows(san, tx, id, expected, key, status, result);
      committed, reply := Close(san, tx, op, id, c, rows, r, d);
    }

    method RecordHostLoss(op: string, lease: string, id: string, expected: int) returns (reply: Reply)
      requires Valid()
      modifies this`committed
      ensures Valid()
      ensures Outcome(Contents(), reply) ==
              ExecuteSession(san, old(Contents()), op, lease, id, Command.RecordHostLoss(expected))
    {
      var tx, c := committed, Command.RecordHostLoss(expected);
      var gen, answer := Open(san, tx, op, lease, id, c);
      if answer.Some? {
        return answer.value;
      }
      ghost var d := DecideHostLoss(SessionAt(tx, id), c);
      var rows, r := RecordHostLossRows(tx, id, expected);
      committed, reply := Close(san, tx, op, id, c, rows, r, d);
    }

    method SetControllerConnection(op: string, lease: string, id: string, expected: int, connection: Connection)
      returns (reply: Reply)
      requires Valid()
      modifies this`committed
      ensures Valid()
      ensures Outcome(Contents(), reply) ==
              ExecuteSession(san, old(Contents()), op, lease, id, Command.SetControllerConnection(expected, connection))
    {
      var tx, c := committed, Command.SetControllerConnection(expected, connection);
      var gen, answer := Open(san, tx, op, lease, id, c);
      if answer.Some? {
        return answer.value;
      }
      ghost var d := DecideConnection(SessionAt(tx, id), c);
      var rows, r := SetControllerConnectionRows(tx, id, expected, connection);
      committed, reply := Close(san, tx, op, id, c, rows, r, d);
    }

    method ArchiveSession(op: string, lease: string, id: string, expected: int) returns (reply: Reply)
      requires Valid()
      modifies this`committed
      ensures Valid()
      ensures Outcome(Contents(), reply) ==
              ExecuteSession(san, old(Contents()), op, lease, id, Command.ArchiveSession(expected))
    {
      var tx, c := committed, Command.ArchiveSession(expected);
      var gen, answer := Open(san, tx, op, lease, id, c);
      if answer.Some? {
        return answer.value;
      }
      ghost var d := DecideArchive(SessionAt(tx, id), c);
      var rows, r := ArchiveSessionRows(tx, id, expected);
      committed, reply := Close(san, tx, op, id, c, rows, r, d);
    }

    method RecordDispatchObservation(op: string, lease: string, id: string, key: string, phase: Phase)
      returns (reply: Reply)
      requires Valid()
      modifies this`committed
      ensures Valid()
      ensures Outcome(Contents(), reply) ==
              ExecuteSession(san, old(Contents()), op, lease, id, Command.RecordDispatchObservation(key, phase))
    {
      var tx, c := committed, Command.RecordDispatchObservation(key, phase);
      var gen, answer := Open(san, tx, op, lease, id, c);
      if answer.Some? {
        return answer.value;
      }
      ghost var d := DecideObservation(SessionAt(tx, id), c);
      var rows, r := RecordDispatchObservationRows(tx, id, key, phase);
      committed, reply := Close(san, tx, op, id, c, rows, r, d);
    }

    method RecordObservedExecutionOutcome(op: string, ref: ExecutionRef, status: TurnStatus, result: string)
      returns (reply: Reply)
      requires Valid()
      modifies this`committed
      ensures Valid()
      ensures Outcome(Contents(), reply) ==
              ExecuteSession(san, old(Contents()), op, "", "", Command.RecordObservedExecutionOutcome(ref, status, result))
    {
      var tx, c := committed, Command.RecordObservedExecutionOutcome(ref, status, result);
      var gen, answer := Open(san, tx, op, "", "", c);
      if answer.Some? {
        return answer.value;
      }
      ghost var d := Decide(san, SessionAt(tx, ref.session), gen, OpenAttempt(View(tx), c), c);
      var rows, r := RecordObservedOutcomeRows(san, tx, ref.session, ref, status, result);
      committed, reply := Close(san, tx, op, "", c, rows, r, d);
    }

    method RecordObservedDispatchAcknowledgement(op: string, ref: ExecutionRef, phase: Phase) returns (reply: Reply)
      requires Valid()
      modifies this`committed
      ensures Valid()
      ensures Outcome(Contents(), reply) ==
              ExecuteSession(san, old(Contents()), op, "", "", Command.RecordObservedDispatchAcknowledgement(ref, phase))
    {
      var tx, c := committed, Command.RecordObservedDispatchAcknowledgement(ref, phase);
      var gen, answer := Open(san, tx, op, "", "", c);
      if answer.Some? {
        return answer.value;
      }
      ghost var d := DecideAcknowledgement(SessionAt(tx, ref.session), c);
      var rows, r := AcknowledgementRows(tx, ref.session, ref, phase);
      committed, reply := Close(san, tx, op, "", c, rows, r, d);
    }

    method ReconcileSession(op: string, ref: ExecutionRef, recovery: RecoveryRef, outcome: ReconciliationOutcome)
      returns (reply: Reply)
      requires Valid()
      modifies this`committed
      ensures Valid()
      ensures Outcome(Contents(), reply) ==
              ExecuteSession(san, old(Contents()), op, "", "", Command.ReconcileSession(ref, recovery, outcome))
    {
      var tx, c := committed, Command.ReconcileSession(ref, recovery, outcome);
      var gen, answer := Open(san, tx, op, "", "", c);
      if answer.Some? {
        return answer.value;
      }
      ghost var d := DecideReconcile(san, SessionAt(tx, recovery.session), c);
      var rows, r := ReconcileSessionRows(san, tx, recovery.session, ref, recovery, outcome);
      committed, reply := Close(san, tx, op, "", c, rows, r, d);
    }

    method ResolveAgyTurnUncertainty(op: string, lease: string, generation: nat, expected: int, ref: ExecutionRef,
                                     abandoned: bool, reason: string)
      returns (reply: Reply)
      requires Valid()
      modifies this`committed
      ensures Valid()
      ensures Outcome(Contents(), reply) ==
              ExecuteSession(san, old(Contents()), op, lease, "",
                             Command.ResolveAgyTurnUncertainty(generation, expected, ref, abandoned, reason))
    {
      var tx, c := committed, Command.ResolveAgyTurnUncertainty(generation, expected, ref, abandoned, reason);
      var gen, answer := Open(san, tx, op, lease, "", c);
      if answer.Some? {
        return answer.value;
      }
      ghost var d := DecideAbandon(san, SessionAt(tx, ref.session), OpenAttempt(View(tx), c), c);
      var rows, r := ResolveAgyTurnUncertaintyRows(san, tx, ref.session, Abandonable(tx.attempts, ref), generation, expected, ref,
                                                   abandoned, reason);
      committed, reply := Close(san, tx, op, "", c, rows, r, d);
    }

    method AdoptController(op: string, run: string, harness: string, ref: string, bootstrap: string,
                           recovery: Option<Recovery>, candidate: string)
      returns (reply: Reply)
      requires Valid()
      modifies this`committed
      ensures Valid()
      ensures Outcome(Contents(), reply) ==
              ExecuteController(san, old(Contents()), op, run, Adopt(harness, ref, bootstrap, recovery, candidate))
    {
      var tx, c := committed, Adopt(harness, ref, bootstrap, recovery, candidate);
      var target, answer := OpenControl(san, tx, op, run, c);
      if answer.Some? {
        return answer.value;
      }
      ghost var d := DecideAdopt(san, AuthorityAt(tx, run), op, c);
      var rows, r := AdoptRows(san, tx, op, run, harness, ref, bootstrap, recovery, candidate);
      committed, reply := CloseControl(san, tx, op, run, target, c, rows, r, d);
    }

    method HandoffController(op: string, run: string, lease: string, expected: nat, harness: string, ref: string,
                             candidate: string)
      returns (reply: Reply)
      requires Valid()
      modifies this`committed
      ensures Valid()
      ensures Outcome(Contents(), reply) ==
              ExecuteController(san, old(Contents()), op, run, Handoff(lease, expected, harness, ref, candidate))
    {
      var tx, c := committed, Handoff(lease, expected, harness, ref, candidate);
      var target, answer := OpenControl(san, tx, op, run, c);
      if answer.Some? {
        return answer.value;
      }
      ghost var d := DecideHandoff(AuthorityAt(tx, run), op, c);
      var rows, r := HandoffRows(tx, op, run, lease, expected, harness, ref, candidate);
      committed, reply := CloseControl(san, tx, op, run, target, c, rows, r, d);
    }

    method RevokeController(op: string, run: string, lease: string, recovery: Option<Recovery>) returns (reply: Reply)
      requires Valid()
      modifies this`committed
      ensures Valid()
      ensures Outcome(Contents(), reply) == ExecuteController(san, old(Contents()), op, run, Revoke(lease, recovery))
    {
      var tx, c := committed, Revoke(lease, recovery);
      var target, answer := OpenControl(san, tx, op, run, c);
      if answer.Some? {
        return answer.value;
      }
      ghost var d := DecideRevoke(san, AuthorityAt(tx, run), c);
      var rows, r := RevokeRows(san, tx, run, target, lease, recovery);
      committed, reply := CloseControl(san, tx, op, run, target, c, rows, r, d);
    }

    method ConnectRunController(op: string, run: string, lease: string, expected: nat, instance: string,
                                attachment: string)
      returns (reply: Reply)
      requires Valid()
      modifies this`committed
      ensures Valid()
      ensures Outcome(Contents(), reply) ==
              ExecuteController(san, old(Contents()), op, run, Connect(lease, expected, instance, attachment))
    {
      var tx, c := committed, Connect(lease, expected, instance, attachment);
      var target, answer := OpenControl(san, tx, op, run, c);
      if answer.Some? {
        return answer.value;
      }
      ghost var d := DecideConnect(AuthorityAt(tx, run), target, c);
      var rows, r := ConnectRows(tx, run, target, lease, expected, instance, attachment);
      committed, reply := CloseControl(san, tx, op, run, target, c, rows, r, d);
    }

    method DisconnectRunController(op: string, run: string, lease: string, attachment: string, expected: nat)
      returns (reply: Reply)
      requires Valid()
      modifies this`committed
      ensures Valid()
      ensures Outcome(Contents(), reply) ==
              ExecuteController(san, old(Contents()), op, run, Disconnect(lease, attachment, expected))
    {
      var tx, c := committed, Disconnect(lease, attachment, expected);
      var target, answer := OpenControl(san, tx, op, run, c);
      if answer.Some? {
        return answer.value;
      }
      ghost var d := DecideDisconnect(AuthorityAt(tx, run), target, c);
      var rows, r := DisconnectRows(tx, run, target, lease, attachment, expected);
      committed, reply := CloseControl(san, tx, op, run, target, c, rows, r, d);
    }

    method RecoverControllerCredential(op: string, run: string, source: string, expected: nat) returns (reply: Reply)
      requires Valid()
      modifies this`committed
      ensures Valid()
      ensures Outcome(Contents(), reply) == ExecuteController(san, old(Contents()), op, run, Recover(source, expected))
    {
      var tx, c := committed, Recover(source, expected);
      var target, answer := OpenControl(san, tx, op, run, c);
      if answer.Some? {
        return answer.value;
      }
      ghost var d := DecideRecover(AuthorityAt(tx, run), IsIssuance(tx.journal, source), c);
      var r := RecoverRows(tx, run, source, expected);
      committed, reply := CloseControl(san, tx, op, run, target, c, tx, r, d);
    }

    method CreateRun(op: string, run: string, digests: seq<string>, lease: string) returns (reply: Reply)
      requires Valid()
      modifies this`committed
      ensures Valid()
      ensures Outcome(Contents(), reply) == ExecuteCreateRun(old(Contents()), op, run, digests, lease)
    {
      if MalformedRun(run, digests, lease) {
        return Refused(InvalidParameters);
      }
      var tx := committed;
      var mark := RunMark(run, digests, lease);
      match Find(tx.journal, op, CreateRunKind, mark) {
        case Match(receipt) => return Replayed(receipt);
        case Clash => return Refused(IdempotencyConflict);
        case Absent =>
      }
      if run in tx.runs {
        return Refused(ConstraintViolation);
      }
      var receipt := Receipt(op, CreateRunKind, "", "", 1, "", "");
      committed := WithRun(tx, run, lease, op);
      JournalAdded(committed, op, Entry(CreateRunKind, mark, receipt));
      committed := committed.(journal := committed.journal[op := Entry(CreateRunKind, mark, receipt)]);
      reply := Fresh(receipt);
    }

    method CreateSession(op: string, lease: string, session: string, birth: Birth) returns (reply: Reply)
      requires Valid()
      modifies this`committed
      ensures Valid()
      ensures Outcome(Contents(), reply) == ExecuteCreateSession(old(Contents()), op, lease, session, birth)
    {
      var tx := committed;
      var who := ClassifyCredential(tx, birth.run, lease, false);
      if who.Err? {
        return Refused(who.error);
      }
      var mark := BirthMark(session, birth);
      match Find(tx.journal, op, CreateSessionKind, mark) {
        case Match(receipt) => return Replayed(receipt);
        case Clash => return Refused(IdempotencyConflict);
        case Absent =>
      }
      var taken := CheckTaken(tx, session, birth);
      if taken {
        return Refused(ConstraintViolation);
      }
      var disconnected := CheckRunConnected(tx, birth.run);
      var connection := if disconnected == None then ControllerConnected else ControllerDisconnected;
      var row := SessionRow(birth.run, birth.contributor, birth.primary, birth.state, SessionActive, connection,
                            birth.visibility, None, None, birth.recoveryGen, birth.recoveryGen, 1);
      var receipt := Receipt(op, CreateSessionKind, session, "", 1, "", "");
      committed := WithSession(tx, session, row);
      JournalAdded(committed, op, Entry(CreateSessionKind, mark, receipt));
      committed := committed.(journal := committed.journal[op := Entry(CreateSessionKind, mark, receipt)]);
      reply := Fresh(receipt);
    }

    // The rows of attempts (internal/storage/agy_state.go) move by their own
    // steps; only a disposition goes through a journaled command.
    method InsertAgyTurnAttempt(ref: ExecutionRef) returns (refused: Option<L.SlotError>)
      requires Valid()
      modifies this`committed
      ensures Valid()
      ensures Outcome(Contents(), Recorded(refused)) == Execute(san, old(Contents()), AttemptBegins(ref))
    {
      if ref in committed.attempts {
        return Some(L.AttemptExists);
      }
      AttemptsSeen(committed, committed.attempts[ref := L.NEW_AGY]);
      committed := committed.(attempts := committed.attempts[ref := L.NEW_AGY]);
      return None;
    }

    // Answers with the number of the launch.
    method ReserveAgyLaunch(ref: ExecutionRef) returns (r: Result<nat, L.SlotError>)
      requires Valid()
      modifies this`committed
      ensures Valid()
      ensures Outcome(Contents(), Recorded(if r.Err? then Some(r.error) else None)) ==
              Execute(san, old(Contents()), AttemptMoves(ref, L.ReserveAgy))
      ensures r.Ok? ==> ref in old(committed.attempts) && r.value == |old(committed.attempts)[ref].rows|
    {
      if ref !in committed.attempts {
        return Err(L.UnknownAttempt);
      }
      var launch: nat := |committed.attempts[ref].rows|;
      var refused := MoveAttempt(ref, L.ReserveAgy);
      return if refused.Some? then Err(refused.value) else Ok(launch);
    }

    // A step of one attempt, by the update that it is.
    method MoveAttempt(ref: ExecutionRef, step: L.AgyStep) returns (refused: Option<L.SlotError>)
      requires Valid()
      modifies this`committed
      ensures Valid()
      ensures Outcome(Contents(), Recorded(refused)) == Execute(san, old(Contents()), AttemptMoves(ref, step))
    {
      if step.Abandon? {
        return Some(L.DispositionRefused);
      }
      if ref !in committed.attempts {
        return L.RefuseMissing(step);
      }
      var attempt := committed.attempts[ref];
      AttemptsSeen(committed, committed.attempts[ref := L.NextAgy(attempt, step)]);
      committed := committed.(attempts := committed.attempts[ref := L.NextAgy(attempt, step)]);
      return L.RefuseAgy(attempt, step);
    }
  }
}
