// The store's tables as they are laid out, each keyed by its primary key
// (internal/storage/schema.sql): the row of a session holds only its columns,
// its prompts, turns and intents are rows of their own tables. Joined by
// session and run, they are the database that `Database` describes.
module Tables {
  import opened Domain
  import opened SessionRules
  import opened ControllerRules
  import opened Database
  import L = LaunchSlots

  datatype SessionRow = SessionRow(
    run: string,
    contributor: string,
    primary: bool,
    state: State,
    lifecycle: Lifecycle,
    controller: Connection,
    visibility: Visibility,
    active: Option<string>,
    context: Option<string>,
    recoveryGen: nat,
    activeRecoveryGen: nat,
    version: nat)

  datatype RunRow = RunRow(lease: string, adopted: bool, archived: bool)

  // Child rows are grouped by the session, or the run, they refer to.
  datatype Tables = Tables(
    runs: map<string, RunRow>,
    leases: map<string, map<nat, Grant>>,
    sessions: map<string, SessionRow>,
    prompts: map<string, map<string, Prompt>>,
    turns: map<string, map<string, Turn>>,
    intents: map<string, map<string, Intent>>,
    journal: map<string, Entry>,
    attempts: map<ExecutionRef, L.Agy>)
  {
    // The foreign keys.
    predicate Valid() {
      && leases.Keys == runs.Keys
      && prompts.Keys == sessions.Keys && turns.Keys == sessions.Keys && intents.Keys == sessions.Keys
      && forall id :: id in sessions ==> sessions[id].run in runs
    }
  }

  function Join(r: SessionRow, prompts: map<string, Prompt>, turns: map<string, Turn>, intents: map<string, Intent>): Session {
    Session(r.run, r.contributor, r.primary, r.state, r.lifecycle, r.controller, r.visibility, r.active, r.context,
            r.recoveryGen, r.activeRecoveryGen, r.version, prompts, turns, intents)
  }

  function SessionAt(t: Tables, id: string): Session
    requires t.Valid() && id in t.sessions
  {
    Join(t.sessions[id], t.prompts[id], t.turns[id], t.intents[id])
  }

  function AuthorityAt(t: Tables, run: string): Authority
    requires t.Valid() && run in t.runs
  {
    Authority(t.runs[run].lease, t.runs[run].adopted, t.runs[run].archived, t.leases[run])
  }

  function RunsOf(t: Tables): map<string, Authority>
    requires t.Valid()
  {
    map run | run in t.runs :: AuthorityAt(t, run)
  }

  function SessionsOf(t: Tables): map<string, Session>
    requires t.Valid()
  {
    map id | id in t.sessions :: SessionAt(t, id)
  }

  function View(t: Tables): Db
    requires t.Valid()
  {
    Db(RunsOf(t), SessionsOf(t), t.journal, t.attempts)
  }

  // A transaction on one session's rows.
  ghost predicate Touches(t: Tables, out: Tables, id: string) {
    && t.Valid() && out.Valid() && id in t.sessions && id in out.sessions
    && out.runs == t.runs && out.leases == t.leases && out.journal == t.journal && out.attempts == t.attempts
    && out.sessions == t.sessions[id := out.sessions[id]]
    && out.prompts == t.prompts[id := out.prompts[id]]
    && out.turns == t.turns[id := out.turns[id]]
    && out.intents == t.intents[id := out.intents[id]]
  }

  lemma TouchesSelf(t: Tables, id: string)
    requires t.Valid() && id in t.sessions
    ensures Touches(t, t, id)
  {
    assert t.sessions == t.sessions[id := t.sessions[id]];
  }

  // The rows a transaction on one session leaves behind.
  function Write(t: Tables, id: string, row: SessionRow, prompts: map<string, Prompt>, turns: map<string, Turn>,
                 intents: map<string, Intent>): (out: Tables)
    requires t.Valid() && id in t.sessions && row.run == t.sessions[id].run
    ensures Touches(t, out, id)
    ensures SessionAt(out, id) == Join(row, prompts, turns, intents)
  {
    t.(sessions := t.sessions[id := row], prompts := t.prompts[id := prompts], turns := t.turns[id := turns],
       intents := t.intents[id := intents])
  }

  lemma RunsStay(t: Tables, out: Tables)
    requires t.Valid() && out.Valid() && out.runs == t.runs && out.leases == t.leases
    ensures RunsOf(out) == RunsOf(t)
  {
  }

  lemma SessionsMove(t: Tables, out: Tables, id: string)
    requires Touches(t, out, id)
    ensures SessionsOf(out) == SessionsOf(t)[id := SessionAt(out, id)]
  {
  }

  // Seen as a database, only that session changes.
  lemma TouchesView(t: Tables, out: Tables, id: string)
    requires Touches(t, out, id)
    ensures View(out) == View(t).(sessions := View(t).sessions[id := SessionAt(out, id)])
  {
    RunsStay(t, out);
    SessionsMove(t, out, id);
  }
}
