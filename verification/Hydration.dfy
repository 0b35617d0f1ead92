// Hydration: the executable consistency check of the stored state
// (internal/storage/recovery.go), and the theorem that every reachable store
// passes it.
module Hydration {
  import opened Domain
  import opened SessionRules
  import opened SessionInvariants
  import opened Database
  import opened StoreInvariants
  import opened Tables

  datatype NativeBinding = NativeBinding(native: string, harness: string, model: string, mode: string, config: string)

  datatype DecisionRow = DecisionRow(op: string, run: string, artifact: string, revision: int, digest: string,
    payload: string)

  // The tables that hydration loads; decisions in the order of their numbers.
  datatype Stored = Stored(tables: Tables, bindings: map<string, NativeBinding>, decisions: seq<DecisionRow>)
  {
    // The foreign keys.
    predicate Valid() {
      && tables.Valid() && bindings.Keys <= tables.sessions.Keys
      && forall i :: 0 <= i < |decisions| ==> decisions[i].run in tables.runs
    }
  }

  // What hydration hands back for a session: its rows, its active turn and
  // that turn's intent.
  datatype Hydrated = Hydrated(
    row: SessionRow,
    binding: Option<NativeBinding>,
    prompts: map<string, Prompt>,
    turns: map<string, Turn>,
    intents: map<string, Intent>,
    turn: Option<Turn>,
    intent: Option<Intent>)

  datatype HydratedState = HydratedState(sessions: map<string, Hydrated>, decisions: seq<DecisionRow>)

  // Every row refers to rows that exist.
  ghost predicate Referential(s: Stored) {
    var t := s.tables;
    && (forall id :: id in t.sessions ==> t.sessions[id].run in t.runs)
    && (forall id :: id in s.bindings ==> id in t.sessions)
    && (forall i :: 0 <= i < |s.decisions| ==> s.decisions[i].run in t.runs)
    && (forall id :: id in t.prompts ==> id in t.sessions)
    && (forall id :: id in t.turns ==> id in t.sessions)
    && (forall id :: id in t.intents ==> id in t.sessions && IntentsHaveTurns(t, id))
  }

  predicate IntentsHaveTurns(t: Tables, id: string)
    requires id in t.intents
  {
    forall key :: key in t.intents[id] ==> id in t.turns && key in t.turns[id]
  }

  function Rows<V>(table: map<string, map<string, V>>, id: string): map<string, V> {
    if id in table then table[id] else map[]
  }

  // The state of one session agrees with its turns and intents.
  predicate RowsAgree(state: State, active: Option<string>, turns: map<string, Turn>, intents: map<string, Intent>) {
    match state
    case Running =>
      && active.Some? && active.value in turns && turns[active.value].status.Live()
      && active.value in intents && intents[active.value].phase != Resolved
    case Parked => active == None && forall k :: k in turns ==> !turns[k].status.Live()
    case Archived => active == None
  }

  predicate Agrees(t: Tables, id: string)
    requires id in t.sessions
  {
    RowsAgree(t.sessions[id].state, t.sessions[id].active, Rows(t.turns, id), Rows(t.intents, id))
  }

  // The same of the joined session.
  predicate SessionAgrees(s: Session) {
    RowsAgree(s.state, s.active, s.turns, s.intents) && s.intents.Keys <= s.turns.Keys
  }

  lemma AgreesJoined(t: Tables, id: string)
    requires t.Valid() && id in t.sessions
    ensures SessionAgrees(SessionAt(t, id)) <==> Agrees(t, id) && IntentsHaveTurns(t, id)
  {
  }

  ghost predicate Hydratable(s: Stored) {
    Referential(s) && forall id :: id in s.tables.sessions ==> Agrees(s.tables, id)
  }

  // The session as it is stored, with the pointers that its state calls for.
  function Expected(s: Stored, id: string): Hydrated
    requires id in s.tables.sessions && Agrees(s.tables, id)
  {
    var row, turns, intents := s.tables.sessions[id], Rows(s.tables.turns, id), Rows(s.tables.intents, id);
    Hydrated(row, if id in s.bindings then Some(s.bindings[id]) else None, Rows(s.tables.prompts, id), turns, intents,
             if row.state == Running then Some(turns[row.active.value]) else None,
             if row.state == Running then Some(intents[row.active.value]) else None)
  }

  // The checks of the loading loops, one table after another.
  method CheckReferences(s: Stored) returns (ok: bool)
    ensures ok == Referential(s)
  {
    var t := s.tables;
    var ids := t.sessions.Keys;
    while ids != {}
      invariant ids <= t.sessions.Keys
      invariant forall id :: id in t.sessions && id !in ids ==> t.sessions[id].run in t.runs
      decreases ids
    {
      var id :| id in ids;
      if t.sessions[id].run !in t.runs {
        return false;
      }
      ids := ids - {id};
    }
    if !(s.bindings.Keys <= t.sessions.Keys) || !(t.prompts.Keys <= t.sessions.Keys) || !(t.turns.Keys <= t.sessions.Keys) {
      return false;
    }
    ids := t.intents.Keys;
    while ids != {}
      invariant ids <= t.intents.Keys
      invariant forall id :: id in t.intents && id !in ids ==> id in t.sessions && IntentsHaveTurns(t, id)
      decreases ids
    {
      var id :| id in ids;
      if id !in t.sessions || !IntentsHaveTurns(t, id) {
        return false;
      }
      ids := ids - {id};
    }
    for i := 0 to |s.decisions|
      invariant forall j :: 0 <= j < i ==> s.decisions[j].run in t.runs
    {
      if s.decisions[i].run !in t.runs {
        return false;
      }
    }
    return true;
  }

  // The switch over one session's state, establishing its pointers.
  method CheckSession(s: Stored, id: string) returns (r: Option<Hydrated>)
    requires id in s.tables.sessions
    ensures r.Some? <==> Agrees(s.tables, id)
    ensures r.Some? ==> r.value == Expected(s, id)
  {
    var row, prompts := s.tables.sessions[id], Rows(s.tables.prompts, id);
    var turns, intents := Rows(s.tables.turns, id), Rows(s.tables.intents, id);
    var loaded := Hydrated(row, if id in s.bindings then Some(s.bindings[id]) else None, prompts, turns, intents, None, None);
    match row.state {
      case Running =>
        if row.active == None {
          return None;
        }
        var k := row.active.value;
        if k !in turns || !turns[k].status.Live() {
          return None;
        }
        if k !in intents || intents[k].phase == Resolved {
          return None;
        }
        return Some(loaded.(turn := Some(turns[k]), intent := Some(intents[k])));
      case Parked =>
        if row.active.Some? {
          return None;
        }
        var keys := turns.Keys;
        while keys != {}
          invariant keys <= turns.Keys
          invariant forall k :: k in turns && k !in keys ==> !turns[k].status.Live()
          decreases keys
        {
          var k :| k in keys;
          if turns[k].status.Live() {
            return None;
          }
          keys := keys - {k};
        }
        return Some(loaded);
      case Archived =>
        if row.active.Some? {
          return None;
        }
        return Some(loaded);
    }
  }

  // HydrateState succeeds exactly on the stores that pass its checks, and
  // gives back every session with its rows, its binding and its pointers.
  method HydrateState(s: Stored) returns (r: Option<HydratedState>)
    ensures r.Some? <==> Hydratable(s)
    ensures r.Some? ==> r.value.sessions.Keys == s.tables.sessions.Keys && r.value.decisions == s.decisions
    ensures r.Some? ==> forall id :: id in s.tables.sessions ==> r.value.sessions[id] == Expected(s, id)
  {
    var ok := CheckReferences(s);
    if !ok {
      return None;
    }
    var hydrated: map<string, Hydrated> := map[];
    var ids := s.tables.sessions.Keys;
    while ids != {}
      invariant ids <= s.tables.sessions.Keys && hydrated.Keys == s.tables.sessions.Keys - ids
      invariant forall id :: id in hydrated ==> Agrees(s.tables, id) && hydrated[id] == Expected(s, id)
      decreases ids
    {
      var id :| id in ids;
      var one := CheckSession(s, id);
      if one == None {
        return None;
      }
      hydrated := hydrated[id := one.value];
      ids := ids - {id};
    }
    return Some(HydratedState(hydrated, s.decisions));
  }

  lemma ConsistentAgrees(s: Session)
    requires Consistent(s)
    ensures SessionAgrees(s)
  {
    forall k | k in s.turns ensures s.turns[k].status.Live() <==> s.active == Some(k) {
      assert TurnConsistent(s, k);
    }
    if s.active.Some? {
      assert TurnConsistent(s, s.active.value);
    }
  }

  // Hydration checks each joined session.
  lemma HydratableJoined(s: Stored)
    requires s.Valid()
    ensures Hydratable(s) <==> forall id :: id in s.tables.sessions ==> SessionAgrees(SessionAt(s.tables, id))
  {
    forall id | id in s.tables.sessions
      ensures SessionAgrees(SessionAt(s.tables, id)) <==> Agrees(s.tables, id) && IntentsHaveTurns(s.tables, id)
    {
      AgreesJoined(s.tables, id);
    }
    HydratablePointwise(s);
  }

  lemma HydratablePointwise(s: Stored)
    requires s.Valid()
    ensures Hydratable(s) <==>
            forall id :: id in s.tables.sessions ==> Agrees(s.tables, id) && IntentsHaveTurns(s.tables, id)
  {
    assert Referential(s) <==> forall id :: id in s.tables.sessions ==> IntentsHaveTurns(s.tables, id);
  }

  // Every store that is sound hydrates.
  lemma SoundHydrates(s: Stored)
    requires s.Valid() && SoundStore(View(s.tables))
    ensures Hydratable(s)
  {
    HydratableJoined(s);
    forall id | id in s.tables.sessions ensures SessionAgrees(SessionAt(s.tables, id)) {
      assert View(s.tables).sessions[id] == SessionAt(s.tables, id);
      ConsistentAgrees(SessionAt(s.tables, id));
    }
  }

  // Hydration always succeeds: whatever history of transactions, committed or
  // refused, a store has been through since it was empty, as long as sessions
  // are created as callers create them.
  lemma ReachableHydrates(san: string -> string, events: seq<Event>, s: Stored)
    requires s.Valid() && View(s.tables) == History(san, EMPTY_DB, events)
    requires forall e :: e in events ==> ProperEvent(e)
    ensures Hydratable(s)
  {
    HistorySound(san, EMPTY_DB, events);
    SoundHydrates(s);
  }

  // Of all creations the store accepts, exactly those in state `running` leave
  // a store that hydrated before unable to hydrate.
  lemma CreationHydratesIff(san: string -> string, s: Stored, after: Stored, e: Event)
    requires s.Valid() && after.Valid() && Hydratable(s) && e.CreateSession?
    requires Execute(san, View(s.tables), e).reply.Fresh?
    requires View(after.tables) == Execute(san, View(s.tables), e).db
    ensures Hydratable(after) <==> e.birth.state != Running
  {
    HydratableJoined(s);
    HydratableJoined(after);
    var db := View(s.tables);
    CreateSessionEffect(db, e.op, e.lease, e.session, e.birth, Execute(san, db, e));
    AddedAgrees(s.tables, after.tables, e.session, NewSession(db.runs[e.birth.run], e.birth));
  }

  lemma JoinedSame(t: Tables, out: Tables, id: string, born: Session)
    requires t.Valid() && out.Valid() && SessionsOf(out) == SessionsOf(t)[id := born] && id !in t.sessions
    ensures forall j :: j in out.sessions <==> j in t.sessions || j == id
    ensures forall j :: j in t.sessions ==> SessionAt(out, j) == SessionAt(t, j)
    ensures id in out.sessions && SessionAt(out, id) == born
  {
    forall j ensures j in out.sessions <==> j in t.sessions || j == id {
      assert j in SessionsOf(out) <==> j in SessionsOf(t) || j == id;
    }
    forall j | j in t.sessions ensures SessionAt(out, j) == SessionAt(t, j) {
      assert SessionsOf(out)[j] == SessionsOf(t)[j];
    }
    assert SessionsOf(out)[id] == born;
  }

  lemma AddedAgrees(t: Tables, out: Tables, id: string, born: Session)
    requires t.Valid() && out.Valid() && SessionsOf(out) == SessionsOf(t)[id := born] && id !in t.sessions
    requires forall j :: j in t.sessions ==> SessionAgrees(SessionAt(t, j))
    requires born.active == None && born.turns == map[] && born.intents == map[]
    ensures (forall j :: j in out.sessions ==> SessionAgrees(SessionAt(out, j))) <==> born.state != Running
  {
    JoinedSame(t, out, id, born);
    BornAgrees(born);
  }

  lemma BornAgrees(s: Session)
    requires s.active == None && s.turns == map[] && s.intents == map[]
    ensures SessionAgrees(s) <==> s.state != Running
  {
  }

  // Which damage to one column of a consistent session hydration finds. A
  // wrong active key, always.
  lemma ActiveDamageIsFound(s: Session, active: Option<string>)
    requires Consistent(s) && active != s.active
    ensures !SessionAgrees(s.(active := active))
  {
    if s.active.Some? && active.Some? && active.value in s.turns {
      assert TurnConsistent(s, active.value);
    }
  }

  // A wrong state, unless it mistakes a parked session for an archived one.
  lemma StateDamageIsFoundIff(s: Session, state: State)
    requires Consistent(s) && state != s.state
    ensures SessionAgrees(s.(state := state)) <==> s.state != Running && state != Running
  {
    if s.state != Running {
      forall k | k in s.turns ensures !s.turns[k].status.Live() {
        assert TurnConsistent(s, k);
      }
    }
  }

  // A live turn recorded as ended, or the reverse: in a parked session, and of
  // the active turn of a running one.
  lemma TurnDamageIsFoundIff(s: Session, key: string, status: TurnStatus)
    requires Consistent(s) && key in s.turns && status.Live() != s.turns[key].status.Live()
    ensures SessionAgrees(s.(turns := s.turns[key := s.turns[key].(status := status)])) <==>
      s.state == Archived || (s.state == Running && s.active != Some(key))
  {
    ConsistentAgrees(s);
    assert TurnConsistent(s, key);
    if s.state == Running {
      assert TurnConsistent(s, s.active.value);
    }
  }

  // The active turn's intent recorded as resolved.
  lemma IntentDamageIsFound(s: Session, key: string)
    requires Consistent(s) && s.active == Some(key)
    ensures key in s.intents && !SessionAgrees(s.(intents := s.intents[key := s.intents[key].(phase := Resolved)]))
  {
    assert TurnConsistent(s, key);
  }
}
