// The body of each controller transition as the store runs it inside its
// write transaction (internal/storage/controller_leases.go,
// controller_attachment.go), proved against its decision on the run.
module ControllerTransactions {
  import opened Domain
  import opened SessionRules
  import opened SessionRuns
  import opened ControllerRules
  import opened Database
  import opened Tables

  // SELECT generation ... WHERE status IN wanted ORDER BY generation DESC LIMIT 1
  method SelectNewest(grants: map<nat, Grant>, wanted: set<GrantStatus>) returns (r: Option<nat>)
    ensures r == Newest(grants, wanted)
  {
    var rest := grants.Keys;
    r := None;
    while rest != {}
      invariant rest <= grants.Keys
      invariant r.Some? ==> r.value in grants && grants[r.value].status in wanted
      invariant forall m :: m in grants.Keys - rest && grants[m].status in wanted ==> r.Some? && m <= r.value
      decreases rest
    {
      var n :| n in rest;
      rest := rest - {n};
      if grants[n].status in wanted && (r == None || r.value < n) {
        r := Some(n);
      }
    }
  }

  // SELECT coalesce(max(generation), 0) + 1
  method SelectNextGeneration(grants: map<nat, Grant>) returns (next: nat)
    ensures next == NextGen(grants)
  {
    var rest := grants.Keys;
    var newest: Option<nat> := None;
    while rest != {}
      invariant rest <= grants.Keys
      invariant newest.Some? ==> newest.value in grants
      invariant forall m :: m in grants && m !in rest ==> newest.Some? && m <= newest.value
      decreases rest
    {
      var n :| n in rest;
      rest := rest - {n};
      if newest == None || newest.value < n {
        newest := Some(n);
      }
    }
    next := if newest.Some? then newest.value + 1 else 1;
    if newest.Some? {
      assert IsMax(grants, newest.value);
    }
  }

  // The grants of a run that exists, for a credential that is not blank.
  method ClassifyGrants(row: RunRow, grants: map<nat, Grant>, presented: string, requireAdopted: bool)
    returns (r: Result<nat, Error>)
    requires !Blank(presented)
    ensures r == Classify(Authority(row.lease, row.adopted, row.archived, grants), presented, requireAdopted)
  {
    if row.archived {
      return Err(SessionIsArchived);
    }
    var active := SelectNewest(grants, {Active});
    if active.Some? && row.adopted && grants[active.value].lease == presented && row.lease == presented {
      return Ok(active.value);
    }
    if exists n :: n in grants && grants[n].lease == presented && grants[n].status.Retired() {
      return Err(LeaseSuperseded);
    }
    if !row.adopted {
      if requireAdopted {
        return Err(AdoptionRequired);
      }
      if 0 in grants && grants[0].status == Legacy && grants[0].lease == presented && row.lease == presented {
        return Ok(0);
      }
    }
    return Err(Unauthorized);
  }

  // classifyCredential, for a run that may not exist.
  method ClassifyCredential(t: Tables, run: string, presented: string, requireAdopted: bool)
    returns (r: Result<nat, Error>)
    requires t.Valid()
    ensures r == ClassifyRun(View(t), run, presented, requireAdopted)
  {
    if Blank(presented) {
      return Err(AdoptionRequired);
    }
    if run !in t.runs {
      return Err(RunNotFound);
    }
    r := ClassifyGrants(t.runs[run], t.leases[run], presented, requireAdopted);
  }

  // requireRunConnected
  method CheckRunConnected(t: Tables, run: string) returns (refused: Option<Error>)
    requires t.Valid() && run in t.runs
    ensures refused == RequireConnected(AuthorityAt(t, run))
  {
    var active := SelectNewest(t.leases[run], {Active});
    if active == None {
      return Some(AdoptionRequired);
    }
    if !t.leases[run][active.value].connected {
      return Some(ControllerIsDisconnected);
    }
    return None;
  }

  // A transition's rows: its run, its grants and the projected sessions.
  function WriteRun(t: Tables, run: string, row: RunRow, grants: map<nat, Grant>): (out: Tables)
    requires t.Valid() && run in t.runs
    ensures out.Valid() && run in out.runs && AuthorityAt(out, run) == Authority(row.lease, row.adopted, row.archived, grants)
  {
    t.(runs := t.runs[run := row], leases := t.leases[run := grants])
  }

  lemma WriteRunView(t: Tables, run: string, row: RunRow, grants: map<nat, Grant>)
    requires t.Valid() && run in t.runs
    ensures View(WriteRun(t, run, row, grants)) ==
            View(t).(runs := View(t).runs[run := Authority(row.lease, row.adopted, row.archived, grants)])
  {
    var out := WriteRun(t, run, row, grants);
    assert RunsOf(out) == RunsOf(t)[run := AuthorityAt(out, run)];
    assert SessionsOf(out) == SessionsOf(t);
  }

  function ProjectRow(row: SessionRow, run: string, status: Connection): SessionRow {
    if row.run == run && row.controller != status then row.(controller := status, version := row.version + 1) else row
  }

  // projectSessionConnection: one bulk UPDATE of the run's other-status rows.
  function ProjectRows(t: Tables, run: string, status: Connection): (out: Tables)
    requires t.Valid()
    ensures out.Valid()
  {
    t.(sessions := map id | id in t.sessions :: ProjectRow(t.sessions[id], run, status))
  }

  lemma ProjectedSession(t: Tables, run: string, status: Connection, id: string)
    requires t.Valid() && id in t.sessions
    ensures SessionAt(ProjectRows(t, run, status), id) ==
            if t.sessions[id].run == run then ProjectConnection(SessionAt(t, id), status) else SessionAt(t, id)
  {
    var s, row := SessionAt(t, id), ProjectRow(t.sessions[id], run, status);
    assert ProjectRows(t, run, status).sessions[id] == row;
    if t.sessions[id].run == run && s.controller != status {
      assert row == t.sessions[id].(controller := status, version := s.version + 1);
    } else {
      assert row == t.sessions[id];
    }
  }

  lemma ProjectedSessions(t: Tables, run: string, status: Connection)
    requires t.Valid()
    ensures SessionsOf(ProjectRows(t, run, status)) == ProjectRun(SessionsOf(t), run, status)
  {
    forall id | id in t.sessions
      ensures SessionsOf(ProjectRows(t, run, status))[id] == ProjectRun(SessionsOf(t), run, status)[id]
    {
      ProjectedSession(t, run, status, id);
    }
  }

  lemma ProjectRowsView(t: Tables, run: string, status: Connection)
    requires t.Valid()
    ensures View(ProjectRows(t, run, status)) == View(t).(sessions := ProjectRun(View(t).sessions, run, status))
  {
    RunsStay(t, ProjectRows(t, run, status));
    ProjectedSessions(t, run, status);
  }

  // What goes on a controller transition's receipt.
  datatype Move = Move(generation: nat, payload: string)

  ghost predicate PerformsControl(t: Tables, out: Tables, run: string, r: Result<Move, Error>, d: ControllerDecision)
    requires t.Valid()
  {
    match d
    case RefuseController(error) => r == Err(error) && out == t
    case CommitController(after, projection, gen, payload) =>
      && r == Ok(Move(gen, payload)) && out.Valid()
      && View(out) == View(t).(runs := View(t).runs[run := after],
                               sessions := if projection.Some? then ProjectRun(View(t).sessions, run, projection.value)
                                           else View(t).sessions)
  }

  // installGrant, on the run row and its grants.
  method InstallGrant(row: RunRow, grants: map<nat, Grant>, op: string, harness: string, ref: string, candidate: string)
    returns (next: nat, row': RunRow, grants': map<nat, Grant>)
    ensures next == NextGen(grants)
    ensures Authority(row'.lease, row'.adopted, row'.archived, grants') ==
            Install(Authority(row.lease, row.adopted, row.archived, grants), op, harness, ref, candidate)
  {
    next := SelectNextGeneration(grants);
    grants' := grants[next := Grant(harness, ref, candidate, Active, op, None, "", 0, false)];
    if 0 in grants' && grants'[0].status == Legacy {
      grants' := grants'[0 := grants'[0].(status := Superseded)];
    }
    row' := row.(lease := candidate, adopted := true);
  }

  method AdoptRows(san: string -> string, t: Tables, op: string, run: string, harness: string, ref: string,
                   bootstrap: string, recovery: Option<Recovery>, candidate: string)
    returns (out: Tables, r: Result<Move, Error>)
    requires t.Valid() && run in t.runs
    ensures PerformsControl(t, out, run, r,
              DecideAdopt(san, AuthorityAt(t, run), op, Adopt(harness, ref, bootstrap, recovery, candidate)))
  {
    var row, grants := t.runs[run], t.leases[run];
    if row.adopted {
      return t, Err(AdoptionExists);
    }
    if recovery.Some? {
      var target := SelectNewest(grants, {Legacy, Revoked});
      if target == None || target.value != recovery.value.expected {
        return t, Err(GenerationMismatch);
      }
    } else if bootstrap != row.lease {
      return t, Err(Unauthorized);
    }
    var next, row', grants' := InstallGrant(row, grants, op, harness, ref, candidate);
    out := WriteRun(t, run, row', grants');
    WriteRunView(t, run, row', grants');
    r := Ok(Move(next, "generation=" + Decimal(next) + ":authorized_by=" + AdoptMode(san, recovery)));
  }

  method HandoffRows(t: Tables, op: string, run: string, lease: string, expected: nat, harness: string, ref: string,
                     candidate: string)
    returns (out: Tables, r: Result<Move, Error>)
    requires t.Valid() && run in t.runs
    ensures PerformsControl(t, out, run, r,
              DecideHandoff(AuthorityAt(t, run), op, Handoff(lease, expected, harness, ref, candidate)))
  {
    var row, grants := t.runs[run], t.leases[run];
    var who := ClassifyCredential(t, run, lease, true);
    if who.Err? {
      return t, Err(who.error);
    }
    var gen := who.value;
    if gen != expected {
      return t, Err(GenerationMismatch);
    }
    ghost var before := grants;
    grants := grants[gen := grants[gen].(status := Superseded, connected := false, attachment := None)];
    SameGenerations(before, grants);
    var next, row', grants' := InstallGrant(row, grants, op, harness, ref, candidate);
    var projected := ProjectRows(t, run, ControllerDisconnected);
    ProjectRowsView(t, run, ControllerDisconnected);
    out := WriteRun(projected, run, row', grants');
    WriteRunView(projected, run, row', grants');
    r := Ok(Move(next, "generation=" + Decimal(next) + ":authorized_by=controller"));
  }

  lemma SameGenerations(g: map<nat, Grant>, h: map<nat, Grant>)
    requires g.Keys == h.Keys && g != map[]
    ensures NextGen(g) == NextGen(h)
  {
    assert MaxGen(g) in h && h != map[];
    assert MaxGen(h) in g;
  }

  // The revocation of one generation, after its replay.
  method RevokeRows(san: string -> string, t: Tables, run: string, target: nat, lease: string, recovery: Option<Recovery>)
    returns (out: Tables, r: Result<Move, Error>)
    requires t.Valid() && run in t.runs
    requires RevocationTarget(AuthorityAt(t, run), Revoke(lease, recovery)) == Ok(target)
    ensures PerformsControl(t, out, run, r, DecideRevoke(san, AuthorityAt(t, run), Revoke(lease, recovery)))
  {
    if recovery.Some? {
      var newest := SelectNewest(t.leases[run], {Legacy, Active});
      if newest == None {
        return t, Err(NoGrantToRevoke);
      }
      if recovery.value.expected != newest.value {
        return t, Err(GenerationMismatch);
      }
    }
    out := RevokeGrant(t, run, target);
    r := Ok(Move(target, "revoked:generation=" + Decimal(target) + ":authorized_by=" + RevokeMode(san, recovery)));
  }

  // The grant, the run's lease and its adoption flag.
  method RetireGrant(row: RunRow, grants: map<nat, Grant>, target: nat) returns (row': RunRow, grants': map<nat, Grant>)
    ensures
      var retired := Retire(Authority(row.lease, row.adopted, row.archived, grants), target, Revoked).(lease := "");
      Authority(row'.lease, row'.adopted, row'.archived, grants') ==
        if target > 0 then retired.(adopted := false) else retired
  {
    row', grants' := row.(lease := ""), grants;
    if target in grants {
      grants' := grants[target := grants[target].(status := Revoked, connected := false, attachment := None)];
    }
    if target > 0 {
      row' := row'.(adopted := false);
    }
  }

  // Those rows and the projections.
  method RevokeGrant(t: Tables, run: string, target: nat) returns (out: Tables)
    requires t.Valid() && run in t.runs
    ensures out.Valid()
    ensures
      var retired := Retire(AuthorityAt(t, run), target, Revoked).(lease := "");
      View(out) == View(t).(
        runs := View(t).runs[run := if target > 0 then retired.(adopted := false) else retired],
        sessions := ProjectRun(View(t).sessions, run, ControllerDisconnected))
  {
    var row, grants := RetireGrant(t.runs[run], t.leases[run], target);
    var projected := ProjectRows(t, run, ControllerDisconnected);
    ProjectRowsView(t, run, ControllerDisconnected);
    out := WriteRun(projected, run, row, grants);
    WriteRunView(projected, run, row, grants);
  }

  method ConnectRows(t: Tables, run: string, gen: nat, lease: string, expected: nat, instance: string, attachment: string)
    returns (out: Tables, r: Result<Move, Error>)
    requires t.Valid() && run in t.runs
    ensures PerformsControl(t, out, run, r,
              DecideConnect(AuthorityAt(t, run), gen, Connect(lease, expected, instance, attachment)))
  {
    var grants := t.leases[run];
    var active := SelectNewest(grants, {Active});
    if active != Some(gen) {
      return t, Err(ConstraintViolation);
    }
    var rev := grants[gen].rev + 1;
    grants := grants[gen := grants[gen].(connected := true, attachment := Some(attachment), instance := instance, rev := rev)];
    var projected := ProjectRows(t, run, ControllerConnected);
    ProjectRowsView(t, run, ControllerConnected);
    out := WriteRun(projected, run, t.runs[run], grants);
    WriteRunView(projected, run, t.runs[run], grants);
    r := Ok(Move(gen, "attachment=" + attachment + ":rev=" + Decimal(rev)));
  }

  method DisconnectRows(t: Tables, run: string, gen: nat, lease: string, attachment: string, expected: nat)
    returns (out: Tables, r: Result<Move, Error>)
    requires t.Valid() && run in t.runs
    ensures PerformsControl(t, out, run, r,
              DecideDisconnect(AuthorityAt(t, run), gen, Disconnect(lease, attachment, expected)))
  {
    var grants := t.leases[run];
    var active := SelectNewest(grants, {Active});
    if active != Some(gen) {
      return t, Err(ConstraintViolation);
    }
    if grants[gen].connected && grants[gen].attachment == Some(attachment) {
      grants := grants[gen := grants[gen].(connected := false, attachment := None)];
      var projected := ProjectRows(t, run, ControllerDisconnected);
      ProjectRowsView(t, run, ControllerDisconnected);
      out := WriteRun(projected, run, t.runs[run], grants);
      WriteRunView(projected, run, t.runs[run], grants);
      return out, Ok(Move(gen, "disconnected:attachment=" + attachment));
    }
    assert View(t).runs[run := AuthorityAt(t, run)] == View(t).runs;
    return t, Ok(Move(gen, "stale_attachment_ignored"));
  }

  // SELECT ... WHERE granted_by_op_id = ?
  method SelectIssued(grants: map<nat, Grant>, source: string, ghost a: Authority) returns (r: Option<nat>)
    requires a.grants == grants
    ensures r == Issued(a, source)
  {
    var rest := grants.Keys;
    r := None;
    while rest != {}
      invariant rest <= grants.Keys
      invariant r.Some? ==> r.value in grants && grants[r.value].grantedBy == source
      invariant forall m :: m in grants && m !in rest && grants[m].grantedBy == source ==> r.Some? && m <= r.value
      decreases rest
    {
      var n :| n in rest;
      rest := rest - {n};
      if grants[n].grantedBy == source && (r == None || r.value < n) {
        r := Some(n);
      }
    }
  }

  // resolveIssuanceForRecovery: reads only.
  method RecoverRows(t: Tables, run: string, source: string, expected: nat) returns (r: Result<Move, Error>)
    requires t.Valid() && run in t.runs
    ensures PerformsControl(t, t, run, r,
              DecideRecover(AuthorityAt(t, run), IsIssuance(t.journal, source), Recover(source, expected)))
  {
    assert View(t).runs[run := AuthorityAt(t, run)] == View(t).runs;
    if source !in t.journal {
      return Err(RecoveryUnavailable);
    }
    if !t.journal[source].command.Grants() {
      return Err(RecoveryUnavailable);
    }
    var gen := SelectIssued(t.leases[run], source, AuthorityAt(t, run));
    if gen == None {
      return Err(RecoveryUnavailable);
    }
    if gen.value != expected {
      return Err(GenerationMismatch);
    }
    if t.leases[run][gen.value].status != Active {
      return Err(RecoveryUnavailable);
    }
    return Ok(Move(gen.value, "recovered:generation=" + Decimal(gen.value) + ":source=" + source));
  }
}
