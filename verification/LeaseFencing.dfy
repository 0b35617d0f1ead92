// Lease fencing: what every controller transition keeps true of a run's
// grants, and what that means for who is authorised over a whole run.
module LeaseFencing {
  import opened Domain
  import opened SessionRules
  import opened ControllerRules

  // At most one grant is active; it is the newest, it carries the run's lease
  // and it exists exactly while the run is adopted. A legacy row is the only
  // row. Only the active grant is ever connected, under an attachment.
  ghost predicate Fenced(a: Authority) {
    && Rows(a)
    && (forall n :: n in a.grants && a.grants[n].status == Active ==>
          n > 0 && IsMax(a.grants, n) && a.adopted && a.grants[n].lease == a.lease && !Blank(a.lease))
    && (a.adopted ==> exists n :: n in a.grants && a.grants[n].status == Active)
    && (a.grants[0].status == Legacy ==> a.grants[0].lease == a.lease)
    && (!a.adopted && a.grants[0].status != Legacy ==> a.lease == "")
  }

  ghost predicate Rows(a: Authority) {
    && 0 in a.grants
    && (forall n :: n in a.grants && a.grants[n].status == Legacy ==> n == 0 && IsMax(a.grants, 0))
    && (forall n :: n in a.grants && a.grants[n].connected ==> a.grants[n].status == Active)
    && (forall n :: n in a.grants ==> (a.grants[n].connected <==> a.grants[n].attachment.Some?))
  }

  // No grant is active: the next one may be installed.
  ghost predicate Vacant(a: Authority) {
    Rows(a) && forall n :: n in a.grants ==> a.grants[n].status != Active
  }

  // The active grant, if any, is the newest generation of all.
  lemma ActiveIsNewest(a: Authority)
    requires Fenced(a)
    ensures ActiveGen(a).Some? <==> a.adopted
    ensures a.adopted ==> ActiveGen(a) == Some(MaxGen(a.grants)) && a.grants[MaxGen(a.grants)].lease == a.lease
    ensures forall n :: n in a.grants && a.grants[n].status == Active ==> ActiveGen(a) == Some(n)
  {
    if a.adopted {
      var n :| n in a.grants && a.grants[n].status == Active;
      assert IsMax(a.grants, MaxGen(a.grants)) && IsMax(a.grants, n);
    }
  }

  lemma NewAuthorityFenced(lease: string, op: string)
    ensures Fenced(NewAuthority(lease, op))
  {
  }

  // What no transition takes back: a grant stays, retired grants stay
  // retired, and nobody's lease is rewritten.
  ghost predicate GrantsKept(a: Authority, after: Authority) {
    && after.archived == a.archived
    && forall n :: n in a.grants ==>
         && n in after.grants
         && after.grants[n].lease == a.grants[n].lease
         && after.grants[n].grantedBy == a.grants[n].grantedBy
         && (a.grants[n].status.Retired() ==> after.grants[n] == a.grants[n])
  }

  lemma InstallFences(a: Authority, op: string, harness: string, ref: string, candidate: string)
    requires Vacant(a) && !Blank(candidate)
    ensures Fenced(Install(a, op, harness, ref, candidate))
    ensures GrantsKept(a, Install(a, op, harness, ref, candidate))
  {
    var after := Install(a, op, harness, ref, candidate);
    var next := NextGen(a.grants);
    InstallKeeps(a, op, harness, ref, candidate);
    assert after.grants[next].status == Active;
    assert forall n :: n in after.grants && n != next ==> n in a.grants;
    assert IsMax(after.grants, next);
  }

  lemma InstallKeeps(a: Authority, op: string, harness: string, ref: string, candidate: string)
    requires Vacant(a)
    ensures NextGen(a.grants) !in a.grants && GrantsKept(a, Install(a, op, harness, ref, candidate))
  {
  }

  // The installed grant is the next generation, active under its candidate.
  lemma InstallActivates(a: Authority, op: string, harness: string, ref: string, candidate: string)
    requires Vacant(a) && !Blank(candidate)
    ensures
      var after := Install(a, op, harness, ref, candidate);
      && ActiveGen(after) == Some(NextGen(a.grants)) && after.lease == candidate
      && NextGen(a.grants) !in a.grants
      && after.grants[NextGen(a.grants)].grantedBy == op
  {
    var after := Install(a, op, harness, ref, candidate);
    InstallFences(a, op, harness, ref, candidate);
    ActiveIsNewest(after);
    assert after.grants[NextGen(a.grants)].status == Active;
  }

  lemma RetireVacates(a: Authority, gen: nat, status: GrantStatus)
    requires Fenced(a) && gen in a.grants && status.Retired()
    requires a.grants[gen].status == Active || (a.grants[gen].status == Legacy && gen == 0)
    ensures Vacant(Retire(a, gen, status)) && GrantsKept(a, Retire(a, gen, status))
    ensures Retire(a, gen, status).grants.Keys == a.grants.Keys
    ensures Retire(a, gen, status).grants[0].status != Legacy
  {
    var after := Retire(a, gen, status);
    forall n | n in after.grants ensures after.grants[n].status != Active {
      assert n in a.grants;
    }
  }

  ghost predicate Fences(a: Authority, d: ControllerDecision) {
    d.CommitController? ==> Fenced(d.after) && GrantsKept(a, d.after)
  }

  lemma AdoptFences(san: string -> string, a: Authority, op: string, c: ControllerCommand)
    requires Fenced(a) && c.Adopt? && !MalformedController(op, c)
    ensures Fences(a, DecideAdopt(san, a, op, c))
  {
    if !a.adopted {
      InstallFences(a, op, c.harness, c.ref, c.candidate);
    }
  }

  lemma HandoffFences(a: Authority, op: string, c: ControllerCommand)
    requires Fenced(a) && c.Handoff? && !MalformedController(op, c)
    ensures Fences(a, DecideHandoff(a, op, c))
  {
    if Classify(a, c.lease, true).Ok? {
      var gen := Classify(a, c.lease, true).value;
      var retired := Retire(a, gen, Superseded);
      RetireVacates(a, gen, Superseded);
      InstallFences(retired, op, c.harness, c.ref, c.candidate);
    }
  }

  lemma RevokeFences(san: string -> string, a: Authority, c: ControllerCommand)
    requires Fenced(a) && c.Revoke?
    ensures Fences(a, DecideRevoke(san, a, c))
  {
    var d := DecideRevoke(san, a, c);
    if d.CommitController? {
      ActiveIsNewest(a);
      RetireVacates(a, d.generation, Revoked);
      assert !d.after.adopted;
    }
  }

  // The active grant's episode begins or ends.
  lemma EpisodeFences(a: Authority, gen: nat, g: Grant)
    requires Fenced(a) && gen in a.grants && a.grants[gen].status == Active
    requires g == a.grants[gen].(connected := g.connected, attachment := g.attachment, instance := g.instance, rev := g.rev)
    requires g.connected <==> g.attachment.Some?
    ensures Fenced(a.(grants := a.grants[gen := g])) && GrantsKept(a, a.(grants := a.grants[gen := g]))
  {
    var after := a.(grants := a.grants[gen := g]);
    assert after.grants.Keys == a.grants.Keys;
    assert after.grants[gen].status == Active;
  }

  lemma ConnectFences(a: Authority, gen: nat, c: ControllerCommand)
    requires Fenced(a) && c.Connect?
    ensures Fences(a, DecideConnect(a, gen, c))
  {
    var d := DecideConnect(a, gen, c);
    if d.CommitController? {
      EpisodeFences(a, gen, d.after.grants[gen]);
    }
  }

  lemma DisconnectFences(a: Authority, gen: nat, c: ControllerCommand)
    requires Fenced(a) && c.Disconnect?
    ensures Fences(a, DecideDisconnect(a, gen, c))
  {
    var d := DecideDisconnect(a, gen, c);
    if d.CommitController? && d.after != a {
      EpisodeFences(a, gen, d.after.grants[gen]);
    }
  }

  lemma ControllerFences(san: string -> string, a: Authority, op: string, issuance: bool, c: ControllerCommand)
    requires Fenced(a) && !MalformedController(op, c)
    ensures Fences(a, DecideController(san, a, op, issuance, c))
  {
    match c
    case Adopt(_, _, _, _, _) => AdoptFences(san, a, op, c);
    case Handoff(_, _, _, _, _) => HandoffFences(a, op, c);
    case Revoke(_, _) => RevokeFences(san, a, c);
    case Recover(_, _) =>
    case Connect(lease, expected, _, _) =>
      if Attaching(a, lease, expected).Ok? {
        ConnectFences(a, expected, c);
      }
    case Disconnect(lease, _, expected) =>
      if Attaching(a, lease, expected).Ok? {
        DisconnectFences(a, expected, c);
      }
  }

  // One controller transition of a run, and a whole run of them.
  datatype ControllerStep = ControllerStep(op: string, issuance: bool, command: ControllerCommand)

  ghost function ApplyController(san: string -> string, a: Authority, step: ControllerStep): Authority {
    if MalformedController(step.op, step.command) then a
    else
      match DecideController(san, a, step.op, step.issuance, step.command)
      case RefuseController(_) => a
      case CommitController(after, _, _, _) => after
  }

  ghost function RunController(san: string -> string, a: Authority, steps: seq<ControllerStep>): Authority
    decreases |steps|
  {
    if steps == [] then a else RunController(san, ApplyController(san, a, steps[0]), steps[1..])
  }

  lemma GrantsKeptTransitive(a: Authority, b: Authority, c: Authority)
    requires GrantsKept(a, b) && GrantsKept(b, c)
    ensures GrantsKept(a, c)
  {
  }

  lemma {:induction false} RunFenced(san: string -> string, a: Authority, steps: seq<ControllerStep>)
    requires Fenced(a)
    ensures Fenced(RunController(san, a, steps)) && GrantsKept(a, RunController(san, a, steps))
    decreases |steps|
  {
    if steps != [] {
      var step, next := steps[0], ApplyController(san, a, steps[0]);
      if !MalformedController(step.op, step.command) {
        ControllerFences(san, a, step.op, step.issuance, step.command);
      }
      RunFenced(san, next, steps[1..]);
      GrantsKeptTransitive(a, next, RunController(san, next, steps[1..]));
    }
  }

  // Whom the controller class accepts: the holder of the active grant, and
  // nobody else. The administrator class also takes the legacy handle.
  lemma AuthorisedIff(a: Authority, p: string, n: nat)
    requires Fenced(a)
    ensures Classify(a, p, true) == Ok(n) <==>
      !Blank(p) && !a.archived && n in a.grants && a.grants[n].status == Active && a.grants[n].lease == p
    ensures Classify(a, p, false) == Ok(n) <==>
      !Blank(p) && !a.archived && n in a.grants && a.grants[n].status in {Active, Legacy} && a.grants[n].lease == p
  {
    ActiveIsNewest(a);
  }

  // New decisions are taken while that grant is connected.
  lemma ConnectedIff(a: Authority)
    requires Fenced(a)
    ensures RequireConnected(a) == None <==> exists n :: n in a.grants && a.grants[n].status == Active && a.grants[n].connected
  {
    ActiveIsNewest(a);
  }

  // Authorised generations never decrease: whoever the controller class
  // accepts later in a run holds a generation at least as new.
  lemma AuthorisedGenerationsGrow(san: string -> string, a: Authority, steps: seq<ControllerStep>, p: string, q: string)
    requires Fenced(a)
    requires Classify(a, p, true).Ok? && Classify(RunController(san, a, steps), q, true).Ok?
    ensures Classify(a, p, true).value <= Classify(RunController(san, a, steps), q, true).value
    ensures Classify(a, p, true).value == Classify(RunController(san, a, steps), q, true).value ==> p == q
  {
    RunFenced(san, a, steps);
    ActiveIsNewest(a);
    ActiveIsNewest(RunController(san, a, steps));
  }

  // A spent lease belongs to retired grants only.
  ghost predicate Spent(a: Authority, lease: string) {
    RetiredLease(a, lease) && forall n :: n in a.grants && a.grants[n].lease == lease ==> a.grants[n].status.Retired()
  }

  function Candidate(c: ControllerCommand): Option<string> {
    match c
    case Adopt(_, _, _, _, candidate) => Some(candidate)
    case Handoff(_, _, _, _, candidate) => Some(candidate)
    case _ => None
  }

  lemma SpentNeverAuthorised(a: Authority, lease: string, requireAdopted: bool)
    requires Fenced(a) && Spent(a, lease)
    ensures Classify(a, lease, requireAdopted).Err?
    ensures !Blank(lease) && !a.archived ==> Classify(a, lease, requireAdopted) == Err(LeaseSuperseded)
  {
  }

  lemma InstallAddsCandidate(a: Authority, op: string, harness: string, ref: string, candidate: string, n: nat)
    requires n in Install(a, op, harness, ref, candidate).grants && n !in a.grants
    ensures Install(a, op, harness, ref, candidate).grants[n].lease == candidate
    ensures Install(a, op, harness, ref, candidate).grants[n].grantedBy == op
  {
  }

  // The only new row any transition makes carries the candidate it was given
  // and names its operation.
  lemma NewRowCarriesCandidate(san: string -> string, a: Authority, step: ControllerStep, n: nat)
    requires Fenced(a) && n in ApplyController(san, a, step).grants && n !in a.grants
    ensures Candidate(step.command) == Some(ApplyController(san, a, step).grants[n].lease)
    ensures ApplyController(san, a, step).grants[n].grantedBy == step.op
  {
    match step.command
    case Adopt(harness, ref, _, _, candidate) => InstallAddsCandidate(a, step.op, harness, ref, candidate, n);
    case Handoff(lease, _, harness, ref, candidate) =>
      var retired := Retire(a, Classify(a, lease, true).value, Superseded);
      InstallAddsCandidate(retired, step.op, harness, ref, candidate, n);
    case _ => KeysStay(san, a, step);
  }

  lemma KeysStay(san: string -> string, a: Authority, step: ControllerStep)
    requires Candidate(step.command) == None
    ensures ApplyController(san, a, step).grants.Keys == a.grants.Keys
  {
  }

  lemma SpentStaysSpent(san: string -> string, a: Authority, step: ControllerStep, lease: string)
    requires Fenced(a) && Spent(a, lease) && Candidate(step.command) != Some(lease)
    ensures Spent(ApplyController(san, a, step), lease)
  {
    var after := ApplyController(san, a, step);
    RunFenced(san, a, [step]);
    assert RunController(san, after, [step][1..]) == after;
    var m :| m in a.grants && a.grants[m].lease == lease && a.grants[m].status.Retired();
    assert after.grants[m] == a.grants[m];
    forall n | n in after.grants && after.grants[n].lease == lease ensures after.grants[n].status.Retired() {
      if n !in a.grants {
        NewRowCarriesCandidate(san, a, step, n);
      }
    }
  }

  // A committed transition gives a spent lease authority again exactly when it
  // installs that very lease as its candidate.
  lemma ReusedLeaseAuthorises(san: string -> string, a: Authority, step: ControllerStep, lease: string)
    requires Fenced(a) && Spent(a, lease) && !MalformedController(step.op, step.command) && !a.archived
    requires DecideController(san, a, step.op, step.issuance, step.command).CommitController?
    ensures Classify(ApplyController(san, a, step), lease, true).Ok? <==> Candidate(step.command) == Some(lease)
  {
    var after := ApplyController(san, a, step);
    RunFenced(san, a, [step]);
    assert RunController(san, after, [step][1..]) == after;
    if Candidate(step.command) == Some(lease) {
      CandidateInstalled(san, a, step);
    } else {
      SpentStaysSpent(san, a, step, lease);
      SpentNeverAuthorised(after, lease, true);
    }
  }

  lemma CandidateInstalled(san: string -> string, a: Authority, step: ControllerStep)
    requires Fenced(a) && !MalformedController(step.op, step.command) && Candidate(step.command).Some?
    requires DecideController(san, a, step.op, step.issuance, step.command).CommitController?
    ensures ApplyController(san, a, step).lease == Candidate(step.command).value
    ensures ApplyController(san, a, step).adopted
  {
  }

  // A lease that is never issued again stays refused for good.
  lemma {:induction false} RetiredForGood(san: string -> string, a: Authority, steps: seq<ControllerStep>, lease: string)
    requires Fenced(a) && Spent(a, lease)
    requires forall step :: step in steps ==> Candidate(step.command) != Some(lease)
    ensures Classify(RunController(san, a, steps), lease, true).Err?
    ensures Classify(RunController(san, a, steps), lease, false).Err?
    decreases |steps|
  {
    if steps == [] {
      SpentNeverAuthorised(a, lease, true);
      SpentNeverAuthorised(a, lease, false);
    } else {
      var next := ApplyController(san, a, steps[0]);
      RunFenced(san, a, [steps[0]]);
      assert RunController(san, next, [steps[0]][1..]) == next;
      SpentStaysSpent(san, a, steps[0], lease);
      RetiredForGood(san, next, steps[1..], lease);
    }
  }

  // Whoever loses the run's authority, by handoff, revocation or first
  // adoption, leaves a spent lease behind, unless that lease is reissued.
  lemma RetirementSpends(san: string -> string, a: Authority, step: ControllerStep, n: nat, after: Authority)
    requires Fenced(a) && n in a.grants && !a.grants[n].status.Retired()
    requires after == ApplyController(san, a, step)
    requires n in after.grants && after.grants[n].status.Retired()
    requires Candidate(step.command) != Some(a.grants[n].lease)
    ensures Spent(after, a.grants[n].lease)
  {
    RunFenced(san, a, [step]);
    assert RunController(san, after, [step][1..]) == after;
    forall m | m in after.grants && after.grants[m].lease == a.grants[n].lease ensures after.grants[m].status.Retired() {
      if m !in a.grants {
        NewRowCarriesCandidate(san, a, step, m);
      } else if m != n {
        OthersRetired(a, m, n);
      }
    }
  }

  lemma OthersRetired(a: Authority, m: nat, n: nat)
    requires Fenced(a) && m in a.grants && n in a.grants && m != n && !a.grants[n].status.Retired()
    ensures a.grants[m].status.Retired()
  {
  }

  // Whether an adoption that presents no bootstrap credential is accepted: if
  // and only if the run is not adopted and its first lease has been retired.
  lemma EmptyBootstrapAdoptsIff(san: string -> string, a: Authority, op: string, c: ControllerCommand)
    requires Fenced(a) && a.grants[0].lease != "" && c.Adopt? && c.recovery == None && c.bootstrap == ""
    ensures DecideAdopt(san, a, op, c).CommitController? <==> !a.adopted && a.grants[0].status != Legacy
  {
  }

  // Such a run is one step from its creation: an operator's revocation of the
  // lease it was created with.
  lemma RevocationOpensBootstrap(san: string -> string, lease: string, created: string, op: string, reason: string,
                                 adoption: ControllerCommand, later: string)
    requires lease != "" && !Blank(op) && !Blank(reason)
    requires adoption.Adopt? && adoption.recovery == None && adoption.bootstrap == ""
    ensures
      var a := RunController(san, NewAuthority(lease, created),
                             [ControllerStep(op, false, Revoke("", Some(Recovery(reason, 0))))]);
      Fenced(a) && DecideAdopt(san, a, later, adoption).CommitController?
  {
    var born, step := NewAuthority(lease, created), ControllerStep(op, false, Revoke("", Some(Recovery(reason, 0))));
    var a := ApplyController(san, born, step);
    NewAuthorityFenced(lease, created);
    RunFenced(san, born, [step]);
    assert RunController(san, a, [step][1..]) == a;
    assert Newest(born.grants, {Legacy, Active}) == Some(0);
    EmptyBootstrapAdoptsIff(san, a, later, adoption);
  }

  // And any later revocation of a fenced run leaves it so.
  lemma RevokedRunOpensBootstrap(san: string -> string, a: Authority, c: ControllerCommand, adoption: ControllerCommand,
                                 op: string)
    requires Fenced(a) && c.Revoke? && DecideRevoke(san, a, c).CommitController?
    requires adoption.Adopt? && adoption.recovery == None && adoption.bootstrap == ""
    ensures DecideAdopt(san, DecideRevoke(san, a, c).after, op, adoption).CommitController?
  {
    ActiveIsNewest(a);
  }

  // The redacted outward view of a run's authority; no status is "none".
  datatype ControllerRecord = ControllerRecord(
    generation: nat,
    harness: string,
    ref: string,
    status: Option<GrantStatus>,
    adopted: bool,
    connected: bool,
    attachment: Option<string>,
    instance: string,
    rev: nat)

  // A query for all grants of a run, newest first.
  ghost predicate Listing(rows: seq<(nat, Grant)>, grants: map<nat, Grant>) {
    && (forall i, j :: 0 <= i < j < |rows| ==> rows[i].0 > rows[j].0)
    && (forall i :: 0 <= i < |rows| ==> rows[i].0 in grants && grants[rows[i].0] == rows[i].1)
    && (forall n :: n in grants ==> exists i :: 0 <= i < |rows| && rows[i].0 == n)
  }

  lemma NewestIsFirst(rows: seq<(nat, Grant)>, grants: map<nat, Grant>, n: nat)
    requires Listing(rows, grants) && IsMax(grants, n)
    ensures |rows| > 0 && rows[0].0 == n
  {
    var i :| 0 <= i < |rows| && rows[i].0 == n;
    assert rows[0].0 in grants && rows[0].0 >= rows[i].0;
  }

  // Every row past the first is retired history.
  lemma RestIsRetired(rows: seq<(nat, Grant)>, a: Authority, i: nat)
    requires Fenced(a) && Listing(rows, a.grants) && 0 < i < |rows|
    ensures rows[i].1.status.Retired()
  {
    assert rows[0].0 > rows[i].0;
  }

  // The fold, in which a later active or legacy row overwrites and a retired
  // row counts only while nothing has been seen, returns the newest grant: the
  // active one exactly when the run is adopted.
  method GetControllerRecord(rows: seq<(nat, Grant)>, a: Authority) returns (rec: ControllerRecord)
    requires Fenced(a) && Listing(rows, a.grants)
    ensures rec.generation == MaxGen(a.grants)
    ensures rec.status == Some(a.grants[MaxGen(a.grants)].status)
    ensures rec.adopted == a.adopted
    ensures a.adopted <==> ActiveGen(a) == Some(rec.generation)
    ensures a.adopted ==>
      var g := a.grants[rec.generation];
      rec == ControllerRecord(rec.generation, g.harness, g.ref, Some(Active), true, g.connected, g.attachment, g.instance, g.rev)
    ensures !a.adopted ==> !rec.connected && rec.attachment == None
  {
    rec := ControllerRecord(0, "", "", None, false, false, None, "", 0);
    NewestIsFirst(rows, a.grants, MaxGen(a.grants));
    ActiveIsNewest(a);
    for i := 0 to |rows|
      invariant i > 0 ==> rec.status == Some(rows[0].1.status)
      invariant i > 0 ==> rec.generation == rows[0].0 && rec.adopted == a.adopted
      invariant i > 0 && a.adopted ==>
        var g := rows[0].1;
        rec == ControllerRecord(rows[0].0, g.harness, g.ref, Some(Active), true, g.connected, g.attachment, g.instance, g.rev)
      invariant i > 0 && !a.adopted ==> !rec.connected && rec.attachment == None
      invariant i == 0 ==> rec.status == None
    {
      var (gen, g) := rows[i];
      if i > 0 {
        RestIsRetired(rows, a, i);
      }
      match g.status {
        case Active =>
          rec := ControllerRecord(gen, g.harness, g.ref, Some(Active), a.adopted, g.connected, g.attachment, g.instance, g.rev);
        case Legacy =>
          rec := ControllerRecord(gen, "", "", Some(Legacy), false, false, None, "", 0);
        case _ =>
          if rec.status == None {
            rec := ControllerRecord(gen, g.harness, g.ref, Some(g.status), a.adopted, false, None, "", 0);
          }
      }
    }
  }
}
