// Controller authority over one run: the lease grants, who they authorise and
// what each controller transition does to them
// (internal/storage/controller_leases.go, controller_attachment.go).
module ControllerRules {
  import opened Domain
  import opened SessionRules

  datatype GrantStatus = Legacy | Active | Superseded | Revoked
  {
    predicate Retired() {
      Superseded? || Revoked?
    }
  }

  datatype Grant = Grant(
    harness: string,
    ref: string,
    lease: string,
    status: GrantStatus,
    grantedBy: string,
    attachment: Option<string>,
    instance: string,
    rev: nat,
    connected: bool)

  // A run's row and its grants, keyed by generation.
  datatype Authority = Authority(lease: string, adopted: bool, archived: bool, grants: map<nat, Grant>)

  datatype Recovery = Recovery(reason: string, expected: nat)

  // `candidate` and `attachment` stand for the random values of the source.
  datatype ControllerCommand =
    | Adopt(harness: string, ref: string, bootstrap: string, recovery: Option<Recovery>, candidate: string)
    | Handoff(lease: string, expected: nat, harness: string, ref: string, candidate: string)
    | Revoke(lease: string, recovery: Option<Recovery>)
    | Recover(source: string, expected: nat)
    | Connect(lease: string, expected: nat, instance: string, attachment: string)
    | Disconnect(lease: string, attachment: string, expected: nat)

  // A commit carries the projection it makes on every session of the run.
  datatype ControllerDecision =
    | RefuseController(error: Error)
    | CommitController(after: Authority, projection: Option<Connection>, generation: nat, payload: string)

  // `max(generation)`.
  ghost predicate IsMax(grants: map<nat, Grant>, n: nat) {
    n in grants && forall m :: m in grants ==> m <= n
  }

  lemma {:induction false} HasMax(grants: map<nat, Grant>)
    requires grants != map[]
    ensures exists n :: IsMax(grants, n)
    decreases |grants|
  {
    var k :| k in grants;
    var rest := grants - {k};
    if rest == map[] {
      assert forall m :: m in grants && m != k ==> m in rest;
      assert IsMax(grants, k);
    } else {
      assert grants.Keys == rest.Keys + {k};
      assert |grants.Keys| == |rest.Keys| + 1;
      HasMax(rest);
      var n :| IsMax(rest, n);
      assert IsMax(grants, if n < k then k else n);
    }
  }

  ghost function MaxGen(grants: map<nat, Grant>): (n: nat)
    requires grants != map[]
    ensures IsMax(grants, n)
  {
    HasMax(grants);
    var n :| IsMax(grants, n);
    n
  }

  ghost function NextGen(grants: map<nat, Grant>): nat {
    if grants == map[] then 1 else MaxGen(grants) + 1
  }

  // The generation that a query for one of `wanted`, newest first, returns.
  ghost function Newest(grants: map<nat, Grant>, wanted: set<GrantStatus>): (r: Option<nat>)
    ensures r.Some? ==> r.value in grants && grants[r.value].status in wanted
    ensures r.Some? ==> forall m :: m in grants && grants[m].status in wanted ==> m <= r.value
    ensures r == None ==> forall m :: m in grants ==> grants[m].status !in wanted
  {
    var rows := map n | n in grants && grants[n].status in wanted :: grants[n];
    assert forall m :: m in grants && grants[m].status in wanted ==> m in rows;
    if rows == map[] then None else Some(MaxGen(rows))
  }

  ghost function ActiveGen(a: Authority): Option<nat> {
    Newest(a.grants, {Active})
  }

  ghost predicate RetiredLease(a: Authority, lease: string) {
    exists n :: n in a.grants && a.grants[n].lease == lease && a.grants[n].status.Retired()
  }

  // What a presented credential is worth: the active generation, the legacy
  // maintenance handle (administrator class), or a typed refusal. A current
  // match outranks a retired one; a bare match of the run's lease is nothing.
  ghost function Classify(a: Authority, presented: string, requireAdopted: bool): Result<nat, Error> {
    var active := ActiveGen(a);
    if Blank(presented) then Err(AdoptionRequired)
    else if a.archived then Err(SessionIsArchived)
    else if active.Some? && a.adopted && a.grants[active.value].lease == presented && a.lease == presented then
      Ok(active.value)
    else if RetiredLease(a, presented) then Err(LeaseSuperseded)
    else if a.adopted then Err(Unauthorized)
    else if requireAdopted then Err(AdoptionRequired)
    else if 0 in a.grants && a.grants[0].status == Legacy && a.grants[0].lease == presented && a.lease == presented then
      Ok(0)
    else Err(Unauthorized)
  }

  // New decisions need the active grant to be connected.
  ghost function RequireConnected(a: Authority): Option<Error> {
    var active := ActiveGen(a);
    if active == None then Some(AdoptionRequired)
    else if !a.grants[active.value].connected then Some(ControllerIsDisconnected)
    else None
  }

  // The next generation becomes active and the legacy row retires.
  ghost function Install(a: Authority, op: string, harness: string, ref: string, candidate: string): Authority {
    var next := NextGen(a.grants);
    var added := a.grants[next := Grant(harness, ref, candidate, Active, op, None, "", 0, false)];
    var grants := if 0 in added && added[0].status == Legacy then added[0 := added[0].(status := Superseded)] else added;
    a.(lease := candidate, adopted := true, grants := grants)
  }

  function Retire(a: Authority, gen: nat, status: GrantStatus): Authority {
    if gen in a.grants then
      a.(grants := a.grants[gen := a.grants[gen].(status := status, connected := false, attachment := None)])
    else a
  }

  // How a transition was authorised, as its payload and fingerprint say.
  function AdoptMode(san: string -> string, recovery: Option<Recovery>): string {
    match recovery
    case None => "bootstrap"
    case Some(r) => "recovery:gen=" + Decimal(r.expected) + ":reason=" + san(r.reason)
  }

  function RevokeMode(san: string -> string, recovery: Option<Recovery>): string {
    match recovery
    case None => "controller"
    case Some(r) => "recovery:reason=" + san(r.reason)
  }

  ghost function DecideAdopt(san: string -> string, a: Authority, op: string, c: ControllerCommand): ControllerDecision
    requires c.Adopt?
  {
    var target := Newest(a.grants, {Legacy, Revoked});
    if a.adopted then RefuseController(AdoptionExists)
    else if c.recovery.Some? && target != Some(c.recovery.value.expected) then RefuseController(GenerationMismatch)
    else if c.recovery == None && c.bootstrap != a.lease then RefuseController(Unauthorized)
    else
      CommitController(Install(a, op, c.harness, c.ref, c.candidate), None, NextGen(a.grants),
                       "generation=" + Decimal(NextGen(a.grants)) + ":authorized_by=" + AdoptMode(san, c.recovery))
  }

  ghost function DecideHandoff(a: Authority, op: string, c: ControllerCommand): ControllerDecision
    requires c.Handoff?
  {
    match Classify(a, c.lease, true)
    case Err(e) => RefuseController(e)
    case Ok(gen) =>
      if gen != c.expected then RefuseController(GenerationMismatch)
      else
        var retired := Retire(a, gen, Superseded);
        CommitController(Install(retired, op, c.harness, c.ref, c.candidate), Some(ControllerDisconnected),
                         NextGen(a.grants), "generation=" + Decimal(NextGen(a.grants)) + ":authorized_by=controller")
  }

  // The generation a revocation is aimed at, known before its replay.
  ghost function RevocationTarget(a: Authority, c: ControllerCommand): Result<nat, Error>
    requires c.Revoke?
  {
    if c.recovery.Some? then Ok(c.recovery.value.expected) else Classify(a, c.lease, true)
  }

  ghost function DecideRevoke(san: string -> string, a: Authority, c: ControllerCommand): ControllerDecision
    requires c.Revoke?
  {
    var target := Newest(a.grants, {Legacy, Active});
    match RevocationTarget(a, c)
    case Err(e) => RefuseController(e)
    case Ok(gen) =>
      if c.recovery.Some? && target == None then RefuseController(NoGrantToRevoke)
      else if c.recovery.Some? && target != Some(gen) then RefuseController(GenerationMismatch)
      else
        var retired := Retire(a, gen, Revoked).(lease := "");
        CommitController(if gen > 0 then retired.(adopted := false) else retired, Some(ControllerDisconnected), gen,
                         "revoked:generation=" + Decimal(gen) + ":authorized_by=" + RevokeMode(san, c.recovery))
  }

  ghost function DecideConnect(a: Authority, gen: nat, c: ControllerCommand): ControllerDecision
    requires c.Connect?
  {
    var active := ActiveGen(a);
    if active != Some(gen) then RefuseController(ConstraintViolation)
    else
      var g := a.grants[gen];
      var connected := g.(connected := true, attachment := Some(c.attachment), instance := c.instance, rev := g.rev + 1);
      CommitController(a.(grants := a.grants[gen := connected]), Some(ControllerConnected), gen,
                       "attachment=" + c.attachment + ":rev=" + Decimal(g.rev + 1))
  }

  // Only the current episode can be ended; a late disconnect is recorded and
  // ignored.
  ghost function DecideDisconnect(a: Authority, gen: nat, c: ControllerCommand): ControllerDecision
    requires c.Disconnect?
  {
    var active := ActiveGen(a);
    if active != Some(gen) then RefuseController(ConstraintViolation)
    else
      var g := a.grants[gen];
      if g.connected && g.attachment == Some(c.attachment) then
        CommitController(a.(grants := a.grants[gen := g.(connected := false, attachment := None)]),
                         Some(ControllerDisconnected), gen, "disconnected:attachment=" + c.attachment)
      else CommitController(a, None, gen, "stale_attachment_ignored")
  }

  // The generation issued by an operation, if this run has one.
  ghost function Issued(a: Authority, source: string): (r: Option<nat>)
    ensures r.Some? ==> r.value in a.grants && a.grants[r.value].grantedBy == source
    ensures r.Some? ==> forall n :: n in a.grants && a.grants[n].grantedBy == source ==> n <= r.value
    ensures r == None ==> forall n :: n in a.grants ==> a.grants[n].grantedBy != source
  {
    var rows := map n | n in a.grants && a.grants[n].grantedBy == source :: a.grants[n];
    assert forall n :: n in a.grants && a.grants[n].grantedBy == source ==> n in rows;
    if rows == map[] then None else Some(MaxGen(rows))
  }

  // The secret of a committed adoption or handoff, while it is still active.
  // `issuance`: the source operation is journaled as one of these.
  ghost function DecideRecover(a: Authority, issuance: bool, c: ControllerCommand): ControllerDecision
    requires c.Recover?
  {
    var gen := Issued(a, c.source);
    if !issuance || gen == None then RefuseController(RecoveryUnavailable)
    else if gen != Some(c.expected) then RefuseController(GenerationMismatch)
    else if a.grants[gen.value].status != Active then RefuseController(RecoveryUnavailable)
    else CommitController(a, None, gen.value, "recovered:generation=" + Decimal(gen.value) + ":source=" + c.source)
  }

  // Who may connect or disconnect: the current controller, at the generation
  // it names.
  ghost function Attaching(a: Authority, lease: string, expected: nat): Result<nat, Error> {
    match Classify(a, lease, true)
    case Err(e) => Err(e)
    case Ok(gen) => if gen != expected then Err(GenerationMismatch) else Ok(gen)
  }

  ghost function DecideController(san: string -> string, a: Authority, op: string, issuance: bool,
                                  c: ControllerCommand): ControllerDecision
  {
    match c
    case Adopt(_, _, _, _, _) => DecideAdopt(san, a, op, c)
    case Handoff(_, _, _, _, _) => DecideHandoff(a, op, c)
    case Revoke(_, _) => DecideRevoke(san, a, c)
    case Recover(_, _) => DecideRecover(a, issuance, c)
    case Connect(lease, expected, _, _) =>
      (match Attaching(a, lease, expected)
       case Err(e) => RefuseController(e)
       case Ok(gen) => DecideConnect(a, gen, c))
    case Disconnect(lease, _, expected) =>
      match Attaching(a, lease, expected)
      case Err(e) => RefuseController(e)
      case Ok(gen) => DecideDisconnect(a, gen, c)
  }

  // The argument checks of each transition.
  function MalformedController(op: string, c: ControllerCommand): bool {
    || Blank(op)
    || match c
       case Adopt(harness, ref, _, recovery, candidate) =>
         harness !in ROSTER || Blank(ref) || Blank(candidate) || (recovery.Some? && Blank(recovery.value.reason))
       case Handoff(_, _, harness, ref, candidate) => harness !in ROSTER || Blank(ref) || Blank(candidate)
       case Revoke(_, recovery) => recovery.Some? && Blank(recovery.value.reason)
       case Recover(source, _) => Blank(source)
       case _ => false
  }

  // A new run's supplied lease is generation-0 provenance, never a grant.
  function NewAuthority(lease: string, op: string): Authority {
    Authority(lease, false, false, map[0 := Grant("", "create-run-provenance", lease, Legacy, op, None, "", 0, false)])
  }
}
