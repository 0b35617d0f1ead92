// What a committed controller transition promises, stated on the stored rows:
// who may make it, what it leaves of the run's grants, and which connection it
// projects on the run's sessions; and how runs and sessions come about.
module Transitions {
  import opened Domain
  import opened SessionRules
  import opened SessionInvariants
  import opened SessionRuns
  import opened ControllerRules
  import opened LeaseFencing
  import opened Database
  import opened Retries
  import opened StoreInvariants

  predicate Formed(op: string, c: ControllerCommand) {
    && !Blank(op)
    && match c
       case Adopt(harness, ref, _, recovery, candidate) =>
         harness in ROSTER && !Blank(ref) && !Blank(candidate) && (recovery.Some? ==> !Blank(recovery.value.reason))
       case Handoff(_, _, harness, ref, candidate) => harness in ROSTER && !Blank(ref) && !Blank(candidate)
       case Revoke(_, recovery) => recovery.Some? ==> !Blank(recovery.value.reason)
       case Recover(source, _) => !Blank(source)
       case Connect(_, _, _, _) => true
       case Disconnect(_, _, _) => true
  }

  // Who may make a transition: a handoff and an attachment change, only the
  // holder of the active grant, naming its generation; a first adoption,
  // whoever shows the run's lease; an operator, who names the newest grant.
  ghost predicate Entitled(a: Authority, c: ControllerCommand) {
    match c
    case Adopt(_, _, bootstrap, recovery, _) =>
      && !a.adopted
      && if recovery == None then bootstrap == a.lease
         else Newest(a.grants, {Legacy, Revoked}) == Some(recovery.value.expected)
    case Handoff(lease, expected, _, _, _) => Classify(a, lease, true) == Ok(expected)
    case Revoke(lease, recovery) =>
      if recovery == None then Classify(a, lease, true).Ok?
      else Newest(a.grants, {Legacy, Active}) == Some(recovery.value.expected)
    case Recover(source, expected) => Issued(a, source) == Some(expected) && a.grants[expected].status == Active
    case Connect(lease, expected, _, _) => Classify(a, lease, true) == Ok(expected)
    case Disconnect(lease, _, expected) => Classify(a, lease, true) == Ok(expected)
  }

  // The next generation, under the candidate lease; every grant that was not
  // retired already is superseded and disconnected.
  ghost predicate Succeeds(a: Authority, b: Authority, op: string, harness: string, ref: string, candidate: string) {
    && b.adopted && b.lease == candidate && b.archived == a.archived
    && exists n: nat ::
         && n !in a.grants && b.grants.Keys == a.grants.Keys + {n} && (forall m :: m in a.grants ==> m < n)
         && b.grants[n] == Grant(harness, ref, candidate, Active, op, None, "", 0, false)
         && forall m :: m in a.grants ==> b.grants[m] == RetiredAs(a.grants[m], Superseded)
  }

  function RetiredAs(g: Grant, status: GrantStatus): Grant {
    if g.status.Retired() then g else g.(status := status, connected := false, attachment := None)
  }

  // What a transition leaves of the run.
  ghost predicate Becomes(a: Authority, b: Authority, op: string, c: ControllerCommand) {
    match c
    case Adopt(harness, ref, _, _, candidate) => Succeeds(a, b, op, harness, ref, candidate)
    case Handoff(_, _, harness, ref, candidate) => Succeeds(a, b, op, harness, ref, candidate)
    case Revoke(_, _) =>
      && !b.adopted && b.lease == "" && b.archived == a.archived && b.grants.Keys == a.grants.Keys
      && forall m :: m in a.grants ==> b.grants[m] == RetiredAs(a.grants[m], Revoked)
    case Recover(_, _) => b == a
    case Connect(_, expected, instance, attachment) =>
      && expected in a.grants
      && var g := a.grants[expected];
         b == a.(grants := a.grants[expected :=
           g.(connected := true, attachment := Some(attachment), instance := instance, rev := g.rev + 1)])
    case Disconnect(_, attachment, expected) =>
      && expected in a.grants
      && if a.grants[expected].attachment == Some(attachment) then
           b == a.(grants := a.grants[expected := a.grants[expected].(connected := false, attachment := None)])
         else b == a
  }

  // The generation on the receipt: the new one, or the one acted on.
  ghost predicate Numbered(a: Authority, c: ControllerCommand, gen: nat) {
    match c
    case Adopt(_, _, _, _, _) => gen !in a.grants && forall m :: m in a.grants ==> m < gen
    case Handoff(_, _, _, _, _) => gen !in a.grants && forall m :: m in a.grants ==> m < gen
    case Revoke(_, _) => gen in a.grants && !a.grants[gen].status.Retired()
    case Recover(_, expected) => gen == expected
    case Connect(_, expected, _, _) => gen == expected
    case Disconnect(_, _, expected) => gen == expected
  }

  // The connection that the run's sessions are told, if any.
  function Told(a: Authority, c: ControllerCommand): Option<Connection> {
    match c
    case Connect(_, _, _, _) => Some(ControllerConnected)
    case Handoff(_, _, _, _, _) => Some(ControllerDisconnected)
    case Revoke(_, _) => Some(ControllerDisconnected)
    case Disconnect(_, attachment, expected) =>
      if expected in a.grants && a.grants[expected].attachment == Some(attachment) then Some(ControllerDisconnected) else None
    case _ => None
  }

  lemma AdoptMeans(san: string -> string, a: Authority, op: string, c: ControllerCommand)
    requires Fenced(a) && c.Adopt? && Formed(op, c)
    ensures
      var d := DecideAdopt(san, a, op, c);
      && (d.CommitController? <==> Entitled(a, c))
      && (d.CommitController? ==> Becomes(a, d.after, op, c) && Numbered(a, c, d.generation) && d.projection == None)
  {
    if !a.adopted {
      InstallSucceeds(a, a, op, c.harness, c.ref, c.candidate);
    }
  }

  // Installing on a vacated run.
  lemma InstallSucceeds(a: Authority, v: Authority, op: string, harness: string, ref: string, candidate: string)
    requires Fenced(a) && Vacant(v) && !Blank(candidate) && v.archived == a.archived && v.grants.Keys == a.grants.Keys
    requires forall m :: m in a.grants ==>
      v.grants[m] == if a.grants[m].status == Active then RetiredAs(a.grants[m], Superseded) else a.grants[m]
    ensures Succeeds(a, Install(v, op, harness, ref, candidate), op, harness, ref, candidate)
  {
    var b, n := Install(v, op, harness, ref, candidate), NextGen(v.grants);
    assert IsMax(v.grants, MaxGen(v.grants));
    assert n !in a.grants && b.grants.Keys == a.grants.Keys + {n};
    forall m | m in a.grants ensures b.grants[m] == RetiredAs(a.grants[m], Superseded) {
      assert m in v.grants && m != n;
    }
  }

  lemma HandoffMeans(a: Authority, op: string, c: ControllerCommand)
    requires Fenced(a) && c.Handoff? && Formed(op, c)
    ensures
      var d := DecideHandoff(a, op, c);
      && (d.CommitController? <==> Entitled(a, c))
      && (d.CommitController? ==> Becomes(a, d.after, op, c) && Numbered(a, c, d.generation) && d.projection == Some(ControllerDisconnected))
  {
    if Classify(a, c.lease, true) == Ok(c.expected) {
      AuthorisedIff(a, c.lease, c.expected);
      RetireVacates(a, c.expected, Superseded);
      OnlyActive(a, c.expected);
      InstallSucceeds(a, Retire(a, c.expected, Superseded), op, c.harness, c.ref, c.candidate);
    }
  }

  lemma OnlyActive(a: Authority, n: nat)
    requires Fenced(a) && n in a.grants && !a.grants[n].status.Retired()
    ensures forall m :: m in a.grants && m != n ==> a.grants[m].status.Retired()
  {
    ActiveIsNewest(a);
  }

  lemma RevokeMeans(san: string -> string, a: Authority, op: string, c: ControllerCommand)
    requires Fenced(a) && c.Revoke?
    ensures
      var d := DecideRevoke(san, a, c);
      && (d.CommitController? <==> Entitled(a, c))
      && (d.CommitController? ==> Becomes(a, d.after, op, c) && Numbered(a, c, d.generation) && d.projection == Some(ControllerDisconnected))
  {
    var d := DecideRevoke(san, a, c);
    if d.CommitController? {
      RevocationAim(san, a, c);
      OnlyActive(a, d.generation);
      RetireBecomes(a, d.generation, d.after, op, c);
    }
  }

  lemma RevocationAim(san: string -> string, a: Authority, c: ControllerCommand)
    requires Fenced(a) && c.Revoke? && DecideRevoke(san, a, c).CommitController?
    ensures
      var gen := DecideRevoke(san, a, c).generation;
      && gen in a.grants && !a.grants[gen].status.Retired() && (a.adopted <==> gen > 0)
      && DecideRevoke(san, a, c).after == Retire(a, gen, Revoked).(lease := "", adopted := false)
  {
    ActiveIsNewest(a);
  }

  lemma RetireBecomes(a: Authority, gen: nat, b: Authority, op: string, c: ControllerCommand)
    requires c.Revoke? && gen in a.grants && b == Retire(a, gen, Revoked).(lease := "", adopted := false)
    requires !a.grants[gen].status.Retired() && forall m :: m in a.grants && m != gen ==> a.grants[m].status.Retired()
    ensures Becomes(a, b, op, c)
  {
  }

  lemma ConnectMeans(san: string -> string, a: Authority, op: string, c: ControllerCommand)
    requires Fenced(a) && c.Connect?
    ensures
      var d := DecideController(san, a, op, false, c);
      && (d.CommitController? <==> Entitled(a, c))
      && (d.CommitController? ==> Becomes(a, d.after, op, c) && Numbered(a, c, d.generation) && d.projection == Some(ControllerConnected))
  {
    ActiveIsNewest(a);
  }

  lemma DisconnectMeans(san: string -> string, a: Authority, op: string, c: ControllerCommand)
    requires Fenced(a) && c.Disconnect?
    ensures
      var d := DecideController(san, a, op, false, c);
      && (d.CommitController? <==> Entitled(a, c))
      && (d.CommitController? ==> Becomes(a, d.after, op, c) && Numbered(a, c, d.generation) && d.projection == Told(a, c))
  {
    ActiveIsNewest(a);
  }

  // One transition of a run that is fenced.
  lemma DecisionMeans(san: string -> string, a: Authority, op: string, issuance: bool, c: ControllerCommand)
    requires Fenced(a) && Formed(op, c) && !c.Recover?
    ensures
      var d := DecideController(san, a, op, issuance, c);
      && (d.CommitController? <==> Entitled(a, c))
      && (d.CommitController? ==> Becomes(a, d.after, op, c) && Numbered(a, c, d.generation) && d.projection == Told(a, c))
  {
    match c
    case Adopt(_, _, _, _, _) => AdoptMeans(san, a, op, c);
    case Handoff(_, _, _, _, _) => HandoffMeans(a, op, c);
    case Revoke(_, _) => RevokeMeans(san, a, op, c);
    case Connect(_, _, _, _) => ConnectMeans(san, a, op, c);
    case Disconnect(_, _, _) => DisconnectMeans(san, a, op, c);
  }

  lemma FormedIff(op: string, c: ControllerCommand)
    ensures MalformedController(op, c) <==> !Formed(op, c)
  {
  }

  // The run's sessions take the connection they are told; the version rises
  // on those that it changes.
  function SeenBy(sessions: map<string, Session>, run: string, told: Option<Connection>): map<string, Session> {
    map id | id in sessions ::
      if told.Some? && sessions[id].run == run && sessions[id].controller != told.value then
        sessions[id].(controller := told.value, version := sessions[id].version + 1)
      else sessions[id]
  }

  lemma SeenByProjects(sessions: map<string, Session>, run: string, told: Option<Connection>)
    ensures SeenBy(sessions, run, told) == if told.Some? then ProjectRun(sessions, run, told.value) else sessions
  {
  }

  // What a committed decision writes.
  ghost predicate Written(db: Db, o: Outcome, op: string, run: string, d: ControllerDecision) {
    && run in db.runs && d.CommitController? && o.db.runs == db.runs[run := d.after]
    && o.db.sessions == (if d.projection.Some? then ProjectRun(db.sessions, run, d.projection.value) else db.sessions)
    && o.reply.Fresh? && o.reply.receipt.op == op && o.reply.receipt.version == d.generation
  }

  lemma AnswerFreshIff(san: string -> string, db: Db, op: string, run: string, target: nat, c: ControllerCommand)
    requires !c.Recover?
    ensures
      var o, d := AnswerController(san, db, op, run, target, c), ControllerDecided(san, db, op, run, c);
      && (o.reply.Fresh? <==> op !in db.journal && d.CommitController?)
      && (o.reply.Fresh? ==> Written(db, o, op, run, d))
  {
  }

  lemma FreshIff(san: string -> string, db: Db, op: string, run: string, c: ControllerCommand, o: Outcome)
    requires !c.Recover? && o == ExecuteController(san, db, op, run, c)
    ensures
      var d := ControllerDecided(san, db, op, run, c);
      && (o.reply.Fresh? <==> op !in db.journal && Formed(op, c) && ControllerGate(db, run, c).Ok? && d.CommitController?)
      && (o.reply.Fresh? ==> Written(db, o, op, run, d))
  {
    FormedIff(op, c);
    if ControllerGate(db, run, c).Ok? {
      AnswerFreshIff(san, db, op, run, ControllerGate(db, run, c).value, c);
    }
  }

  lemma GateAsks(db: Db, run: string, c: ControllerCommand)
    requires run in db.runs && Entitled(db.runs[run], c)
    ensures ControllerGate(db, run, c).Ok?
  {
  }

  lemma NoRunNoCommit(san: string -> string, db: Db, op: string, run: string, c: ControllerCommand)
    requires run !in db.runs
    ensures ControllerDecided(san, db, op, run, c).RefuseController?
  {
  }

  // A transition commits exactly when its maker is entitled to it.
  lemma TransitionsIff(san: string -> string, db: Db, op: string, run: string, c: ControllerCommand)
    requires SoundRuns(db) && !c.Recover?
    ensures ExecuteController(san, db, op, run, c).reply.Fresh? <==>
      op !in db.journal && Formed(op, c) && run in db.runs && Entitled(db.runs[run], c)
  {
    FreshIff(san, db, op, run, c, ExecuteController(san, db, op, run, c));
    if run !in db.runs {
      NoRunNoCommit(san, db, op, run, c);
    } else if Formed(op, c) {
      DecisionMeans(san, db.runs[run], op, false, c);
      if Entitled(db.runs[run], c) {
        GateAsks(db, run, c);
      }
    }
  }

  // What a committed transition leaves: the run as it should become, the run's
  // sessions as they are told, every other run and session as it was.
  ghost predicate Leaves(db: Db, after: Db, op: string, run: string, c: ControllerCommand) {
    && run in db.runs && run in after.runs && after.runs == db.runs[run := after.runs[run]]
    && Becomes(db.runs[run], after.runs[run], op, c)
    && after.sessions == SeenBy(db.sessions, run, Told(db.runs[run], c))
  }

  lemma TransitionLeaves(san: string -> string, db: Db, op: string, run: string, c: ControllerCommand, o: Outcome)
    requires SoundRuns(db) && !c.Recover? && o == ExecuteController(san, db, op, run, c) && o.reply.Fresh?
    ensures Leaves(db, o.db, op, run, c)
    ensures o.reply.receipt.op == op && Numbered(db.runs[run], c, o.reply.receipt.version)
  {
    FreshIff(san, db, op, run, c, o);
    var d := ControllerDecided(san, db, op, run, c);
    DecisionMeans(san, db.runs[run], op, false, c);
    WrittenLeaves(db, o, op, run, c, d);
  }

  lemma WrittenLeaves(db: Db, o: Outcome, op: string, run: string, c: ControllerCommand, d: ControllerDecision)
    requires Written(db, o, op, run, d) && Becomes(db.runs[run], d.after, op, c) && d.projection == Told(db.runs[run], c)
    ensures Leaves(db, o.db, op, run, c)
  {
    SeenByProjects(db.sessions, run, d.projection);
  }

  // Anything else, a recovery included, leaves runs and sessions alone.
  lemma UnfreshKeeps(san: string -> string, db: Db, op: string, run: string, c: ControllerCommand, o: Outcome)
    requires o == ExecuteController(san, db, op, run, c) && (!o.reply.Fresh? || c.Recover?)
    ensures o.db.runs == db.runs && o.db.sessions == db.sessions
  {
    ControllerOpEffect(san, db, op, run, c, o);
  }

  // A credential is disclosed exactly to whoever names the operation that
  // issued it, its generation, and while that grant is active.
  lemma RecoveryIff(san: string -> string, db: Db, op: string, run: string, c: ControllerCommand)
    requires c.Recover? && op !in db.journal
    ensures
      var o := ExecuteController(san, db, op, run, c);
      && (o.reply.Disclosed? <==>
            Formed(op, c) && run in db.runs && IsIssuance(db.journal, c.source) && Entitled(db.runs[run], c))
      && (o.reply.Disclosed? ==> o.reply == Disclosed(c.expected, db.runs[run].grants[c.expected].lease))
  {
    FormedIff(op, c);
  }

  // The same request for a transition: secrets and random values may differ.
  predicate SameTransition(san: string -> string, run: string, target: nat, c: ControllerCommand, run': string, target': nat,
                           c': ControllerCommand)
  {
    && run' == run
    && match c
       case Adopt(harness, ref, _, recovery, _) =>
         c'.Adopt? && c'.harness == harness && c'.ref == ref && SameRecovery(san, recovery, c'.recovery)
       case Handoff(_, expected, harness, ref, _) =>
         c'.Handoff? && c'.expected == expected && c'.harness == harness && c'.ref == ref
       case Revoke(_, recovery) =>
         c'.Revoke? && target' == target && (recovery.Some? <==> c'.recovery.Some?)
         && (recovery.Some? ==> san(c'.recovery.value.reason) == san(recovery.value.reason))
       case Recover(source, expected) => c'.Recover? && c'.source == source && c'.expected == expected
       case Connect(_, expected, _, _) => c'.Connect? && c'.expected == expected
       case Disconnect(_, attachment, expected) =>
         c'.Disconnect? && c'.attachment == attachment && c'.expected == expected
  }

  predicate SameRecovery(san: string -> string, r: Option<Recovery>, q: Option<Recovery>) {
    if r.Some? && q.Some? then q.value.expected == r.value.expected && san(q.value.reason) == san(r.value.reason)
    else r == q
  }

  lemma SameAdoptMode(san: string -> string, r: Option<Recovery>, q: Option<Recovery>)
    requires AdoptMode(san, q) == AdoptMode(san, r)
    ensures SameRecovery(san, r, q)
  {
    assert r == None || AdoptMode(san, r)[0] == 'r';
    assert q == None || AdoptMode(san, q)[0] == 'r';
    if r.Some? && q.Some? {
      var a, b := Decimal(r.value.expected) + ":reason=" + san(r.value.reason),
                  Decimal(q.value.expected) + ":reason=" + san(q.value.reason);
      assert AdoptMode(san, r) == "recovery:gen=" + a && AdoptMode(san, q) == "recovery:gen=" + b;
      AfterPrefix("recovery:gen=", a, b);
      DecimalThen(r.value.expected, q.value.expected, ":reason=", san(r.value.reason), san(q.value.reason));
    }
  }

  lemma SameAim(m: nat, n: nat, r: Option<Recovery>, q: Option<Recovery>)
    requires Aim(m, r) == Aim(n, q)
    ensures m == n && (r.Some? <==> q.Some?)
  {
    assert Aim(m, r)[0] == Aim(n, q)[0];
    AfterPrefix(if r.Some? then "recovery-gen=" else "controller-gen=", Decimal(m), Decimal(n));
    DecimalInjective(m, n);
  }

  function Aim(target: nat, recovery: Option<Recovery>): string {
    if recovery.Some? then "recovery-gen=" + Decimal(target) else "controller-gen=" + Decimal(target)
  }

  // Two transitions have one fingerprint exactly when they are one request.
  lemma TransitionMarkSays(san: string -> string, run: string, target: nat, c: ControllerCommand, run': string, target': nat,
                           c': ControllerCommand)
    ensures ControllerMark(san, run', target', c') == ControllerMark(san, run, target, c) <==>
            SameTransition(san, run, target, c, run', target', c')
  {
    if ControllerMark(san, run', target', c') == ControllerMark(san, run, target, c) {
      EqualTransitionMarks(san, run, target, c, run', target', c');
    }
  }

  lemma EqualTransitionMarks(san: string -> string, run: string, target: nat, c: ControllerCommand, run': string, target': nat,
                             c': ControllerCommand)
    requires ControllerMark(san, run', target', c') == ControllerMark(san, run, target, c)
    ensures SameTransition(san, run, target, c, run', target', c')
  {
    var p, q := ControllerMark(san, run, target, c).parts, ControllerMark(san, run', target', c').parts;
    assert ControllerKind(c') == ControllerKind(c) && q[0] == p[0] && q[1] == p[1];
    assert |p| > 2 ==> q[2] == p[2];
    assert |p| > 3 ==> q[3] == p[3];
    match c
    case Adopt(_, _, _, recovery, _) => SameAdoptMode(san, recovery, c'.recovery);
    case Handoff(_, expected, _, _, _) => DecimalInjective(expected, c'.expected);
    case Revoke(_, recovery) =>
      SameAim(target, target', recovery, c'.recovery);
      if recovery.Some? {
        AfterPrefix("recovery:reason=", san(recovery.value.reason), san(c'.recovery.value.reason));
      }
    case Recover(_, expected) => DecimalInjective(expected, c'.expected);
    case Connect(_, expected, _, _) => DecimalInjective(expected, c'.expected);
    case Disconnect(_, _, expected) => DecimalInjective(expected, c'.expected);
  }
}
