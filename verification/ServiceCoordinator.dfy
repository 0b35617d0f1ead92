// Admission, task accounting, blocker epochs and teardown of the service
// (internal/service/coordinator.go, shutdown.go). A done closure is a token
// that acts once.
module ServiceCoordinator {
  import opened Domain

  datatype ServiceState = ServiceRunning | ServiceDraining | ServiceStopping
  {
    function Rank(): nat {
      match this case ServiceRunning => 0 case ServiceDraining => 1 case ServiceStopping => 2
    }
  }

  datatype Kind = Worker | Handoff | Commit | Control

  datatype Token = Token(kind: Kind, ref: string)

  datatype AdmissionError = ServiceIsStopping

  // `open` are the done closures that have not acted yet.
  datatype Tally = Tally(
    state: ServiceState,
    workers: int,
    handoffs: int,
    commits: int,
    controls: int,
    tasks: int,
    blockers: int,
    epoch: nat,
    activeTurns: set<string>,
    open: map<nat, Token>,
    issued: nat)

  const IDLE := Tally(ServiceRunning, 0, 0, 0, 0, 0, 0, 0, {}, map[], 0)

  function Add(t: Tally, kind: Kind, n: int): Tally {
    var counted := t.(tasks := t.tasks + n);
    match kind
    case Worker => counted.(workers := t.workers + n)
    case Handoff => counted.(handoffs := t.handoffs + n)
    case Commit => counted.(commits := t.commits + n)
    case Control => counted.(controls := t.controls + n)
  }

  function Open(t: Tally, kind: Kind, ref: string): Tally {
    Add(t, kind, 1).(open := t.open[t.issued := Token(kind, ref)], issued := t.issued + 1)
  }

  // The states in which a kind of work is admitted. Commits, and handoffs
  // tracked without admission, are never refused.
  predicate Admits(state: ServiceState, kind: Kind) {
    match kind
    case Worker => state != ServiceStopping
    case Handoff => state == ServiceRunning
    case Commit => true
    case Control => state != ServiceStopping
  }

  function Admit(t: Tally, kind: Kind, ref: string): Result<Tally, AdmissionError> {
    if !Admits(t.state, kind) then Err(ServiceIsStopping)
    else
      var grown := Open(t, kind, ref);
      Ok(if kind == Worker then grown.(activeTurns := grown.activeTurns + {ref}, epoch := t.epoch + 1) else grown)
  }

  // A done closure: the first call gives back the work, later ones do nothing.
  function Finished(t: Tally, id: nat): Tally {
    if id !in t.open then t
    else
      var token := t.open[id];
      var given := Add(t, token.kind, -1).(open := t.open - {id});
      if token.kind == Worker then given.(activeTurns := given.activeTurns - {token.ref}, epoch := t.epoch + 1) else given
  }

  function Advanced(t: Tally, state: ServiceState): Tally {
    if state.Rank() > t.state.Rank() then t.(state := state) else t
  }

  predicate Eligible(t: Tally) {
    t.handoffs == 0 && t.workers == 0 && t.commits == 0 && t.controls == 0 && t.blockers == 0
  }

  function StoppedIfIdle(t: Tally): Tally {
    if t.state == ServiceRunning && Eligible(t) then t.(state := ServiceStopping) else t
  }

  function AddBlocker(t: Tally): Tally {
    t.(blockers := t.blockers + 1, epoch := t.epoch + 1)
  }

  // A diagnostic read is applied only if nothing it depends on has changed
  // since its epoch was captured.
  function ApplyBlockers(t: Tally, n: int, epoch: nat): Tally {
    if epoch == t.epoch then t.(blockers := n) else t
  }

  function OfKind(open: map<nat, Token>, kind: Kind): set<nat> {
    set id | id in open && open[id].kind == kind
  }

  // Every counter counts exactly the closures that have yet to act.
  ghost predicate Accounted(t: Tally) {
    && t.workers == |OfKind(t.open, Worker)|
    && t.handoffs == |OfKind(t.open, Handoff)|
    && t.commits == |OfKind(t.open, Commit)|
    && t.controls == |OfKind(t.open, Control)|
    && t.tasks == t.workers + t.handoffs + t.commits + t.controls
    && (forall id :: id in t.open ==> id < t.issued)
  }

  lemma OfKindOpen(open: map<nat, Token>, id: nat, token: Token, kind: Kind)
    requires id !in open
    ensures |OfKind(open[id := token], kind)| == |OfKind(open, kind)| + if token.kind == kind then 1 else 0
  {
    if token.kind == kind {
      assert OfKind(open[id := token], kind) == OfKind(open, kind) + {id};
    } else {
      assert OfKind(open[id := token], kind) == OfKind(open, kind);
    }
  }

  lemma OfKindClose(open: map<nat, Token>, id: nat, kind: Kind)
    requires id in open
    ensures |OfKind(open - {id}, kind)| == |OfKind(open, kind)| - if open[id].kind == kind then 1 else 0
  {
    assert OfKind(open - {id}, kind) == OfKind(open, kind) - {id};
    assert open[id].kind == kind ==> id in OfKind(open, kind);
  }

  lemma OpenAccounted(t: Tally, kind: Kind, ref: string)
    requires Accounted(t)
    ensures Accounted(Open(t, kind, ref))
  {
    OfKindOpen(t.open, t.issued, Token(kind, ref), Worker);
    OfKindOpen(t.open, t.issued, Token(kind, ref), Handoff);
    OfKindOpen(t.open, t.issued, Token(kind, ref), Commit);
    OfKindOpen(t.open, t.issued, Token(kind, ref), Control);
  }

  lemma DoneAccounted(t: Tally, id: nat)
    requires Accounted(t)
    ensures Accounted(Finished(t, id))
    ensures id in t.open ==> Finished(t, id).tasks == t.tasks - 1
    ensures Finished(Finished(t, id), id) == Finished(t, id)
  {
    if id in t.open {
      OfKindClose(t.open, id, Worker);
      OfKindClose(t.open, id, Handoff);
      OfKindClose(t.open, id, Commit);
      OfKindClose(t.open, id, Control);
    }
  }

  lemma AdmitAccounted(t: Tally, kind: Kind, ref: string)
    requires Accounted(t) && Admit(t, kind, ref).Ok?
    ensures Accounted(Admit(t, kind, ref).value)
  {
    OpenAccounted(t, kind, ref);
  }

  lemma IdleAccounted()
    ensures Accounted(IDLE)
  {
    assert OfKind(map[], Worker) == OfKind(map[], Handoff) == OfKind(map[], Commit) == OfKind(map[], Control) == {};
  }

  // What eligibility gives: no done closure is outstanding.
  lemma EligibleMeansIdle(t: Tally)
    requires Accounted(t)
    ensures Eligible(t) <==> t.open == map[] && t.blockers == 0
    ensures t.open == map[] ==> t.tasks == 0
  {
    if Eligible(t) {
      IdleHasNoTokens(t);
      assert t.open == map[];
    }
    if t.open == map[] {
      assert OfKind(t.open, Worker) == OfKind(t.open, Handoff) == OfKind(t.open, Commit) == OfKind(t.open, Control) == {};
    }
  }

  // The five counters, the task group and the epoch, under the lock. Each
  // method is one of the steps above, which keep the tally accounted.
  class Coordinator {
    var state: ServiceState
    var liveWorkers: int
    var pendingHandoffs: int
    var pendingCommits: int
    var inFlightControl: int
    var tasks: int
    var recoveryBlockers: int
    var blockerEpoch: nat
    var activeTurns: set<string>
    var open: map<nat, Token>
    var issued: nat

    ghost function View(): Tally
      reads this
    {
      Tally(state, liveWorkers, pendingHandoffs, pendingCommits, inFlightControl, tasks, recoveryBlockers, blockerEpoch,
            activeTurns, open, issued)
    }

    ghost predicate Valid()
      reads this
    {
      Accounted(View())
    }

    constructor ()
      ensures View() == IDLE
      ensures Valid()
    {
      state, liveWorkers, pendingHandoffs, pendingCommits, inFlightControl := ServiceRunning, 0, 0, 0, 0;
      tasks, recoveryBlockers, blockerEpoch, activeTurns, open, issued := 0, 0, 0, {}, map[], 0;
      new;
      assert View() == IDLE;
      IdleAccounted();
    }

    method SetState(next: ServiceState)
      requires Valid()
      modifies this`state
      ensures View() == Advanced(old(View()), next)
      ensures Valid()
    {
      if next.Rank() > state.Rank() {
        state := next;
      }
    }

    method RegisterWorker(ref: string) returns (r: Result<nat, AdmissionError>)
      requires Valid()
      modifies this`activeTurns, this`liveWorkers, this`tasks, this`blockerEpoch, this`open, this`issued
      ensures match Admit(old(View()), Worker, ref)
              case Ok(after) => r == Ok(old(issued)) && View() == after
              case Err(e) => r == Err(e) && View() == old(View())
      ensures Valid()
    {
      if state == ServiceStopping {
        return Err(ServiceIsStopping);
      }
      ghost var before := View();
      var id := issued;
      activeTurns := activeTurns + {ref};
      liveWorkers := liveWorkers + 1;
      tasks := tasks + 1;
      blockerEpoch := blockerEpoch + 1;
      open, issued := open[id := Token(Worker, ref)], issued + 1;
      assert Admit(before, Worker, ref) == Ok(View());
      AdmitAccounted(before, Worker, ref);
      return Ok(id);
    }

    method AdmitRelease() returns (r: Result<nat, AdmissionError>)
      requires Valid()
      modifies this`pendingHandoffs, this`tasks, this`open, this`issued
      ensures match Admit(old(View()), Handoff, "")
              case Ok(after) => r == Ok(old(issued)) && View() == after
              case Err(e) => r == Err(e) && View() == old(View())
      ensures Valid()
    {
      if state == ServiceDraining || state == ServiceStopping {
        return Err(ServiceIsStopping);
      }
      AdmitAccounted(View(), Handoff, "");
      var id := issued;
      pendingHandoffs := pendingHandoffs + 1;
      tasks := tasks + 1;
      open, issued := open[id := Token(Handoff, "")], issued + 1;
      return Ok(id);
    }

    method TrackCommit() returns (id: nat)
      requires Valid()
      modifies this`pendingCommits, this`tasks, this`open, this`issued
      ensures id == old(issued) && Admit(old(View()), Commit, "") == Ok(View())
      ensures Valid()
    {
      AdmitAccounted(View(), Commit, "");
      id := issued;
      pendingCommits := pendingCommits + 1;
      tasks := tasks + 1;
      open, issued := open[id := Token(Commit, "")], issued + 1;
    }

    method TrackControl() returns (r: Result<nat, AdmissionError>)
      requires Valid()
      modifies this`inFlightControl, this`tasks, this`open, this`issued
      ensures match Admit(old(View()), Control, "")
              case Ok(after) => r == Ok(old(issued)) && View() == after
              case Err(e) => r == Err(e) && View() == old(View())
      ensures Valid()
    {
      if state == ServiceStopping {
        return Err(ServiceIsStopping);
      }
      AdmitAccounted(View(), Control, "");
      var id := issued;
      inFlightControl := inFlightControl + 1;
      tasks := tasks + 1;
      open, issued := open[id := Token(Control, "")], issued + 1;
      return Ok(id);
    }

    // A done closure.
    method Done(id: nat)
      requires Valid()
      modifies this`activeTurns, this`liveWorkers, this`pendingHandoffs, this`pendingCommits, this`inFlightControl,
               this`tasks, this`blockerEpoch, this`open
      ensures View() == Finished(old(View()), id)
      ensures Valid()
    {
      if id !in open {
        return;
      }
      ghost var before := View();
      var token := open[id];
      match token.kind {
        case Worker =>
          activeTurns := activeTurns - {token.ref};
          liveWorkers := liveWorkers - 1;
          blockerEpoch := blockerEpoch + 1;
        case Handoff => pendingHandoffs := pendingHandoffs - 1;
        case Commit => pendingCommits := pendingCommits - 1;
        case Control => inFlightControl := inFlightControl - 1;
      }
      tasks := tasks - 1;
      open := open - {id};
      assert View() == Finished(before, id);
      DoneAccounted(before, id);
    }

    method AddRecoveryBlocker()
      requires Valid()
      modifies this`recoveryBlockers, this`blockerEpoch
      ensures View() == AddBlocker(old(View()))
      ensures Valid()
    {
      recoveryBlockers := recoveryBlockers + 1;
      blockerEpoch := blockerEpoch + 1;
    }

    method ApplyDiagnosticBlockers(n: int, epoch: nat) returns (applied: bool)
      requires Valid()
      modifies this`recoveryBlockers
      ensures View() == ApplyBlockers(old(View()), n, epoch) && applied == (epoch == blockerEpoch)
      ensures Valid()
    {
      if epoch != blockerEpoch {
        return false;
      }
      recoveryBlockers := n;
      return true;
    }

    // Nothing is under way and nothing is owed.
    method IsShutdownEligible() returns (eligible: bool)
      requires Valid()
      ensures eligible <==> open == map[] && recoveryBlockers == 0
    {
      EligibleMeansIdle(View());
      eligible := pendingHandoffs == 0 && liveWorkers == 0 && pendingCommits == 0 && inFlightControl == 0
                  && recoveryBlockers == 0;
    }

    method TryStopIdle() returns (stopped: bool)
      requires Valid()
      modifies this`state
      ensures View() == StoppedIfIdle(old(View()))
      ensures stopped <==> old(state) == ServiceRunning && open == map[] && recoveryBlockers == 0
      ensures stopped ==> state == ServiceStopping && tasks == 0
      ensures Valid()
    {
      EligibleMeansIdle(View());
      if state != ServiceRunning {
        return false;
      }
      if pendingHandoffs == 0 && liveWorkers == 0 && pendingCommits == 0 && inFlightControl == 0 && recoveryBlockers == 0 {
        state := ServiceStopping;
        return true;
      }
      return false;
    }
  }

  // Teardown: the gate shuts, the tasks are joined or the deadline passes, and
  // only a joined teardown closes storage.
  datatype Teardown = NotStarted | GateShut | Joined | Forced | StorageClosed

  // A diagnostic read on its way, with when its epoch was captured; an
  // obligation not yet reconciled, with when it was added.
  datatype Capture = Capture(epoch: nat, time: nat)

  datatype Obligation = Obligation(stamp: nat, time: nat)

  datatype World = World(
    tally: Tally,
    teardown: Teardown,
    time: nat,
    captures: set<Capture>,
    base: int,
    obligations: seq<Obligation>)

  datatype Step =
    | Register(ref: string)
    | AdmitHandoff
    | OpenCommit(worker: nat)
    | AdmitControl
    | Finish(token: nat)
    | Move(state: ServiceState)
    | StopIdle
    | Block
    | CaptureEpoch
    | Refresh(capture: Capture, n: int)
    | ShutGate
    | Join
    | Deadline
    | CloseStorage

  function Or(r: Result<Tally, AdmissionError>, t: Tally): Tally {
    match r case Ok(after) => after case Err(_) => t
  }

  // A commit is opened only by a worker that is still registered: the
  // supervisor records its outcome before its own done.
  function Act(w: World, step: Step): World {
    var t := w.tally;
    match step
    case Register(ref) => w.(tally := Or(Admit(t, Worker, ref), t))
    case AdmitHandoff => w.(tally := Or(Admit(t, Handoff, ""), t))
    case OpenCommit(worker) =>
      if worker in t.open && t.open[worker].kind == Worker then w.(tally := Or(Admit(t, Commit, ""), t)) else w
    case AdmitControl => w.(tally := Or(Admit(t, Control, ""), t))
    case Finish(token) => w.(tally := Finished(t, token))
    case Move(state) => w.(tally := Advanced(t, state))
    case StopIdle => w.(tally := StoppedIfIdle(t))
    case Block =>
      w.(tally := AddBlocker(t), obligations := w.obligations + [Obligation(t.epoch + 1, w.time)])
    case CaptureEpoch => w.(captures := w.captures + {Capture(t.epoch, w.time)})
    case Refresh(capture, n) =>
      if capture in w.captures && capture.epoch == t.epoch then
        w.(tally := ApplyBlockers(t, n, capture.epoch), base := n, obligations := [])
      else w
    case ShutGate => if w.teardown == NotStarted then w.(tally := Advanced(t, ServiceStopping), teardown := GateShut) else w
    case Join => if w.teardown == GateShut && t.tasks == 0 then w.(teardown := Joined) else w
    case Deadline => if w.teardown == GateShut then w.(teardown := Forced) else w
    case CloseStorage => if w.teardown == Joined then w.(teardown := StorageClosed) else w
  }

  function Next(w: World, step: Step): World {
    Act(w, step).(time := w.time + 1)
  }

  function Run(w: World, steps: seq<Step>): World
    decreases |steps|
  {
    if steps == [] then w else Run(Next(w, steps[0]), steps[1..])
  }

  ghost predicate Inv(w: World) {
    && Accounted(w.tally)
    && (w.teardown != NotStarted ==> w.tally.state == ServiceStopping)
    && (w.teardown == Joined || w.teardown == StorageClosed ==> w.tally.tasks == 0)
    && w.tally.blockers == w.base + |w.obligations|
    && Epochs(w)
  }

  // An epoch captured before an obligation was added is older than it.
  ghost predicate Epochs(w: World) {
    && (forall c :: c in w.captures ==> c.epoch <= w.tally.epoch && c.time < w.time)
    && (forall i :: 0 <= i < |w.obligations| ==> w.obligations[i].stamp <= w.tally.epoch && w.obligations[i].time < w.time)
    && (forall c, i :: c in w.captures && 0 <= i < |w.obligations| ==>
          (w.obligations[i].stamp <= c.epoch <==> w.obligations[i].time < c.time))
  }

  lemma IdleHasNoTokens(t: Tally)
    requires Accounted(t) && t.tasks == 0
    ensures forall id :: id !in t.open
  {
    assert OfKind(t.open, Worker) == OfKind(t.open, Handoff) == OfKind(t.open, Commit) == OfKind(t.open, Control) == {};
    forall id ensures id !in t.open {
      assert id in t.open ==> id in OfKind(t.open, t.open[id].kind);
    }
  }

  // Stopped and idle: nothing is admitted, and without a worker no commit can
  // open.
  lemma QuietStays(w: World, step: Step)
    requires Accounted(w.tally) && w.tally.state == ServiceStopping && w.tally.tasks == 0
    ensures Next(w, step).tally.state == ServiceStopping && Next(w, step).tally.tasks == 0
  {
    IdleHasNoTokens(w.tally);
  }

  lemma StepKeepsAccounts(w: World, step: Step)
    requires Accounted(w.tally)
    ensures Accounted(Next(w, step).tally)
    ensures Next(w, step).tally.state.Rank() >= w.tally.state.Rank()
  {
    match step
    case Register(ref) => OpenAccounted(w.tally, Worker, ref);
    case AdmitHandoff => OpenAccounted(w.tally, Handoff, "");
    case OpenCommit(_) => OpenAccounted(w.tally, Commit, "");
    case AdmitControl => OpenAccounted(w.tally, Control, "");
    case Finish(token) => DoneAccounted(w.tally, token);
    case _ => OthersKeepAccounts(w, step);
  }

  // Steps that open and finish nothing.
  lemma OthersKeepAccounts(w: World, step: Step)
    requires Accounted(w.tally)
    requires !step.Register? && !step.AdmitHandoff? && !step.OpenCommit? && !step.AdmitControl? && !step.Finish?
    ensures Accounted(Next(w, step).tally)
    ensures Next(w, step).tally.state.Rank() >= w.tally.state.Rank()
  {
  }

  lemma StepKeepsEpochs(w: World, step: Step)
    requires Inv(w)
    ensures Epochs(Next(w, step))
    ensures Next(w, step).tally.blockers == Next(w, step).base + |Next(w, step).obligations|
  {
  }

  lemma StepKeepsInv(w: World, step: Step)
    requires Inv(w)
    ensures Inv(Next(w, step))
  {
    StepKeepsAccounts(w, step);
    StepKeepsEpochs(w, step);
    if w.teardown == Joined || w.teardown == StorageClosed {
      QuietStays(w, step);
    }
  }

  lemma {:induction false} RunKeepsInv(w: World, steps: seq<Step>)
    requires Inv(w)
    ensures Inv(Run(w, steps)) && Run(w, steps).tally.state.Rank() >= w.tally.state.Rank()
    decreases |steps|
  {
    if steps != [] {
      StepKeepsAccounts(w, steps[0]);
      StepKeepsInv(w, steps[0]);
      RunKeepsInv(Next(w, steps[0]), steps[1..]);
    }
  }

  // Stable quiescence: once stopping with no task, there is never a task
  // again, over any run.
  lemma {:induction false} QuiescenceIsStable(w: World, steps: seq<Step>)
    requires Accounted(w.tally) && w.tally.state == ServiceStopping && w.tally.tasks == 0
    ensures Run(w, steps).tally.state == ServiceStopping && Run(w, steps).tally.tasks == 0
    decreases |steps|
  {
    if steps != [] {
      QuietStays(w, steps[0]);
      StepKeepsAccounts(w, steps[0]);
      QuiescenceIsStable(Next(w, steps[0]), steps[1..]);
    }
  }

  // What is admitted, by kind and state.
  lemma AdmittedIff(t: Tally, kind: Kind, ref: string)
    ensures Admit(t, kind, ref).Ok? <==>
      kind == Commit || t.state == ServiceRunning || (t.state == ServiceDraining && kind != Handoff)
  {
  }

  // Draining: from then on releases only finish, over any run.
  lemma {:induction false} ReleasesOnlyDrain(w: World, steps: seq<Step>)
    requires Accounted(w.tally) && w.tally.state != ServiceRunning
    ensures Run(w, steps).tally.state != ServiceRunning
    ensures OfKind(Run(w, steps).tally.open, Handoff) <= OfKind(w.tally.open, Handoff)
    decreases |steps|
  {
    if steps != [] {
      StepKeepsAccounts(w, steps[0]);
      StepDrains(w, steps[0]);
      ReleasesOnlyDrain(Next(w, steps[0]), steps[1..]);
    }
  }

  lemma StepDrains(w: World, step: Step)
    requires Accounted(w.tally) && w.tally.state != ServiceRunning
    ensures Next(w, step).tally.state != ServiceRunning
    ensures OfKind(Next(w, step).tally.open, Handoff) <= OfKind(w.tally.open, Handoff)
  {
  }

  // The service as it starts: nothing admitted, nothing captured.
  ghost predicate Startup(w: World) {
    && Accounted(w.tally) && w.tally.tasks == 0 && w.tally.blockers == w.base
    && w.teardown == NotStarted && w.captures == {} && w.obligations == []
  }

  // Storage is closed only once every task has finished, and no task begins
  // after it: over every interleaving from startup.
  lemma StorageClosesLast(start: World, before: seq<Step>, later: seq<Step>)
    requires Startup(start) && Run(start, before).teardown == StorageClosed
    ensures Run(start, before).tally.tasks == 0
    ensures Run(Run(start, before), later).tally.tasks == 0
  {
    RunKeepsInv(start, before);
    QuiescenceIsStable(Run(start, before), later);
  }

  // An obligation is removed only by a refresh whose epoch was captured after
  // it was added.
  lemma ObligationsOutliveOlderReads(w: World, step: Step, i: nat)
    requires Inv(w) && i < |w.obligations|
    ensures || w.obligations[i] in Next(w, step).obligations
            || (step.Refresh? && step.capture in w.captures && w.obligations[i].time < step.capture.time)
  {
    if step.Block? {
      assert Next(w, step).obligations[i] == w.obligations[i];
    }
  }

  // A successful stop finds nothing under way, and nothing ever is again.
  lemma StoppedIdleStaysIdle(w: World, steps: seq<Step>)
    requires Accounted(w.tally) && w.tally.state == ServiceRunning && Eligible(w.tally)
    ensures
      var later := Run(Next(w, StopIdle), steps).tally;
      later.state == ServiceStopping && later.tasks == 0 && later.open == map[]
  {
    EligibleMeansIdle(w.tally);
    StepKeepsAccounts(w, StopIdle);
    QuiescenceIsStable(Next(w, StopIdle), steps);
    RunKeepsAccounts(Next(w, StopIdle), steps);
    IdleHasNoTokens(Run(Next(w, StopIdle), steps).tally);
    assert Run(Next(w, StopIdle), steps).tally.open == map[];
  }

  lemma {:induction false} RunKeepsAccounts(w: World, steps: seq<Step>)
    requires Accounted(w.tally)
    ensures Accounted(Run(w, steps).tally)
    decreases |steps|
  {
    if steps != [] {
      StepKeepsAccounts(w, steps[0]);
      RunKeepsAccounts(Next(w, steps[0]), steps[1..]);
    }
  }

  // The steps above, and handoffs that are tracked without being admitted.
  datatype LooseStep = Checked(step: Step) | TrackHandoff

  function NextLoose(w: World, s: LooseStep): World {
    match s
    case Checked(step) => Next(w, step)
    case TrackHandoff => w.(tally := Open(w.tally, Handoff, ""), time := w.time + 1)
  }

  function RunLoose(w: World, steps: seq<LooseStep>): World
    decreases |steps|
  {
    if steps == [] then w else RunLoose(NextLoose(w, steps[0]), steps[1..])
  }

  // A stopped, idle service stays idle all along a run exactly when nobody
  // tracks a handoff without admission.
  lemma {:induction false} UncheckedHandoffBreaksQuiescence(w: World, steps: seq<LooseStep>)
    requires Accounted(w.tally) && w.tally.state == ServiceStopping && w.tally.tasks == 0
    ensures (forall n :: 0 <= n <= |steps| ==> RunLoose(w, steps[..n]).tally.tasks == 0) <==> TrackHandoff !in steps
    decreases |steps|
  {
    if steps != [] {
      var next := NextLoose(w, steps[0]);
      assert RunLoose(next, steps[..1][1..]) == next;
      assert RunLoose(w, steps[..1]) == next;
      if steps[0].Checked? {
        QuietStays(w, steps[0].step);
        StepKeepsAccounts(w, steps[0].step);
        UncheckedHandoffBreaksQuiescence(next, steps[1..]);
        forall n | 1 <= n <= |steps| ensures RunLoose(w, steps[..n]) == RunLoose(next, steps[1..][..n - 1]) {
          assert steps[..n][1..] == steps[1..][..n - 1];
        }
        LooseTail(w, next, steps);
      } else {
        assert next.tally.tasks == 1;
      }
    }
  }

  lemma LooseTail(w: World, next: World, steps: seq<LooseStep>)
    requires steps != [] && w.tally.tasks == 0
    requires forall n :: 1 <= n <= |steps| ==> RunLoose(w, steps[..n]) == RunLoose(next, steps[1..][..n - 1])
    ensures (forall n :: 0 <= n <= |steps| ==> RunLoose(w, steps[..n]).tally.tasks == 0) <==>
            (forall m :: 0 <= m <= |steps| - 1 ==> RunLoose(next, steps[1..][..m]).tally.tasks == 0)
  {
    assert RunLoose(w, steps[..0]) == w;
    if forall n :: 0 <= n <= |steps| ==> RunLoose(w, steps[..n]).tally.tasks == 0 {
      forall m | 0 <= m <= |steps| - 1 ensures RunLoose(next, steps[1..][..m]).tally.tasks == 0 {
        assert RunLoose(w, steps[..m + 1]).tally.tasks == 0;
      }
    }
    if forall m :: 0 <= m <= |steps| - 1 ==> RunLoose(next, steps[1..][..m]).tally.tasks == 0 {
      forall n | 0 <= n <= |steps| ensures RunLoose(w, steps[..n]).tally.tasks == 0 {
        if n > 0 {
          assert RunLoose(next, steps[1..][..n - 1]).tally.tasks == 0;
        }
      }
    }
  }
}
