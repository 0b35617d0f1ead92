// The in-memory session kernel (internal/council/domain.go). `Kernel` is the
// kernel as a value: every call is a total function from a kernel to a new
// kernel or an error. `Session` is the mutable object, in which the active
// turn is an alias of one of the retained turn records.
module Council {
  import opened Domain

  datatype Turn = Turn(prompt: string, status: TurnStatus, result: string)

  // `active` is the key of the active turn, if there is one.
  datatype Kernel = Kernel(
    state: State,
    lifecycle: Lifecycle,
    controller: Connection,
    visibility: Visibility,
    lease: string,
    pending: map<string, string>,
    active: Option<string>,
    turns: map<string, Turn>,
    recoveryContext: Option<string>,
    recoveryGen: nat,
    activeRecoveryGen: nat)
  {
    predicate HasActiveTurn() {
      active.Some? && active.value in turns
    }

    function ActiveStatus(): TurnStatus
      requires HasActiveTurn()
    {
      turns[active.value].status
    }

    function Authorize(lease: string): Option<KernelError> {
      if lease == "" || lease != this.lease then Some(LeaseMismatch)
      else if lifecycle == SessionArchived || state == Archived then Some(KernelArchived)
      else if controller == ControllerDisconnected then Some(KernelDisconnected)
      else None
    }

    function Queue(lease: string, key: string, prompt: string): KernelResult {
      var denied := Authorize(lease);
      if denied.Some? then Err(denied.value)
      else if Blank(key) || Blank(prompt) then Err(EmptyPromptOrKey)
      else if active == Some(key) then Err(KeyAlreadyActive)
      else if key in turns then
        Err(if turns[key].prompt != prompt then RetiredWithDifferentContent else AlreadyRetired)
      else if key in pending then
        if pending[key] == prompt then Ok(this) else Err(DuplicatePendingKey)
      else Ok(this.(pending := pending[key := prompt]))
    }

    function Release(lease: string, key: string): KernelResult {
      var denied := Authorize(lease);
      if denied.Some? then Err(denied.value)
      else if visibility == VisibilityHostLost then Err(ReconciliationRequired)
      else if HasActiveTurn() && ActiveStatus() == TurnCancelling then Err(CancellationUnresolved)
      else if state != Parked then Err(AlreadyProcessing)
      else if key !in pending then Err(PendingNotFound)
      else Ok(this.(pending := pending - {key}).Start(key, pending[key]))
    }

    function Start(key: string, prompt: string): Kernel {
      this.(turns := turns[key := Turn(prompt, TurnRunning, "")], active := Some(key), state := Running)
    }

    function ActiveResult(): string
      requires HasActiveTurn()
    {
      turns[active.value].result
    }

    function Finish(status: TurnStatus, result: string): Kernel
      requires HasActiveTurn()
    {
      Mark(status, result).(active := None, state := Parked)
    }

    function CompleteWithResult(key: string, result: string): KernelResult {
      if key in turns && turns[key].status == TurnCompleted then Err(AlreadyCompleted)
      else if state != Running || !HasActiveTurn() || active.value != key then Err(NotTheActiveTurn)
      else Ok(Finish(TurnCompleted, result))
    }

    function RequestCancel(lease: string): KernelResult {
      var denied := Authorize(lease);
      if denied.Some? then Err(denied.value)
      else if state != Running || !HasActiveTurn() || ActiveStatus() != TurnRunning then Err(NotTheActiveTurn)
      else Ok(Mark(TurnCancelling, ActiveResult()))
    }

    function Mark(status: TurnStatus, result: string): Kernel
      requires HasActiveTurn()
    {
      this.(turns := turns[active.value := Turn(turns[active.value].prompt, status, result)])
    }

    function ConfirmCancel(key: string): KernelResult {
      if !HasActiveTurn() || active.value != key || ActiveStatus() != TurnCancelling then Err(NotTheActiveTurn)
      else Ok(Finish(TurnCancelled, ActiveResult()))
    }

    function Interrupt(key: string): KernelResult {
      if !HasActiveTurn() || active.value != key || !ActiveStatus().Live() then Err(NotTheActiveTurn)
      else Ok(Finish(TurnInterrupted, ActiveResult()))
    }

    function Fail(key: string, reason: string): KernelResult {
      if !HasActiveTurn() || active.value != key then Err(NotTheActiveTurn)
      else Ok(Finish(TurnFailed, reason))
    }

    function RecordHostLoss(): KernelResult {
      if visibility == VisibilityHostLost then Ok(this)
      else if state != Running || !HasActiveTurn() then Err(InactiveSession)
      else
        var gen := recoveryGen + 1;
        Ok(this.(recoveryGen := gen, activeRecoveryGen := gen, visibility := VisibilityHostLost,
                 recoveryContext := active))
    }

    function CloseRecovery(): Kernel {
      this.(visibility := VisibilityReachable, recoveryContext := None, activeRecoveryGen := 0)
    }

    function ReconcileHost(key: string, gen: nat, status: TurnStatus, result: string): KernelResult {
      if visibility != VisibilityHostLost then Err(HostNotLost)
      else if key == "" then Err(EmptyPromptOrKey)
      else if gen == 0 || gen != activeRecoveryGen then Err(StaleRecoveryGeneration)
      else if HasActiveTurn() then
        match ReconcileActive(key, status, result)
        case Ok(k) => Ok(k.CloseRecovery())
        case Err(e) => Err(e)
      else
        match ReconcileParked(key, status)
        case None => Ok(CloseRecovery())
        case Some(e) => Err(e)
    }

    function ReconcileActive(key: string, status: TurnStatus, result: string): KernelResult
      requires HasActiveTurn()
    {
      if key != active.value then Err(if key in turns then StaleReconciliation else KeyDoesNotMatch)
      else if status.Live() then
        var observed := if status == TurnRunning && ActiveStatus() == TurnCancelling then TurnCancelling else status;
        Ok(Mark(observed, ActiveResult()).(state := Running))
      else if status.Terminal() then Ok(Finish(status, result))
      else Err(InvalidTargetStatus)
    }

    function ReconcileParked(key: string, status: TurnStatus): Option<KernelError> {
      if recoveryContext != Some(key) then Some(if key in turns then StaleReconciliation else KeyDoesNotMatch)
      else if status.Terminal() then None
      else if status.Live() then Some(ConflictsWithTerminal)
      else Some(InvalidTargetStatus)
    }

    function Discard(lease: string, key: string): KernelResult {
      var denied := Authorize(lease);
      if denied.Some? then Err(denied.value)
      else if key !in pending then Err(PendingNotFound)
      else Ok(this.(pending := pending - {key}))
    }

    function Replace(lease: string, key: string, prompt: string): KernelResult {
      var denied := Authorize(lease);
      if denied.Some? then Err(denied.value)
      else if Blank(prompt) then Err(EmptyPromptOrKey)
      else if key !in pending then Err(PendingNotFound)
      else Ok(this.(pending := pending[key := prompt]))
    }

    function Archive(lease: string): KernelResult {
      var denied := Authorize(lease);
      if denied.Some? then Err(denied.value)
      else if state == Running || HasActiveTurn() || visibility == VisibilityHostLost then Err(CannotArchive)
      else Ok(this.(state := Archived, lifecycle := SessionArchived))
    }
  }

  datatype KernelError =
    | InvalidContributorOrLease
    | LeaseMismatch
    | KernelArchived
    | KernelDisconnected
    | EmptyPromptOrKey
    | KeyAlreadyActive
    | RetiredWithDifferentContent
    | AlreadyRetired
    | DuplicatePendingKey
    | ReconciliationRequired
    | CancellationUnresolved
    | AlreadyProcessing
    | PendingNotFound
    | AlreadyCompleted
    | NotTheActiveTurn
    | InactiveSession
    | HostNotLost
    | StaleRecoveryGeneration
    | StaleReconciliation
    | KeyDoesNotMatch
    | InvalidTargetStatus
    | ConflictsWithTerminal
    | CannotArchive

  type KernelResult = Result<Kernel, KernelError>

  function NewKernel(lease: string): Kernel {
    Kernel(Parked, SessionActive, ControllerConnected, VisibilityReachable, lease, map[], None, map[], None, 0, 0)
  }

  // One kernel call, and a sequence of calls each of which must succeed.
  datatype Call =
    | CallQueue(key: string, prompt: string)
    | CallReplace(key: string, prompt: string)
    | CallDiscard(key: string)
    | CallRelease(key: string)
    | CallRequestCancel
    | CallConfirmCancel(key: string)
    | CallComplete(key: string, result: string)
    | CallInterrupt(key: string)
    | CallFail(key: string, reason: string)
    | CallRecordHostLoss
    | CallReconcileHost(key: string, gen: nat, status: TurnStatus, result: string)
    | CallArchive

  function Invoke(k: Kernel, c: Call): KernelResult {
    match c
    case CallQueue(key, prompt) => k.Queue(k.lease, key, prompt)
    case CallReplace(key, prompt) => k.Replace(k.lease, key, prompt)
    case CallDiscard(key) => k.Discard(k.lease, key)
    case CallRelease(key) => k.Release(k.lease, key)
    case CallRequestCancel => k.RequestCancel(k.lease)
    case CallConfirmCancel(key) => k.ConfirmCancel(key)
    case CallComplete(key, result) => k.CompleteWithResult(key, result)
    case CallInterrupt(key) => k.Interrupt(key)
    case CallFail(key, reason) => k.Fail(key, reason)
    case CallRecordHostLoss => k.RecordHostLoss()
    case CallReconcileHost(key, gen, status, result) => k.ReconcileHost(key, gen, status, result)
    case CallArchive => k.Archive(k.lease)
  }

  function InvokeAll(k: Kernel, calls: seq<Call>): KernelResult
    decreases |calls|
  {
    if calls == [] then Ok(k)
    else
      var r := Invoke(k, calls[0]);
      if r.Err? then r else InvokeAll(r.value, calls[1..])
  }

  lemma {:induction false} InvokeAllConcat(k: Kernel, a: seq<Call>, b: seq<Call>)
    requires InvokeAll(k, a).Ok?
    ensures InvokeAll(k, a + b) == InvokeAll(InvokeAll(k, a).value, b)
    decreases |a|
  {
    if a == [] {
      assert a + b == b;
    } else {
      TailOfConcat(a, b);
      var next := FirstInvoked(k, a, a + b);
      InvokeAllConcat(next, a[1..], b);
    }
  }

  lemma TailOfConcat(a: seq<Call>, b: seq<Call>)
    requires a != []
    ensures (a + b)[1..] == a[1..] + b && a <= a + b
  {
  }

  lemma FirstInvoked(k: Kernel, calls: seq<Call>, more: seq<Call>) returns (next: Kernel)
    requires calls != [] && InvokeAll(k, calls).Ok? && calls <= more
    ensures InvokeAll(k, calls) == InvokeAll(next, calls[1..])
    ensures InvokeAll(k, more) == InvokeAll(next, more[1..])
  {
    next := Invoke(k, calls[0]).value;
  }

  // What a caller sees of one call, and the kernel it leaves behind.
  function Refusal(r: KernelResult): Option<KernelError> {
    match r case Ok(_) => None case Err(e) => Some(e)
  }

  function Outcome(k: Kernel, r: KernelResult): Kernel {
    match r case Ok(after) => after case Err(_) => k
  }

  class TurnRecord {
    const key: string
    const prompt: string
    var status: TurnStatus
    var result: string

    constructor (key: string, prompt: string)
      ensures this.key == key && this.prompt == prompt && status == TurnRunning && result == ""
    {
      this.key, this.prompt, status, result := key, prompt, TurnRunning, "";
    }

    function View(): Turn
      reads this
    {
      Turn(prompt, status, result)
    }
  }

  class Session {
    var state: State
    var lifecycle: Lifecycle
    var controllerStatus: Connection
    var visibility: Visibility
    const controllerLease: string
    var pending: map<string, string>
    var active: Option<string>
    var activeTurn: TurnRecord?
    var turns: map<string, TurnRecord>
    var recoveryContext: Option<string>
    var recoveryGeneration: nat
    var activeRecoveryGen: nat

    // What the retained records say.
    ghost var history: map<string, Turn>

    // The active turn is the retained record of the active key, and every
    // record is retained under its own key only.
    ghost predicate Valid()
      reads this, turns.Values
    {
      && (activeTurn != null <==> active.Some?)
      && (active.Some? ==> active.value in turns && turns[active.value] == activeTurn)
      && history.Keys == turns.Keys
      && (forall k :: k in turns ==> turns[k].key == k && history[k] == turns[k].View())
    }

    ghost function View(): (k: Kernel)
      reads this
    {
      Kernel(state, lifecycle, controllerStatus, visibility, controllerLease, pending, active, history,
             recoveryContext, recoveryGeneration, activeRecoveryGen)
    }

    // NewSession, once the contributor and the lease have been accepted.
    constructor (lease: string)
      requires !Blank(lease)
      ensures Valid() && View() == NewKernel(lease)
    {
      state, lifecycle := Parked, SessionActive;
      controllerStatus, visibility := ControllerConnected, VisibilityReachable;
      controllerLease := lease;
      pending, turns, history := map[], map[], map[];
      active, activeTurn := None, null;
      recoveryContext, recoveryGeneration, activeRecoveryGen := None, 0, 0;
    }

    static method NewSession(id: string, lease: string) returns (r: Option<Session>)
      ensures r.Some? <==> id in ROSTER && !Blank(lease)
      ensures r.Some? ==> fresh(r.value) && r.value.Valid() && r.value.View() == NewKernel(lease)
    {
      if id !in ROSTER || Blank(lease) {
        return None;
      }
      var s := new Session(lease);
      return Some(s);
    }

    method Authorize(lease: string) returns (error: Option<KernelError>)
      ensures error == View().Authorize(lease)
    {
      if lease == "" || lease != controllerLease {
        return Some(LeaseMismatch);
      }
      if lifecycle == SessionArchived || state == Archived {
        return Some(KernelArchived);
      }
      if controllerStatus == ControllerDisconnected {
        return Some(KernelDisconnected);
      }
      return None;
    }

    method Queue(lease: string, key: string, prompt: string) returns (error: Option<KernelError>)
      requires Valid()
      modifies this`pending
      ensures Valid()
      ensures error == Refusal(old(View()).Queue(lease, key, prompt))
      ensures View() == Outcome(old(View()), old(View()).Queue(lease, key, prompt))
    {
      error := Authorize(lease);
      if error.Some? {
        return;
      }
      if Blank(key) || Blank(prompt) {
        return Some(EmptyPromptOrKey);
      }
      if active == Some(key) {
        return Some(KeyAlreadyActive);
      }
      if key in turns {
        var prior := turns[key];
        if prior.prompt != prompt {
          return Some(RetiredWithDifferentContent);
        }
        return Some(AlreadyRetired);
      }
      if key in pending {
        if pending[key] == prompt {
          return None;
        }
        return Some(DuplicatePendingKey);
      }
      pending := pending[key := prompt];
    }

    method Release(lease: string, key: string) returns (prompt: string, error: Option<KernelError>)
      requires Valid()
      modifies this
      ensures Valid()
      ensures error == Refusal(old(View()).Release(lease, key))
      ensures View() == Outcome(old(View()), old(View()).Release(lease, key))
      ensures error == None ==> key in old(pending) && prompt == old(pending)[key]
      ensures error == None ==> key in turns && fresh(turns[key])
    {
      prompt := "";
      error := Authorize(lease);
      if error.Some? {
        return;
      }
      if visibility == VisibilityHostLost {
        return "", Some(ReconciliationRequired);
      }
      if activeTurn != null && activeTurn.status == TurnCancelling {
        return "", Some(CancellationUnresolved);
      }
      if state != Parked {
        return "", Some(AlreadyProcessing);
      }
      if key !in pending {
        return "", Some(PendingNotFound);
      }
      prompt := pending[key];
      pending := pending - {key};
      Start(key, prompt);
    }

    // Makes a fresh running record the active turn.
    method Start(key: string, prompt: string)
      requires Valid()
      modifies this`turns, this`history, this`activeTurn, this`active, this`state
      ensures Valid()
      ensures View() == old(View()).Start(key, prompt)
      ensures key in turns && fresh(turns[key])
    {
      var turn := new TurnRecord(key, prompt);
      Retain(turn);
      Activate(key);
    }

    // A retained record becomes the active turn.
    method Activate(key: string)
      requires Valid() && key in turns
      modifies this`activeTurn, this`active, this`state
      ensures Valid()
      ensures View() == old(View()).(active := Some(key), state := Running)
    {
      activeTurn, active, state := turns[key], Some(key), Running;
    }

    method Retain(turn: TurnRecord)
      requires Valid()
      modifies this`turns, this`history, this`active, this`activeTurn
      ensures Valid() && activeTurn == null
      ensures turns == old(turns)[turn.key := turn]
      ensures history == old(history)[turn.key := Turn(turn.prompt, turn.status, turn.result)]
    {
      activeTurn, active := null, None;
      turns := turns[turn.key := turn];
      history := history[turn.key := Turn(turn.prompt, turn.status, turn.result)];
    }

    // Writes through the alias: the retained record of the active key changes.
    method Mark(status: TurnStatus, result: string)
      requires Valid() && activeTurn != null
      modifies this`history, activeTurn
      ensures Valid()
      ensures View() == old(View()).Mark(status, result)
    {
      activeTurn.status := status;
      activeTurn.result := result;
      history := history[active.value := Turn(activeTurn.prompt, status, result)];
    }

    // The active turn goes on, as running or as cancelling.
    method Resume(status: TurnStatus)
      requires Valid() && activeTurn != null
      modifies this`state, this`history, activeTurn
      ensures Valid()
      ensures View() == old(View()).Mark(status, old(View()).ActiveResult()).(state := Running)
    {
      Mark(status, activeTurn.result);
      state := Running;
    }

    // The active turn's record takes its final status and stops being active.
    method End(status: TurnStatus, result: string)
      requires Valid() && activeTurn != null
      modifies this`active, this`activeTurn, this`state, this`history, activeTurn
      ensures Valid()
      ensures View() == old(View()).Finish(status, result)
    {
      Mark(status, result);
      active := None;
      activeTurn := null;
      state := Parked;
    }

    method CompleteWithResult(key: string, result: string) returns (error: Option<KernelError>)
      requires Valid()
      modifies this`active, this`activeTurn, this`state, this`history, activeTurn
      ensures Valid()
      ensures error == Refusal(old(View()).CompleteWithResult(key, result))
      ensures View() == Outcome(old(View()), old(View()).CompleteWithResult(key, result))
    {
      if key in turns && turns[key].status == TurnCompleted {
        return Some(AlreadyCompleted);
      }
      if state != Running || active != Some(key) || activeTurn == null {
        return Some(NotTheActiveTurn);
      }
      End(TurnCompleted, result);
      return None;
    }

    method RequestCancel(lease: string) returns (error: Option<KernelError>)
      requires Valid()
      modifies this`history, activeTurn
      ensures Valid()
      ensures error == Refusal(old(View()).RequestCancel(lease))
      ensures View() == Outcome(old(View()), old(View()).RequestCancel(lease))
    {
      error := Authorize(lease);
      if error.Some? {
        return;
      }
      if state != Running || activeTurn == null || activeTurn.status != TurnRunning {
        return Some(NotTheActiveTurn);
      }
      Mark(TurnCancelling, activeTurn.result);
    }

    method ConfirmCancel(key: string) returns (error: Option<KernelError>)
      requires Valid()
      modifies this`active, this`activeTurn, this`state, this`history, activeTurn
      ensures Valid()
      ensures error == Refusal(old(View()).ConfirmCancel(key))
      ensures View() == Outcome(old(View()), old(View()).ConfirmCancel(key))
    {
      if active != Some(key) || activeTurn == null || activeTurn.status != TurnCancelling {
        return Some(NotTheActiveTurn);
      }
      End(TurnCancelled, activeTurn.result);
      return None;
    }

    method Interrupt(key: string) returns (error: Option<KernelError>)
      requires Valid()
      modifies this`active, this`activeTurn, this`state, this`history, activeTurn
      ensures Valid()
      ensures error == Refusal(old(View()).Interrupt(key))
      ensures View() == Outcome(old(View()), old(View()).Interrupt(key))
    {
      if active != Some(key) || activeTurn == null
         || (activeTurn.status != TurnRunning && activeTurn.status != TurnCancelling) {
        return Some(NotTheActiveTurn);
      }
      End(TurnInterrupted, activeTurn.result);
      return None;
    }

    method Fail(key: string, reason: string) returns (error: Option<KernelError>)
      requires Valid()
      modifies this`active, this`activeTurn, this`state, this`history, activeTurn
      ensures Valid()
      ensures error == Refusal(old(View()).Fail(key, reason))
      ensures View() == Outcome(old(View()), old(View()).Fail(key, reason))
    {
      if active != Some(key) || activeTurn == null {
        return Some(NotTheActiveTurn);
      }
      End(TurnFailed, reason);
      return None;
    }

    method RecordHostLoss() returns (gen: nat, error: Option<KernelError>)
      requires Valid()
      modifies this`recoveryGeneration, this`activeRecoveryGen, this`visibility, this`recoveryContext
      ensures Valid()
      ensures error == Refusal(old(View()).RecordHostLoss())
      ensures View() == Outcome(old(View()), old(View()).RecordHostLoss())
      ensures error == None ==> gen == activeRecoveryGen
    {
      if visibility == VisibilityHostLost {
        return activeRecoveryGen, None;
      }
      if state != Running || activeTurn == null {
        return 0, Some(InactiveSession);
      }
      recoveryGeneration := recoveryGeneration + 1;
      activeRecoveryGen := recoveryGeneration;
      visibility := VisibilityHostLost;
      recoveryContext := active;
      return activeRecoveryGen, None;
    }

    method ReconcileHost(key: string, gen: nat, status: TurnStatus, result: string)
      returns (error: Option<KernelError>)
      requires Valid()
      modifies this`active, this`activeTurn, this`state, this`history, activeTurn,
               this`visibility, this`recoveryContext, this`activeRecoveryGen
      ensures Valid()
      ensures error == Refusal(old(View()).ReconcileHost(key, gen, status, result))
      ensures View() == Outcome(old(View()), old(View()).ReconcileHost(key, gen, status, result))
    {
      if visibility != VisibilityHostLost {
        return Some(HostNotLost);
      }
      if key == "" {
        return Some(EmptyPromptOrKey);
      }
      if gen == 0 || gen != activeRecoveryGen {
        return Some(StaleRecoveryGeneration);
      }
      if activeTurn != null {
        error := ReconcileActive(key, status, result);
      } else {
        error := ReconcileParked(key, status);
      }
      if error == None {
        ReopenHost();
      }
    }

    method ReconcileActive(key: string, status: TurnStatus, result: string) returns (error: Option<KernelError>)
      requires Valid() && activeTurn != null
      modifies this`active, this`activeTurn, this`state, this`history, activeTurn
      ensures Valid()
      ensures error == Refusal(old(View()).ReconcileActive(key, status, result))
      ensures View() == Outcome(old(View()), old(View()).ReconcileActive(key, status, result))
    {
      if Some(key) != active {
        return Some(if key in turns then StaleReconciliation else KeyDoesNotMatch);
      }
      match status {
        case TurnRunning =>
          Resume(if activeTurn.status != TurnCancelling then TurnRunning else TurnCancelling);
        case TurnCancelling =>
          Resume(TurnCancelling);
        case TurnPending =>
          return Some(InvalidTargetStatus);
        case _ =>
          End(status, result);
      }
      return None;
    }

    method ReconcileParked(key: string, status: TurnStatus) returns (error: Option<KernelError>)
      requires Valid() && activeTurn == null
      ensures error == View().ReconcileParked(key, status)
    {
      if Some(key) != recoveryContext {
        return Some(if key in turns then StaleReconciliation else KeyDoesNotMatch);
      }
      match status {
        case TurnRunning => return Some(ConflictsWithTerminal);
        case TurnCancelling => return Some(ConflictsWithTerminal);
        case TurnPending => return Some(InvalidTargetStatus);
        case _ => return None;
      }
    }

    // The host is reachable again and its recovery episode is over.
    method ReopenHost()
      requires Valid()
      modifies this`visibility, this`recoveryContext, this`activeRecoveryGen
      ensures Valid()
      ensures View() == old(View()).CloseRecovery()
    {
      visibility := VisibilityReachable;
      recoveryContext := None;
      activeRecoveryGen := 0;
    }

    method DisconnectController()
      requires Valid()
      modifies this`controllerStatus
      ensures Valid() && View() == old(View()).(controller := ControllerDisconnected)
    {
      controllerStatus := ControllerDisconnected;
    }

    method ReconnectController(lease: string) returns (error: Option<KernelError>)
      requires Valid()
      modifies this`controllerStatus
      ensures Valid()
      ensures error == None <==>
        lease != "" && lease == controllerLease && lifecycle != SessionArchived && state != Archived
      ensures View() == if error == None then old(View()).(controller := ControllerConnected) else old(View())
    {
      if lease == "" || lease != controllerLease {
        return Some(LeaseMismatch);
      }
      if lifecycle == SessionArchived || state == Archived {
        return Some(KernelArchived);
      }
      controllerStatus := ControllerConnected;
      return None;
    }

    method Discard(lease: string, key: string) returns (error: Option<KernelError>)
      requires Valid()
      modifies this`pending
      ensures Valid()
      ensures error == Refusal(old(View()).Discard(lease, key))
      ensures View() == Outcome(old(View()), old(View()).Discard(lease, key))
    {
      error := Authorize(lease);
      if error.Some? {
        return;
      }
      if key !in pending {
        return Some(PendingNotFound);
      }
      pending := pending - {key};
    }

    method Replace(lease: string, key: string, newPrompt: string) returns (error: Option<KernelError>)
      requires Valid()
      modifies this`pending
      ensures Valid()
      ensures error == Refusal(old(View()).Replace(lease, key, newPrompt))
      ensures View() == Outcome(old(View()), old(View()).Replace(lease, key, newPrompt))
    {
      error := Authorize(lease);
      if error.Some? {
        return;
      }
      if Blank(newPrompt) {
        return Some(EmptyPromptOrKey);
      }
      if key !in pending {
        return Some(PendingNotFound);
      }
      pending := pending[key := newPrompt];
    }

    method Archive(lease: string) returns (error: Option<KernelError>)
      requires Valid()
      modifies this`state, this`lifecycle
      ensures Valid()
      ensures error == Refusal(old(View()).Archive(lease))
      ensures View() == Outcome(old(View()), old(View()).Archive(lease))
    {
      error := Authorize(lease);
      if error.Some? {
        return;
      }
      if state == Running || activeTurn != null || visibility == VisibilityHostLost {
        return Some(CannotArchive);
      }
      state := Archived;
      lifecycle := SessionArchived;
    }
  }
}
