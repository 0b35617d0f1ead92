// The bounded event stream of one turn (internal/adapter/stream.go): any
// number of concurrent senders and closers, as interleaved steps between the
// points where they take the lock, select, or touch the wait group.
module EventStream {
  import opened Domain

  datatype Event = Event(ref: string, wellFormed: bool, text: string)

  datatype StreamError = StreamClosed | BufferOverflow | OtherError(text: string)

  datatype Outcome = Delivered | Failed(error: StreamError) | WrongRef | Malformed | Closed

  // Where a call stands. `Admitted` to `Overflowed` are counted in the wait
  // group; `Draining` and `Finishing` are the one call that closes. `sender` tells
  // an overflowing sender from a direct close.
  datatype Call =
    | Sending(event: Event, overflow: bool)
    | Admitted(event: Event, overflow: bool)
    | Sent
    | Dropped
    | Overflowed
    | Closing(error: StreamError, sender: bool)
    | Draining(error: StreamError, sender: bool)
    | Finishing(error: StreamError, sender: bool)
    | Awaiting(error: StreamError, sender: bool)
    | Returned(outcome: Outcome)
  {
    predicate Holds() {
      Admitted? || Sent? || Dropped? || Overflowed?
    }

    predicate Closer() {
      Draining? || Finishing?
    }
  }

  // `log` is every event put on the channel, with the call that put it there;
  // `received` is what the observer has taken off.
  datatype Stream = Stream(
    ref: string,
    capacity: nat,
    closed: bool,
    error: Option<StreamError>,
    group: int,
    buffer: seq<Event>,
    eventsClosed: nat,
    doneClosed: nat,
    calls: map<nat, Call>,
    log: seq<(nat, Event)>,
    received: seq<Event>)

  function NewStream(ref: string, capacity: int): Stream {
    Stream(ref, if capacity <= 0 then 64 else capacity, false, None, 0, [], 0, 0, map[], [], [])
  }

  // A step: a new call, the next step of a call (`cancelled` is the select's
  // choice when both the context and the buffer are ready), or a receive.
  datatype Step =
    | Call(id: nat, call: Call)
    | Advance(id: nat, cancelled: bool)
    | Receive

  function At(s: Stream, id: nat, call: Call): Stream {
    s.(calls := s.calls[id := call])
  }

  function Start(s: Stream, id: nat, event: Event, overflow: bool): Stream {
    if event.ref != s.ref then At(s, id, Returned(WrongRef))
    else if !event.wellFormed then At(s, id, Returned(Malformed))
    else if s.closed then At(s, id, Returned(Failed(StreamClosed)))
    else At(s, id, Admitted(event, overflow)).(group := s.group + 1)
  }

  predicate HasRoom(s: Stream) {
    |s.buffer| < s.capacity
  }

  // The select of an admitted sender: the cancelled context (set with
  // `closed`), room in the buffer, or, for SendOrOverflow, the default.
  function Select(s: Stream, id: nat, event: Event, overflow: bool, cancelled: bool): Stream {
    if s.closed && (cancelled || !HasRoom(s)) then At(s, id, Dropped)
    else if HasRoom(s) then
      At(s, id, Sent).(buffer := s.buffer + [event], log := s.log + [(id, event)])
    else if overflow then At(s, id, Overflowed)
    else s
  }

  function Leave(s: Stream, id: nat, call: Call): Stream {
    At(s, id, call).(group := s.group - 1)
  }

  function Enabled(s: Stream, id: nat): bool {
    id in s.calls &&
    match s.calls[id]
    case Admitted(_, overflow) => s.closed || HasRoom(s) || overflow
    case Draining(_, _) => s.group == 0
    case Awaiting(_, _) => s.doneClosed > 0
    case Returned(_) => false
    case _ => true
  }

  function Progress(s: Stream, id: nat, cancelled: bool): Stream
    requires Enabled(s, id)
  {
    match s.calls[id]
    case Sending(event, overflow) => Start(s, id, event, overflow)
    case Admitted(event, overflow) => Select(s, id, event, overflow, cancelled)
    case Sent => Leave(s, id, Returned(Delivered))
    case Dropped => Leave(s, id, Returned(Failed(StreamClosed)))
    case Overflowed => Leave(s, id, Closing(BufferOverflow, true))
    case Closing(error, sender) =>
      if s.closed then At(s, id, Awaiting(error, sender))
      else At(s, id, Draining(error, sender)).(closed := true, error := Some(error))
    case Draining(error, sender) => At(s, id, Finishing(error, sender)).(eventsClosed := s.eventsClosed + 1)
    case Finishing(_, sender) => At(s, id, Ended(sender)).(doneClosed := s.doneClosed + 1)
    case Awaiting(_, sender) => At(s, id, Ended(sender))
    case Returned(_) => s
  }

  // An overflowing sender reports the overflow whoever closed the stream; a
  // direct close reports nothing, whatever error it closed with.
  function Ended(sender: bool): Call {
    Returned(if sender then Failed(BufferOverflow) else Closed)
  }

  function Next(s: Stream, step: Step): Stream {
    match step
    case Call(id, call) => if id !in s.calls && (call.Sending? || (call.Closing? && !call.sender)) then At(s, id, call) else s
    case Advance(id, cancelled) => if Enabled(s, id) then Progress(s, id, cancelled) else s
    case Receive => if s.buffer == [] then s else s.(buffer := s.buffer[1..], received := s.received + [s.buffer[0]])
  }

  function Run(s: Stream, steps: seq<Step>): Stream
    decreases |steps|
  {
    if steps == [] then s else Run(Next(s, steps[0]), steps[1..])
  }

  function Holders(calls: map<nat, Call>): set<nat> {
    set id | id in calls && calls[id].Holds()
  }

  function Events(log: seq<(nat, Event)>): seq<Event> {
    if log == [] then [] else Events(log[..|log| - 1]) + [log[|log| - 1].1]
  }

  ghost predicate Inv(s: Stream) {
    && s.group == |Holders(s.calls)|
    && (s.closed <==> s.error.Some?)
    && |s.buffer| <= s.capacity && s.capacity > 0
    && s.received + s.buffer == Events(s.log)
    && ClosingInv(s)
    && LogInv(s)
  }

  // Nobody closes before the close has begun; exactly one call closes; the
  // channel is closed at most once and only when no sender is left.
  ghost predicate ClosingInv(s: Stream) {
    && s.doneClosed <= s.eventsClosed <= 1
    && (s.eventsClosed == 1 ==> s.closed && Holders(s.calls) == {})
    && (forall i :: i in s.calls && s.calls[i].Closer() ==> s.closed && s.doneClosed == 0)
    && (forall i, j :: i in s.calls && j in s.calls && s.calls[i].Closer() && s.calls[j].Closer() ==> i == j)
    && (forall i :: i in s.calls && s.calls[i].Draining? ==> s.eventsClosed == 0)
    && (forall i :: i in s.calls && s.calls[i].Finishing? ==> s.eventsClosed == 1)
    && (s.closed && s.doneClosed == 0 ==> exists i :: i in s.calls && s.calls[i].Closer())
  }

  // A sender puts its event on the channel at most once, exactly when its call
  // succeeds.
  ghost predicate LogInv(s: Stream) {
    && (forall i, j :: 0 <= i < j < |s.log| ==> s.log[i].0 != s.log[j].0)
    && (forall i :: 0 <= i < |s.log| ==> s.log[i].0 in s.calls && Succeeded(s.calls[s.log[i].0]))
    && (forall id :: id in s.calls && Succeeded(s.calls[id]) ==> Logged(s.log, id))
  }

  predicate Succeeded(c: Call) {
    c == Sent || c == Returned(Delivered)
  }

  predicate Logged(log: seq<(nat, Event)>, id: nat) {
    exists i :: 0 <= i < |log| && log[i].0 == id
  }

  lemma HoldersPut(calls: map<nat, Call>, id: nat, call: Call)
    ensures
      var before := if id in calls && calls[id].Holds() then 1 else 0;
      var after := if call.Holds() then 1 else 0;
      |Holders(calls[id := call])| == |Holders(calls)| - before + after
  {
    var put := calls[id := call];
    if call.Holds() {
      assert Holders(put) == Holders(calls) + {id};
    } else {
      assert Holders(put) == Holders(calls) - {id};
    }
  }

  lemma EventsAppend(log: seq<(nat, Event)>, entry: (nat, Event))
    ensures Events(log + [entry]) == Events(log) + [entry.1]
  {
    assert (log + [entry])[..|log|] == log;
  }

  // A call that moves between states that neither close nor succeed.
  lemma QuietMove(s: Stream, id: nat, call: Call, group: int)
    requires Inv(s) && !call.Closer() && !Succeeded(call)
    requires id in s.calls ==> !s.calls[id].Closer() && !Succeeded(s.calls[id])
    requires group == s.group - (if id in s.calls && s.calls[id].Holds() then 1 else 0) + (if call.Holds() then 1 else 0)
    requires call.Holds() ==> s.eventsClosed == 0
    ensures Inv(At(s, id, call).(group := group))
  {
    var after := At(s, id, call).(group := group);
    HoldersPut(s.calls, id, call);
    QuietHolders(s, id, call);
    QuietLog(s, after, id);
    ClosingStays(s, after, id);
  }

  lemma QuietHolders(s: Stream, id: nat, call: Call)
    requires s.eventsClosed == 1 ==> Holders(s.calls) == {}
    requires call.Holds() ==> s.eventsClosed == 0
    ensures s.eventsClosed == 1 ==> Holders(s.calls[id := call]) == {}
  {
    if s.eventsClosed == 1 {
      assert Holders(s.calls[id := call]) == Holders(s.calls) - {id};
    }
  }

  lemma QuietLog(s: Stream, after: Stream, id: nat)
    requires LogInv(s) && after.log == s.log && id in after.calls && after.calls == s.calls[id := after.calls[id]]
    requires !Succeeded(after.calls[id]) && (id in s.calls ==> !Succeeded(s.calls[id]))
    ensures LogInv(after)
  {
    forall k | k in after.calls && Succeeded(after.calls[k]) ensures Logged(after.log, k) {
      assert k in s.calls && Succeeded(s.calls[k]);
    }
  }

  lemma LogGrows(s: Stream, id: nat, event: Event)
    requires Inv(s) && id in s.calls && s.calls[id].Admitted?
    ensures LogInv(At(s, id, Sent).(log := s.log + [(id, event)]))
  {
    var after := At(s, id, Sent).(log := s.log + [(id, event)]);
    assert after.log[|s.log|].0 == id;
    forall k | k in after.calls && Succeeded(after.calls[k]) ensures Logged(after.log, k) {
      if k != id {
        var i :| 0 <= i < |s.log| && s.log[i].0 == k;
        assert after.log[i].0 == k;
      }
    }
  }

  lemma ClosingStays(s: Stream, after: Stream, id: nat)
    requires ClosingInv(s) && id in after.calls && after.calls == s.calls[id := after.calls[id]]
    requires (id in s.calls ==> !s.calls[id].Closer()) && !after.calls[id].Closer()
    requires after.closed == s.closed && after.doneClosed == s.doneClosed && after.eventsClosed == s.eventsClosed
    requires s.eventsClosed == 1 ==> Holders(after.calls) == {}
    ensures ClosingInv(after)
  {
    if s.closed && s.doneClosed == 0 {
      var i :| i in s.calls && s.calls[i].Closer();
      assert i in after.calls && after.calls[i].Closer();
    }
  }

  lemma SendKeepsOrder(s: Stream, id: nat, event: Event)
    requires s.received + s.buffer == Events(s.log)
    ensures s.received + (s.buffer + [event]) == Events(s.log + [(id, event)])
  {
    EventsAppend(s.log, (id, event));
    assert s.received + (s.buffer + [event]) == s.received + s.buffer + [event];
  }

  lemma AdmittedFindsOpen(s: Stream, id: nat)
    requires Inv(s) && id in s.calls && s.calls[id].Admitted?
    ensures s.eventsClosed == 0
    ensures |Holders(s.calls[id := Sent])| == |Holders(s.calls)|
  {
    assert id in Holders(s.calls);
    HoldersPut(s.calls, id, Sent);
  }

  // An admitted sender puts its event on an open channel.
  lemma SendMove(s: Stream, id: nat, event: Event)
    requires Inv(s) && id in s.calls && s.calls[id].Admitted? && HasRoom(s)
    ensures s.eventsClosed == 0
    ensures Inv(At(s, id, Sent).(buffer := s.buffer + [event], log := s.log + [(id, event)]))
  {
    AdmittedFindsOpen(s, id);
    SendKeepsOrder(s, id, event);
    LogGrows(s, id, event);
    ClosingStays(s, At(s, id, Sent).(buffer := s.buffer + [event], log := s.log + [(id, event)]), id);
  }

  // A sender that succeeded returns.
  lemma ReturnMove(s: Stream, id: nat)
    requires Inv(s) && id in s.calls && s.calls[id] == Sent
    ensures Inv(Leave(s, id, Returned(Delivered)))
  {
    HoldersPut(s.calls, id, Returned(Delivered));
    var after := Leave(s, id, Returned(Delivered));
    assert id in Holders(s.calls);
    if s.closed && s.doneClosed == 0 {
      var i :| i in s.calls && s.calls[i].Closer();
      assert i in after.calls && after.calls[i].Closer();
    }
  }

  lemma FirstClose(s: Stream, id: nat, error: StreamError, sender: bool)
    requires Inv(s) && id in s.calls && s.calls[id].Closing? && !s.closed
    ensures Inv(At(s, id, Draining(error, sender)).(closed := true, error := Some(error)))
  {
    HoldersPut(s.calls, id, Draining(error, sender));
    var after := At(s, id, Draining(error, sender)).(closed := true, error := Some(error));
    assert after.calls[id].Closer();
    forall k | k in after.calls && Succeeded(after.calls[k]) ensures Logged(after.log, k) {
      assert k in s.calls && Succeeded(s.calls[k]);
    }
  }

  // The closer closes the channel once every admitted sender has left, and
  // then signals completion.
  lemma CloserMove(s: Stream, id: nat)
    requires Inv(s) && id in s.calls && s.calls[id].Closer() && Enabled(s, id)
    ensures Inv(Progress(s, id, false))
  {
    var after := Progress(s, id, false);
    HoldersPut(s.calls, id, after.calls[id]);
    forall k | k in after.calls && Succeeded(after.calls[k]) ensures Logged(after.log, k) {
      assert k in s.calls && Succeeded(s.calls[k]);
    }
    if s.calls[id].Draining? {
      assert after.calls[id].Closer();
      assert Holders(after.calls) == {};
    }
  }

  lemma StepKeepsInv(s: Stream, step: Step)
    requires Inv(s)
    ensures Inv(Next(s, step))
  {
    match step
    case Call(id, call) =>
      if id !in s.calls && (call.Sending? || (call.Closing? && !call.sender)) {
        QuietMove(s, id, call, s.group);
      }
    case Receive => ReceiveKeepsInv(s);
    case Advance(id, cancelled) =>
      if Enabled(s, id) {
        AdvanceKeepsInv(s, id, cancelled);
      }
  }

  lemma ReceiveKeepsInv(s: Stream)
    requires Inv(s)
    ensures Inv(Next(s, Receive))
  {
    if s.buffer != [] {
      assert s.received + [s.buffer[0]] + s.buffer[1..] == s.received + s.buffer;
    }
  }

  lemma AdmittedKeepsInv(s: Stream, id: nat, cancelled: bool)
    requires Inv(s) && Enabled(s, id) && s.calls[id].Admitted?
    ensures Inv(Progress(s, id, cancelled))
  {
    var after := Progress(s, id, cancelled);
    assert id in Holders(s.calls);
    if after.calls[id] == Sent {
      SendMove(s, id, s.calls[id].event);
    } else {
      QuietMove(s, id, after.calls[id], s.group);
    }
  }

  lemma ClosingKeepsInv(s: Stream, id: nat, cancelled: bool)
    requires Inv(s) && Enabled(s, id) && s.calls[id].Closing?
    ensures Inv(Progress(s, id, cancelled))
  {
    if s.closed {
      QuietMove(s, id, Awaiting(s.calls[id].error, s.calls[id].sender), s.group);
    } else {
      FirstClose(s, id, s.calls[id].error, s.calls[id].sender);
    }
  }

  lemma SendingKeepsInv(s: Stream, id: nat, cancelled: bool)
    requires Inv(s) && Enabled(s, id) && s.calls[id].Sending?
    ensures Inv(Progress(s, id, cancelled))
  {
    var after := Progress(s, id, cancelled);
    QuietMove(s, id, after.calls[id], after.group);
  }

  lemma LeavingKeepsInv(s: Stream, id: nat, cancelled: bool)
    requires Inv(s) && Enabled(s, id)
    requires s.calls[id].Dropped? || s.calls[id].Overflowed? || s.calls[id].Awaiting?
    ensures Inv(Progress(s, id, cancelled))
  {
    var after := Progress(s, id, cancelled);
    QuietMove(s, id, after.calls[id], after.group);
  }

  lemma AdvanceKeepsInv(s: Stream, id: nat, cancelled: bool)
    requires Inv(s) && Enabled(s, id)
    ensures Inv(Progress(s, id, cancelled))
  {
    var call := s.calls[id];
    if call.Sending? {
      SendingKeepsInv(s, id, cancelled);
    } else if call.Admitted? {
      AdmittedKeepsInv(s, id, cancelled);
    } else if call.Sent? {
      ReturnMove(s, id);
    } else if call.Closing? {
      ClosingKeepsInv(s, id, cancelled);
    } else if call.Closer() {
      CloserMove(s, id);
    } else {
      LeavingKeepsInv(s, id, cancelled);
    }
  }

  lemma {:induction false} RunKeepsInv(s: Stream, steps: seq<Step>)
    requires Inv(s)
    ensures Inv(Run(s, steps))
    decreases |steps|
  {
    if steps != [] {
      StepKeepsInv(s, steps[0]);
      RunKeepsInv(Next(s, steps[0]), steps[1..]);
    }
  }

  // Over any interleaving from a new stream: the channel is closed at most
  // once, only after every admitted sender has left, so no send ever finds it
  // closed; what the observer has received is a prefix of what was sent, with
  // the rest still buffered in order; and the calls that reported success are
  // the ones that sent, once each.
  lemma StreamIsSafe(ref: string, capacity: int, steps: seq<Step>)
    ensures
      var s := Run(NewStream(ref, capacity), steps);
      && s.eventsClosed <= 1 && s.doneClosed <= 1
      && (s.eventsClosed == 1 ==> forall id :: id in s.calls ==> !s.calls[id].Admitted?)
      && s.received <= Events(s.log)
      && (s.eventsClosed == 1 ==> s.closed && s.received + s.buffer == Events(s.log))
      && (forall id :: id in s.calls && s.calls[id].Returned? ==> (s.calls[id].outcome == Delivered <==> Logged(s.log, id)))
      && (forall i, j :: 0 <= i < j < |s.log| ==> s.log[i].0 != s.log[j].0)
  {
    var s := Run(NewStream(ref, capacity), steps);
    NewStreamInv(ref, capacity);
    RunKeepsInv(NewStream(ref, capacity), steps);
    forall id | id in s.calls && s.eventsClosed == 1 ensures !s.calls[id].Admitted? {
      assert id !in Holders(s.calls);
    }
  }

  lemma NewStreamInv(ref: string, capacity: int)
    ensures Inv(NewStream(ref, capacity))
  {
    assert Holders(map[]) == {};
  }

  predicate Fits(s: Stream, e: Event) {
    e.ref == s.ref && e.wellFormed
  }

  // Only events of this stream's turn get past admission.
  ghost predicate Vetted(s: Stream) {
    && (forall id :: id in s.calls && s.calls[id].Admitted? ==> Fits(s, s.calls[id].event))
    && (forall i :: 0 <= i < |s.log| ==> Fits(s, s.log[i].1))
  }

  // A call moves on, carrying no event that does not fit, and logs at most an
  // event that does.
  lemma MoveKeepsVetted(s: Stream, after: Stream, id: nat)
    requires Vetted(s) && after.ref == s.ref && id in after.calls && after.calls == s.calls[id := after.calls[id]]
    requires after.calls[id].Admitted? ==> Fits(s, after.calls[id].event)
    requires after.log == s.log || (|after.log| == |s.log| + 1 && after.log[..|s.log|] == s.log && Fits(s, after.log[|s.log|].1))
    ensures Vetted(after)
  {
    assert forall i :: 0 <= i < |after.log| && i < |s.log| ==> after.log[i] == s.log[i];
  }

  lemma AdvanceKeepsVetted(s: Stream, id: nat, cancelled: bool)
    requires Vetted(s) && Enabled(s, id)
    ensures Vetted(Progress(s, id, cancelled)) && Progress(s, id, cancelled).ref == s.ref
  {
    MoveKeepsVetted(s, Progress(s, id, cancelled), id);
  }

  lemma StepKeepsVetted(s: Stream, step: Step)
    requires Vetted(s)
    ensures Vetted(Next(s, step)) && Next(s, step).ref == s.ref
  {
    if step.Advance? && Enabled(s, step.id) {
      AdvanceKeepsVetted(s, step.id, step.cancelled);
    }
  }

  // Where an entry of the log comes from: it was there, or its call is under
  // way with that event, or the call was made with it.
  ghost predicate Origin(s: Stream, steps: seq<Step>, id: nat, event: Event) {
    || Present(s, id, event)
    || exists overflow :: Call(id, Sending(event, overflow)) in steps
  }

  ghost predicate Present(s: Stream, id: nat, event: Event) {
    || (id, event) in s.log
    || (id in s.calls && (s.calls[id].Sending? || s.calls[id].Admitted?) && s.calls[id].event == event)
  }

  lemma StepOrigin(s: Stream, step: Step, rest: seq<Step>, id: nat, event: Event)
    requires Origin(Next(s, step), rest, id, event)
    ensures Origin(s, [step] + rest, id, event)
  {
    if overflow :| Call(id, Sending(event, overflow)) in rest {
      assert Call(id, Sending(event, overflow)) in [step] + rest;
    } else if step.Advance? {
      assert Present(Next(s, step), id, event);
      if Enabled(s, step.id) {
        ProgressOrigin(s, step.id, step.cancelled, id, event);
      }
    } else if step.Call? && step.id == id && step.call.Sending? && step.call.event == event {
      assert step in [step] + rest;
    }
  }

  lemma ProgressOrigin(s: Stream, at: nat, cancelled: bool, id: nat, event: Event)
    requires Enabled(s, at) && Present(Progress(s, at, cancelled), id, event)
    ensures Present(s, id, event)
  {
  }

  lemma {:induction false} RunOrigin(s: Stream, steps: seq<Step>, id: nat, event: Event)
    requires Vetted(s) && (id, event) in Run(s, steps).log
    ensures Origin(s, steps, id, event) && Fits(s, event)
    decreases |steps|
  {
    if steps != [] {
      StepKeepsVetted(s, steps[0]);
      RunOrigin(Next(s, steps[0]), steps[1..], id, event);
      StepOrigin(s, steps[0], steps[1..], id, event);
      assert steps == [steps[0]] + steps[1..];
    }
  }

  // Nothing is invented: every event on the channel is the well-formed event
  // of this turn that its own call was made with.
  lemma NothingInvented(ref: string, capacity: int, steps: seq<Step>, id: nat, event: Event)
    requires (id, event) in Run(NewStream(ref, capacity), steps).log
    ensures exists overflow :: Call(id, Sending(event, overflow)) in steps
    ensures event.ref == ref && event.wellFormed
  {
    RunOrigin(NewStream(ref, capacity), steps, id, event);
  }

  // The error of the first closer never changes.
  lemma {:induction false} ErrorIsStable(s: Stream, steps: seq<Step>)
    requires s.closed && s.error.Some?
    ensures Run(s, steps).error == s.error && Run(s, steps).closed
    decreases |steps|
  {
    if steps != [] {
      StepKeepsError(s, steps[0]);
      ErrorIsStable(Next(s, steps[0]), steps[1..]);
    }
  }

  lemma StepKeepsError(s: Stream, step: Step)
    requires s.closed
    ensures Next(s, step).error == s.error && Next(s, step).closed
  {
  }

  // What is left to happen before the closer's wait is over: two steps of
  // every admitted sender, one of every other holder.
  function Waiting(calls: map<nat, Call>): set<nat> {
    set id | id in calls && calls[id].Admitted?
  }

  function Measure(s: Stream): nat {
    |Waiting(s.calls)| + |Holders(s.calls)|
  }

  lemma WaitingPut(calls: map<nat, Call>, id: nat, call: Call)
    ensures
      var before := if id in calls && calls[id].Admitted? then 1 else 0;
      var after := if call.Admitted? then 1 else 0;
      |Waiting(calls[id := call])| == |Waiting(calls)| - before + after
  {
    var put := calls[id := call];
    if call.Admitted? {
      assert Waiting(put) == Waiting(calls) + {id};
    } else {
      assert Waiting(put) == Waiting(calls) - {id};
    }
  }

  function Weight(call: Call): nat {
    if call.Admitted? then 2 else if call.Holds() then 1 else 0
  }

  lemma MeasurePut(calls: map<nat, Call>, id: nat, call: Call)
    ensures |Waiting(calls[id := call])| + |Holders(calls[id := call])| ==
            |Waiting(calls)| + |Holders(calls)| - (if id in calls then Weight(calls[id]) else 0) + Weight(call)
  {
    HoldersPut(calls, id, call);
    WaitingPut(calls, id, call);
  }

  lemma AdvanceShortens(s: Stream, id: nat, cancelled: bool)
    requires s.closed && Enabled(s, id)
    ensures Weight(Progress(s, id, cancelled).calls[id]) <= Weight(s.calls[id])
    ensures Progress(s, id, cancelled).calls == s.calls[id := Progress(s, id, cancelled).calls[id]]
  {
  }

  // After the close has begun no step of anybody adds to the wait.
  lemma MeasureNeverGrows(s: Stream, step: Step)
    requires s.closed
    ensures Measure(Next(s, step)) <= Measure(s)
  {
    match step
    case Call(id, call) => MeasurePut(s.calls, id, call);
    case Advance(id, cancelled) =>
      if Enabled(s, id) {
        AdvanceShortens(s, id, cancelled);
        MeasurePut(s.calls, id, Progress(s, id, cancelled).calls[id]);
      }
    case Receive =>
  }

  // And every holder can always take its next step, by the cancelled context
  // if by nothing else; whichever way it goes, that shortens the wait.
  lemma HolderAlwaysProgresses(s: Stream, id: nat, cancelled: bool)
    requires Inv(s) && s.closed && id in s.calls && s.calls[id].Holds()
    ensures Enabled(s, id)
    ensures Measure(Next(s, Advance(id, cancelled))) < Measure(s)
  {
    var call := Progress(s, id, cancelled).calls[id];
    assert id in Holders(s.calls);
    MeasurePut(s.calls, id, call);
  }

  predicate HolderStep(s: Stream, step: Step) {
    step.Advance? && step.id in s.calls && s.calls[step.id].Holds()
  }

  // How many steps of a run are steps of a sender in the wait group.
  function HolderSteps(s: Stream, steps: seq<Step>): nat
    decreases |steps|
  {
    if steps == [] then 0
    else
      var rest := HolderSteps(Next(s, steps[0]), steps[1..]);
      if HolderStep(s, steps[0]) then 1 + rest else rest
  }

  lemma {:induction false} WaitShrinks(s: Stream, steps: seq<Step>)
    requires Inv(s) && s.closed
    ensures HolderSteps(s, steps) + Measure(Run(s, steps)) <= Measure(s)
    ensures Inv(Run(s, steps))
    decreases |steps|
  {
    if steps != [] {
      MeasureNeverGrows(s, steps[0]);
      if HolderStep(s, steps[0]) {
        HolderAlwaysProgresses(s, steps[0].id, steps[0].cancelled);
      }
      StepKeepsInv(s, steps[0]);
      StepKeepsError(s, steps[0]);
      WaitShrinks(Next(s, steps[0]), steps[1..]);
    }
  }

  lemma DrainedFreesCloser(s: Stream)
    requires Inv(s) && Measure(s) == 0
    ensures Holders(s.calls) == {}
    ensures forall id :: id in s.calls && s.calls[id].Closer() ==> Enabled(s, id)
  {
  }

  // So the closer's wait terminates: along any run after the close the senders
  // take at most Measure(s) steps, and when they have taken them none is left
  // and the closer is free to close.
  lemma WaitTerminates(s: Stream, steps: seq<Step>)
    requires Inv(s) && s.closed
    ensures HolderSteps(s, steps) <= Measure(s)
    ensures
      var later := Run(s, steps);
      HolderSteps(s, steps) == Measure(s) ==>
        Holders(later.calls) == {} && forall id :: id in later.calls && later.calls[id].Closer() ==> Enabled(later, id)
  {
    WaitShrinks(s, steps);
    if HolderSteps(s, steps) == Measure(s) {
      DrainedFreesCloser(Run(s, steps));
    }
  }
}
