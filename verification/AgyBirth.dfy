// Crash-safe native session birth (internal/service/agy_probe_attestation.go):
// the pre-launch marker, the creation child, the bind that closes the marker,
// the recording of orphans and the controller's resolutions, as interleaved
// steps with a crash possible between any two.
module AgyBirth {
  import opened Domain
  import opened AgyLedger

  // What the child of an episode has done, or can still do: a child may
  // outlive the service that started it.
  datatype Child = Starting | Created(native: string) | Never

  // Where a creating call stands.
  datatype Phase =
    | Creating
    | Rejected
    | Failed(orphan: Option<string>, outcome: string)
    | Made(native: string)
    | Refused(native: string)
    | BoundAlready(native: string)
    | Orphaned(native: string, outcome: string)
    | Unplaced(native: string, outcome: string)

  datatype Thread = Thread(episode: nat, phase: Phase)

  // `live` is the session's entry in the in-flight map.
  datatype World = World(ledger: Ledger, children: seq<Child>, live: Option<nat>, threads: map<nat, Thread>)

  datatype Step =
    | BeginMarker(thread: nat)
    | BeginReportedLost
    | ChildCreates(episode: nat, native: string)
    | AdapterAnnotates(thread: nat, outcome: string)
    | AdapterRejects(thread: nat)
    | AdapterFails(thread: nat, seen: bool, outcome: string)
    | AdapterReturns(thread: nat)
    | CloseNotCreated(thread: nat)
    | NoteFailure(thread: nat)
    | BindAndClose(thread: nat, reported: bool)
    | BindRefused(thread: nat)
    | LookUpBinding(thread: nat, failed: bool, outcome: string)
    | CloseBound(thread: nat)
    | NoteOrphan(thread: nat, written: bool)
    | FallBack(thread: nat)
    | GiveUp(thread: nat)
    | ControllerResolves(episode: nat, disposition: Disposition)
    | Crash

  function End(w: World, thread: nat): World
    requires thread in w.threads
  {
    w.(threads := w.threads - {thread}, live := if w.live == Some(w.threads[thread].episode) then None else w.live)
  }

  function Move(w: World, thread: nat, phase: Phase): World
    requires thread in w.threads
  {
    w.(threads := w.threads[thread := w.threads[thread].(phase := phase)])
  }

  function Or(r: Result<Ledger, LedgerError>, l: Ledger): Ledger {
    match r case Ok(after) => after case Err(_) => l
  }

  predicate At(w: World, thread: nat) {
    thread in w.threads && w.threads[thread].episode < |w.children|
  }

  predicate Owns(w: World, native: string) {
    exists i :: 0 <= i < |w.children| && w.children[i] == Created(native)
  }

  // The only conversation an adapter names is the one its child reported.
  function Reported(w: World, thread: nat, seen: bool): Option<string>
    requires At(w, thread)
  {
    var child := w.children[w.threads[thread].episode];
    if seen && child.Created? then Some(child.native) else None
  }

  // The recorded orphan of a creation whose marker cannot take it.
  ghost function Recorded(l: Ledger, reason: string, orphan: Option<string>): (after: Ledger)
    ensures Records(l, after, reason, orphan)
  {
    if l.AnyOpen() then
      var i :| 0 <= i < |l.episodes| && l.OpenAt(i);
      Or(SetOrphan(l, i, orphan, reason), l)
    else Append(l, Episode(reason, orphan, None))
  }

  // One step; a step that is not enabled changes nothing.
  ghost function Next(w: World, step: Step): World {
    match step
    case BeginMarker(t) =>
      if t !in w.threads && w.live == None && Begin(w.ledger).Ok? then
        var n := |w.ledger.episodes|;
        World(Begin(w.ledger).value, w.children + [Starting], Some(n), w.threads[t := Thread(n, Creating)])
      else w
    case BeginReportedLost =>
      if w.live == None && Begin(w.ledger).Ok? then w.(ledger := Begin(w.ledger).value, children := w.children + [Never])
      else w
    case ChildCreates(i, native) =>
      if i < |w.children| && w.children[i] == Starting && !Owns(w, native) then
        w.(children := w.children[i := Created(native)])
      else w
    case AdapterAnnotates(t, outcome) =>
      if At(w, t) && w.threads[t].phase == Creating && w.children[w.threads[t].episode].Created? then
        w.(ledger := Or(SetOrphan(w.ledger, w.threads[t].episode, Reported(w, t, true), outcome), w.ledger))
      else w
    case AdapterRejects(t) =>
      if At(w, t) && w.threads[t].phase == Creating && w.children[w.threads[t].episode] == Starting then
        Move(w, t, Rejected).(children := w.children[w.threads[t].episode := Never])
      else w
    case AdapterFails(t, seen, outcome) =>
      if At(w, t) && w.threads[t].phase == Creating then Move(w, t, Failed(Reported(w, t, seen), outcome)) else w
    case AdapterReturns(t) =>
      if At(w, t) && w.threads[t].phase == Creating && w.children[w.threads[t].episode].Created? then
        Move(w, t, Made(w.children[w.threads[t].episode].native))
      else w
    case CloseNotCreated(t) =>
      if At(w, t) && w.threads[t].phase == Rejected then
        End(w, t).(ledger := Or(Close(w.ledger, w.threads[t].episode, NotCreated), w.ledger))
      else w
    case NoteFailure(t) =>
      if At(w, t) && w.threads[t].phase.Failed? then
        var p := w.threads[t].phase;
        End(w, t).(ledger := Or(SetOrphan(w.ledger, w.threads[t].episode, p.orphan, p.outcome), w.ledger))
      else w
    case BindAndClose(t, reported) =>
      if At(w, t) && w.threads[t].phase.Made? then
        var native := w.threads[t].phase.native;
        var bound := Bind(w.ledger, w.threads[t].episode, native);
        if bound.Ok? && reported then End(w, t).(ledger := bound.value)
        else Move(w, t, Refused(native)).(ledger := Or(bound, w.ledger))
      else w
    case BindRefused(t) =>
      if At(w, t) && w.threads[t].phase.Made? then Move(w, t, Refused(w.threads[t].phase.native)) else w
    case LookUpBinding(t, failed, outcome) =>
      if At(w, t) && w.threads[t].phase.Refused? then
        var native := w.threads[t].phase.native;
        if !failed && w.ledger.binding == Some(native) then Move(w, t, BoundAlready(native))
        else Move(w, t, Orphaned(native, outcome))
      else w
    case CloseBound(t) =>
      if At(w, t) && w.threads[t].phase.BoundAlready? then
        End(w, t).(ledger := Or(Close(w.ledger, w.threads[t].episode, Bound), w.ledger))
      else w
    case NoteOrphan(t, written) =>
      if At(w, t) && w.threads[t].phase.Orphaned? then
        var p := w.threads[t].phase;
        var noted := SetOrphan(w.ledger, w.threads[t].episode, Some(p.native), p.outcome);
        if written && noted.Ok? then End(w, t).(ledger := noted.value) else Move(w, t, Unplaced(p.native, p.outcome))
      else w
    case FallBack(t) =>
      if At(w, t) && w.threads[t].phase.Unplaced? then
        var p := w.threads[t].phase;
        var after := Recorded(w.ledger, p.outcome, Some(p.native));
        End(w, t).(ledger := after,
                   children := if |after.episodes| > |w.children| then w.children + [Never] else w.children)
      else w
    case GiveUp(t) => if At(w, t) && w.threads[t].phase != Creating then End(w, t) else w
    case ControllerResolves(i, disposition) =>
      if w.live != Some(i) && disposition.ByController() then
        w.(ledger := Or(Resolve(w.ledger, i, disposition), w.ledger))
      else w
    case Crash => w.(live := None, threads := map[])
  }

  ghost function Run(w: World, steps: seq<Step>): World
    decreases |steps|
  {
    if steps == [] then w else Run(Next(w, steps[0]), steps[1..])
  }

  const NEWBORN := World(Ledger([], None), [], None, map[])

  // Conversations are never reused, and each belongs to its own episode.
  ghost predicate OwnEpisode(w: World) {
    forall i, j ::
      0 <= i < |w.children| && 0 <= j < |w.children| && w.children[i].Created? && w.children[i] == w.children[j] ==> i == j
  }

  // What a closed episode says of its child, and what a binding leaves open.
  ghost predicate EpisodeHonest(w: World, i: nat)
    requires i < |w.children| && i < |w.ledger.episodes|
  {
    match w.ledger.episodes[i].disposition
    case None => w.ledger.binding.Some? ==> w.children[i] == Never
    case Some(NotCreated) => w.children[i] == Never
    case Some(Bound) => w.ledger.binding.Some? && w.children[i] == Created(w.ledger.binding.value)
    case Some(_) => true
  }

  ghost predicate BindingHonest(w: World)
    requires |w.children| == |w.ledger.episodes|
  {
    w.ledger.binding.Some? ==>
      exists i :: 0 <= i < |w.children| && w.children[i] == Created(w.ledger.binding.value)
                  && w.ledger.episodes[i].disposition == Some(Bound)
  }

  ghost predicate ThreadHonest(w: World, th: Thread) {
    && th.episode < |w.children| && |w.children| == |w.ledger.episodes|
    && w.live == Some(th.episode)
    && match th.phase
       case Creating => Unsettled(w, th.episode) && w.children[th.episode] != Never
       case Rejected => Unsettled(w, th.episode) && w.children[th.episode] == Never
       case Failed(orphan, _) =>
         Unsettled(w, th.episode) && (orphan.Some? ==> w.children[th.episode] == Created(orphan.value))
       case Made(native) => Unsettled(w, th.episode) && w.children[th.episode] == Created(native)
       case BoundAlready(native) => w.children[th.episode] == Created(native) && w.ledger.binding == Some(native)
       case Refused(native) => Placing(w, th.episode, native)
       case Orphaned(native, _) => Placing(w, th.episode, native)
       case Unplaced(native, _) => Placing(w, th.episode, native)
  }

  // The marker is still open and nothing is bound.
  ghost predicate Unsettled(w: World, i: nat) {
    w.ledger.OpenAt(i) && w.ledger.binding == None
  }

  // Or the bind committed after all.
  ghost predicate Placing(w: World, i: nat, native: string) {
    && i < |w.children| && w.children[i] == Created(native)
    && (Unsettled(w, i) || w.ledger.binding == Some(native))
  }

  ghost predicate Inv(w: World) {
    && |w.children| == |w.ledger.episodes|
    && OneOpen(w.ledger)
    && OwnEpisode(w)
    && (forall i: nat :: i < |w.children| ==> EpisodeHonest(w, i))
    && BindingHonest(w)
    && (forall t, u :: t in w.threads && u in w.threads ==> t == u)
    && (w.live.Some? <==> exists t :: t in w.threads)
    && (forall t :: t in w.threads ==> ThreadHonest(w, w.threads[t]))
  }

  lemma BeginKeepsInv(w: World, t: nat)
    requires Inv(w) && w.live == None && Begin(w.ledger).Ok?
    ensures Inv(Next(w, BeginMarker(t))) && Inv(Next(w, BeginReportedLost))
  {
    AppendOneOpen(w.ledger, Episode(IN_FLIGHT, None, None));
    AppendKeepsInv(w, Next(w, BeginMarker(t)), Starting);
    AppendKeepsInv(w, Next(w, BeginReportedLost), Never);
  }

  // A new open episode, over an unbound session.
  lemma AppendKeepsInv(w: World, after: World, child: Child)
    requires Inv(w) && w.live == None && w.ledger.binding == None && !child.Created?
    requires OneOpen(after.ledger) && after.ledger == Append(w.ledger, Episode(IN_FLIGHT, None, None))
    requires after.children == w.children + [child]
    requires || (after.live == None && after.threads == map[])
             || (child == Starting && after.live == Some(|w.children|)
                 && exists t :: after.threads == map[t := Thread(|w.children|, Creating)])
    ensures Inv(after)
  {
    forall i: nat | i < |after.children| ensures EpisodeHonest(after, i) {
      if i < |w.children| {
        assert EpisodeHonest(w, i);
      }
    }
    if after.live.Some? {
      var t :| after.threads == map[t := Thread(|w.children|, Creating)];
      assert t in after.threads;
    }
  }

  lemma ThreadsKept(w: World, after: World)
    requires |w.children| == |w.ledger.episodes| == |after.children| == |after.ledger.episodes|
    requires after.live == w.live && after.threads == w.threads && after.ledger.binding == w.ledger.binding
    requires forall t :: t in w.threads ==> ThreadHonest(w, w.threads[t])
    requires forall t, i :: t in w.threads && i == w.threads[t].episode && i < |w.children| ==>
      (after.children[i] == w.children[i] || (w.children[i] == Starting && after.children[i].Created?))
      && after.ledger.OpenAt(i) == w.ledger.OpenAt(i)
    ensures forall t :: t in after.threads ==> ThreadHonest(after, after.threads[t])
  {
    forall t | t in after.threads ensures ThreadHonest(after, after.threads[t]) {
      assert ThreadHonest(w, w.threads[t]);
    }
  }

  lemma ChildKeepsInv(w: World, i: nat, native: string)
    requires Inv(w)
    ensures Inv(Next(w, ChildCreates(i, native)))
  {
    var after := Next(w, ChildCreates(i, native));
    if after != w {
      forall j: nat | j < |after.children| ensures EpisodeHonest(after, j) {
        assert EpisodeHonest(w, j);
      }
      ThreadsKept(w, after);
      if w.ledger.binding.Some? {
        var b :| 0 <= b < |w.children| && w.children[b] == Created(w.ledger.binding.value)
                 && w.ledger.episodes[b].disposition == Some(Bound);
        assert after.children[b] == Created(w.ledger.binding.value);
      }
    }
  }

  // Steps that change no ledger and no child, only where the one thread is.
  lemma MoveKeepsInv(w: World, after: World, t: nat, phase: Phase)
    requires Inv(w) && t in w.threads && after == Move(w, t, phase)
    requires ThreadHonest(w, Thread(w.threads[t].episode, phase))
    ensures Inv(after)
  {
    OthersKept(w, after);
    assert t in after.threads;
  }

  // The thread ends, whatever it leaves behind.
  lemma EndKeepsInv(w: World, t: nat)
    requires Inv(w) && t in w.threads
    ensures Inv(End(w, t))
  {
    assert ThreadHonest(w, w.threads[t]);
    OthersKept(w, End(w, t));
  }

  lemma OthersKept(w: World, after: World)
    requires |w.children| == |w.ledger.episodes|
    requires (forall i: nat :: i < |w.children| ==> EpisodeHonest(w, i)) && BindingHonest(w)
    requires after.ledger == w.ledger && after.children == w.children
    ensures (forall i: nat :: i < |after.children| ==> EpisodeHonest(after, i)) && BindingHonest(after)
  {
    forall i: nat | i < |after.children| ensures EpisodeHonest(after, i) {
      assert EpisodeHonest(w, i);
    }
  }

  // An annotation changes no disposition.
  lemma AnnotationKeepsInv(w: World, i: nat, orphan: Option<string>, outcome: string)
    requires Inv(w)
    ensures Inv(w.(ledger := Or(SetOrphan(w.ledger, i, orphan, outcome), w.ledger)))
  {
    var after := w.(ledger := Or(SetOrphan(w.ledger, i, orphan, outcome), w.ledger));
    if SetOrphan(w.ledger, i, orphan, outcome).Ok? {
      PutOneOpen(w.ledger, i, after.ledger.episodes[i]);
      DispositionsKept(w, after);
    }
  }

  lemma DispositionsKept(w: World, after: World)
    requires Inv(w) && OneOpen(after.ledger)
    requires after == w.(ledger := after.ledger) && after.ledger.binding == w.ledger.binding
    requires |after.ledger.episodes| == |w.ledger.episodes|
    requires forall i :: 0 <= i < |w.ledger.episodes| ==>
      after.ledger.episodes[i].disposition == w.ledger.episodes[i].disposition
    ensures Inv(after)
  {
    forall i: nat | i < |after.children| ensures EpisodeHonest(after, i) {
      assert EpisodeHonest(w, i);
    }
    ThreadsKept(w, after);
  }

  // A rejection proves that the child never was.
  lemma RejectionKeepsInv(w: World, t: nat)
    requires Inv(w)
    ensures Inv(Next(w, AdapterRejects(t)))
  {
    var after := Next(w, AdapterRejects(t));
    if after != w {
      assert t in after.threads;
      forall i: nat | i < |after.children| ensures EpisodeHonest(after, i) {
        assert EpisodeHonest(w, i);
      }
    }
  }

  // Closing or resolving one open episode of a session whose one thread, if
  // it has any, has just ended or works on another.
  lemma ClosureKeepsInv(w: World, i: nat, disposition: Disposition)
    requires Inv(w) && w.ledger.OpenAt(i) && (w.live == None || (w.live != Some(i) && disposition.ByController()))
    requires disposition == NotCreated ==> w.children[i] == Never
    requires disposition != Bound
    ensures Inv(w.(ledger := Put(w.ledger, i, w.ledger.episodes[i].(disposition := Some(disposition)))))
  {
    var after := w.(ledger := Put(w.ledger, i, w.ledger.episodes[i].(disposition := Some(disposition))));
    PutOneOpen(w.ledger, i, after.ledger.episodes[i]);
    forall j: nat | j < |after.children| ensures EpisodeHonest(after, j) {
      assert EpisodeHonest(w, j);
    }
    if w.ledger.binding.Some? {
      var b :| 0 <= b < |w.children| && w.children[b] == Created(w.ledger.binding.value)
               && w.ledger.episodes[b].disposition == Some(Bound);
      assert after.ledger.episodes[b].disposition == Some(Bound);
    }
    ThreadsKept(w, after);
  }

  // The bind commits: the binding and the closed marker name the same child.
  lemma BindKeepsInv(w: World, t: nat)
    requires Inv(w) && t in w.threads && w.threads[t].phase.Made?
    requires Bind(w.ledger, w.threads[t].episode, w.threads[t].phase.native).Ok?
    ensures Inv(Next(w, BindAndClose(t, true))) && Inv(Next(w, BindAndClose(t, false)))
  {
    var native, i := w.threads[t].phase.native, w.threads[t].episode;
    var ledger := Bind(w.ledger, i, native).value;
    assert ThreadHonest(w, w.threads[t]);
    PutOneOpen(w.ledger, i, ledger.episodes[i]);
    BindOneOpen(Put(w.ledger, i, ledger.episodes[i]), Some(native));
    BoundWorld(w, Next(w, BindAndClose(t, true)), i, native);
    BoundWorld(w, Next(w, BindAndClose(t, false)), i, native);
  }

  lemma BoundWorld(w: World, after: World, i: nat, native: string)
    requires Inv(w) && Unsettled(w, i) && i < |w.children| && w.children[i] == Created(native)
    requires after.children == w.children && OneOpen(after.ledger)
    requires after.ledger == Put(w.ledger, i, w.ledger.episodes[i].(disposition := Some(Bound))).(binding := Some(native))
    ensures (forall j: nat :: j < |after.children| ==> EpisodeHonest(after, j)) && BindingHonest(after)
  {
    forall j: nat | j < |after.children| ensures EpisodeHonest(after, j) {
      assert EpisodeHonest(w, j);
      if after.ledger.episodes[j].Open() {
        assert w.ledger.OpenAt(j);
      }
    }
    assert after.ledger.episodes[i].disposition == Some(Bound);
  }

  lemma ThreadOf(w: World, t: nat)
    requires Inv(w) && t in w.threads
    ensures At(w, t) && ThreadHonest(w, w.threads[t])
    ensures forall u :: u in w.threads ==> u == t
    ensures End(w, t).live == None && End(w, t).threads == map[]
  {
    assert ThreadHonest(w, w.threads[t]);
  }

  lemma FallBackKeepsInv(w: World, t: nat)
    requires Inv(w)
    ensures Inv(Next(w, FallBack(t)))
  {
    if At(w, t) && w.threads[t].phase.Unplaced? {
      var p, ended := w.threads[t].phase, End(w, t);
      ThreadOf(w, t);
      EndKeepsInv(w, t);
      var after := Recorded(w.ledger, p.outcome, Some(p.native));
      if w.ledger.AnyOpen() {
        var i: nat :| w.ledger.OpenAt(i) && after == Or(SetOrphan(w.ledger, i, Some(p.native), p.outcome), w.ledger);
        AnnotationKeepsInv(ended, i, Some(p.native), p.outcome);
      } else {
        AppendOneOpen(w.ledger, Episode(p.outcome, Some(p.native), None));
        ReopenedKeepsInv(ended, Next(w, FallBack(t)), Episode(p.outcome, Some(p.native), None));
      }
    }
  }

  // The fallback episode of a session that turned out to be bound: no child
  // belongs to it.
  lemma ReopenedKeepsInv(w: World, after: World, e: Episode)
    requires Inv(w) && w.live == None && w.threads == map[] && e.Open()
    requires OneOpen(Append(w.ledger, e))
    requires after == w.(ledger := Append(w.ledger, e), children := w.children + [Never])
    ensures Inv(after)
  {
    forall i: nat | i < |after.children| ensures EpisodeHonest(after, i) {
      if i < |w.children| {
        assert EpisodeHonest(w, i);
      }
    }
    if w.ledger.binding.Some? {
      var b :| 0 <= b < |w.children| && w.children[b] == Created(w.ledger.binding.value)
               && w.ledger.episodes[b].disposition == Some(Bound);
      assert after.children[b] == Created(w.ledger.binding.value) && after.ledger.episodes[b].disposition == Some(Bound);
    }
  }

  // The handler's own closing of its marker as bound never fires: whenever a
  // refused bind turns out to be bound already, that bind closed the marker.
  lemma BoundCloseNeverFires(w: World, t: nat)
    requires Inv(w) && t in w.threads && w.threads[t].phase.BoundAlready?
    ensures Close(w.ledger, w.threads[t].episode, Bound) == Err(NotAnOpenMarker)
  {
    ThreadOf(w, t);
    assert EpisodeHonest(w, w.threads[t].episode);
  }

  lemma CallerKeepsInv(w: World, t: nat, step: Step)
    requires Inv(w) && At(w, t)
    requires step == CloseNotCreated(t) || step == NoteFailure(t) || step == CloseBound(t) || step == GiveUp(t)
             || step == NoteOrphan(t, true) || step == NoteOrphan(t, false)
    ensures Inv(Next(w, step))
  {
    ThreadOf(w, t);
    EndKeepsInv(w, t);
    var th, ended := w.threads[t], End(w, t);
    match th.phase
    case Rejected =>
      if Close(w.ledger, th.episode, NotCreated).Ok? {
        ClosureKeepsInv(ended, th.episode, NotCreated);
      }
    case Failed(orphan, outcome) => AnnotationKeepsInv(ended, th.episode, orphan, outcome);
    case BoundAlready(_) => BoundCloseNeverFires(w, t);
    case Orphaned(native, outcome) =>
      AnnotationKeepsInv(ended, th.episode, Some(native), outcome);
      MoveKeepsInv(w, Move(w, t, Unplaced(native, outcome)), t, Unplaced(native, outcome));
    case _ =>
  }

  lemma AdapterKeepsInv(w: World, t: nat, step: Step)
    requires Inv(w) && At(w, t) && w.threads[t].phase == Creating
    requires step.AdapterAnnotates? || step.AdapterFails? || step.AdapterReturns?
    requires step.thread == t
    ensures Inv(Next(w, step))
  {
    ThreadOf(w, t);
    match step
    case AdapterAnnotates(_, outcome) => AnnotationKeepsInv(w, w.threads[t].episode, Reported(w, t, true), outcome);
    case AdapterFails(_, seen, outcome) => MoveKeepsInv(w, Next(w, step), t, Failed(Reported(w, t, seen), outcome));
    case AdapterReturns(_) =>
      if w.children[w.threads[t].episode].Created? {
        MoveKeepsInv(w, Next(w, step), t, Made(w.children[w.threads[t].episode].native));
      }
  }

  lemma BindingStepKeepsInv(w: World, t: nat, step: Step)
    requires Inv(w) && At(w, t)
    requires step.BindAndClose? || step.BindRefused? || step.LookUpBinding?
    requires step.thread == t
    ensures Inv(Next(w, step))
  {
    ThreadOf(w, t);
    var th := w.threads[t];
    match step
    case BindAndClose(_, reported) =>
      if th.phase.Made? {
        if Bind(w.ledger, th.episode, th.phase.native).Ok? {
          BindKeepsInv(w, t);
        } else {
          MoveKeepsInv(w, Next(w, step), t, Refused(th.phase.native));
        }
      }
    case BindRefused(_) =>
      if th.phase.Made? {
        MoveKeepsInv(w, Next(w, step), t, Refused(th.phase.native));
      }
    case LookUpBinding(_, failed, outcome) =>
      if th.phase.Refused? {
        MoveKeepsInv(w, Next(w, step), t, Next(w, step).threads[t].phase);
      }
  }

  lemma CrashKeepsInv(w: World)
    requires Inv(w)
    ensures Inv(Next(w, Crash))
  {
    OthersKept(w, Next(w, Crash));
  }

  lemma ResolutionKeepsInv(w: World, i: nat, disposition: Disposition)
    requires Inv(w)
    ensures Inv(Next(w, ControllerResolves(i, disposition)))
  {
    if w.live != Some(i) && disposition.ByController() && Resolve(w.ledger, i, disposition).Ok? {
      ClosureKeepsInv(w, i, disposition);
    }
  }

  // Every step, from any side, keeps the birth protocol's invariant.
  lemma StepKeepsInv(w: World, step: Step)
    requires Inv(w)
    ensures Inv(Next(w, step))
  {
    if Next(w, step) != w {
      match step
      case BeginMarker(t) => BeginKeepsInv(w, t);
      case BeginReportedLost => BeginKeepsInv(w, 0);
      case ChildCreates(i, native) => ChildKeepsInv(w, i, native);
      case AdapterRejects(t) => RejectionKeepsInv(w, t);
      case FallBack(t) => FallBackKeepsInv(w, t);
      case ControllerResolves(i, disposition) => ResolutionKeepsInv(w, i, disposition);
      case Crash => CrashKeepsInv(w);
      case AdapterAnnotates(t, _) => AdapterKeepsInv(w, t, step);
      case AdapterFails(t, _, _) => AdapterKeepsInv(w, t, step);
      case AdapterReturns(t) => AdapterKeepsInv(w, t, step);
      case BindAndClose(t, _) => BindingStepKeepsInv(w, t, step);
      case BindRefused(t) => BindingStepKeepsInv(w, t, step);
      case LookUpBinding(t, _, _) => BindingStepKeepsInv(w, t, step);
      case _ => CallerKeepsInv(w, step.thread, step);
    }
  }

  lemma {:induction false} RunKeepsInv(w: World, steps: seq<Step>)
    requires Inv(w)
    ensures Inv(Run(w, steps))
    decreases |steps|
  {
    if steps != [] {
      StepKeepsInv(w, steps[0]);
      RunKeepsInv(Next(w, steps[0]), steps[1..]);
    }
  }

  lemma ReachableInv(steps: seq<Step>)
    ensures Inv(Run(NEWBORN, steps))
  {
    RunKeepsInv(NEWBORN, steps);
  }

  // A session's bound identity never changes.
  lemma {:induction false} BindingIsForEver(w: World, steps: seq<Step>)
    requires w.ledger.binding.Some?
    ensures Run(w, steps).ledger.binding == w.ledger.binding
    decreases |steps|
  {
    if steps != [] {
      assert Next(w, steps[0]).ledger.binding == w.ledger.binding;
      BindingIsForEver(Next(w, steps[0]), steps[1..]);
    }
  }

  // Every created conversation that is not the bound one has its own episode,
  // still open or resolved by a controller.
  lemma UnboundIsAccounted(w: World, i: nat, native: string)
    requires Inv(w) && i < |w.children| && w.children[i] == Created(native) && w.ledger.binding != Some(native)
    ensures w.ledger.episodes[i].Open() || w.ledger.episodes[i].disposition.value.ByController()
  {
    assert EpisodeHonest(w, i);
  }

  // A recorded orphan is its own episode's conversation; a fallback episode,
  // opened after all when the session is bound, names the bound one.
  ghost predicate OrphanNamed(w: World, i: nat)
    requires i < |w.children| && i < |w.ledger.episodes|
  {
    w.ledger.episodes[i].orphan.Some? ==>
      || w.children[i] == Created(w.ledger.episodes[i].orphan.value)
      || (w.children[i] == Never && w.ledger.binding == w.ledger.episodes[i].orphan)
  }

  ghost predicate OrphansNamed(w: World) {
    |w.children| == |w.ledger.episodes| && forall i: nat :: i < |w.children| ==> OrphanNamed(w, i)
  }

  // A step that annotates an episode with its child's conversation, or with
  // the bound one where it has no child.
  lemma AnnotationNamed(w: World, i: nat, orphan: Option<string>, outcome: string, after: World)
    requires OrphansNamed(w) && i < |w.children|
    requires orphan.Some? ==>
      w.children[i] == Created(orphan.value) || (w.children[i] == Never && w.ledger.binding == orphan)
    requires after.children == w.children && after.ledger == Or(SetOrphan(w.ledger, i, orphan, outcome), w.ledger)
    ensures OrphansNamed(after)
  {
    forall j: nat | j < |after.children| ensures OrphanNamed(after, j) {
      assert OrphanNamed(w, j);
    }
  }

  // Steps that leave every orphan where it is, and no child without one.
  lemma OthersNamed(w: World, after: World)
    requires OrphansNamed(w) && |after.children| == |after.ledger.episodes| >= |w.children|
    requires w.ledger.binding.Some? ==> after.ledger.binding == w.ledger.binding
    requires forall i: nat :: i < |w.children| ==>
      && after.ledger.episodes[i].orphan == w.ledger.episodes[i].orphan
      && (after.children[i] == w.children[i] || w.children[i] == Starting)
    requires forall i: nat :: |w.children| <= i < |after.children| ==> after.ledger.episodes[i].orphan == None
    ensures OrphansNamed(after)
  {
    forall i: nat | i < |after.children| ensures OrphanNamed(after, i) {
      assert i < |w.children| ==> OrphanNamed(w, i);
    }
  }

  lemma FallBackNamed(w: World, t: nat)
    requires Inv(w) && OrphansNamed(w)
    ensures OrphansNamed(Next(w, FallBack(t)))
  {
    if At(w, t) && w.threads[t].phase.Unplaced? {
      var p, after := w.threads[t].phase, Next(w, FallBack(t));
      ThreadOf(w, t);
      if w.ledger.AnyOpen() {
        var i: nat :| w.ledger.OpenAt(i) && after.ledger == Or(SetOrphan(w.ledger, i, Some(p.native), p.outcome), w.ledger);
        assert EpisodeHonest(w, i);
        AnnotationNamed(w, i, Some(p.native), p.outcome, after);
      } else {
        forall j: nat | j < |after.children| ensures OrphanNamed(after, j) {
          assert j < |w.children| ==> OrphanNamed(w, j);
        }
      }
    }
  }

  lemma StepKeepsNamed(w: World, step: Step)
    requires Inv(w) && OrphansNamed(w)
    ensures OrphansNamed(Next(w, step))
  {
    if Next(w, step) != w {
      match step
      case AdapterAnnotates(t, outcome) =>
        AnnotationNamed(w, w.threads[t].episode, Reported(w, t, true), outcome, Next(w, step));
      case NoteFailure(t) =>
        ThreadOf(w, t);
        AnnotationNamed(w, w.threads[t].episode, w.threads[t].phase.orphan, w.threads[t].phase.outcome, Next(w, step));
      case NoteOrphan(t, _) =>
        ThreadOf(w, t);
        NotingNamed(w, t, step);
      case FallBack(t) => FallBackNamed(w, t);
      case _ => OtherStepNamed(w, step);
    }
  }

  lemma OtherStepNamed(w: World, step: Step)
    requires Inv(w) && OrphansNamed(w) && Next(w, step) != w
    requires !step.AdapterAnnotates? && !step.NoteFailure? && !step.NoteOrphan? && !step.FallBack?
    ensures OrphansNamed(Next(w, step))
  {
    OthersNamed(w, Next(w, step));
  }

  lemma NotingNamed(w: World, t: nat, step: Step)
    requires OrphansNamed(w) && At(w, t) && w.threads[t].phase.Orphaned? && ThreadHonest(w, w.threads[t])
    requires step.NoteOrphan? && step.thread == t
    ensures OrphansNamed(Next(w, step))
  {
    var p, i := w.threads[t].phase, w.threads[t].episode;
    var noted := SetOrphan(w.ledger, i, Some(p.native), p.outcome);
    if step.written && noted.Ok? {
      AnnotationNamed(w, i, Some(p.native), p.outcome, Next(w, step));
    } else {
      OthersNamed(w, Next(w, step));
    }
  }

  lemma {:induction false} RunKeepsNamed(w: World, steps: seq<Step>)
    requires Inv(w) && OrphansNamed(w)
    ensures OrphansNamed(Run(w, steps))
    decreases |steps|
  {
    if steps != [] {
      StepKeepsInv(w, steps[0]);
      StepKeepsNamed(w, steps[0]);
      RunKeepsNamed(Next(w, steps[0]), steps[1..]);
    }
  }

  // Over every run an orphan noted in a marker names that marker's own
  // conversation; in an episode without a child, the bound one.
  lemma OrphansNameTheirOwn(steps: seq<Step>, i: nat)
    requires i < |Run(NEWBORN, steps).ledger.episodes|
    requires Run(NEWBORN, steps).ledger.episodes[i].orphan.Some?
    ensures
      var w := Run(NEWBORN, steps);
      && i < |w.children|
      && (w.children[i] == Created(w.ledger.episodes[i].orphan.value)
          || (w.children[i] == Never && w.ledger.binding == w.ledger.episodes[i].orphan))
  {
    RunKeepsNamed(NEWBORN, steps);
    assert OrphanNamed(Run(NEWBORN, steps), i);
  }

  function Births(w: World): set<nat> {
    set i | 0 <= i < |w.children| && w.children[i].Created?
  }

  function ResolvedByController(w: World): set<nat> {
    set i | 0 <= i < |w.ledger.episodes| && w.ledger.episodes[i].disposition.Some?
            && w.ledger.episodes[i].disposition.value.ByController()
  }

  // At most one conversation beyond those a controller took responsibility
  // for, over every interleaving, crash and restart.
  lemma BirthsAreBounded(steps: seq<Step>)
    ensures
      var w := Run(NEWBORN, steps);
      |Births(w)| <= 1 + |ResolvedByController(w)|
  {
    var w := Run(NEWBORN, steps);
    ReachableInv(steps);
    var rest := Births(w) - ResolvedByController(w);
    forall i, j | i in rest && j in rest ensures i == j {
      RestIsOne(w, i, j);
    }
    AtMostOne(rest);
    assert Births(w) <= rest + ResolvedByController(w);
    Subset(Births(w), rest + ResolvedByController(w));
  }

  lemma RestIsOne(w: World, i: nat, j: nat)
    requires Inv(w) && i in Births(w) - ResolvedByController(w) && j in Births(w) - ResolvedByController(w)
    ensures i == j
  {
    assert EpisodeHonest(w, i) && EpisodeHonest(w, j);
    if w.ledger.binding == None {
      assert w.ledger.OpenAt(i) && w.ledger.OpenAt(j);
    }
  }

  lemma AtMostOne(s: set<nat>)
    requires forall i, j :: i in s && j in s ==> i == j
    ensures |s| <= 1
  {
    if i :| i in s {
      assert s == {i};
    }
  }

  lemma Subset(a: set<nat>, b: set<nat>)
    requires a <= b
    ensures |a| <= |b|
  {
    assert b == a + (b - a);
  }
}
