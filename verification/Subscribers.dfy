// Subscriber fan-out (internal/service/coordinator.go): channels registered
// per turn, bounded queues, slow observers disconnected, and closing under any
// mix of broadcast, unsubscribe, CloseAllSubscribers and CancelAll.
module Subscribers {
  const CAPACITY := 64

  // A channel and everything ever put on it. `closes` and `lateWrites` count
  // what would panic: closing again, and writing after a close.
  datatype Channel = Channel(
    ref: string,
    put: seq<string>,
    taken: nat,
    closed: bool,
    left: bool,
    closes: nat,
    lateWrites: nat)
  {
    predicate Listening() {
      !closed && !left
    }

    predicate HasRoom() {
      |put| - taken < CAPACITY
    }
  }

  // Channels by identity, how many broadcasts of its turn preceded each one's
  // registration, the registered ones of each turn in order, and the broadcasts
  // of each turn.
  datatype Fanout = Fanout(
    channels: seq<Channel>,
    starts: seq<nat>,
    subscribers: map<string, seq<nat>>,
    history: map<string, seq<string>>)

  const NOBODY := Fanout([], [], map[], map[])

  function SubsOf(f: Fanout, ref: string): seq<nat> {
    if ref in f.subscribers then f.subscribers[ref] else []
  }

  function HistoryOf(f: Fanout, ref: string): seq<string> {
    if ref in f.history then f.history[ref] else []
  }

  function Write(c: Channel, event: string): Channel {
    c.(put := c.put + [event], lateWrites := c.lateWrites + if c.closed then 1 else 0)
  }

  function CloseChannel(c: Channel): Channel {
    c.(closed := true, closes := c.closes + 1)
  }

  // What a broadcast does to one registered channel.
  function Offer(c: Channel, event: string): Channel {
    if c.HasRoom() then Write(c, event) else CloseChannel(c)
  }

  // An empty list of subscribers is deleted.
  function WithSubs(subscribers: map<string, seq<nat>>, ref: string, ids: seq<nat>): map<string, seq<nat>> {
    if ids == [] then subscribers - {ref} else subscribers[ref := ids]
  }

  ghost predicate Distinct(ids: seq<nat>) {
    forall i, j :: 0 <= i < j < |ids| ==> ids[i] != ids[j]
  }

  // Every registered channel is one that listens to that turn, listed once;
  // and every listening channel is registered.
  ghost predicate Registered(f: Fanout) {
    && (forall ref, id :: ref in f.subscribers && id in f.subscribers[ref] ==> Listens(f, ref, id))
    && (forall ref :: ref in f.subscribers ==> Distinct(f.subscribers[ref]))
    && (forall id :: 0 <= id < |f.channels| && f.channels[id].Listening() ==> id in SubsOf(f, f.channels[id].ref))
  }

  predicate Listens(f: Fanout, ref: string, id: nat) {
    id < |f.channels| && f.channels[id].Listening() && f.channels[id].ref == ref
  }

  // A queue is a gap-free run of its turn's broadcasts from its registration;
  // while it listens, up to the latest one.
  ghost predicate GapFree(f: Fanout, c: Channel, start: nat) {
    && start + |c.put| <= |HistoryOf(f, c.ref)|
    && c.put == HistoryOf(f, c.ref)[start..start + |c.put|]
    && (c.Listening() ==> start + |c.put| == |HistoryOf(f, c.ref)|)
  }

  ghost predicate NeverPanics(c: Channel) {
    c.closes == (if c.closed then 1 else 0) && c.lateWrites == 0
  }

  ghost predicate Sane(f: Fanout, id: nat)
    requires id < |f.channels| && id < |f.starts|
  {
    GapFree(f, f.channels[id], f.starts[id]) && NeverPanics(f.channels[id])
  }

  ghost predicate Inv(f: Fanout) {
    Registered(f) && |f.starts| == |f.channels| && forall id: nat :: id < |f.channels| ==> Sane(f, id)
  }

  function Register(f: Fanout, ref: string): Fanout {
    f.(channels := f.channels + [Channel(ref, [], 0, false, false, 0, 0)],
       starts := f.starts + [|HistoryOf(f, ref)|],
       subscribers := f.subscribers[ref := SubsOf(f, ref) + [|f.channels|]])
  }

  // The subscribers that had room, in order.
  function Kept(channels: seq<Channel>, ids: seq<nat>): (kept: seq<nat>)
    requires forall i :: 0 <= i < |ids| ==> ids[i] < |channels|
    ensures forall id :: id in kept <==> id in ids && channels[id].HasRoom()
  {
    if ids == [] then []
    else
      var last := ids[|ids| - 1];
      Kept(channels, ids[..|ids| - 1]) + if channels[last].HasRoom() then [last] else []
  }

  function Offered(channels: seq<Channel>, ids: seq<nat>, event: string): seq<Channel> {
    seq(|channels|, i requires 0 <= i < |channels| => if i in ids then Offer(channels[i], event) else channels[i])
  }

  predicate InRange(f: Fanout, ref: string) {
    forall i :: 0 <= i < |SubsOf(f, ref)| ==> SubsOf(f, ref)[i] < |f.channels|
  }

  function Broadcast(f: Fanout, ref: string, event: string): Fanout
    requires InRange(f, ref)
  {
    Fanout(Offered(f.channels, SubsOf(f, ref), event),
           f.starts,
           WithSubs(f.subscribers, ref, Kept(f.channels, SubsOf(f, ref))),
           f.history[ref := HistoryOf(f, ref) + [event]])
  }

  function Without(ids: seq<nat>, id: nat): (rest: seq<nat>)
    ensures |rest| <= |ids|
    ensures forall j :: j in rest ==> j in ids
  {
    if ids == [] then [] else if ids[0] == id then ids[1..] else [ids[0]] + Without(ids[1..], id)
  }

  // The unsubscribe closure: once.
  function Unsubscribed(f: Fanout, id: nat): Fanout
    requires id < |f.channels|
  {
    var c := f.channels[id];
    if c.left then f
    else
      f.(channels := f.channels[id := c.(left := true)],
         subscribers := WithSubs(f.subscribers, c.ref, Without(SubsOf(f, c.ref), id)))
  }

  predicate IsRegistered(f: Fanout, id: nat) {
    id < |f.channels| && id in SubsOf(f, f.channels[id].ref)
  }

  function CloseAll(f: Fanout): Fanout {
    Fanout(seq(|f.channels|, i requires 0 <= i < |f.channels| =>
             if IsRegistered(f, i) then CloseChannel(f.channels[i]) else f.channels[i]),
           f.starts, map[], f.history)
  }

  // The observer takes one event off its channel.
  function Take(f: Fanout, id: nat): Fanout
    requires id < |f.channels|
  {
    var c := f.channels[id];
    if c.taken < |c.put| then f.(channels := f.channels[id := c.(taken := c.taken + 1)]) else f
  }

  lemma RegisterKeepsInv(f: Fanout, ref: string)
    requires Inv(f)
    ensures Inv(Register(f, ref))
  {
    var after := Register(f, ref);
    forall id: nat | id < |after.channels| ensures Sane(after, id) {
      if id < |f.channels| {
        assert after.channels[id] == f.channels[id] && after.starts[id] == f.starts[id];
        assert Sane(f, id);
      }
    }
    RegisterRegistered(f, ref);
  }

  lemma RegisterRegistered(f: Fanout, ref: string)
    requires Registered(f)
    ensures Registered(Register(f, ref))
  {
    var after, next := Register(f, ref), |f.channels|;
    RegisteredIsListening(f, ref, next);
    assert Distinct(SubsOf(f, ref));
    DistinctSnoc(SubsOf(f, ref), next);
    forall id | 0 <= id < |after.channels| && after.channels[id].Listening()
      ensures id in SubsOf(after, after.channels[id].ref)
    {
      if id < next {
        assert after.channels[id] == f.channels[id];
        assert id in SubsOf(f, f.channels[id].ref);
      }
    }
    forall r, id | r in after.subscribers && id in after.subscribers[r] ensures Listens(after, r, id) {
      if id != next {
        assert id in SubsOf(f, r);
        RegisteredIsListening(f, r, id);
      }
    }
  }

  lemma DistinctSnoc(ids: seq<nat>, last: nat)
    requires Distinct(ids) && last !in ids
    ensures Distinct(ids + [last])
  {
  }

  lemma {:induction false} KeptDistinct(channels: seq<Channel>, ids: seq<nat>)
    requires forall i :: 0 <= i < |ids| ==> ids[i] < |channels|
    requires Distinct(ids)
    ensures Distinct(Kept(channels, ids))
  {
    if ids != [] {
      var front, last := ids[..|ids| - 1], ids[|ids| - 1];
      KeptDistinct(channels, front);
      assert last !in front;
      if channels[last].HasRoom() {
        DistinctSnoc(Kept(channels, front), last);
      }
    }
  }

  lemma {:induction false} WithoutDistinct(ids: seq<nat>, id: nat)
    requires Distinct(ids)
    ensures Distinct(Without(ids, id))
    ensures forall j :: j in Without(ids, id) <==> j in ids && j != id
  {
    if ids != [] && ids[0] != id {
      WithoutDistinct(ids[1..], id);
      assert ids[0] !in ids[1..];
    }
  }

  lemma OfferIsGapFree(h: seq<string>, c: Channel, start: nat, event: string)
    requires c.Listening() && NeverPanics(c) && start + |c.put| == |h| && c.put == h[start..]
    ensures
      var o, g := Offer(c, event), h + [event];
      && NeverPanics(o) && o.ref == c.ref && start + |o.put| <= |g| && o.put == g[start..start + |o.put|]
      && (o.Listening() ==> start + |o.put| == |g|)
      && (o.Listening() <==> c.HasRoom())
  {
    assert (h + [event])[start..start + |c.put|] == c.put;
    assert (h + [event])[start..] == c.put + [event];
  }

  lemma BroadcastHistory(f: Fanout, ref: string, event: string, r: string)
    requires InRange(f, ref)
    ensures HistoryOf(Broadcast(f, ref, event), r) ==
            if r == ref then HistoryOf(f, r) + [event] else HistoryOf(f, r)
  {
  }

  lemma RegisteredIsListening(f: Fanout, ref: string, id: nat)
    requires Registered(f)
    ensures InRange(f, ref)
    ensures id in SubsOf(f, ref) ==> Listens(f, ref, id)
  {
    forall i | 0 <= i < |SubsOf(f, ref)| ensures SubsOf(f, ref)[i] < |f.channels| {
      assert SubsOf(f, ref)[i] in SubsOf(f, ref);
      assert Listens(f, ref, SubsOf(f, ref)[i]);
    }
  }

  // A registered channel is offered the event; the others of the turn have
  // stopped listening.
  lemma BroadcastGapFree(f: Fanout, ref: string, event: string, id: nat)
    requires Registered(f) && InRange(f, ref) && id < |f.channels| && |f.starts| == |f.channels| && Sane(f, id)
    ensures
      var after := Broadcast(f, ref, event);
      Sane(after, id)
  {
    var c, start, h := f.channels[id], f.starts[id], HistoryOf(f, f.channels[id].ref);
    BroadcastHistory(f, ref, event, c.ref);
    RegisteredIsListening(f, ref, id);
    if id in SubsOf(f, ref) {
      OfferIsGapFree(h, c, start, event);
    } else {
      assert c.Listening() ==> c.ref != ref;
      assert (h + [event])[start..start + |c.put|] == c.put;
    }
  }

  lemma BroadcastKeepsInv(f: Fanout, ref: string, event: string)
    requires Inv(f)
    ensures InRange(f, ref) && Inv(Broadcast(f, ref, event))
  {
    RegisteredIsListening(f, ref, 0);
    var after := Broadcast(f, ref, event);
    forall id: nat | id < |after.channels| ensures Sane(after, id) {
      BroadcastGapFree(f, ref, event, id);
    }
    BroadcastRegistered(f, ref, event);
  }

  // Who is registered after a broadcast.
  lemma StillSubscribed(f: Fanout, ref: string, event: string, r: string, id: nat)
    requires Registered(f) && InRange(f, ref)
    ensures id in SubsOf(Broadcast(f, ref, event), r) <==>
            id in SubsOf(f, r) && (r == ref ==> id < |f.channels| && f.channels[id].HasRoom())
  {
    RegisteredIsListening(f, r, id);
  }

  lemma StillListening(f: Fanout, ref: string, event: string, id: nat)
    requires Registered(f) && InRange(f, ref) && id < |f.channels|
    ensures
      var after := Broadcast(f, ref, event).channels[id];
      && after.ref == f.channels[id].ref
      && (after.Listening() <==> f.channels[id].Listening() && (id in SubsOf(f, ref) ==> f.channels[id].HasRoom()))
  {
    RegisteredIsListening(f, ref, id);
  }

  lemma BroadcastRegistered(f: Fanout, ref: string, event: string)
    requires Registered(f) && InRange(f, ref)
    ensures Registered(Broadcast(f, ref, event))
  {
    var after := Broadcast(f, ref, event);
    forall r, id | r in after.subscribers && id in after.subscribers[r] ensures Listens(after, r, id) {
      assert id in SubsOf(after, r);
      StillSubscribed(f, ref, event, r, id);
      RegisteredIsListening(f, r, id);
      RegisteredIsListening(f, ref, id);
      StillListening(f, ref, event, id);
    }
    forall id | 0 <= id < |after.channels| && after.channels[id].Listening()
      ensures id in SubsOf(after, after.channels[id].ref)
    {
      StillListening(f, ref, event, id);
      RegisteredIsListening(f, ref, id);
      StillSubscribed(f, ref, event, after.channels[id].ref, id);
    }
    KeptDistinct(f.channels, SubsOf(f, ref));
  }

  lemma UnsubscribeKeepsInv(f: Fanout, id: nat)
    requires Inv(f) && id < |f.channels|
    ensures Inv(Unsubscribed(f, id))
  {
    var c, after := f.channels[id], Unsubscribed(f, id);
    if !c.left {
      forall k: nat | k < |after.channels| ensures Sane(after, k) {
        assert Sane(f, k);
      }
      UnsubscribeRegistered(f, id);
    }
  }

  lemma UnsubscribeRegistered(f: Fanout, id: nat)
    requires Registered(f) && id < |f.channels| && !f.channels[id].left
    ensures Registered(Unsubscribed(f, id))
  {
    var c, after := f.channels[id], Unsubscribed(f, id);
    WithoutDistinct(SubsOf(f, c.ref), id);
    forall r, k | r in after.subscribers && k in after.subscribers[r] ensures Listens(after, r, k) {
      assert k in SubsOf(f, r);
      RegisteredIsListening(f, r, k);
    }
    forall k | 0 <= k < |after.channels| && after.channels[k].Listening()
      ensures k in SubsOf(after, after.channels[k].ref)
    {
      assert k != id && f.channels[k].Listening() && k in SubsOf(f, f.channels[k].ref);
    }
  }

  lemma CloseAllKeepsInv(f: Fanout)
    requires Inv(f)
    ensures Inv(CloseAll(f))
    ensures forall id :: 0 <= id < |f.channels| ==> !CloseAll(f).channels[id].Listening()
  {
    var after := CloseAll(f);
    forall id | 0 <= id < |after.channels|
      ensures Sane(after, id) && !after.channels[id].Listening()
    {
      var c := f.channels[id];
      assert Sane(f, id);
      if IsRegistered(f, id) {
        var i :| 0 <= i < |SubsOf(f, c.ref)| && SubsOf(f, c.ref)[i] == id;
        assert c.Listening();
      }
    }
  }

  lemma TakeKeepsInv(f: Fanout, id: nat)
    requires Inv(f) && id < |f.channels|
    ensures Inv(Take(f, id))
  {
    var after := Take(f, id);
    forall k: nat | k < |after.channels| ensures Sane(after, k) {
      assert Sane(f, k);
    }
    forall k | 0 <= k < |after.channels| && after.channels[k].Listening()
      ensures k in SubsOf(after, after.channels[k].ref)
    {
      assert f.channels[k].Listening();
    }
  }

  datatype Step =
    | Join(ref: string)
    | Send(ref: string, event: string)
    | Leave(id: nat)
    | ShutAll
    | Read(id: nat)

  // Broadcasts on a fan-out that is not in order do nothing: none is reached.
  function Next(f: Fanout, step: Step): Fanout {
    match step
    case Join(ref) => Register(f, ref)
    case Send(ref, event) => if InRange(f, ref) then Broadcast(f, ref, event) else f
    case Leave(id) => if id < |f.channels| then Unsubscribed(f, id) else f
    case ShutAll => CloseAll(f)
    case Read(id) => if id < |f.channels| then Take(f, id) else f
  }

  function Run(f: Fanout, steps: seq<Step>): Fanout
    decreases |steps|
  {
    if steps == [] then f else Run(Next(f, steps[0]), steps[1..])
  }

  lemma StepKeepsInv(f: Fanout, step: Step)
    requires Inv(f)
    ensures Inv(Next(f, step))
  {
    match step
    case Join(ref) => RegisterKeepsInv(f, ref);
    case Send(ref, event) => BroadcastKeepsInv(f, ref, event);
    case Leave(id) =>
      if id < |f.channels| {
        UnsubscribeKeepsInv(f, id);
      }
    case ShutAll => CloseAllKeepsInv(f);
    case Read(id) =>
      if id < |f.channels| {
        TakeKeepsInv(f, id);
      }
  }

  // What was broadcast to a turn along a run.
  function SentTo(steps: seq<Step>, ref: string): seq<string> {
    if steps == [] then []
    else (if steps[0].Send? && steps[0].ref == ref then [steps[0].event] else []) + SentTo(steps[1..], ref)
  }

  lemma StepHistory(f: Fanout, step: Step, ref: string)
    requires Inv(f)
    ensures HistoryOf(Next(f, step), ref) == HistoryOf(f, ref) + if step.Send? && step.ref == ref then [step.event] else []
  {
    if step.Send? {
      BroadcastKeepsInv(f, step.ref, step.event);
      BroadcastHistory(f, step.ref, step.event, ref);
    }
  }

  lemma {:induction false} RunKeepsInv(f: Fanout, steps: seq<Step>)
    requires Inv(f)
    ensures Inv(Run(f, steps))
    decreases |steps|
  {
    if steps != [] {
      StepKeepsInv(f, steps[0]);
      RunKeepsInv(Next(f, steps[0]), steps[1..]);
    }
  }

  lemma {:induction false} RunHistory(f: Fanout, steps: seq<Step>, ref: string)
    requires Inv(f)
    ensures HistoryOf(Run(f, steps), ref) == HistoryOf(f, ref) + SentTo(steps, ref)
    decreases |steps|
  {
    if steps == [] {
      assert HistoryOf(f, ref) + [] == HistoryOf(f, ref);
    } else {
      var next := Next(f, steps[0]);
      var sent := if steps[0].Send? && steps[0].ref == ref then [steps[0].event] else [];
      assert Inv(next) && HistoryOf(next, ref) == HistoryOf(f, ref) + sent by {
        StepKeepsInv(f, steps[0]);
        StepHistory(f, steps[0], ref);
      }
      RunHistory(next, steps[1..], ref);
      Reassociate(HistoryOf(f, ref), sent, SentTo(steps[1..], ref));
    }
  }

  lemma Reassociate(a: seq<string>, b: seq<string>, c: seq<string>)
    ensures (a + b) + c == a + (b + c)
  {
  }

  // Over any mix of steps from nobody: a channel is registered, once, exactly
  // while it listens; none is closed twice or written after its close; and
  // each queue is a gap-free run of what was broadcast to its turn, from its
  // registration and, while it listens, to the latest.
  lemma FanoutIsSafe(steps: seq<Step>, id: nat)
    requires id < |Run(NOBODY, steps).channels|
    ensures id < |Run(NOBODY, steps).starts|
    ensures
      var f := Run(NOBODY, steps);
      var c, start := f.channels[id], f.starts[id];
      && c.closes <= 1 && c.lateWrites == 0
      && (c.Listening() <==> IsRegistered(f, id)) && Distinct(SubsOf(f, c.ref))
      && start + |c.put| <= |SentTo(steps, c.ref)|
      && c.put == SentTo(steps, c.ref)[start..start + |c.put|]
      && (c.Listening() ==> start + |c.put| == |SentTo(steps, c.ref)|)
  {
    var f := Run(NOBODY, steps);
    RunKeepsInv(NOBODY, steps);
    RunHistory(NOBODY, steps, f.channels[id].ref);
    assert Sane(f, id);
    assert HistoryOf(f, f.channels[id].ref) == SentTo(steps, f.channels[id].ref);
  }

  // The fan-out, updated in place under the lock.
  class Hub {
    var channels: seq<Channel>
    var subscribers: map<string, seq<nat>>
    ghost var starts: seq<nat>
    ghost var history: map<string, seq<string>>

    ghost function View(): Fanout
      reads this
    {
      Fanout(channels, starts, subscribers, history)
    }

    ghost predicate Valid()
      reads this
    {
      Inv(View())
    }

    constructor ()
      ensures Valid() && View() == NOBODY
    {
      channels, subscribers := [], map[];
      starts, history := [], map[];
    }

    method RegisterSubscriber(ref: string) returns (id: nat)
      requires Valid()
      modifies this`channels, this`starts, this`subscribers
      ensures Valid() && id == |old(channels)| && View() == Register(old(View()), ref)
    {
      RegisterKeepsInv(View(), ref);
      id := |channels|;
      starts := starts + [if ref in history then |history[ref]| else 0];
      channels := channels + [Channel(ref, [], 0, false, false, 0, 0)];
      subscribers := subscribers[ref := (if ref in subscribers then subscribers[ref] else []) + [id]];
    }

    method BroadcastEvent(ref: string, event: string)
      requires Valid()
      modifies this
      ensures Valid() && InRange(old(View()), ref) && View() == Broadcast(old(View()), ref, event)
    {
      BroadcastKeepsInv(View(), ref, event);
      var ids := if ref in subscribers then subscribers[ref] else [];
      var offered, remaining := OfferEach(channels, ids, event);
      channels := offered;
      if remaining == [] {
        subscribers := subscribers - {ref};
      } else {
        subscribers := subscribers[ref := remaining];
      }
      history := history[ref := (if ref in history then history[ref] else []) + [event]];
    }

    // The unsubscribe closure of a channel.
    method Unsubscribe(id: nat)
      requires Valid() && id < |channels|
      modifies this`channels, this`subscribers
      ensures Valid() && View() == Unsubscribed(old(View()), id)
    {
      UnsubscribeKeepsInv(View(), id);
      var c := channels[id];
      if c.left {
        return;
      }
      channels := channels[id := c.(left := true)];
      var subs := if c.ref in subscribers then subscribers[c.ref] else [];
      var rest := RemoveFirst(subs, id);
      if rest == [] {
        subscribers := subscribers - {c.ref};
      } else {
        subscribers := subscribers[c.ref := rest];
      }
    }

    // CloseAllSubscribers, and the subscriber part of CancelAll.
    method CloseAllSubscribers()
      requires Valid()
      modifies this`channels, this`subscribers
      ensures Valid() && View() == CloseAll(old(View()))
    {
      CloseAllKeepsInv(View());
      ghost var before := View();
      var subs := subscribers;
      var refs := subs.Keys;
      var closed := channels;
      while refs != {}
        invariant refs <= subs.Keys && |closed| == |before.channels|
        invariant forall k :: 0 <= k < |closed| ==>
          closed[k] == if IsRegistered(before, k) && before.channels[k].ref !in refs
                       then CloseChannel(before.channels[k]) else before.channels[k]
        decreases refs
      {
        var ref :| ref in refs;
        RegisteredIsListening(before, ref, 0);
        closed := CloseEach(closed, subs[ref], before, ref);
        refs := refs - {ref};
      }
      assert closed == CloseAll(before).channels;
      channels := closed;
      subscribers := map[];
    }
  }

  // The select, with its default, of every registered channel in turn.
  method OfferEach(channels: seq<Channel>, ids: seq<nat>, event: string)
    returns (offered: seq<Channel>, remaining: seq<nat>)
    requires forall i :: 0 <= i < |ids| ==> ids[i] < |channels|
    requires Distinct(ids)
    ensures offered == Offered(channels, ids, event) && remaining == Kept(channels, ids)
  {
    offered, remaining := channels, [];
    for i := 0 to |ids|
      invariant |offered| == |channels| && remaining == Kept(channels, ids[..i])
      invariant forall k :: 0 <= k < |offered| ==>
        offered[k] == if k in ids[..i] then Offer(channels[k], event) else channels[k]
    {
      var id := ids[i];
      assert id !in ids[..i] && ids[..i + 1][..i] == ids[..i] && ids[..i + 1] == ids[..i] + [id];
      if offered[id].HasRoom() {
        offered := offered[id := Write(offered[id], event)];
        remaining := remaining + [id];
      } else {
        offered := offered[id := CloseChannel(offered[id])];
      }
    }
    assert ids[..|ids|] == ids;
  }

  method RemoveFirst(ids: seq<nat>, id: nat) returns (rest: seq<nat>)
    ensures rest == Without(ids, id)
  {
    var i := 0;
    while i < |ids| && ids[i] != id
      invariant 0 <= i <= |ids|
      invariant id !in ids[..i]
    {
      assert ids[..i + 1] == ids[..i] + [ids[i]];
      i := i + 1;
    }
    WithoutSplit(ids, id, i);
    rest := if i < |ids| then ids[..i] + ids[i + 1..] else ids;
  }

  lemma {:induction false} WithoutSplit(ids: seq<nat>, id: nat, i: nat)
    requires i <= |ids| && id !in ids[..i] && (i < |ids| ==> ids[i] == id)
    ensures Without(ids, id) == if i < |ids| then ids[..i] + ids[i + 1..] else ids
    decreases i
  {
    if i > 0 {
      assert ids[0] == ids[..i][0] && ids[0] != id;
      assert ids[1..][..i - 1] == ids[..i][1..];
      WithoutSplit(ids[1..], id, i - 1);
      assert ids == [ids[0]] + ids[1..];
    }
  }

  // Closes the channels of one turn's list.
  method CloseEach(channels: seq<Channel>, ids: seq<nat>, ghost f: Fanout, ghost ref: string)
    returns (closed: seq<Channel>)
    requires Inv(f) && ref in f.subscribers && ids == f.subscribers[ref] && |channels| == |f.channels|
    requires forall i :: 0 <= i < |ids| ==> ids[i] < |channels|
    ensures |closed| == |channels|
    ensures forall k :: 0 <= k < |channels| ==>
      closed[k] == if k in ids then CloseChannel(channels[k]) else channels[k]
  {
    closed := channels;
    for i := 0 to |ids|
      invariant |closed| == |channels|
      invariant forall k :: 0 <= k < |channels| ==>
        closed[k] == if k in ids[..i] then CloseChannel(channels[k]) else channels[k]
    {
      var id := ids[i];
      assert id !in ids[..i] && ids[..i + 1] == ids[..i] + [id];
      closed := closed[id := CloseChannel(closed[id])];
    }
    assert ids[..|ids|] == ids;
  }
}
