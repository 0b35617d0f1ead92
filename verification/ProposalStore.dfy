// The store's side of sealing: one transaction under controller authority, with
// the journal that makes it repeatable (internal/storage/proposal_sets.go).
module ProposalStore {
  import opened Domain
  import opened Ordering
  import opened ProposalSeal

  datatype SealedSet = SealedSet(run: string, op: string, generation: nat)

  datatype Entry = SealEntry(run: string, list: seq<Record>) | OtherEntry

  datatype Shelf = Shelf(revisions: Revisions, sets: map<seq<Record>, SealedSet>, journal: map<string, Entry>)

  // The digest of a set stands for its canonical list.
  datatype Receipt = Receipt(list: seq<Record>, run: string)

  ghost predicate Names(list: seq<Record>, k: RevisionKey) {
    exists i :: 0 <= i < |list| && list[i].Key() == k
  }

  function Sealing(row: Revision, list: seq<Record>): Revision {
    row.(released := true, seal := Some(list))
  }

  ghost function Marked(revs: Revisions, list: seq<Record>): Revisions {
    map k | k in revs :: if Names(list, k) then Sealing(revs[k], list) else revs[k]
  }

  // When the list is sealed, or was sealed by this very operation.
  ghost predicate Admits(s: Shelf, op: string, run: string, list: seq<Record>) {
    if op in s.journal then s.journal[op] == SealEntry(run, list) else list !in s.sets
  }

  ghost predicate MayRelease(s: Shelf, op: string, who: Result<nat, SealError>, run: string, members: seq<Member>) {
    && !Blank(op) && !Blank(run) && who.Ok?
    && Sealable(s.revisions, run, members)
    && forall list :: Canonical(s.revisions, run, members, list) ==> Admits(s, op, run, list)
  }

  ghost function AfterRelease(s: Shelf, op: string, generation: nat, run: string, list: seq<Record>): Shelf {
    if op in s.journal then s
    else Shelf(Marked(s.revisions, list), s.sets[list := SealedSet(run, op, generation)], s.journal[op := SealEntry(run, list)])
  }

  // What one call answers and leaves behind. `who` is the answer of the
  // controller check.
  ghost predicate Released(s: Shelf, op: string, who: Result<nat, SealError>, run: string, members: seq<Member>,
      after: Shelf, r: Result<Receipt, SealError>)
  {
    && (r.Ok? <==> MayRelease(s, op, who, run, members))
    && (r.Err? ==> after == s)
    && (r.Ok? ==>
      && who.Ok? && r.value.run == run && Canonical(s.revisions, run, members, r.value.list)
      && after == AfterRelease(s, op, who.value, run, r.value.list))
  }

  class Store {
    var revisions: Revisions
    var sets: map<seq<Record>, SealedSet>
    var journal: map<string, Entry>

    ghost function View(): Shelf
      reads this
    {
      Shelf(revisions, sets, journal)
    }

    // Row by row.
    method MarkReleased(list: seq<Record>)
      requires forall i :: 0 <= i < |list| ==> list[i].Key() in revisions
      modifies this`revisions
      ensures revisions == Marked(old(revisions), list)
    {
      for n := 0 to |list|
        invariant revisions.Keys == old(revisions).Keys
        invariant forall k :: k in revisions ==>
          revisions[k] == if Names(list[..n], k) then Sealing(old(revisions)[k], list) else old(revisions)[k]
      {
        NamesMore(list, n);
        var k := list[n].Key();
        revisions := revisions[k := Sealing(revisions[k], list)];
      }
      assert list[..|list|] == list;
    }

    method ReleaseArtifacts(op: string, who: Result<nat, SealError>, run: string, members: seq<Member>)
      returns (r: Result<Receipt, SealError>)
      modifies this
      ensures Released(old(View()), op, who, run, members, View(), r)
      ensures r.Err? && !Blank(op) && !Blank(run) && who.Ok? && !Sealable(old(revisions), run, members)
        ==> Faulty(old(revisions), run, members, r.error)
    {
      if Blank(op) || Blank(run) {
        return Err(EmptyId);
      }
      var e := CheckMembers(members);
      if e.Some? {
        FaultyIsNotSealable(revisions, run, members, e.value);
        return Err(e.value);
      }
      if who.Err? {
        return Err(who.error);
      }
      var c := Canonicalize(revisions, run, members);
      if c.Err? {
        return Err(c.error);
      }
      var list := c.value;
      OnlyList(revisions, run, members, list);
      if op in journal {
        if journal[op] != SealEntry(run, list) {
          return Err(IdempotencyConflict);
        }
        return Ok(Receipt(list, run));
      }
      if list in sets {
        return Err(AlreadySealed);
      }
      ListKnown(revisions, run, members, list);
      sets := sets[list := SealedSet(run, op, who.value)];
      MarkReleased(list);
      journal := journal[op := SealEntry(run, list)];
      return Ok(Receipt(list, run));
    }
  }

  lemma NamesMore(list: seq<Record>, n: nat)
    requires n < |list|
    ensures forall k :: Names(list[..n + 1], k) <==> Names(list[..n], k) || k == list[n].Key()
  {
    forall k ensures Names(list[..n + 1], k) <==> Names(list[..n], k) || k == list[n].Key() {
      if Names(list[..n], k) {
        var i :| 0 <= i < |list[..n]| && list[..n][i].Key() == k;
        assert list[..n + 1][i].Key() == k;
      }
      if k == list[n].Key() {
        assert list[..n + 1][n].Key() == k;
      }
      if Names(list[..n + 1], k) {
        var i :| 0 <= i < |list[..n + 1]| && list[..n + 1][i].Key() == k;
        assert i < n ==> list[..n][i].Key() == k;
      }
    }
  }

  // A request has one canonical list.
  lemma OnlyList(revs: Revisions, run: string, members: seq<Member>, list: seq<Record>)
    requires Canonical(revs, run, members, list)
    ensures forall l :: Canonical(revs, run, members, l) ==> l == list
  {
    forall l | Canonical(revs, run, members, l) ensures l == list {
      SealIsCanonical(revs, run, members, members, l, list);
    }
  }

  lemma ListKnown(revs: Revisions, run: string, members: seq<Member>, list: seq<Record>)
    requires Canonical(revs, run, members, list)
    ensures forall i :: 0 <= i < |list| ==> list[i].Key() in revs && Matches(revs[list[i].Key()], run, list[i])
  {
    forall i | 0 <= i < |list| ensures list[i].Key() in revs && Matches(revs[list[i].Key()], run, list[i]) {
      assert list[i] in list;
      var j :| 0 <= j < |members| && list[i] == RecordOf(revs, members[j]);
      assert Listed(revs, run, members[j]);
    }
  }

  // A row that a record describes.
  predicate Matches(row: Revision, run: string, rec: Record) {
    row.run == run && row.digest == rec.digest && row.contributor == rec.contributor && row.session == rec.session
  }

  // What changes the tables: sealing, a new artifact revision, and the journal
  // entries of other commands.
  datatype Event =
    | Release(op: string, who: Result<nat, SealError>, run: string, members: seq<Member>, answer: Result<Receipt, SealError>)
    | Publish(key: RevisionKey, row: Revision)
    | OtherCommand(op: string)

  ghost predicate Step(s: Shelf, e: Event, after: Shelf) {
    match e
    case Release(op, who, run, members, answer) => Released(s, op, who, run, members, after, answer)
    case Publish(key, row) =>
      key !in s.revisions && row.seal == None && after == s.(revisions := s.revisions[key := row])
    case OtherCommand(op) => op !in s.journal && after == s.(journal := s.journal[op := OtherEntry])
  }

  ghost predicate Run(states: seq<Shelf>, events: seq<Event>) {
    && |states| == |events| + 1
    && forall i :: 0 <= i < |events| ==> Step(states[i], events[i], states[i + 1])
  }

  // Every sealed set is a canonical list of released revisions of its run,
  // sealed by one operation; the journal and the revisions agree with it.
  ghost predicate Sealed(s: Shelf, list: seq<Record>)
    requires list in s.sets
  {
    && list != [] && Increasing(RecordLess, list)
    && (forall i, j :: 0 <= i < j < |list| ==> list[i].contributor != list[j].contributor)
    && (forall i :: 0 <= i < |list| ==>
      list[i].Key() in s.revisions && s.revisions[list[i].Key()].released
      && Matches(s.revisions[list[i].Key()], s.sets[list].run, list[i]))
    && s.sets[list].op in s.journal && s.journal[s.sets[list].op] == SealEntry(s.sets[list].run, list)
  }

  ghost predicate Inv(s: Shelf) {
    && (forall list :: list in s.sets ==> Sealed(s, list))
    && (forall op :: op in s.journal && s.journal[op].SealEntry? ==>
      s.journal[op].list in s.sets && s.sets[s.journal[op].list].op == op)
    && (forall k :: k in s.revisions && s.revisions[k].seal.Some? ==>
      s.revisions[k].seal.value in s.sets && Names(s.revisions[k].seal.value, k))
  }

  // Identity and release of a revision, sealed sets and journal are permanent.
  ghost predicate Grows(s: Shelf, t: Shelf) {
    && (forall k :: k in s.revisions ==>
      && k in t.revisions
      && t.revisions[k] == s.revisions[k].(released := t.revisions[k].released, seal := t.revisions[k].seal)
      && (s.revisions[k].released ==> t.revisions[k].released))
    && (forall list :: list in s.sets ==> list in t.sets && t.sets[list] == s.sets[list])
    && (forall op :: op in s.journal ==> op in t.journal && t.journal[op] == s.journal[op])
  }

  lemma StepGrows(s: Shelf, e: Event, t: Shelf)
    requires Step(s, e, t)
    ensures Grows(s, t)
  {
    if e.Release? && e.answer.Ok? {
      assert Canonical(s.revisions, e.run, e.members, e.answer.value.list);
      assert Admits(s, e.op, e.run, e.answer.value.list);
    }
  }

  lemma {:induction false} RunGrows(states: seq<Shelf>, events: seq<Event>, i: nat, j: nat)
    requires Run(states, events) && i <= j < |states|
    ensures Grows(states[i], states[j])
    decreases j - i
  {
    if i < j {
      StepGrows(states[i], events[i], states[i + 1]);
      RunGrows(states, events, i + 1, j);
    }
  }

  lemma SealedGrows(s: Shelf, t: Shelf, list: seq<Record>)
    requires Grows(s, t) && list in s.sets && Sealed(s, list)
    ensures Sealed(t, list)
  {
  }

  lemma FreshlySealed(s: Shelf, op: string, who: Result<nat, SealError>, run: string, members: seq<Member>,
      after: Shelf, r: Result<Receipt, SealError>)
    requires Released(s, op, who, run, members, after, r) && r.Ok? && op !in s.journal
    ensures r.value.list in after.sets && Sealed(after, r.value.list)
  {
    var list := r.value.list;
    ListKnown(s.revisions, run, members, list);
    assert RecordOf(s.revisions, members[0]) in list;
    assert forall i :: 0 <= i < |list| ==> Names(list, list[i].Key());
    forall i, j | 0 <= i < j < |list| ensures list[i].contributor != list[j].contributor {
      assert list[i] in list && list[j] in list;
      var p :| 0 <= p < |members| && list[i] == RecordOf(s.revisions, members[p]);
      var q :| 0 <= q < |members| && list[j] == RecordOf(s.revisions, members[q]);
      RecordOrder();
      assert RecordLess(list[i], list[j]);
      assert p != q;
      assert Apart(s.revisions, members[p], members[q]);
    }
  }

  lemma StepKeepsInv(s: Shelf, e: Event, t: Shelf)
    requires Inv(s) && Step(s, e, t)
    ensures Inv(t)
  {
    StepGrows(s, e, t);
    forall list | list in t.sets ensures Sealed(t, list) {
      if list in s.sets {
        SealedGrows(s, t, list);
      } else {
        FreshlySealed(s, e.op, e.who, e.run, e.members, t, e.answer);
      }
    }
    if e.Release? && e.answer.Ok? {
      assert Admits(s, e.op, e.run, e.answer.value.list);
    }
  }

  lemma {:induction false} RunKeepsInv(states: seq<Shelf>, events: seq<Event>, n: nat)
    requires Run(states, events) && n < |states| && Inv(states[0])
    ensures Inv(states[n])
  {
    if n > 0 {
      RunKeepsInv(states, events, n - 1);
      StepKeepsInv(states[n - 1], events[n - 1], states[n]);
    }
  }

  lemma CanonicalGrows(s: Shelf, t: Shelf, run: string, members: seq<Member>, list: seq<Record>)
    requires Grows(s, t) && Canonical(s.revisions, run, members, list)
    ensures Canonical(t.revisions, run, members, list)
  {
    forall i | 0 <= i < |members| ensures Listed(t.revisions, run, members[i]) {
      assert Listed(s.revisions, run, members[i]);
    }
    forall i, j | 0 <= i < |members| && 0 <= j < |members| && i != j
      ensures Apart(t.revisions, members[i], members[j])
    {
      assert Apart(s.revisions, members[i], members[j]);
    }
    assert forall i :: 0 <= i < |members| ==> RecordOf(t.revisions, members[i]) == RecordOf(s.revisions, members[i]);
  }

  lemma CommittedEntry(s: Shelf, e: Event, t: Shelf)
    requires Step(s, e, t) && e.Release? && e.answer.Ok?
    ensures e.op in t.journal && t.journal[e.op] == SealEntry(e.run, e.answer.value.list)
    ensures e.answer.value.run == e.run && !Blank(e.op) && !Blank(e.run)
    ensures Canonical(s.revisions, e.run, e.members, e.answer.value.list)
  {
    assert Admits(s, e.op, e.run, e.answer.value.list);
  }

  lemma CanonicalPermuted(revs: Revisions, run: string, a: seq<Member>, b: seq<Member>, list: seq<Record>)
    requires Canonical(revs, run, a, list) && multiset(a) == multiset(b)
    ensures Canonical(revs, run, b, list)
  {
    PermutationSealable(revs, run, a, b);
    forall x ensures x in list <==> exists i :: 0 <= i < |b| && x == RecordOf(revs, b[i]) {
      if x in list {
        var i :| 0 <= i < |a| && x == RecordOf(revs, a[i]);
        assert a[i] in multiset(b);
        var j :| 0 <= j < |b| && b[j] == a[i];
        assert x == RecordOf(revs, b[j]);
      }
      if i :| 0 <= i < |b| && x == RecordOf(revs, b[i]) {
        assert b[i] in multiset(a);
        var j :| 0 <= j < |a| && a[j] == b[i];
        assert x == RecordOf(revs, a[j]);
      }
    }
  }

  // A request against a journal that holds its operation's committed list.
  lemma RepeatAnswers(t: Shelf, op: string, who: Result<nat, SealError>, run: string, a: seq<Member>, b: seq<Member>,
      la: seq<Record>, after: Shelf, r: Result<Receipt, SealError>)
    requires Released(t, op, who, run, b, after, r) && who.Ok? && !Blank(op) && !Blank(run)
    requires Canonical(t.revisions, run, a, la) && op in t.journal && t.journal[op] == SealEntry(run, la)
    ensures after == t
    ensures r.Ok? <==> multiset(b) == multiset(a)
    ensures r.Ok? ==> r.value == Receipt(la, run)
  {
    if multiset(b) == multiset(a) {
      CanonicalPermuted(t.revisions, run, a, b, la);
      OnlyList(t.revisions, run, b, la);
    }
    if r.Ok? {
      assert Admits(t, op, run, r.value.list);
      SealIsCanonical(t.revisions, run, a, b, la, r.value.list);
    }
  }

  // A sealing repeated anywhere later, under whatever generation now holds the
  // run, with its members listed in any order, gives the original receipt and
  // changes nothing; any other membership under the same operation is refused.
  lemma RepeatInAnyOrder(states: seq<Shelf>, events: seq<Event>, i: nat, j: nat)
    requires Run(states, events) && i < j < |events|
    requires events[i].Release? && events[i].answer.Ok?
    requires events[j].Release? && events[j].op == events[i].op && events[j].run == events[i].run && events[j].who.Ok?
    ensures states[j + 1] == states[j]
    ensures events[j].answer.Ok? <==> multiset(events[j].members) == multiset(events[i].members)
    ensures events[j].answer.Ok? ==> events[j].answer == events[i].answer
  {
    var a, b := events[i], events[j];
    assert Step(states[i], a, states[i + 1]) && Step(states[j], b, states[j + 1]);
    RunGrows(states, events, i, j);
    RunGrows(states, events, i + 1, j);
    CommittedEntry(states[i], a, states[i + 1]);
    CanonicalGrows(states[i], states[j], a.run, a.members, a.answer.value.list);
    RepeatAnswers(states[j], b.op, b.who, b.run, a.members, b.members, a.answer.value.list, states[j + 1], b.answer);
  }

  lemma AnotherRefused(t: Shelf, op: string, who: Result<nat, SealError>, run: string, a: seq<Member>, b: seq<Member>,
      la: seq<Record>, after: Shelf, r: Result<Receipt, SealError>, first: string)
    requires Inv(t) && Released(t, op, who, run, b, after, r)
    requires Canonical(t.revisions, run, a, la) && first in t.journal && t.journal[first] == SealEntry(run, la)
    requires op != first && multiset(b) == multiset(a)
    ensures r.Err? && after == t
  {
    CanonicalPermuted(t.revisions, run, a, b, la);
    assert !Admits(t, op, run, la);
  }

  // No membership is sealed twice: a second operation with the same members
  // is refused for good.
  lemma SealedOnce(states: seq<Shelf>, events: seq<Event>, i: nat, j: nat)
    requires Run(states, events) && Inv(states[0]) && i < j < |events|
    requires events[i].Release? && events[i].answer.Ok?
    requires events[j].Release? && events[j].op != events[i].op && events[j].run == events[i].run
    requires multiset(events[j].members) == multiset(events[i].members)
    ensures events[j].answer.Err? && states[j + 1] == states[j]
  {
    var a, b := events[i], events[j];
    assert Step(states[i], a, states[i + 1]) && Step(states[j], b, states[j + 1]);
    RunGrows(states, events, i, j);
    RunGrows(states, events, i + 1, j);
    CommittedEntry(states[i], a, states[i + 1]);
    RunKeepsInv(states, events, j);
    CanonicalGrows(states[i], states[j], a.run, a.members, a.answer.value.list);
    AnotherRefused(states[j], b.op, b.who, b.run, a.members, b.members, a.answer.value.list, states[j + 1], b.answer, a.op);
  }
}
