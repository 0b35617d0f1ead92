// Sealing a proposal set: the canonical list of its members, and what one
// sealing transaction does to the store (internal/storage/proposal_sets.go).
module ProposalSeal {
  import opened Domain
  import opened Ordering

  datatype RevisionKey = RevisionKey(artifact: string, revision: int)

  datatype Member = Member(artifact: string, revision: int, digest: string)
  {
    function Key(): RevisionKey {
      RevisionKey(artifact, revision)
    }

    predicate WellFormed() {
      !Blank(artifact) && revision > 0 && !Blank(digest)
    }
  }

  datatype Record = Record(artifact: string, contributor: string, session: string, digest: string, revision: int)
  {
    function Key(): RevisionKey {
      RevisionKey(artifact, revision)
    }
  }

  // An artifact revision joined with its session; "" where there is none. The
  // set it was last sealed in stands for that set's digest.
  datatype Revision = Revision(run: string, digest: string, session: string, contributor: string, released: bool,
    seal: Option<seq<Record>>)

  datatype SealError =
    | EmptyId
    | EmptyMembers
    | MalformedMember
    | DuplicateMember
    | NotAuthorised
    | ArtifactNotFound
    | DigestMismatch
    | MissingContributor
    | DuplicateContributor
    | DuplicateSession
    | IdempotencyConflict
    | AlreadySealed

  type Revisions = map<RevisionKey, Revision>

  // Different artifact revisions, by different contributors and, where known,
  // in different sessions.
  ghost predicate Apart(revs: Revisions, m: Member, n: Member)
    requires m.Key() in revs && n.Key() in revs
  {
    && m.Key() != n.Key()
    && revs[m.Key()].contributor != revs[n.Key()].contributor
    && (revs[m.Key()].session != "" ==> revs[m.Key()].session != revs[n.Key()].session)
  }

  predicate Listed(revs: Revisions, run: string, m: Member) {
    && m.Key() in revs
    && revs[m.Key()].run == run
    && revs[m.Key()].digest == m.digest
    && revs[m.Key()].contributor != ""
  }

  ghost predicate Sealable(revs: Revisions, run: string, members: seq<Member>) {
    && members != []
    && (forall i :: 0 <= i < |members| ==> members[i].WellFormed() && Listed(revs, run, members[i]))
    && (forall i, j :: 0 <= i < |members| && 0 <= j < |members| && i != j ==> Apart(revs, members[i], members[j]))
  }

  function RecordOf(revs: Revisions, m: Member): Record
    requires m.Key() in revs
  {
    var row := revs[m.Key()];
    Record(m.artifact, row.contributor, row.session, row.digest, m.revision)
  }

  function MemberOf(r: Record): Member {
    Member(r.artifact, r.revision, r.digest)
  }

  predicate RecordLess(a: Record, b: Record) {
    if a.contributor != b.contributor then Less(a.contributor, b.contributor)
    else if a.artifact != b.artifact then Less(a.artifact, b.artifact)
    else a.revision < b.revision
  }

  // The sealed list: the members' records in increasing order.
  ghost predicate Canonical(revs: Revisions, run: string, members: seq<Member>, list: seq<Record>) {
    && Sealable(revs, run, members)
    && Increasing(RecordLess, list)
    && (forall x :: x in list <==> exists i :: 0 <= i < |members| && x == RecordOf(revs, members[i]))
  }

  lemma RecordOrder()
    ensures forall a :: !RecordLess(a, a)
    ensures forall a, b, c :: RecordLess(a, b) && RecordLess(b, c) ==> RecordLess(a, c)
  {
    LessIsOrder();
  }

  // A member is a member of every permutation, at a place of its own.
  lemma Placed(a: seq<Member>, b: seq<Member>, i: nat, j: nat) returns (p: nat, q: nat)
    requires multiset(a) == multiset(b) && i < |b| && j < |b| && i != j
    ensures p < |a| && q < |a| && p != q && a[p] == b[i] && a[q] == b[j]
  {
    assert b[i] in multiset(a) && b[j] in multiset(a);
    p :| 0 <= p < |a| && a[p] == b[i];
    if b[i] != b[j] {
      q :| 0 <= q < |a| && a[q] == b[j];
    } else {
      TwiceIn(b, i, j);
      q := Another(a, p);
    }
  }

  lemma TwiceIn(b: seq<Member>, i: nat, j: nat)
    requires i < |b| && j < |b| && i != j && b[i] == b[j]
    ensures multiset(b)[b[i]] >= 2
  {
    var lo, hi := if i < j then i else j, if i < j then j else i;
    assert b == b[..hi] + [b[hi]] + b[hi + 1..];
    assert b[..hi][lo] == b[i];
    assert b[i] in b[..hi];
  }

  lemma Another(a: seq<Member>, p: nat) returns (q: nat)
    requires p < |a| && multiset(a)[a[p]] >= 2
    ensures q < |a| && q != p && a[q] == a[p]
  {
    assert a == a[..p] + [a[p]] + a[p + 1..];
    if a[p] in a[..p] {
      q :| 0 <= q < p && a[q] == a[p];
    } else {
      assert multiset(a[p + 1..])[a[p]] >= 1;
      assert a[p] in a[p + 1..];
      var k :| 0 <= k < |a[p + 1..]| && a[p + 1..][k] == a[p];
      q := p + 1 + k;
    }
  }

  lemma PermutationSealable(revs: Revisions, run: string, a: seq<Member>, b: seq<Member>)
    requires Sealable(revs, run, a) && multiset(a) == multiset(b)
    ensures Sealable(revs, run, b)
  {
    assert |a| == |multiset(a)| == |multiset(b)| == |b|;
    forall i | 0 <= i < |b| ensures b[i].WellFormed() && Listed(revs, run, b[i]) {
      assert b[i] in multiset(a);
    }
    forall i, j | 0 <= i < |b| && 0 <= j < |b| && i != j ensures Apart(revs, b[i], b[j]) {
      var p, q := Placed(a, b, i, j);
    }
  }

  // The sealed list names the members and nothing but the members: it is the
  // same for two requests exactly when one is a permutation of the other.
  lemma SealIsCanonical(revs: Revisions, run: string, a: seq<Member>, b: seq<Member>,
      la: seq<Record>, lb: seq<Record>)
    requires Canonical(revs, run, a, la) && Canonical(revs, run, b, lb)
    ensures la == lb <==> multiset(a) == multiset(b)
  {
    if multiset(a) == multiset(b) {
      forall x ensures x in la <==> x in lb {
        Carried(revs, run, a, b, la, lb, x);
        Carried(revs, run, b, a, lb, la, x);
      }
      RecordOrder();
      IncreasingUnique(RecordLess, la, lb);
    }
    if la == lb {
      forall m ensures multiset(a)[m] == multiset(b)[m] {
        CountInSeal(revs, run, a, la, m);
        CountInSeal(revs, run, b, lb, m);
      }
      assert multiset(a) == multiset(b);
    }
  }

  lemma Carried(revs: Revisions, run: string, a: seq<Member>, b: seq<Member>,
      la: seq<Record>, lb: seq<Record>, x: Record)
    requires Canonical(revs, run, a, la) && Canonical(revs, run, b, lb)
    requires multiset(a) == multiset(b)
    ensures x in la ==> x in lb
  {
    if x in la {
      var i :| 0 <= i < |a| && x == RecordOf(revs, a[i]);
      assert a[i] in multiset(b);
      var j :| 0 <= j < |b| && b[j] == a[i];
      assert x == RecordOf(revs, b[j]);
    }
  }

  // How often a member was requested can be read off the sealed list.
  lemma CountInSeal(revs: Revisions, run: string, a: seq<Member>, la: seq<Record>, m: Member)
    requires Canonical(revs, run, a, la)
    ensures multiset(a)[m] == if exists x :: x in la && MemberOf(x) == m then 1 else 0
  {
    if m in a {
      var i :| 0 <= i < |a| && a[i] == m;
      assert RecordOf(revs, a[i]) in la && MemberOf(RecordOf(revs, a[i])) == m;
      if multiset(a)[a[i]] >= 2 {
        var j := Another(a, i);
        assert false;
      }
    }
    if x :| x in la && MemberOf(x) == m {
      var i :| 0 <= i < |a| && x == RecordOf(revs, a[i]);
      assert Listed(revs, run, a[i]) && a[i] == m;
    }
  }

  // What a refusal says about the request.
  ghost predicate Faulty(revs: Revisions, run: string, members: seq<Member>, e: SealError) {
    match e
    case EmptyMembers => members == []
    case MalformedMember => exists i :: 0 <= i < |members| && !members[i].WellFormed()
    case DuplicateMember =>
      exists i, j :: 0 <= i < j < |members| && members[i].Key() == members[j].Key()
    case ArtifactNotFound =>
      exists i :: 0 <= i < |members| && (members[i].Key() !in revs || revs[members[i].Key()].run != run)
    case DigestMismatch =>
      exists i :: 0 <= i < |members| && members[i].Key() in revs && revs[members[i].Key()].digest != members[i].digest
    case MissingContributor =>
      exists i :: 0 <= i < |members| && members[i].Key() in revs && revs[members[i].Key()].contributor == ""
    case DuplicateContributor =>
      exists i, j :: 0 <= i < j < |members| && members[i].Key() in revs && members[j].Key() in revs
        && revs[members[i].Key()].contributor == revs[members[j].Key()].contributor
    case DuplicateSession =>
      exists i, j :: 0 <= i < j < |members| && members[i].Key() in revs && members[j].Key() in revs
        && revs[members[i].Key()].session == revs[members[j].Key()].session != ""
    case _ => false
  }

  lemma FaultyIsNotSealable(revs: Revisions, run: string, members: seq<Member>, e: SealError)
    requires Faulty(revs, run, members, e)
    ensures !Sealable(revs, run, members)
  {
    match e
    case DuplicateMember =>
      var i, j :| 0 <= i < j < |members| && members[i].Key() == members[j].Key();
      assert Listed(revs, run, members[i]) ==> !Apart(revs, members[i], members[j]);
    case DuplicateContributor =>
      var i, j :| 0 <= i < j < |members| && members[i].Key() in revs && members[j].Key() in revs
        && revs[members[i].Key()].contributor == revs[members[j].Key()].contributor;
      assert !Apart(revs, members[i], members[j]);
    case DuplicateSession =>
      var i, j :| 0 <= i < j < |members| && members[i].Key() in revs && members[j].Key() in revs
        && revs[members[i].Key()].session == revs[members[j].Key()].session != "";
      assert !Apart(revs, members[i], members[j]);
    case _ =>
  }

  // The shape of the request alone, checked before the transaction begins.
  ghost predicate WellListed(members: seq<Member>) {
    && members != []
    && (forall i :: 0 <= i < |members| ==> members[i].WellFormed())
    && (forall i, j :: 0 <= i < j < |members| ==> members[i].Key() != members[j].Key())
  }

  method CheckMembers(members: seq<Member>) returns (e: Option<SealError>)
    ensures e == None ==> WellListed(members)
    ensures e.Some? ==> e.value in {EmptyMembers, MalformedMember, DuplicateMember}
    ensures e.Some? ==> forall revs: Revisions, run :: Faulty(revs, run, members, e.value)
  {
    if members == [] {
      return Some(EmptyMembers);
    }
    var seen: set<RevisionKey> := {};
    for n := 0 to |members|
      invariant forall i :: 0 <= i < n ==> members[i].WellFormed() && members[i].Key() in seen
      invariant forall k :: k in seen ==> exists i :: 0 <= i < n && members[i].Key() == k
      invariant forall i, j :: 0 <= i < j < n ==> members[i].Key() != members[j].Key()
    {
      var m := members[n];
      if !m.WellFormed() {
        return Some(MalformedMember);
      }
      if m.Key() in seen {
        return Some(DuplicateMember);
      }
      seen := seen + {m.Key()};
    }
    return None;
  }

  // The members seen so far are listed, and their contributors and sessions
  // are exactly the ones collected.
  ghost predicate Collected(revs: Revisions, run: string, members: seq<Member>, n: nat,
      contributors: set<string>, sessions: set<string>, records: seq<Record>)
  {
    && n <= |members| && |records| == n
    && (forall i :: 0 <= i < n ==> Listed(revs, run, members[i]) && records[i] == RecordOf(revs, members[i]))
    && (forall i :: 0 <= i < n ==> records[i].contributor in contributors)
    && (forall i :: 0 <= i < n && records[i].session != "" ==> records[i].session in sessions)
    && (forall c :: c in contributors ==> exists i :: 0 <= i < n && records[i].contributor == c)
    && (forall c :: c in sessions ==> c != "" && exists i :: 0 <= i < n && records[i].session == c)
    && (forall i, j :: 0 <= i < j < n ==> records[i].contributor != records[j].contributor)
    && (forall i, j :: 0 <= i < j < n && records[i].session != "" ==> records[i].session != records[j].session)
  }

  lemma CollectedIsSealable(revs: Revisions, run: string, members: seq<Member>,
      contributors: set<string>, sessions: set<string>, records: seq<Record>)
    requires WellListed(members)
    requires Collected(revs, run, members, |members|, contributors, sessions, records)
    ensures Sealable(revs, run, members)
  {
    forall i, j | 0 <= i < |members| && 0 <= j < |members| && i != j ensures Apart(revs, members[i], members[j]) {
      assert records[i] == RecordOf(revs, members[i]) && records[j] == RecordOf(revs, members[j]);
      var lo, hi := if i < j then i else j, if i < j then j else i;
      assert members[lo].Key() != members[hi].Key();
      assert records[lo].contributor != records[hi].contributor;
      assert records[lo].session != "" ==> records[lo].session != records[hi].session;
    }
  }

  lemma SortedIsCanonical(revs: Revisions, run: string, members: seq<Member>, records: seq<Record>, list: seq<Record>)
    requires Sealable(revs, run, members) && |records| == |members|
    requires forall i :: 0 <= i < |members| ==> records[i] == RecordOf(revs, members[i])
    requires Increasing(RecordLess, list) && multiset(list) == multiset(records)
    ensures Canonical(revs, run, members, list)
  {
    forall x ensures x in list <==> exists i :: 0 <= i < |members| && x == RecordOf(revs, members[i]) {
      assert x in list <==> x in multiset(records);
      if x in records {
        var i :| 0 <= i < |records| && records[i] == x;
        assert x == RecordOf(revs, members[i]);
      }
      if i :| 0 <= i < |members| && x == RecordOf(revs, members[i]) {
        assert records[i] == x;
      }
    }
  }

  lemma CollectOne(revs: Revisions, run: string, members: seq<Member>, n: nat,
      contributors: set<string>, sessions: set<string>, records: seq<Record>)
    requires n < |members| && Collected(revs, run, members, n, contributors, sessions, records)
    requires Listed(revs, run, members[n])
    requires revs[members[n].Key()].contributor !in contributors
    requires revs[members[n].Key()].session !in sessions
    ensures var record := RecordOf(revs, members[n]);
      Collected(revs, run, members, n + 1, contributors + {record.contributor},
        if record.session != "" then sessions + {record.session} else sessions, records + [record])
  {
    var record := RecordOf(revs, members[n]);
    var all := records + [record];
    assert all[n] == record;
    assert forall i :: 0 <= i < n ==> all[i] == records[i];
  }

  // Look every member up, and sort what was found.
  method Canonicalize(revs: Revisions, run: string, members: seq<Member>) returns (r: Result<seq<Record>, SealError>)
    requires WellListed(members)
    ensures r.Ok? <==> Sealable(revs, run, members)
    ensures r.Ok? ==> Canonical(revs, run, members, r.value)
    ensures r.Err? ==> Faulty(revs, run, members, r.error)
  {
    var contributors: set<string>, sessions: set<string>, records: seq<Record> := {}, {}, [];
    for n := 0 to |members|
      invariant Collected(revs, run, members, n, contributors, sessions, records)
    {
      var e := Examine(revs, run, members, n, contributors, sessions, records);
      if e.Some? {
        FaultyIsNotSealable(revs, run, members, e.value);
        return Err(e.value);
      }
      var record := RecordOf(revs, members[n]);
      CollectOne(revs, run, members, n, contributors, sessions, records);
      contributors := contributors + {record.contributor};
      if record.session != "" {
        sessions := sessions + {record.session};
      }
      records := records + [record];
    }
    CollectedIsSealable(revs, run, members, contributors, sessions, records);
    var list := SortRecords(revs, run, members, records);
    return Ok(list);
  }

  lemma RecordsOrdered(records: seq<Record>)
    requires forall i, j :: 0 <= i < j < |records| ==> records[i].contributor != records[j].contributor
    ensures Orders(RecordLess, records)
  {
    LessIsOrder();
    RecordOrder();
    forall i, j | 0 <= i < |records| && 0 <= j < |records| && i != j
      ensures RecordLess(records[i], records[j]) || RecordLess(records[j], records[i])
    {
      assert i < j || j < i;
      assert records[i].contributor != records[j].contributor;
    }
  }

  method SortRecords(revs: Revisions, run: string, members: seq<Member>, records: seq<Record>) returns (list: seq<Record>)
    requires Sealable(revs, run, members) && |records| == |members|
    requires forall i :: 0 <= i < |members| ==> records[i] == RecordOf(revs, members[i])
    ensures Canonical(revs, run, members, list)
  {
    forall i, j | 0 <= i < j < |records| ensures records[i].contributor != records[j].contributor {
      assert Apart(revs, members[i], members[j]);
    }
    RecordsOrdered(records);
    list := Sort(RecordLess, records);
    SortedIsCanonical(revs, run, members, records, list);
  }

  // The checks on one member.
  method Examine(revs: Revisions, run: string, members: seq<Member>, n: nat,
      contributors: set<string>, sessions: set<string>, ghost records: seq<Record>) returns (e: Option<SealError>)
    requires n < |members| && Collected(revs, run, members, n, contributors, sessions, records)
    ensures e == None ==> Listed(revs, run, members[n])
    ensures e == None ==> revs[members[n].Key()].contributor !in contributors
    ensures e == None ==> revs[members[n].Key()].session !in sessions
    ensures e.Some? ==> Faulty(revs, run, members, e.value)
  {
    var m := members[n];
    if m.Key() !in revs || revs[m.Key()].run != run {
      return Some(ArtifactNotFound);
    }
    var row := revs[m.Key()];
    if row.digest != m.digest {
      return Some(DigestMismatch);
    }
    if row.contributor == "" {
      return Some(MissingContributor);
    }
    if row.contributor in contributors {
      ghost var i :| 0 <= i < n && records[i].contributor == row.contributor;
      assert records[i] == RecordOf(revs, members[i]);
      return Some(DuplicateContributor);
    }
    if row.session != "" && row.session in sessions {
      ghost var i :| 0 <= i < n && records[i].session == row.session;
      assert records[i] == RecordOf(revs, members[i]);
      return Some(DuplicateSession);
    }
    return None;
  }
}
