// The publication order of issues (scripts/publish.py, ordered_issues): a
// depth-first visit that refuses duplicate keys, unknown dependencies and
// cycles.
module Publisher {
  import opened Domain
  import opened Ordering

  datatype Issue = Issue(key: string, dependencies: seq<string>)

  datatype ProvisionError = DuplicateKeys | UnknownDependency(key: string) | CyclicDependency(key: string)

  type Table = map<string, Issue>

  predicate UniqueKeys(issues: seq<Issue>) {
    forall i, j :: 0 <= i < j < |issues| ==> issues[i].key != issues[j].key
  }

  function TableOf(issues: seq<Issue>): Table {
    if issues == [] then map[] else TableOf(issues[..|issues| - 1])[issues[|issues| - 1].key := issues[|issues| - 1]]
  }

  predicate Edge(t: Table, k: string, d: string) {
    k in t && d in t[k].dependencies
  }

  // Every dependency is the key of some issue.
  ghost predicate Known(t: Table) {
    forall k, d :: Edge(t, k, d) ==> d in t
  }

  ghost predicate Path(t: Table, p: seq<string>) {
    |p| > 0 && forall i :: 0 <= i < |p| - 1 ==> Edge(t, p[i], p[i + 1])
  }

  ghost predicate Circle(t: Table, p: seq<string>) {
    Path(t, p) && |p| > 1 && p[0] == p[|p| - 1]
  }

  ghost predicate Cyclic(t: Table) {
    exists p :: Circle(t, p)
  }

  // What an error says about the table.
  ghost predicate Blames(t: Table, e: ProvisionError) {
    match e
    case DuplicateKeys => false
    case UnknownDependency(d) => d !in t && exists k :: Edge(t, k, d)
    case CyclicDependency(k) => exists p :: Circle(t, p) && p[0] == k
  }

  function Keys(s: seq<Issue>): set<string> {
    set i | 0 <= i < |s| :: s[i].key
  }

  // Each issue once, and after everything it depends on.
  ghost predicate Ordered(t: Table, s: seq<Issue>) {
    && (forall i :: 0 <= i < |s| ==> s[i].key in t && t[s[i].key] == s[i])
    && UniqueKeys(s)
    && (forall i, d :: 0 <= i < |s| && d in s[i].dependencies ==> d in Keys(s[..i]))
  }

  lemma KeysMember(s: seq<Issue>, k: string) returns (i: nat)
    requires k in Keys(s)
    ensures i < |s| && s[i].key == k
  {
    i :| 0 <= i < |s| && s[i].key == k;
  }

  // Along an edge of an ordered table the position falls.
  lemma EdgeFalls(t: Table, s: seq<Issue>, i: nat, d: string) returns (j: nat)
    requires Ordered(t, s) && i < |s| && Edge(t, s[i].key, d)
    ensures j < i && s[j].key == d
  {
    j := KeysMember(s[..i], d);
  }

  lemma {:induction false} PathFalls(t: Table, s: seq<Issue>, p: seq<string>, i: nat) returns (j: nat)
    requires Ordered(t, s) && Path(t, p) && i < |s| && s[i].key == p[0]
    ensures j < |s| && s[j].key == p[|p| - 1] && j <= i && (|p| > 1 ==> j < i)
    decreases |p|
  {
    if |p| == 1 {
      j := i;
    } else {
      var next := EdgeFalls(t, s, i, p[1]);
      assert Path(t, p[1..]) by {
        forall k | 0 <= k < |p[1..]| - 1 ensures Edge(t, p[1..][k], p[1..][k + 1]) {
          assert Edge(t, p[k + 1], p[k + 1 + 1]);
        }
      }
      j := PathFalls(t, s, p[1..], next);
    }
  }

  // A complete order proves that the graph has no cycle and no unknown key.
  lemma OrderedIsAcyclic(t: Table, s: seq<Issue>)
    requires Ordered(t, s) && Keys(s) == t.Keys
    ensures Known(t) && !Cyclic(t)
  {
    forall k, d | Edge(t, k, d) ensures d in t {
      var i := KeysMember(s, k);
      var j := EdgeFalls(t, s, i, d);
      assert s[j].key in Keys(s);
    }
    forall p | Path(t, p) && |p| > 1 ensures !Circle(t, p) {
      assert Edge(t, p[0], p[1]);
      var i := KeysMember(s, p[0]);
      var j := PathFalls(t, s, p, i);
      assert s[j].key != s[i].key;
    }
  }

  // The visit as a function: the result so far, extended.
  function Dfs(t: Table, key: string, active: set<string>, result: seq<Issue>): Result<seq<Issue>, ProvisionError>
    decreases t.Keys - active, 0
  {
    if key !in t then Err(UnknownDependency(key))
    else if key in active then Err(CyclicDependency(key))
    else if key in Keys(result) then Ok(result)
    else
      match DfsAll(t, t[key].dependencies, active + {key}, result)
      case Err(e) => Err(e)
      case Ok(r) => Ok(r + [t[key]])
  }

  function DfsAll(t: Table, keys: seq<string>, active: set<string>, result: seq<Issue>): Result<seq<Issue>, ProvisionError>
    decreases t.Keys - active, 1 + |keys|
  {
    if keys == [] then Ok(result)
    else
      match Dfs(t, keys[0], active, result)
      case Err(e) => Err(e)
      case Ok(r) => DfsAll(t, keys[1..], active, r)
  }

  function Outcome(e: Option<ProvisionError>, result: seq<Issue>): Result<seq<Issue>, ProvisionError> {
    match e
    case None => Ok(result)
    case Some(error) => Err(error)
  }

  // The visit's state: the keys done, the keys on the way, and the result.
  class Visitor {
    const table: Table
    var done: set<string>
    var active: set<string>
    var result: seq<Issue>

    ghost predicate Valid()
      reads this
    {
      && (forall k :: k in table ==> table[k].key == k)
      && done == Keys(result) && Ordered(table, result)
      && active <= table.Keys && active !! done
    }

    // The keys being visited form a path to the key at hand.
    ghost predicate OnPath(stack: seq<string>, key: string)
      reads this
    {
      && (forall k :: k in active <==> k in stack)
      && Path(table, stack + [key])
    }

    ghost predicate Entered(stack: seq<string>, key: string)
      reads this
    {
      && key in table && key in active
      && (forall k :: k in active <==> k in stack + [key])
      && Path(table, stack + [key])
    }

    constructor (table: Table)
      requires forall k :: k in table ==> table[k].key == k
      ensures Valid() && this.table == table && done == {} && active == {} && result == []
    {
      this.table := table;
      done, active, result := {}, {}, [];
    }

    // Either the key and all it depends on are done, or the visit met an
    // unknown key or closed a cycle.
    method Visit(key: string, ghost stack: seq<string>) returns (e: Option<ProvisionError>)
      requires Valid() && OnPath(stack, key) && (stack == [] ==> key in table)
      modifies this`done, this`active, this`result
      ensures e == None ==> Valid() && active == old(active) && old(done) <= done && key in done
      ensures e.Some? ==> Blames(table, e.value)
      ensures Outcome(e, result) == Dfs(table, key, old(active), old(result))
      decreases table.Keys - active, 0
    {
      if key !in table {
        PathEnds(table, stack + [key]);
        return Some(UnknownDependency(key));
      }
      if key in active {
        StackCloses(table, stack, key);
        return Some(CyclicDependency(key));
      }
      if key in done {
        return None;
      }
      active := active + {key};
      e := VisitAll(key, stack);
      if e.Some? {
        return;
      }
      active := active - {key};
      Extends(table, result, table[key]);
      done := done + {key};
      result := result + [table[key]];
    }

    // The loop over the dependencies of an active key.
    method VisitAll(key: string, ghost stack: seq<string>) returns (e: Option<ProvisionError>)
      requires Valid() && Entered(stack, key)
      modifies this`done, this`active, this`result
      ensures e == None ==> Valid() && active == old(active) && old(done) <= done
      ensures e == None ==> forall d :: d in table[key].dependencies ==> d in done
      ensures e.Some? ==> Blames(table, e.value)
      ensures Outcome(e, result) == DfsAll(table, table[key].dependencies, old(active), old(result))
      decreases table.Keys - active, 1
    {
      var deps := table[key].dependencies;
      for i := 0 to |deps|
        invariant Valid() && active == old(active) && old(done) <= done
        invariant forall j :: 0 <= j < i ==> deps[j] in done
        invariant DfsAll(table, deps, old(active), old(result)) == DfsAll(table, deps[i..], active, result)
      {
        PathExtends(table, stack + [key], deps[i]);
        e := Visit(deps[i], stack + [key]);
        if e.Some? {
          return;
        }
      }
      return None;
    }
  }

  lemma PathEnds(t: Table, p: seq<string>)
    requires Path(t, p) && |p| > 1 && p[|p| - 1] !in t
    ensures Blames(t, UnknownDependency(p[|p| - 1]))
  {
    assert Edge(t, p[|p| - 2], p[|p| - 2 + 1]);
  }

  lemma StackCloses(t: Table, stack: seq<string>, key: string)
    requires Path(t, stack + [key]) && key in stack
    ensures Blames(t, CyclicDependency(key))
  {
    var i :| 0 <= i < |stack| && stack[i] == key;
    var p := (stack + [key])[i..];
    forall k | 0 <= k < |p| - 1 ensures Edge(t, p[k], p[k + 1]) {
      assert Edge(t, (stack + [key])[i + k], (stack + [key])[i + k + 1]);
    }
    assert Path(t, p) && p[0] == p[|p| - 1];
  }

  lemma PathExtends(t: Table, p: seq<string>, d: string)
    requires Path(t, p) && Edge(t, p[|p| - 1], d)
    ensures Path(t, p + [d])
  {
    var q := p + [d];
    forall i | 0 <= i < |q| - 1 ensures Edge(t, q[i], q[i + 1]) {
      assert i < |p| - 1 ==> Edge(t, p[i], p[i + 1]);
    }
  }

  lemma Extends(t: Table, s: seq<Issue>, issue: Issue)
    requires Ordered(t, s) && issue.key in t && t[issue.key] == issue && issue.key !in Keys(s)
    requires forall d :: d in issue.dependencies ==> d in Keys(s)
    ensures Ordered(t, s + [issue]) && Keys(s + [issue]) == Keys(s) + {issue.key}
  {
    var r := s + [issue];
    assert r[..|s|] == s;
    assert forall i :: 0 <= i < |s| ==> s[i].key in Keys(s) && r[..i] == s[..i];
    forall k ensures k in Keys(r) <==> k in Keys(s) + {issue.key} {
      if k in Keys(s) {
        var i := KeysMember(s, k);
        assert r[i].key == k;
      }
      assert r[|s|].key == issue.key;
    }
  }

  // What the table holds: every issue under its key, when no key repeats.
  lemma {:induction false} TableHolds(issues: seq<Issue>)
    requires UniqueKeys(issues)
    ensures TableOf(issues).Keys == Keys(issues)
    ensures forall i :: 0 <= i < |issues| ==> issues[i].key in TableOf(issues) && TableOf(issues)[issues[i].key] == issues[i]
  {
    if issues != [] {
      var init := issues[..|issues| - 1];
      TableHolds(init);
      LastKey(issues);
    }
  }

  // Comparing sizes finds every repeated key.
  lemma {:induction false} SizeTellsUnique(issues: seq<Issue>)
    ensures |TableOf(issues)| <= |issues|
    ensures |TableOf(issues)| == |issues| <==> UniqueKeys(issues)
  {
    if issues != [] {
      var n := |issues| - 1;
      SizeTellsUnique(issues[..n]);
      TableKeys(issues[..n]);
      if issues[n].key in Keys(issues[..n]) {
        var i := KeysMember(issues[..n], issues[n].key);
        assert issues[i].key == issues[n].key;
        assert TableOf(issues).Keys == TableOf(issues[..n]).Keys;
        assert |TableOf(issues).Keys| == |TableOf(issues[..n]).Keys|;
      } else {
        LastIsNew(issues);
        assert TableOf(issues).Keys == TableOf(issues[..n]).Keys + {issues[n].key};
        assert |TableOf(issues).Keys| == |TableOf(issues[..n]).Keys| + 1;
      }
    }
  }

  lemma {:induction false} TableKeys(issues: seq<Issue>)
    ensures TableOf(issues).Keys == Keys(issues)
  {
    if issues != [] {
      TableKeys(issues[..|issues| - 1]);
      LastKey(issues);
    }
  }

  lemma LastIsNew(issues: seq<Issue>)
    requires issues != [] && issues[|issues| - 1].key !in Keys(issues[..|issues| - 1])
    ensures UniqueKeys(issues) <==> UniqueKeys(issues[..|issues| - 1])
  {
    var init := issues[..|issues| - 1];
    assert forall i :: 0 <= i < |init| ==> init[i].key in Keys(init) && issues[i] == init[i];
  }

  lemma LastKey(issues: seq<Issue>)
    requires issues != []
    ensures Keys(issues) == Keys(issues[..|issues| - 1]) + {issues[|issues| - 1].key}
  {
    var init := issues[..|issues| - 1];
    forall k ensures k in Keys(issues) <==> k in Keys(init) + {issues[|issues| - 1].key} {
      if k in Keys(init) {
        var i := KeysMember(init, k);
        assert issues[i].key == k;
      }
      if k in Keys(issues) {
        var i := KeysMember(issues, k);
        assert i < |init| ==> init[i].key == k;
      }
    }
  }

  lemma {:induction false} DistinctCount(s: seq<Issue>, x: Issue)
    requires UniqueKeys(s)
    ensures multiset(s)[x] == if x in s then 1 else 0
  {
    if s != [] {
      var init := s[..|s| - 1];
      DistinctCount(init, x);
      assert s == init + [s[|s| - 1]];
    }
  }

  lemma SameElements(s: seq<Issue>, u: seq<Issue>)
    requires UniqueKeys(s) && UniqueKeys(u)
    requires forall x :: x in s <==> x in u
    ensures multiset(s) == multiset(u)
  {
    forall x ensures multiset(s)[x] == multiset(u)[x] {
      DistinctCount(s, x);
      DistinctCount(u, x);
    }
  }

  // The keys of a table in increasing order.
  ghost predicate KeyOrder(t: Table, keys: seq<string>) {
    Increasing(Less, keys) && forall k :: k in keys <==> k in t
  }

  // The result the order of the keys determines.
  ghost predicate Determined(issues: seq<Issue>, r: Result<seq<Issue>, ProvisionError>) {
    if UniqueKeys(issues) then
      exists keys :: KeyOrder(TableOf(issues), keys) && r == DfsAll(TableOf(issues), keys, {}, [])
    else
      r == Err(DuplicateKeys)
  }

  method SortedKeys(issues: seq<Issue>) returns (keys: seq<string>)
    requires UniqueKeys(issues)
    ensures KeyOrder(TableOf(issues), keys)
  {
    LessIsOrder();
    TableHolds(issues);
    var names := seq(|issues|, i requires 0 <= i < |issues| => issues[i].key);
    keys := Sort(Less, names);
    forall k ensures k in keys <==> k in TableOf(issues) {
      assert k in keys <==> k in multiset(names);
      assert forall i :: 0 <= i < |issues| ==> names[i] == issues[i].key;
      if k in TableOf(issues) {
        var i := KeysMember(issues, k);
        assert names[i] == k;
      }
    }
  }

  method BuildTable(issues: seq<Issue>) returns (table: Table)
    ensures table == TableOf(issues)
  {
    table := map[];
    for i := 0 to |issues|
      invariant table == TableOf(issues[..i])
    {
      assert issues[..i + 1][..i] == issues[..i];
      table := table[issues[i].key := issues[i]];
    }
    assert issues[..|issues|] == issues;
  }

  // Visit every key in turn.
  method VisitRoots(table: Table, keys: seq<string>) returns (r: Result<seq<Issue>, ProvisionError>)
    requires forall k :: k in table ==> table[k].key == k
    requires forall j :: 0 <= j < |keys| ==> keys[j] in table
    ensures r.Ok? ==> Ordered(table, r.value) && forall j :: 0 <= j < |keys| ==> keys[j] in Keys(r.value)
    ensures r.Err? ==> Blames(table, r.error)
    ensures r == DfsAll(table, keys, {}, [])
  {
    var v := new Visitor(table);
    for i := 0 to |keys|
      invariant v.Valid() && v.table == table && v.active == {}
      invariant forall j :: 0 <= j < i ==> keys[j] in v.done
      invariant DfsAll(table, keys, {}, []) == DfsAll(table, keys[i..], {}, v.result)
    {
      var e := v.Visit(keys[i], []);
      if e.Some? {
        return Err(e.value);
      }
    }
    return Ok(v.result);
  }

  // The publication order: it exists exactly when keys are unique, every
  // dependency is known and nothing depends on itself, and then each issue
  // comes once, after everything it depends on.
  method OrderedIssues(issues: seq<Issue>) returns (r: Result<seq<Issue>, ProvisionError>)
    ensures r.Ok? <==> UniqueKeys(issues) && Known(TableOf(issues)) && !Cyclic(TableOf(issues))
    ensures r.Ok? ==> Ordered(TableOf(issues), r.value) && multiset(r.value) == multiset(issues)
    ensures r.Err? && r.error != DuplicateKeys ==> Blames(TableOf(issues), r.error)
    ensures Determined(issues, r)
  {
    var table := BuildTable(issues);
    SizeTellsUnique(issues);
    if |table| != |issues| {
      return Err(DuplicateKeys);
    }
    var keys := SortedKeys(issues);
    TableKeyed(issues);
    r := VisitRoots(table, keys);
    if r.Ok? {
      OrderComplete(issues, keys, r.value);
    } else {
      Blamed(table, r.error);
    }
  }

  lemma TableKeyed(issues: seq<Issue>)
    requires UniqueKeys(issues)
    ensures forall k :: k in TableOf(issues) ==> TableOf(issues)[k].key == k
  {
    TableHolds(issues);
    forall k | k in TableOf(issues) ensures TableOf(issues)[k].key == k {
      var i := KeysMember(issues, k);
    }
  }

  lemma Blamed(t: Table, e: ProvisionError)
    requires Blames(t, e)
    ensures !Known(t) || Cyclic(t)
  {
  }

  // Once every key is done the result is complete.
  lemma OrderComplete(issues: seq<Issue>, keys: seq<string>, s: seq<Issue>)
    requires UniqueKeys(issues) && KeyOrder(TableOf(issues), keys) && Ordered(TableOf(issues), s)
    requires forall j :: 0 <= j < |keys| ==> keys[j] in Keys(s)
    ensures Known(TableOf(issues)) && !Cyclic(TableOf(issues)) && multiset(s) == multiset(issues)
  {
    var t := TableOf(issues);
    TableHolds(issues);
    forall k ensures k in Keys(s) <==> k in t {
      if k in Keys(s) {
        var i := KeysMember(s, k);
      }
      assert k in t <==> k in keys;
    }
    OrderedIsAcyclic(t, s);
    forall x ensures x in s <==> x in issues {
      if x in s {
        var i :| 0 <= i < |s| && s[i] == x;
        var j := KeysMember(issues, x.key);
        assert issues[j] == x;
      }
      if x in issues {
        var j :| 0 <= j < |issues| && issues[j] == x;
        var i := KeysMember(s, x.key);
        assert s[i] == x;
      }
    }
    SameElements(s, issues);
  }

  // The order in which the issues are listed does not matter, not even for
  // which error is reported.
  lemma ListingDoesNotMatter(a: seq<Issue>, b: seq<Issue>,
      ra: Result<seq<Issue>, ProvisionError>, rb: Result<seq<Issue>, ProvisionError>)
    requires multiset(a) == multiset(b)
    requires Determined(a, ra) && Determined(b, rb)
    ensures ra == rb
  {
    KeysAlike(a, b);
    KeysAlike(b, a);
    SizeTellsUnique(a);
    SizeTellsUnique(b);
    TableKeys(a);
    TableKeys(b);
    assert |a| == |multiset(a)| == |multiset(b)| == |b|;
    assert Keys(a) == Keys(b);
    assert |TableOf(a).Keys| == |TableOf(b).Keys|;
    assert UniqueKeys(a) <==> UniqueKeys(b);
    if UniqueKeys(a) {
      TablesAlike(a, b);
      LessIsOrder();
      var ka :| KeyOrder(TableOf(a), ka) && ra == DfsAll(TableOf(a), ka, {}, []);
      var kb :| KeyOrder(TableOf(b), kb) && rb == DfsAll(TableOf(b), kb, {}, []);
      IncreasingUnique(Less, ka, kb);
    }
  }

  lemma KeysAlike(a: seq<Issue>, b: seq<Issue>)
    requires multiset(a) == multiset(b)
    ensures Keys(a) <= Keys(b)
  {
    forall k | k in Keys(a) ensures k in Keys(b) {
      var i := KeysMember(a, k);
      assert a[i] in multiset(b);
      var j :| 0 <= j < |b| && b[j] == a[i];
    }
  }

  lemma TablesAlike(a: seq<Issue>, b: seq<Issue>)
    requires multiset(a) == multiset(b) && UniqueKeys(a) && UniqueKeys(b) && Keys(a) == Keys(b)
    ensures TableOf(a) == TableOf(b)
  {
    TableHolds(a);
    TableHolds(b);
    forall k | k in TableOf(a) ensures TableOf(a)[k] == TableOf(b)[k] {
      var i := KeysMember(a, k);
      assert a[i] in multiset(b);
      var j :| 0 <= j < |b| && b[j] == a[i];
    }
  }
}
