// The new-decision gate: durable attachment episodes against the cache of one
// service instance, whose publications and invalidations may arrive late and
// in any order (internal/service/controller_attachment.go, coordinator.go).
module AttachmentGate {
  import opened Domain
  import opened ControllerRules
  import opened LeaseFencing

  // One attachment episode, by its full identity.
  datatype Attachment = Attachment(generation: nat, attachment: string, instance: string, revision: nat)

  // MarkControllerAttached: a newer generation always wins, then a newer
  // revision; the same episode again changes nothing.
  function Marked(cache: Option<Attachment>, p: Attachment): Option<Attachment> {
    if cache == None then Some(p)
    else
      var existing := cache.value;
      if existing.generation > p.generation then cache
      else if existing.generation == p.generation && existing.revision > p.revision then cache
      else if existing.generation == p.generation && existing.revision == p.revision
              && existing.attachment != p.attachment then cache
      else Some(p)
  }

  function InvalidatedIf(cache: Option<Attachment>, generation: nat, attachment: string, instance: string): Option<Attachment> {
    if cache.Some? && cache.value.generation == generation && cache.value.attachment == attachment
       && cache.value.instance == instance then None
    else cache
  }

  // The coordinator's cache, one entry a run.
  class AttachmentCache {
    var attachments: map<string, Attachment>

    ghost function Of(run: string): Option<Attachment>
      reads this
    {
      if run in attachments then Some(attachments[run]) else None
    }

    constructor ()
      ensures attachments == map[]
    {
      attachments := map[];
    }

    method MarkControllerAttached(run: string, p: Attachment)
      modifies this
      ensures Of(run) == Marked(old(Of(run)), p)
      ensures forall other :: other != run ==> Of(other) == old(Of(other))
    {
      if run in attachments {
        var existing := attachments[run];
        if existing.generation > p.generation {
          return;
        }
        if existing.generation == p.generation {
          if existing.revision > p.revision {
            return;
          }
          if existing.revision == p.revision && existing.attachment != p.attachment {
            return;
          }
        }
      }
      attachments := attachments[run := p];
    }

    method ControllerAttachedEpisode(run: string, generation: nat, attachment: string) returns (attached: bool)
      ensures attached <==>
        Of(run).Some? && Of(run).value.generation == generation && Of(run).value.attachment == attachment
        && Of(run).value.instance != ""
    {
      attached := run in attachments && attachments[run].generation == generation
                  && attachments[run].attachment == attachment && attachments[run].instance != "";
    }

    method InvalidateControllerAttachment(run: string)
      modifies this
      ensures Of(run) == None && forall other :: other != run ==> Of(other) == old(Of(other))
    {
      attachments := attachments - {run};
    }

    method InvalidateControllerAttachmentIf(run: string, generation: nat, attachment: string, instance: string)
      modifies this
      ensures Of(run) == InvalidatedIf(old(Of(run)), generation, attachment, instance)
      ensures forall other :: other != run ==> Of(other) == old(Of(other))
    {
      if run in attachments && attachments[run].generation == generation && attachments[run].attachment == attachment
         && attachments[run].instance == instance {
        attachments := attachments - {run};
      }
    }
  }

  // Publications delivered one after another.
  function Delivered(cache: Option<Attachment>, ps: seq<Attachment>): Option<Attachment>
    decreases |ps|
  {
    if ps == [] then cache else Delivered(Marked(cache, ps[0]), ps[1..])
  }

  predicate Before(p: Attachment, q: Attachment) {
    p.generation < q.generation || (p.generation == q.generation && p.revision <= q.revision)
  }

  // Durable episodes: a generation counts its own, so the pair names one.
  ghost predicate Distinct(ps: set<Attachment>) {
    forall p, q :: p in ps && q in ps && p.generation == q.generation && p.revision == q.revision ==> p == q
  }

  // Publications of such episodes, delivered one after another, leave the
  // largest generation and, in it, the largest revision.
  lemma {:induction false} LatestOfDistinct(cache: Option<Attachment>, ps: seq<Attachment>, all: set<Attachment>)
    requires Distinct(all) && (forall p :: p in ps ==> p in all) && (cache.Some? ==> cache.value in all)
    requires cache.Some? || ps != []
    ensures
      var last := Delivered(cache, ps);
      && last.Some? && (last == cache || last.value in ps)
      && (cache.Some? ==> Before(cache.value, last.value))
      && forall p :: p in ps ==> Before(p, last.value)
    decreases |ps|
  {
    if ps != [] {
      var next := Marked(cache, ps[0]);
      assert next.Some? && Before(ps[0], next.value) && (cache.Some? ==> Before(cache.value, next.value));
      LatestOfDistinct(next, ps[1..], all);
      forall p | p in ps ensures Before(p, Delivered(cache, ps).value) {
        if p != ps[0] {
          assert p in ps[1..];
        }
      }
    }
  }

  // The world of one run: its durable authority, the running instance, its
  // cache, the publications on their way (which may be delivered at any time,
  // or again), and every episode ever committed.
  datatype World = World(
    authority: Authority,
    instance: string,
    cache: Option<Attachment>,
    late: set<Attachment>,
    issued: set<Attachment>)

  datatype WorldStep =
    | Transition(step: ControllerStep)
    | ReadRecord(expected: nat, attachment: string)
    | Publish(p: Attachment)
    | Invalidate
    | InvalidateIf(generation: nat, attachment: string)
    | Restart(instance: string)

  // The episode the durable state says is connected.
  ghost function Episode(a: Authority): Option<Attachment> {
    var active := ActiveGen(a);
    if active == None || !a.grants[active.value].connected || a.grants[active.value].attachment == None then None
    else
      var g := a.grants[active.value];
      Some(Attachment(active.value, g.attachment.value, g.instance, g.rev))
  }

  // requireConnectedController, for a credential that classified: the durable
  // record is read first, and the cache is looked up in what may by then be
  // another world.
  ghost predicate Admits(read: Authority, w: World) {
    && read.adopted
    && Episode(read).Some?
    && w.cache.Some?
    && w.cache.value.generation == Episode(read).value.generation
    && w.cache.value.attachment == Episode(read).value.attachment
    && w.cache.value.instance != ""
  }

  ghost predicate Connects(a: Authority, step: ControllerStep) {
    && step.command.Connect? && !MalformedController(step.op, step.command)
    && Attaching(a, step.command.lease, step.command.expected).Ok?
  }

  ghost predicate Commits(san: string -> string, a: Authority, s: ControllerStep) {
    && !MalformedController(s.op, s.command)
    && DecideController(san, a, s.op, s.issuance, s.command).CommitController?
  }

  // A committed connect issues a new episode.
  ghost function Issue(san: string -> string, w: World, step: ControllerStep): set<Attachment> {
    var after := ApplyController(san, w.authority, step);
    if Connects(w.authority, step) && Episode(after).Some? then w.issued + {Episode(after).value} else w.issued
  }

  // A connect handler publishes what it read only if the receipt names the
  // current durable episode and this instance established it.
  ghost function ReadBy(w: World, expected: nat, attachment: string): set<Attachment> {
    var e := Episode(w.authority);
    if w.authority.adopted && e.Some? && e.value.generation == expected && e.value.attachment == attachment
       && e.value.instance == w.instance then w.late + {e.value}
    else w.late
  }

  ghost function Next(san: string -> string, w: World, step: WorldStep): World {
    match step
    case Transition(s) => w.(authority := ApplyController(san, w.authority, s), issued := Issue(san, w, s))
    case ReadRecord(expected, attachment) => w.(late := ReadBy(w, expected, attachment))
    case Publish(p) => if p in w.late then w.(cache := Marked(w.cache, p)) else w
    case Invalidate => w.(cache := None)
    case InvalidateIf(generation, attachment) =>
      w.(cache := InvalidatedIf(w.cache, generation, attachment, w.instance))
    case Restart(instance) => w.(instance := instance, cache := None, late := {})
  }

  // Attachment ids and instance ids are never reused.
  ghost predicate FreshNames(w: World, step: WorldStep) {
    match step
    case Transition(s) => Connects(w.authority, s) ==> forall e :: e in w.issued ==> e.attachment != s.command.attachment
    case Restart(instance) => instance != "" && forall e :: e in w.issued ==> e.instance != instance
    case _ => true
  }

  // The storage side numbers its episodes: a grant counts its own, and the
  // pair of generation and revision names one.
  ghost predicate Numbered(a: Authority, issued: set<Attachment>) {
    && Distinct(issued)
    && forall e :: e in issued ==> e.generation in a.grants && e.revision <= a.grants[e.generation].rev
  }

  ghost predicate Coherent(w: World) {
    && Fenced(w.authority)
    && Numbered(w.authority, w.issued)
    && (forall d, e :: d in w.issued && e in w.issued && d.attachment == e.attachment ==> d == e)
    && (forall e :: e in w.late || w.cache == Some(e) ==> e in w.issued && e.instance == w.instance)
    && (Episode(w.authority).Some? ==> Episode(w.authority).value in w.issued)
  }

  ghost predicate EndsOrKeeps(a: Authority, after: Authority) {
    Episode(after) == None || Episode(after) == Episode(a)
  }

  lemma GrantBeginsDetached(a: Authority, op: string, harness: string, ref: string, candidate: string)
    requires Vacant(a) && !Blank(candidate)
    ensures Episode(Install(a, op, harness, ref, candidate)) == None
  {
    InstallActivates(a, op, harness, ref, candidate);
  }

  lemma HandoffDetaches(a: Authority, op: string, c: ControllerCommand)
    requires Fenced(a) && c.Handoff? && !MalformedController(op, c) && DecideHandoff(a, op, c).CommitController?
    ensures Episode(DecideHandoff(a, op, c).after) == None
  {
    var gen := Classify(a, c.lease, true).value;
    RetireVacates(a, gen, Superseded);
    GrantBeginsDetached(Retire(a, gen, Superseded), op, c.harness, c.ref, c.candidate);
  }

  lemma RevocationDetaches(san: string -> string, a: Authority, c: ControllerCommand)
    requires Fenced(a) && c.Revoke? && DecideRevoke(san, a, c).CommitController?
    ensures Episode(DecideRevoke(san, a, c).after) == None
  {
    var d := DecideRevoke(san, a, c);
    ActiveIsNewest(a);
    RetireVacates(a, d.generation, Revoked);
    VacantIsDetached(d.after);
  }

  lemma VacantIsDetached(a: Authority)
    requires forall n :: n in a.grants ==> a.grants[n].status != Active
    ensures Episode(a) == None
  {
  }

  lemma DisconnectEndsOrKeeps(a: Authority, gen: nat, c: ControllerCommand)
    requires Fenced(a) && c.Disconnect? && DecideDisconnect(a, gen, c).CommitController?
    ensures EndsOrKeeps(a, DecideDisconnect(a, gen, c).after)
  {
    var d := DecideDisconnect(a, gen, c);
    if d.after != a {
      EpisodeFences(a, gen, d.after.grants[gen]);
      ActiveIsNewest(d.after);
      assert d.after.grants[gen].status == Active;
    }
  }

  // A committed disconnect ends the episode exactly when it names it.
  lemma DisconnectEndsIff(a: Authority, gen: nat, c: ControllerCommand)
    requires Fenced(a) && c.Disconnect? && DecideDisconnect(a, gen, c).CommitController?
    ensures Episode(DecideDisconnect(a, gen, c).after) == None <==>
            Episode(a) == None || Episode(a).value.attachment == c.attachment
  {
    var d := DecideDisconnect(a, gen, c);
    ActiveIsNewest(a);
    if d.after != a {
      EpisodeFences(a, gen, d.after.grants[gen]);
      ActiveIsNewest(d.after);
      assert d.after.grants[gen].status == Active;
    }
  }

  lemma ConnectBegins(a: Authority, gen: nat, c: ControllerCommand)
    requires Fenced(a) && c.Connect? && DecideConnect(a, gen, c).CommitController?
    ensures Episode(DecideConnect(a, gen, c).after) ==
            Some(Attachment(gen, c.attachment, c.instance, a.grants[gen].rev + 1))
  {
    var d := DecideConnect(a, gen, c);
    EpisodeFences(a, gen, d.after.grants[gen]);
    ActiveIsNewest(d.after);
    assert d.after.grants[gen].status == Active;
  }

  // Only a committed connect begins an episode; anything else keeps the
  // current one or ends it.
  lemma OnlyConnectBegins(san: string -> string, a: Authority, step: ControllerStep)
    requires Fenced(a) && !Connects(a, step)
    ensures EndsOrKeeps(a, ApplyController(san, a, step))
  {
    var d := DecideController(san, a, step.op, step.issuance, step.command);
    if !MalformedController(step.op, step.command) && d.CommitController? {
      match step.command
      case Adopt(harness, ref, _, _, candidate) => GrantBeginsDetached(a, step.op, harness, ref, candidate);
      case Handoff(_, _, _, _, _) => HandoffDetaches(a, step.op, step.command);
      case Revoke(_, _) => RevocationDetaches(san, a, step.command);
      case Recover(_, _) =>
      case Connect(_, _, _, _) =>
      case Disconnect(lease, _, expected) => DisconnectEndsOrKeeps(a, expected, step.command);
    }
  }

  // Every step keeps the world coherent.
  lemma StepCoherent(san: string -> string, w: World, step: WorldStep)
    requires Coherent(w) && FreshNames(w, step)
    ensures Coherent(Next(san, w, step))
  {
    match step
    case Transition(s) => TransitionCoherent(san, w, s);
    case _ =>
  }

  lemma StepFences(san: string -> string, a: Authority, s: ControllerStep)
    requires Fenced(a)
    ensures Fenced(ApplyController(san, a, s))
  {
    RunFenced(san, a, [s]);
    assert RunController(san, ApplyController(san, a, s), [s][1..]) == ApplyController(san, a, s);
  }

  lemma ConnectedEpisode(san: string -> string, a: Authority, s: ControllerStep)
    requires Fenced(a) && Connects(a, s)
    ensures Episode(ApplyController(san, a, s)) ==
            Some(Attachment(s.command.expected, s.command.attachment, s.command.instance, a.grants[s.command.expected].rev + 1))
  {
    ActiveIsNewest(a);
    ConnectBegins(a, s.command.expected, s.command);
  }

  lemma IssueCoherent(w: World, after: World)
    requires Coherent(w) && Fenced(after.authority) && Numbered(after.authority, after.issued)
    requires after.cache == w.cache && after.late == w.late && after.instance == w.instance
    requires w.issued <= after.issued
    requires if Episode(after.authority).Some? then after.issued == w.issued + {Episode(after.authority).value}
             else after.issued == w.issued
    requires forall e :: e in after.issued && e !in w.issued ==> forall d :: d in w.issued ==> d.attachment != e.attachment
    ensures Coherent(after)
  {
  }

  // No transition lowers a grant's count of its episodes.
  ghost predicate RevisionsKept(a: Authority, after: Authority) {
    forall n :: n in a.grants ==> n in after.grants && after.grants[n].rev >= a.grants[n].rev
  }

  lemma InstallKeepsRevisions(a: Authority, op: string, harness: string, ref: string, candidate: string)
    ensures RevisionsKept(a, Install(a, op, harness, ref, candidate))
  {
  }

  lemma RetireKeepsRevisions(a: Authority, gen: nat, status: GrantStatus)
    ensures RevisionsKept(a, Retire(a, gen, status))
  {
  }

  lemma EpisodesKeepRevisions(a: Authority, gen: nat, c: ControllerCommand)
    ensures c.Connect? && DecideConnect(a, gen, c).CommitController? ==> RevisionsKept(a, DecideConnect(a, gen, c).after)
    ensures c.Disconnect? && DecideDisconnect(a, gen, c).CommitController? ==>
      RevisionsKept(a, DecideDisconnect(a, gen, c).after)
  {
  }

  lemma HandoffKeepsRevisions(a: Authority, op: string, c: ControllerCommand)
    requires c.Handoff? && DecideHandoff(a, op, c).CommitController?
    ensures RevisionsKept(a, DecideHandoff(a, op, c).after)
  {
    var retired := Retire(a, Classify(a, c.lease, true).value, Superseded);
    RetireKeepsRevisions(a, Classify(a, c.lease, true).value, Superseded);
    InstallKeepsRevisions(retired, op, c.harness, c.ref, c.candidate);
  }

  lemma RevocationKeepsRevisions(san: string -> string, a: Authority, c: ControllerCommand)
    requires c.Revoke? && DecideRevoke(san, a, c).CommitController?
    ensures RevisionsKept(a, DecideRevoke(san, a, c).after)
  {
    RetireKeepsRevisions(a, RevocationTarget(a, c).value, Revoked);
  }

  lemma CommandKeepsRevisions(san: string -> string, a: Authority, step: ControllerStep)
    ensures RevisionsKept(a, ApplyController(san, a, step))
  {
    if Commits(san, a, step) {
      match step.command
      case Adopt(harness, ref, _, _, candidate) => InstallKeepsRevisions(a, step.op, harness, ref, candidate);
      case Handoff(_, _, _, _, _) => HandoffKeepsRevisions(a, step.op, step.command);
      case Revoke(_, _) => RevocationKeepsRevisions(san, a, step.command);
      case Recover(_, _) =>
      case Connect(lease, expected, _, _) => EpisodesKeepRevisions(a, expected, step.command);
      case Disconnect(lease, _, expected) => EpisodesKeepRevisions(a, expected, step.command);
    }
  }

  lemma NumberedKept(a: Authority, after: Authority, issued: set<Attachment>)
    requires Numbered(a, issued) && RevisionsKept(a, after)
    ensures Numbered(after, issued)
  {
  }

  // A connect takes the grant's next number.
  lemma ConnectNumbers(a: Authority, after: Authority, issued: set<Attachment>, e: Attachment)
    requires Numbered(a, issued) && RevisionsKept(a, after) && e.generation in a.grants && e.generation in after.grants
    requires e.revision == a.grants[e.generation].rev + 1 && e.revision <= after.grants[e.generation].rev
    ensures Numbered(after, issued + {e})
  {
  }

  lemma TransitionNumbers(san: string -> string, w: World, s: ControllerStep)
    requires Coherent(w)
    ensures Numbered(Next(san, w, Transition(s)).authority, Next(san, w, Transition(s)).issued)
  {
    var a, after := w.authority, ApplyController(san, w.authority, s);
    CommandKeepsRevisions(san, a, s);
    NumberedKept(a, after, w.issued);
    if Connects(a, s) {
      ConnectedEpisode(san, a, s);
      ActiveIsNewest(a);
      ConnectNumbers(a, after, w.issued, Episode(after).value);
    }
  }

  lemma TransitionCoherent(san: string -> string, w: World, s: ControllerStep)
    requires Coherent(w) && FreshNames(w, Transition(s))
    ensures Coherent(Next(san, w, Transition(s)))
  {
    var after := Next(san, w, Transition(s));
    StepFences(san, w.authority, s);
    TransitionNumbers(san, w, s);
    if Connects(w.authority, s) {
      ConnectedEpisode(san, w.authority, s);
    } else {
      OnlyConnectBegins(san, w.authority, s);
    }
    IssueCoherent(w, after);
  }

  ghost function Run(san: string -> string, w: World, steps: seq<WorldStep>): World
    decreases |steps|
  {
    if steps == [] then w else Run(san, Next(san, w, steps[0]), steps[1..])
  }

  ghost predicate RunFresh(san: string -> string, w: World, steps: seq<WorldStep>)
    decreases |steps|
  {
    steps == [] || (FreshNames(w, steps[0]) && RunFresh(san, Next(san, w, steps[0]), steps[1..]))
  }

  // No connect commits along the run.
  ghost predicate NoConnect(san: string -> string, w: World, steps: seq<WorldStep>)
    decreases |steps|
  {
    steps == [] ||
    (!(steps[0].Transition? && Connects(w.authority, steps[0].step))
     && NoConnect(san, Next(san, w, steps[0]), steps[1..]))
  }

  lemma {:induction false} RunCoherent(san: string -> string, w: World, steps: seq<WorldStep>)
    requires Coherent(w) && RunFresh(san, w, steps)
    ensures Coherent(Run(san, w, steps))
    decreases |steps|
  {
    if steps != [] {
      StepCoherent(san, w, steps[0]);
      RunCoherent(san, Next(san, w, steps[0]), steps[1..]);
    }
  }

  lemma {:induction false} IssuedGrow(san: string -> string, w: World, steps: seq<WorldStep>)
    ensures w.issued <= Run(san, w, steps).issued
    decreases |steps|
  {
    if steps != [] {
      IssuedGrow(san, Next(san, w, steps[0]), steps[1..]);
    }
  }

  // Whatever order the publications of a run's episodes are delivered in, the
  // cache ends with the largest generation and, in it, the largest revision.
  lemma LatestWins(san: string -> string, w: World, steps: seq<WorldStep>, cache: Option<Attachment>, ps: seq<Attachment>)
    requires Coherent(w) && RunFresh(san, w, steps)
    requires forall p :: p in ps ==> p in Run(san, w, steps).issued
    requires cache.Some? ==> cache.value in Run(san, w, steps).issued
    requires cache.Some? || ps != []
    ensures
      var last := Delivered(cache, ps);
      && last.Some? && (last == cache || last.value in ps)
      && (cache.Some? ==> Before(cache.value, last.value))
      && forall p :: p in ps ==> Before(p, last.value)
  {
    RunCoherent(san, w, steps);
    LatestOfDistinct(cache, ps, Run(san, w, steps).issued);
  }

  // Two deliveries of the same episodes of a run agree.
  lemma DeliveryOrderDoesNotMatter(san: string -> string, w: World, steps: seq<WorldStep>, ps: seq<Attachment>,
                                   qs: seq<Attachment>)
    requires Coherent(w) && RunFresh(san, w, steps) && ps != []
    requires forall p :: p in ps <==> p in qs
    requires forall p :: p in ps ==> p in Run(san, w, steps).issued
    ensures Delivered(None, ps) == Delivered(None, qs)
  {
    assert ps[0] in qs;
    RunCoherent(san, w, steps);
    LatestWins(san, w, steps, None, ps);
    LatestWins(san, w, steps, None, qs);
    var p, q := Delivered(None, ps).value, Delivered(None, qs).value;
    assert Before(p, q) && Before(q, p);
  }

  // The gate opens only on the episode that was durable when the record was
  // read: the cache holds exactly that one, established by this instance,
  // whatever has happened between the reading and the look-up.
  lemma OpenGateIsCurrent(san: string -> string, w: World, steps: seq<WorldStep>)
    requires Coherent(w) && RunFresh(san, w, steps) && Admits(w.authority, Run(san, w, steps))
    ensures Run(san, w, steps).cache == Episode(w.authority)
    ensures Episode(w.authority).value.instance == Run(san, w, steps).instance
  {
    var after, e := Run(san, w, steps), Episode(w.authority).value;
    RunCoherent(san, w, steps);
    IssuedGrow(san, w, steps);
    assert after.cache.value in after.issued && e in after.issued;
  }

  // Once the durable episode has ended, a record read before a new connect
  // commits admits nobody, whatever is published or invalidated meanwhile.
  lemma {:induction false} ShutUntilConnect(san: string -> string, w: World, steps: seq<WorldStep>, lookUp: World)
    requires Coherent(w) && RunFresh(san, w, steps) && NoConnect(san, w, steps)
    requires Episode(w.authority) == None
    ensures !Admits(Run(san, w, steps).authority, lookUp)
    decreases |steps|
  {
    if steps != [] {
      var next := Next(san, w, steps[0]);
      StepCoherent(san, w, steps[0]);
      if steps[0].Transition? {
        OnlyConnectBegins(san, w.authority, steps[0].step);
      }
      ShutUntilConnect(san, next, steps[1..], lookUp);
    }
  }

  // The transitions that end the episode: a handoff, a revocation, or the
  // disconnect of the current attachment.
  ghost predicate Detaches(a: Authority, c: ControllerCommand) {
    c.Handoff? || c.Revoke? || (c.Disconnect? && (Episode(a).Some? ==> Episode(a).value.attachment == c.attachment))
  }

  lemma DetachesIff(san: string -> string, a: Authority, s: ControllerStep)
    requires Fenced(a) && Commits(san, a, s) && (s.command.Handoff? || s.command.Revoke? || s.command.Disconnect?)
    ensures Episode(ApplyController(san, a, s)) == None <==> Detaches(a, s.command)
  {
    match s.command
    case Handoff(_, _, _, _, _) => HandoffDetaches(a, s.op, s.command);
    case Revoke(_, _) => RevocationDetaches(san, a, s.command);
    case Disconnect(lease, _, expected) => DisconnectEndsIff(a, expected, s.command);
  }

  // After a committed handoff, revocation or disconnect of the current
  // attachment, nobody is admitted until a new connect commits.
  lemma DetachedUntilConnect(san: string -> string, w: World, s: ControllerStep, steps: seq<WorldStep>, lookUp: World)
    requires Coherent(w) && Commits(san, w.authority, s) && Detaches(w.authority, s.command)
    requires
      var ended := Next(san, w, Transition(s));
      RunFresh(san, ended, steps) && NoConnect(san, ended, steps)
    ensures !Admits(Run(san, Next(san, w, Transition(s)), steps).authority, lookUp)
  {
    DetachesIff(san, w.authority, s);
    TransitionCoherent(san, w, s);
    ShutUntilConnect(san, Next(san, w, Transition(s)), steps, lookUp);
  }

  // The cache comes to hold an episode only by that episode's publication.
  lemma {:induction false} CacheNeedsPublication(san: string -> string, w: World, steps: seq<WorldStep>, e: Attachment)
    requires Run(san, w, steps).cache == Some(e)
    ensures w.cache == Some(e) || Publish(e) in steps
    decreases |steps|
  {
    if steps != [] {
      CacheNeedsPublication(san, Next(san, w, steps[0]), steps[1..], e);
    }
  }

  // After a committed connect, and until another, the gate opens only once
  // that very episode has been published in the running instance: a late
  // publication of an older one never opens it.
  lemma OpensOnlyOnOwnPublication(san: string -> string, w: World, connect: ControllerStep, before: seq<WorldStep>,
                                  between: seq<WorldStep>)
    requires Coherent(w) && FreshNames(w, Transition(connect)) && Connects(w.authority, connect)
    requires
      var begun := Next(san, w, Transition(connect));
      var read := Run(san, begun, before);
      && RunFresh(san, begun, before) && NoConnect(san, begun, before) && RunFresh(san, read, between)
      && Admits(read.authority, Run(san, read, between))
    ensures exists e: Attachment :: (Publish(e) in before || Publish(e) in between) && e.attachment == connect.command.attachment
  {
    var begun := Next(san, w, Transition(connect));
    var read := Run(san, begun, before);
    ConnectedEpisode(san, w.authority, connect);
    var e := Episode(begun.authority).value;
    StepCoherent(san, w, Transition(connect));
    EpisodeKeptOrEnded(san, begun, before);
    RunCoherent(san, begun, before);
    OpenGateIsCurrent(san, read, between);
    CacheNeedsPublication(san, read, between, e);
    if read.cache == Some(e) {
      CacheNeedsPublication(san, begun, before, e);
    }
    assert begun.cache == w.cache && (w.cache == Some(e) ==> e in w.issued);
  }

  lemma {:induction false} EpisodeKeptOrEnded(san: string -> string, w: World, steps: seq<WorldStep>)
    requires Coherent(w) && RunFresh(san, w, steps) && NoConnect(san, w, steps)
    ensures EndsOrKeeps(w.authority, Run(san, w, steps).authority)
    decreases |steps|
  {
    if steps != [] {
      StepCoherent(san, w, steps[0]);
      if steps[0].Transition? {
        OnlyConnectBegins(san, w.authority, steps[0].step);
      }
      EpisodeKeptOrEnded(san, Next(san, w, steps[0]), steps[1..]);
    }
  }
}
