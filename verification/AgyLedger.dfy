// The creation-uncertainty episodes of one session and its native binding:
// pre-launch markers, orphan annotations, closings and controller resolutions
// (internal/storage/agy_attestation.go, agy_state.go:159-256).
module AgyLedger {
  import opened Domain

  const IN_FLIGHT := "creation_in_flight"

  datatype Disposition = NotCreated | Bound | AbandonOrphan | VerifiedAbsent
  {
    predicate ByController() {
      AbandonOrphan? || VerifiedAbsent?
    }
  }

  datatype Episode = Episode(reason: string, orphan: Option<string>, disposition: Option<Disposition>)
  {
    // The service's pre-launch marker, as it was opened.
    predicate Unannotated() {
      reason == IN_FLIGHT
    }

    predicate Open() {
      disposition == None
    }
  }

  // Episodes in the order of their numbers; number n is at index n - 1.
  datatype Ledger = Ledger(episodes: seq<Episode>, binding: Option<string>)
  {
    predicate OpenAt(i: nat) {
      i < |episodes| && episodes[i].Open()
    }

    predicate AnyOpen() {
      exists i :: 0 <= i < |episodes| && OpenAt(i)
    }
  }

  datatype LedgerError =
    | UncertaintyOpen
    | AlreadyBound
    | NoOpenEpisode
    | OrphanConflict
    | NotAnOpenMarker
    | AlreadyResolved
    | InvalidArguments
    | NotAuthorised
    | GenerationMismatch
    | IdempotencyConflict

  // The unique index on open episodes.
  ghost predicate OneOpen(l: Ledger) {
    forall i: nat, j: nat :: l.OpenAt(i) && l.OpenAt(j) ==> i == j
  }

  function Append(l: Ledger, e: Episode): Ledger {
    l.(episodes := l.episodes + [e])
  }

  function Put(l: Ledger, i: nat, e: Episode): Ledger
    requires i < |l.episodes|
  {
    l.(episodes := l.episodes[i := e])
  }

  // The first observed orphan fills an empty one, a different one is refused;
  // an unannotated marker gains the outcome, any other reason is kept.
  function Annotated(e: Episode, orphan: Option<string>, outcome: string): Result<Episode, LedgerError> {
    if orphan.Some? && e.orphan.Some? && e.orphan != orphan then Err(OrphanConflict)
    else
      Ok(e.(orphan := if orphan.Some? then orphan else e.orphan,
            reason := if e.reason == IN_FLIGHT && !Blank(outcome) && outcome != IN_FLIGHT
                      then IN_FLIGHT + ": " + outcome else e.reason))
  }

  // A marker opens only when nothing is open and nothing is bound.
  function Begin(l: Ledger): Result<Ledger, LedgerError> {
    if l.AnyOpen() then Err(UncertaintyOpen)
    else if l.binding.Some? then Err(AlreadyBound)
    else Ok(Append(l, Episode(IN_FLIGHT, None, None)))
  }

  function SetOrphan(l: Ledger, i: nat, orphan: Option<string>, outcome: string): Result<Ledger, LedgerError> {
    if !l.OpenAt(i) then Err(NoOpenEpisode)
    else
      match Annotated(l.episodes[i], orphan, outcome)
      case Err(e) => Err(e)
      case Ok(a) => Ok(Put(l, i, a))
  }

  function Close(l: Ledger, i: nat, disposition: Disposition): Result<Ledger, LedgerError> {
    if !l.OpenAt(i) || !l.episodes[i].Unannotated() then Err(NotAnOpenMarker)
    else Ok(Put(l, i, l.episodes[i].(disposition := Some(disposition))))
  }

  function Resolve(l: Ledger, i: nat, disposition: Disposition): Result<Ledger, LedgerError> {
    if i >= |l.episodes| then Err(NoOpenEpisode)
    else if !l.episodes[i].Open() then Err(AlreadyResolved)
    else Ok(Put(l, i, l.episodes[i].(disposition := Some(disposition))))
  }

  // The bind and the closing of its marker commit together.
  function Bind(l: Ledger, i: nat, native: string): Result<Ledger, LedgerError> {
    if l.binding.Some? then Err(AlreadyBound)
    else if !l.OpenAt(i) || !l.episodes[i].Unannotated() then Err(NotAnOpenMarker)
    else Ok(Put(l, i, l.episodes[i].(disposition := Some(Bound))).(binding := Some(native)))
  }

  // What recording an uncertain creation leaves: the one open episode gains
  // the orphan, or the next episode opens with it.
  ghost predicate Records(l: Ledger, after: Ledger, reason: string, orphan: Option<string>) {
    if l.AnyOpen() then
      exists i: nat :: l.OpenAt(i) &&
        after == (match SetOrphan(l, i, orphan, reason) case Ok(noted) => noted case Err(_) => l)
    else after == Append(l, Episode(reason, orphan, None))
  }

  // The journaled commands on one session's creation. The episode that a bind
  // closes is no part of its fingerprint.
  datatype AgyCommand =
    | BindSession(native: string, model: string, workspace: string, profile: string)
    | ResolveCreation(episode: nat, disposition: Disposition, reason: string)

  datatype AgyReceipt = AgyReceipt(op: string, command: AgyCommand)

  datatype Books = Books(ledger: Ledger, journal: map<string, AgyCommand>)

  // One write transaction: what refuses it before its replay, the replay, and
  // its effect on the ledger, which commits with the journal entry.
  function Transact(b: Books, op: string, c: AgyCommand, refused: Option<LedgerError>, effect: Result<Ledger, LedgerError>)
    : (Books, Result<AgyReceipt, LedgerError>)
  {
    if refused.Some? then (b, Err(refused.value))
    else if op in b.journal then (b, if b.journal[op] == c then Ok(AgyReceipt(op, c)) else Err(IdempotencyConflict))
    else
      match effect
      case Err(e) => (b, Err(e))
      case Ok(after) => (Books(after, b.journal[op := c]), Ok(AgyReceipt(op, c)))
  }

  predicate MalformedAgy(op: string, c: AgyCommand) {
    || Blank(op)
    || match c
       case BindSession(native, _, _, profile) => Blank(native) || Blank(profile)
       case ResolveCreation(_, disposition, reason) => !disposition.ByController() || Blank(reason)
  }

  // The arguments, then the controller's authority; `who` is the answer of the
  // credential check, and a resolution names the generation it expects.
  function Gate(op: string, c: AgyCommand, who: Result<nat, LedgerError>, expected: nat): Option<LedgerError> {
    if MalformedAgy(op, c) then Some(InvalidArguments)
    else if who.Err? then Some(who.error)
    else if c.ResolveCreation? && who.value != expected then Some(GenerationMismatch)
    else None
  }

  // One call: `closes` is the episode that a bind closes.
  datatype AgyCall = AgyCall(op: string, command: AgyCommand, who: Result<nat, LedgerError>, expected: nat, closes: nat)

  function Effect(l: Ledger, call: AgyCall): Result<Ledger, LedgerError> {
    match call.command
    case BindSession(native, _, _, _) => Bind(l, call.closes, native)
    case ResolveCreation(episode, disposition, _) => Resolve(l, episode, disposition)
  }

  function Refusal(call: AgyCall): Option<LedgerError> {
    Gate(call.op, call.command, call.who, call.expected)
  }

  function Perform(b: Books, call: AgyCall): (Books, Result<AgyReceipt, LedgerError>) {
    Transact(b, call.op, call.command, Refusal(call), Effect(b.ledger, call))
  }

  // What happens to the books: a journaled command, whatever becomes of it, or
  // an operation that journals nothing, whatever ledger it leaves.
  datatype BookStep = Command(call: AgyCall) | Unjournaled(ledger: Ledger)

  function NextBooks(b: Books, step: BookStep): Books {
    match step
    case Command(call) => Perform(b, call).0
    case Unjournaled(ledger) => b.(ledger := ledger)
  }

  function RunBooks(b: Books, steps: seq<BookStep>): Books
    decreases |steps|
  {
    if steps == [] then b else RunBooks(NextBooks(b, steps[0]), steps[1..])
  }

  lemma {:induction false} EntriesStay(b: Books, steps: seq<BookStep>, op: string)
    requires op in b.journal
    ensures op in RunBooks(b, steps).journal && RunBooks(b, steps).journal[op] == b.journal[op]
    decreases |steps|
  {
    if steps != [] {
      EntriesStay(NextBooks(b, steps[0]), steps[1..], op);
    }
  }

  // A command that has succeeded, repeated after any run: its receipt again, a
  // conflict for another command, or the refusal of the arguments or of
  // current authority; never a change.
  lemma CommittedRepeats(b: Books, call: AgyCall, steps: seq<BookStep>, again: AgyCall)
    requires Perform(b, call).1.Ok? && again.op == call.op
    ensures
      var later := RunBooks(Perform(b, call).0, steps);
      Perform(later, again) ==
        (later, if Refusal(again).Some? then Err(Refusal(again).value)
                else if again.command == call.command then Perform(b, call).1 else Err(IdempotencyConflict))
  {
    EntriesStay(Perform(b, call).0, steps, call.op);
  }

  // Exactly the commands that succeed: well formed, under the controller's
  // authority, and either journaled as they are or possible now.
  lemma PerformIff(b: Books, call: AgyCall)
    ensures Perform(b, call).1.Ok? <==>
      && !Blank(call.op) && call.who.Ok?
      && match call.command
         case BindSession(native, _, _, profile) =>
           && !Blank(native) && !Blank(profile)
           && (if call.op in b.journal then b.journal[call.op] == call.command
               else b.ledger.binding == None && Untouched(b.ledger, call.closes))
         case ResolveCreation(episode, disposition, reason) =>
           && disposition.ByController() && !Blank(reason) && call.who.value == call.expected
           && (if call.op in b.journal then b.journal[call.op] == call.command
               else episode < |b.ledger.episodes| && b.ledger.episodes[episode].disposition == None)
  {
  }

  // The open marker, as it was opened.
  predicate Untouched(l: Ledger, i: nat) {
    i < |l.episodes| && l.episodes[i].disposition == None && l.episodes[i].reason == IN_FLIGHT
  }

  // The operations on a ledger, whoever calls them. `Opens`: a creation
  // recorded as uncertain where no episode is open.
  datatype LedgerStep =
    | Begins
    | Opens(reason: string, orphan: Option<string>)
    | Notes(episode: nat, orphan: Option<string>, outcome: string)
    | Closes(episode: nat, disposition: Disposition)
    | Resolves(episode: nat, disposition: Disposition)
    | Binds(episode: nat, native: string)

  function NextLedger(l: Ledger, step: LedgerStep): Ledger {
    match step
    case Begins => OrKeep(Begin(l), l)
    case Opens(reason, orphan) => if l.AnyOpen() then l else Append(l, Episode(reason, orphan, None))
    case Notes(i, orphan, outcome) => OrKeep(SetOrphan(l, i, orphan, outcome), l)
    case Closes(i, disposition) => if disposition.ByController() then l else OrKeep(Close(l, i, disposition), l)
    case Resolves(i, disposition) => if disposition.ByController() then OrKeep(Resolve(l, i, disposition), l) else l
    case Binds(i, native) => OrKeep(Bind(l, i, native), l)
  }

  function OrKeep(r: Result<Ledger, LedgerError>, l: Ledger): Ledger {
    match r case Ok(after) => after case Err(_) => l
  }

  function RunLedger(l: Ledger, steps: seq<LedgerStep>): Ledger
    decreases |steps|
  {
    if steps == [] then l else RunLedger(NextLedger(l, steps[0]), steps[1..])
  }

  // What is on record of an episode stays: its closing, its first orphan, and
  // its annotation, after which only a controller can close it.
  ghost predicate EpisodeStands(e: Episode, f: Episode) {
    && (e.disposition.Some? ==> f == e)
    && (e.orphan.Some? ==> f.orphan == e.orphan)
    && (e.reason != IN_FLIGHT ==> f.reason == e.reason)
    && (e.reason != IN_FLIGHT && e.disposition == None && f.disposition.Some? ==> f.disposition.value.ByController())
  }

  ghost predicate LedgerStands(l: Ledger, m: Ledger) {
    && |l.episodes| <= |m.episodes|
    && (forall i :: 0 <= i < |l.episodes| ==> EpisodeStands(l.episodes[i], m.episodes[i]))
    && (l.binding.Some? ==> m.binding == l.binding)
  }

  lemma LedgerStepStands(l: Ledger, step: LedgerStep)
    requires OneOpen(l)
    ensures OneOpen(NextLedger(l, step)) && LedgerStands(l, NextLedger(l, step))
  {
    var m := NextLedger(l, step);
    match step
    case Begins =>
      if m != l {
        AppendOneOpen(l, Episode(IN_FLIGHT, None, None));
      }
    case Opens(reason, orphan) =>
      if m != l {
        AppendOneOpen(l, Episode(reason, orphan, None));
      }
    case Binds(i, native) =>
      if m != l {
        PutOneOpen(l, i, m.episodes[i]);
        BindOneOpen(Put(l, i, m.episodes[i]), m.binding);
      }
    case _ =>
      if m != l {
        PutOneOpen(l, step.episode, m.episodes[step.episode]);
      }
  }

  // Over every run.
  lemma {:induction false} LedgerRunStands(l: Ledger, steps: seq<LedgerStep>)
    requires OneOpen(l)
    ensures OneOpen(RunLedger(l, steps)) && LedgerStands(l, RunLedger(l, steps))
    decreases |steps|
  {
    if steps != [] {
      LedgerStepStands(l, steps[0]);
      LedgerRunStands(NextLedger(l, steps[0]), steps[1..]);
      StandsTransitive(l, NextLedger(l, steps[0]), RunLedger(l, steps));
    }
  }

  lemma StandsTransitive(l: Ledger, m: Ledger, n: Ledger)
    requires LedgerStands(l, m) && LedgerStands(m, n)
    ensures LedgerStands(l, n)
  {
    forall i | 0 <= i < |l.episodes| ensures EpisodeStands(l.episodes[i], n.episodes[i]) {
      assert EpisodeStands(l.episodes[i], m.episodes[i]) && EpisodeStands(m.episodes[i], n.episodes[i]);
    }
  }

  // A note is taken on the open episode unless it names another orphan; then
  // the orphan and the outcome are on record, and the service that opened the
  // marker can no longer close it.
  lemma NoteIff(l: Ledger, i: nat, orphan: Option<string>, outcome: string)
    ensures SetOrphan(l, i, orphan, outcome).Ok? <==>
      && i < |l.episodes| && l.episodes[i].disposition == None
      && (orphan == None || l.episodes[i].orphan == None || l.episodes[i].orphan == orphan)
    ensures SetOrphan(l, i, orphan, outcome).Ok? ==>
      var after := SetOrphan(l, i, orphan, outcome).value;
      && |after.episodes| == |l.episodes| && after.binding == l.binding
      && (forall j :: 0 <= j < |l.episodes| && j != i ==> after.episodes[j] == l.episodes[j])
      && (orphan.Some? ==> after.episodes[i].orphan == orphan)
      && (orphan == None ==> after.episodes[i].orphan == l.episodes[i].orphan)
      && (l.episodes[i].reason == IN_FLIGHT && !Blank(outcome) && outcome != IN_FLIGHT ==>
            after.episodes[i].reason == IN_FLIGHT + ": " + outcome
            && forall d :: Close(after, i, d).Err?)
  {
    if SetOrphan(l, i, orphan, outcome).Ok? {
      assert |IN_FLIGHT + ": " + outcome| > |IN_FLIGHT|;
    }
  }

  lemma AppendOneOpen(l: Ledger, e: Episode)
    requires OneOpen(l) && !l.AnyOpen()
    ensures OneOpen(Append(l, e))
  {
    assert forall k :: 0 <= k < |l.episodes| ==> !l.OpenAt(k) && !Append(l, e).episodes[k].Open();
  }

  lemma PutOneOpen(l: Ledger, i: nat, e: Episode)
    requires OneOpen(l) && i < |l.episodes| && (e.Open() ==> l.OpenAt(i))
    ensures OneOpen(Put(l, i, e))
  {
    forall a: nat, b: nat | Put(l, i, e).OpenAt(a) && Put(l, i, e).OpenAt(b) ensures a == b {
      assert l.OpenAt(a) && l.OpenAt(b);
    }
  }

  lemma BindOneOpen(l: Ledger, binding: Option<string>)
    requires OneOpen(l)
    ensures OneOpen(l.(binding := binding))
  {
    forall i: nat, j: nat | l.(binding := binding).OpenAt(i) && l.(binding := binding).OpenAt(j) ensures i == j {
      assert l.OpenAt(i) && l.OpenAt(j);
    }
  }

  // The tables behind the ledger, updated in place.
  class AgyStore {
    var episodes: seq<Episode>
    var binding: Option<string>
    var journal: map<string, AgyCommand>

    ghost function Contents(): Ledger
      reads this
    {
      Ledger(episodes, binding)
    }

    ghost function View(): Books
      reads this
    {
      Books(Contents(), journal)
    }

    ghost predicate Valid()
      reads this
    {
      OneOpen(Contents())
    }

    constructor ()
      ensures Valid() && View() == Books(Ledger([], None), map[])
    {
      episodes, binding, journal := [], None, map[];
    }

    // SELECT episode ... WHERE disposition IS NULL
    method SelectOpen() returns (open: Option<nat>)
      requires Valid()
      ensures open.Some? <==> Contents().AnyOpen()
      ensures open.Some? ==> Contents().OpenAt(open.value)
    {
      var i := 0;
      while i < |episodes|
        invariant 0 <= i <= |episodes|
        invariant forall j :: 0 <= j < i ==> !Contents().OpenAt(j)
      {
        if episodes[i].Open() {
          assert Contents().OpenAt(i);
          return Some(i);
        }
        i := i + 1;
      }
      return None;
    }

    method BeginAgyCreationInFlight() returns (r: Result<nat, LedgerError>)
      requires Valid()
      modifies this`episodes
      ensures Valid()
      ensures match Begin(old(Contents()))
              case Ok(after) => r == Ok(|old(episodes)|) && Contents() == after
              case Err(e) => r == Err(e) && Contents() == old(Contents())
    {
      var open := SelectOpen();
      if open.Some? {
        return Err(UncertaintyOpen);
      }
      if binding.Some? {
        return Err(AlreadyBound);
      }
      AppendOneOpen(Contents(), Episode(IN_FLIGHT, None, None));
      var number := |episodes|;
      episodes := episodes + [Episode(IN_FLIGHT, None, None)];
      return Ok(number);
    }

    // annotateOpenAgyEpisodeTx
    method SetAgyCreationUncertaintyOrphan(i: nat, orphan: Option<string>, outcome: string) returns (e: Option<LedgerError>)
      requires Valid()
      modifies this`episodes
      ensures Valid()
      ensures match SetOrphan(old(Contents()), i, orphan, outcome)
              case Ok(after) => e == None && Contents() == after
              case Err(error) => e == Some(error) && Contents() == old(Contents())
    {
      if i >= |episodes| || !episodes[i].Open() {
        return Some(NoOpenEpisode);
      }
      var existing := episodes[i];
      if orphan.Some? && existing.orphan.Some? && existing.orphan != orphan {
        return Some(OrphanConflict);
      }
      var annotated := existing;
      if orphan.Some? {
        annotated := annotated.(orphan := orphan);
      }
      if existing.reason == IN_FLIGHT && !Blank(outcome) && outcome != IN_FLIGHT {
        annotated := annotated.(reason := IN_FLIGHT + ": " + outcome);
      }
      PutOneOpen(Contents(), i, annotated);
      episodes := episodes[i := annotated];
      return None;
    }

    // Annotates the one open episode, or opens the next.
    method RecordAgyCreationUncertain(reason: string, orphan: Option<string>) returns (r: Result<nat, LedgerError>)
      requires Valid()
      modifies this`episodes
      ensures Valid()
      ensures r.Ok? ==> Contents().OpenAt(r.value)
      ensures Records(old(Contents()), Contents(), reason, orphan)
      ensures r.Err? ==> Contents() == old(Contents())
    {
      var open := SelectOpen();
      if open.Some? {
        var e := SetAgyCreationUncertaintyOrphan(open.value, orphan, reason);
        return if e.Some? then Err(e.value) else Ok(open.value);
      }
      AppendOneOpen(Contents(), Episode(reason, orphan, None));
      assert forall i :: 0 <= i < |episodes| ==> !Contents().OpenAt(i);
      var number := |episodes|;
      episodes := episodes + [Episode(reason, orphan, None)];
      return Ok(number);
    }

    // Only the two dispositions that a service may give.
    method CloseAgyCreationInFlight(i: nat, disposition: Disposition, reason: string) returns (e: Option<LedgerError>)
      requires Valid()
      modifies this`episodes
      ensures Valid()
      ensures disposition.ByController() || Blank(reason) ==> e == Some(InvalidArguments) && Contents() == old(Contents())
      ensures !disposition.ByController() && !Blank(reason) ==>
        match Close(old(Contents()), i, disposition)
        case Ok(after) => e == None && Contents() == after
        case Err(error) => e == Some(error) && Contents() == old(Contents())
    {
      if disposition.ByController() || Blank(reason) {
        return Some(InvalidArguments);
      }
      if i >= |episodes| || !episodes[i].Open() || episodes[i].reason != IN_FLIGHT {
        return Some(NotAnOpenMarker);
      }
      PutOneOpen(Contents(), i, episodes[i].(disposition := Some(disposition)));
      episodes := episodes[i := episodes[i].(disposition := Some(disposition))];
      return None;
    }

    method ResolveAgyCreationUncertainty(op: string, who: Result<nat, LedgerError>, expected: nat, i: nat,
                                         disposition: Disposition, reason: string)
      returns (r: Result<AgyReceipt, LedgerError>)
      requires Valid()
      modifies this`episodes, this`journal
      ensures Valid()
      ensures
        var c := ResolveCreation(i, disposition, reason);
        (View(), r) == Perform(old(View()), AgyCall(op, c, who, expected, 0))
    {
      var c := ResolveCreation(i, disposition, reason);
      if Blank(op) || !disposition.ByController() || Blank(reason) {
        return Err(InvalidArguments);
      }
      if who.Err? {
        return Err(who.error);
      }
      if who.value != expected {
        return Err(GenerationMismatch);
      }
      if op in journal {
        return if journal[op] == c then Ok(AgyReceipt(op, c)) else Err(IdempotencyConflict);
      }
      if i >= |episodes| {
        return Err(NoOpenEpisode);
      }
      if episodes[i].disposition.Some? {
        return Err(AlreadyResolved);
      }
      PutOneOpen(Contents(), i, episodes[i].(disposition := Some(disposition)));
      journal := journal[op := c];
      episodes := episodes[i := episodes[i].(disposition := Some(disposition))];
      return Ok(AgyReceipt(op, c));
    }

    method BindAgySessionClosingEpisode(op: string, who: Result<nat, LedgerError>, i: nat, native: string, model: string,
                                        workspace: string, profile: string)
      returns (r: Result<AgyReceipt, LedgerError>)
      requires Valid()
      modifies this
      ensures Valid()
      ensures
        var c := BindSession(native, model, workspace, profile);
        (View(), r) == Perform(old(View()), AgyCall(op, c, who, 0, i))
    {
      var c := BindSession(native, model, workspace, profile);
      if Blank(op) || Blank(native) || Blank(profile) {
        return Err(InvalidArguments);
      }
      if who.Err? {
        return Err(who.error);
      }
      if op in journal {
        return if journal[op] == c then Ok(AgyReceipt(op, c)) else Err(IdempotencyConflict);
      }
      if binding.Some? {
        return Err(AlreadyBound);
      }
      if i >= |episodes| || !episodes[i].Open() || episodes[i].reason != IN_FLIGHT {
        return Err(NotAnOpenMarker);
      }
      PutOneOpen(Contents(), i, episodes[i].(disposition := Some(Bound)));
      journal := journal[op := c];
      episodes := episodes[i := episodes[i].(disposition := Some(Bound))];
      BindOneOpen(Contents(), Some(native));
      binding := Some(native);
      return Ok(AgyReceipt(op, c));
    }
  }
}
