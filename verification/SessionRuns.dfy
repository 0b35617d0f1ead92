// A session over a whole run: any sequence of commands, refused or committed,
// interleaved with the connection projections that controller transitions
// make on every session of their run.
module SessionRuns {
  import opened Domain
  import opened SessionRules
  import opened SessionInvariants

  // `gen` authorised the command; `open` says whether its agy attempt was
  // uncertain and undisposed.
  datatype Step =
    | Act(gen: nat, open: bool, command: Command)
    | Project(connection: Connection)

  // The projection of a run's connection onto a session row
  // (internal/storage/controller_attachment.go:42-51).
  function ProjectConnection(s: Session, connection: Connection): Session {
    if s.controller == connection then s else Bump(s).(controller := connection)
  }

  function Decided(san: string -> string, s: Session, step: Step): Decision
    requires step.Act?
  {
    if Malformed(step.command).Some? then Refuse(Malformed(step.command).value)
    else Decide(san, s, step.gen, step.open, step.command)
  }

  function Apply(san: string -> string, s: Session, step: Step): Session {
    match step
    case Project(connection) => ProjectConnection(s, connection)
    case Act(_, _, _) =>
      match Decided(san, s, step)
      case Refuse(_) => s
      case Commit(after, _, _, _) => after
  }

  function Run(san: string -> string, s: Session, steps: seq<Step>): Session
    decreases |steps|
  {
    if steps == [] then s else Run(san, Apply(san, s, steps[0]), steps[1..])
  }

  lemma {:induction false} RunConcat(san: string -> string, s: Session, a: seq<Step>, b: seq<Step>)
    ensures Run(san, s, a + b) == Run(san, Run(san, s, a), b)
    decreases |a|
  {
    if a == [] {
      assert a + b == b;
    } else {
      assert (a + b)[1..] == a[1..] + b;
      RunConcat(san, Apply(san, s, a[0]), a[1..], b);
    }
  }

  lemma StepSound(san: string -> string, s: Session, step: Step)
    requires Consistent(s)
    ensures Consistent(Apply(san, s, step)) && Evolves(s, Apply(san, s, step))
  {
    match step
    case Project(connection) =>
      if s.controller != connection {
        RowStep(s, Bump(s).(controller := connection));
      }
    case Act(gen, open, command) =>
      if Malformed(command) == None {
        CommitSound(san, s, gen, open, command);
      }
  }

  // What two points of one run, the second later, have in common: the version
  // only grows, the history only extends.
  ghost predicate Later(s: Session, t: Session) {
    && t.version >= s.version
    && (t.version == s.version ==> t == s)
    && t.run == s.run && t.contributor == s.contributor && t.primary == s.primary
    && t.recoveryGen >= s.recoveryGen
    && forall k :: k in s.turns ==> TurnKept(s, t, k)
  }

  lemma LaterTransitive(s: Session, t: Session, u: Session)
    requires Evolves(s, t) && Later(t, u)
    ensures Later(s, u)
  {
    forall k | k in s.turns ensures TurnKept(s, u, k) {
      assert TurnKept(s, t, k) && TurnKept(t, u, k);
    }
  }

  // Terminal finality and the row version over a whole run: a terminal turn is
  // final, no turn loses its prompt or attempt, and two points of the run with
  // the same version are the same session.
  lemma {:induction false} RunSound(san: string -> string, s: Session, steps: seq<Step>)
    requires Consistent(s)
    ensures Consistent(Run(san, s, steps)) && Later(s, Run(san, s, steps))
    decreases |steps|
  {
    if steps != [] {
      var next := Apply(san, s, steps[0]);
      StepSound(san, s, steps[0]);
      RunSound(san, next, steps[1..]);
      LaterTransitive(s, next, Run(san, next, steps[1..]));
    }
  }

  // No expected version can be met by two different contents.
  lemma VersionDeterminesContent(san: string -> string, s: Session, steps: seq<Step>, i: nat, j: nat)
    requires Consistent(s) && i <= j <= |steps|
    ensures Run(san, s, steps[..i]).version <= Run(san, s, steps[..j]).version
    ensures Run(san, s, steps[..i]).version == Run(san, s, steps[..j]).version ==>
              Run(san, s, steps[..i]) == Run(san, s, steps[..j])
  {
    var before := Run(san, s, steps[..i]);
    RunSound(san, s, steps[..i]);
    RunSound(san, before, steps[i..j]);
    UpTo(steps, i, j);
    RunConcat(san, s, steps[..i], steps[i..j]);
  }

  lemma UpTo(steps: seq<Step>, i: nat, j: nat)
    requires i <= j <= |steps|
    ensures steps[..j] == steps[..i] + steps[i..j]
  {
  }

  // A reference account of prompts, kept from the committed commands alone:
  // the tools are those a key was last queued with, `issued` the generation
  // that released it.
  datatype Ledger = Ledger(
    accepted: set<string>,
    discarded: set<string>,
    stored: map<string, string>,
    released: map<string, string>,
    tools: map<string, seq<string>>,
    issued: map<string, nat>)

  // `gen` authorised the command.
  function Record(san: string -> string, l: Ledger, gen: nat, c: Command): Ledger {
    match c
    case QueuePrompt(_, key, text, tools) =>
      l.(accepted := l.accepted + {key}, discarded := l.discarded - {key}, stored := l.stored[key := san(text)],
         tools := l.tools[key := tools])
    case ReplacePendingPrompt(_, key, text, _) => l.(stored := l.stored[key := san(text)])
    case DiscardPendingPrompt(_, key) => l.(discarded := l.discarded + {key})
    case ReleaseTurn(_, key) =>
      l.(released := l.released[key := san(if key in l.stored then l.stored[key] else "")],
         issued := l.issued[key := gen])
    case _ => l
  }

  function Account(san: string -> string, s: Session, l: Ledger, steps: seq<Step>): Ledger
    decreases |steps|
  {
    if steps == [] then l
    else
      var next := if steps[0].Act? && Decided(san, s, steps[0]).Commit? then Record(san, l, steps[0].gen, steps[0].command) else l;
      Account(san, Apply(san, s, steps[0]), next, steps[1..])
  }

  // Every accepted prompt is in exactly one of pending, turns and discarded;
  // what is pending is the text last stored, under the tools it was queued
  // with; what was released is that text, sanitised once more, and its intent
  // carries those tools and the generation that released it.
  ghost predicate Accounted(l: Ledger, s: Session) {
    TextsAccounted(l, s) && IntentsAccounted(l, s)
  }

  ghost predicate IntentsAccounted(l: Ledger, s: Session) {
    && s.intents.Keys == l.released.Keys
    && (forall k :: k in s.pending ==> k in l.tools && l.tools[k] == s.pending[k].tools)
    && (forall k :: k in s.intents ==>
          k in l.tools && l.tools[k] == s.intents[k].tools && k in l.issued && l.issued[k] == s.intents[k].issuedBy)
  }

  ghost predicate TextsAccounted(l: Ledger, s: Session) {
    && l.accepted == s.pending.Keys + s.turns.Keys + l.discarded
    && s.pending.Keys !! s.turns.Keys
    && l.discarded !! (s.pending.Keys + s.turns.Keys)
    && (forall k :: k in s.pending ==> k in l.stored && l.stored[k] == s.pending[k].text)
    && l.released.Keys == s.turns.Keys
    && (forall k :: k in s.turns ==> l.released[k] == s.turns[k].prompt)
  }

  ghost predicate SamePrompts(s: Session, after: Session) {
    && after.pending == s.pending
    && after.turns.Keys == s.turns.Keys
    && (forall k :: k in s.turns ==> after.turns[k].prompt == s.turns[k].prompt)
    && after.intents.Keys == s.intents.Keys
    && (forall k :: k in s.intents ==> SameIntent(s.intents[k], after.intents[k]))
  }

  // A commit that is not about a prompt leaves all prompts where they are.
  ghost predicate PromptsStay(s: Session, d: Decision) {
    d.Commit? ==> SamePrompts(s, d.after)
  }

  lemma RowsLeavePrompts(s: Session, after: Session)
    requires after.pending == s.pending && after.turns == s.turns && after.intents == s.intents
    ensures SamePrompts(s, after)
  {
  }

  lemma EndLeavesPrompts(s: Session, after: Session, key: string, status: TurnStatus, result: string)
    requires after.pending == s.pending && after.turns == Ended(s.turns, key, status, result)
    requires after.intents == Settled(s.intents, key)
    ensures SamePrompts(s, after)
  {
  }

  lemma OutcomeLeavesPrompts(s: Session, key: string, status: TurnStatus, result: string, dup: string, rec: string)
    ensures PromptsStay(s, DecideOutcome(s, key, status, result, dup, rec))
  {
    var d := DecideOutcome(s, key, status, result, dup, rec);
    if d.Commit? {
      if s.turns[key].status.Terminal() {
        RowsLeavePrompts(s, d.after);
      } else {
        EndLeavesPrompts(s, d.after, key, status, result);
      }
    }
  }

  lemma CancelLeavesPrompts(s: Session, c: Command)
    requires c.RequestCancel?
    ensures PromptsStay(s, DecideCancel(s, c))
  {
  }

  // A reconciliation or an abandonment of an unreleased turn ends nothing.
  lemma ReconcileLeavesPrompts(san: string -> string, s: Session, c: Command)
    requires c.ReconcileSession?
    ensures PromptsStay(s, DecideReconcile(san, s, c))
  {
    var key := c.recovery.turnKey;
    ReconcileActiveLeavesPrompts(s, key, c.outcome, san(c.outcome.result));
    ReconcileParkedLeavesPrompts(s, key, c.outcome);
  }

  lemma ReconcileActiveLeavesPrompts(s: Session, key: string, o: ReconciliationOutcome, result: string)
    ensures PromptsStay(s, ReconcileActive(s, key, o, result))
  {
    var d := ReconcileActive(s, key, o, result);
    if d.Commit? {
      match o.status
      case ReachableActive => RowsLeavePrompts(s, d.after);
      case Uncertain => RowsLeavePrompts(s, d.after);
      case ReachableTerminal => EndLeavesPrompts(s, d.after, key, o.observed, result);
      case DefinitivelyMissing => EndLeavesPrompts(s, d.after, key, TurnFailed, result);
    }
  }

  lemma ReconcileParkedLeavesPrompts(s: Session, key: string, o: ReconciliationOutcome)
    ensures PromptsStay(s, ReconcileParked(s, key, o))
  {
    var d := ReconcileParked(s, key, o);
    if d.Commit? {
      RowsLeavePrompts(s, d.after);
    }
  }

  lemma AbandonLeavesPrompts(san: string -> string, s: Session, open: bool, c: Command)
    requires c.ResolveAgyTurnUncertainty?
    ensures PromptsStay(s, DecideAbandon(san, s, open, c))
  {
    var d := DecideAbandon(san, s, open, c);
    if d.Commit? {
      EndLeavesPrompts(s, d.after, c.ref.turnKey, TurnInterrupted, d.after.turns[c.ref.turnKey].result);
    }
  }

  lemma HostLossLeavesPrompts(s: Session, c: Command)
    requires c.RecordHostLoss?
    ensures PromptsStay(s, DecideHostLoss(s, c))
  {
    if DecideHostLoss(s, c).Commit? {
      RowsLeavePrompts(s, DecideHostLoss(s, c).after);
    }
  }

  lemma ConnectionLeavesPrompts(s: Session, c: Command)
    requires c.SetControllerConnection?
    ensures PromptsStay(s, DecideConnection(s, c))
  {
    if DecideConnection(s, c).Commit? {
      RowsLeavePrompts(s, DecideConnection(s, c).after);
    }
  }

  lemma ArchiveLeavesPrompts(s: Session, c: Command)
    requires c.ArchiveSession?
    ensures PromptsStay(s, DecideArchive(s, c))
  {
    if DecideArchive(s, c).Commit? {
      RowsLeavePrompts(s, DecideArchive(s, c).after);
    }
  }

  lemma PhaseCommandsLeavePrompts(s: Session, c: Command)
    ensures c.RecordDispatchObservation? ==> PromptsStay(s, DecideObservation(s, c))
    ensures c.RecordObservedDispatchAcknowledgement? ==> PromptsStay(s, DecideAcknowledgement(s, c))
  {
  }

  lemma OtherCommandsLeavePrompts(san: string -> string, s: Session, gen: nat, open: bool, c: Command)
    requires !c.QueuePrompt? && !c.ReplacePendingPrompt? && !c.DiscardPendingPrompt? && !c.ReleaseTurn?
    ensures PromptsStay(s, Decide(san, s, gen, open, c))
  {
    match c
    case RequestCancel(_, _) => CancelLeavesPrompts(s, c);
    case RecordTerminalOutcome(_, key, status, result) =>
      OutcomeLeavesPrompts(s, key, status, san(result), status.Name(), status.Name());
    case RecordObservedExecutionOutcome(ref, status, result) =>
      OutcomeLeavesPrompts(s, ref.turnKey, status, san(result), status.Name() + ":duplicate",
                           status.Name() + IssuedBy(s, ref.turnKey));
    case ReconcileSession(_, _, _) => ReconcileLeavesPrompts(san, s, c);
    case ResolveAgyTurnUncertainty(_, _, _, _, _) => AbandonLeavesPrompts(san, s, open, c);
    case RecordDispatchObservation(_, _) => PhaseCommandsLeavePrompts(s, c);
    case RecordObservedDispatchAcknowledgement(_, _) => PhaseCommandsLeavePrompts(s, c);
    case RecordHostLoss(_) => HostLossLeavesPrompts(s, c);
    case SetControllerConnection(_, _) => ConnectionLeavesPrompts(s, c);
    case ArchiveSession(_) => ArchiveLeavesPrompts(s, c);
  }

  lemma CommitAccounted(san: string -> string, s: Session, l: Ledger, gen: nat, open: bool, c: Command)
    requires Accounted(l, s) && Decide(san, s, gen, open, c).Commit?
    ensures Accounted(Record(san, l, gen, c), Decide(san, s, gen, open, c).after)
  {
    match c
    case QueuePrompt(_, _, _, _) => QueueAccounted(san, s, l, gen, c);
    case ReplacePendingPrompt(_, _, _, _) => ReplaceAccounted(san, s, l, gen, c);
    case DiscardPendingPrompt(_, _) => DiscardAccounted(s, l, c, Record(san, l, gen, c));
    case ReleaseTurn(_, _) => ReleaseAccounted(san, s, l, gen, c);
    case _ =>
      OtherCommandsLeavePrompts(san, s, gen, open, c);
      SamePromptsAccounted(s, l, Decide(san, s, gen, open, c).after);
  }

  lemma SamePromptsAccounted(s: Session, l: Ledger, after: Session)
    requires Accounted(l, s) && SamePrompts(s, after)
    ensures Accounted(l, after)
  {
  }

  lemma QueueAccounted(san: string -> string, s: Session, l: Ledger, gen: nat, c: Command)
    requires Accounted(l, s) && c.QueuePrompt? && DecideQueue(san, s, c).Commit?
    ensures Accounted(Record(san, l, gen, c), DecideQueue(san, s, c).after)
  {
    assert c.key in s.pending ==> c.key in l.accepted;
    PromptAccounted(s, l, DecideQueue(san, s, c).after, Record(san, l, gen, c), c.key, Prompt(san(c.text), c.tools));
  }

  // A key that has not been released holds one prompt.
  lemma PromptAccounted(s: Session, l: Ledger, after: Session, next: Ledger, key: string, p: Prompt)
    requires Accounted(l, s) && key !in s.turns
    requires after.pending == s.pending[key := p] && after.turns == s.turns && after.intents == s.intents
    requires next == l.(accepted := l.accepted + {key}, discarded := l.discarded - {key},
                        stored := l.stored[key := p.text], tools := l.tools[key := p.tools])
    ensures Accounted(next, after)
  {
  }

  lemma ReplaceAccounted(san: string -> string, s: Session, l: Ledger, gen: nat, c: Command)
    requires Accounted(l, s) && c.ReplacePendingPrompt? && DecideReplace(san, s, c).Commit?
    ensures Accounted(Record(san, l, gen, c), DecideReplace(san, s, c).after)
  {
    assert DecideReplace(san, s, c).after.pending.Keys == s.pending.Keys;
  }

  lemma DiscardAccounted(s: Session, l: Ledger, c: Command, next: Ledger)
    requires Accounted(l, s) && c.DiscardPendingPrompt? && DecideDiscard(s, c).Commit?
    requires next == l.(discarded := l.discarded + {c.key})
    ensures Accounted(next, DecideDiscard(s, c).after)
  {
    assert c.key in s.pending;
  }

  lemma ReleaseAccounted(san: string -> string, s: Session, l: Ledger, gen: nat, c: Command)
    requires Accounted(l, s) && c.ReleaseTurn? && DecideRelease(san, s, gen, c).Commit?
    ensures Accounted(Record(san, l, gen, c), DecideRelease(san, s, gen, c).after)
  {
    assert c.key in s.pending;
  }

  // Prompt conservation over a whole run.
  lemma {:induction false} RunAccounted(san: string -> string, s: Session, l: Ledger, steps: seq<Step>)
    requires Accounted(l, s)
    ensures Accounted(Account(san, s, l, steps), Run(san, s, steps))
    decreases |steps|
  {
    if steps != [] {
      var step := steps[0];
      var committed := step.Act? && Decided(san, s, step).Commit?;
      if committed {
        CommitAccounted(san, s, l, step.gen, step.open, step.command);
      }
      RunAccounted(san, Apply(san, s, step), if committed then Record(san, l, step.gen, step.command) else l, steps[1..]);
    }
  }
}
