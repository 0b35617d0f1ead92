// The connection that a run's sessions are told: after every transition that
// begins or ends an attachment they agree with the run, and over whole
// histories they disagree only where a command set them otherwise.
module Projections {
  import opened Domain
  import opened SessionRules
  import opened SessionInvariants
  import opened ControllerRules
  import opened LeaseFencing
  import opened Database
  import opened StoreInvariants
  import C = Commits
  import T = Transitions

  // The run's controller is there: its active grant is connected.
  ghost predicate Connected(a: Authority) {
    exists n :: n in a.grants && a.grants[n].status == Active && a.grants[n].connected
  }

  // A session is told the truth about its run.
  ghost predicate Agrees(db: Db, id: string)
    requires id in db.sessions
  {
    Truthful(db.sessions[id], db.runs)
  }

  ghost predicate Truthful(s: Session, runs: map<string, Authority>) {
    s.run in runs && (s.controller == ControllerConnected <==> Connected(runs[s.run]))
  }

  lemma TruthStays(s: Session, runs: map<string, Authority>, t: Session, after: map<string, Authority>)
    requires Truthful(s, runs) && t.run == s.run && t.controller == s.controller
    requires t.run in after && after[t.run] == runs[s.run]
    ensures Truthful(t, after)
  {
  }

  // What is told is what has become; where nothing is told, nothing changed.
  lemma ToldIsTrue(a: Authority, b: Authority, op: string, c: ControllerCommand)
    requires Fenced(a) && Fenced(b) && T.Entitled(a, c) && T.Becomes(a, b, op, c)
    ensures T.Told(a, c).Some? ==> (T.Told(a, c) == Some(ControllerConnected) <==> Connected(b))
    ensures T.Told(a, c) == None ==> (Connected(b) <==> Connected(a))
  {
    match c
    case Adopt(_, _, _, _, _) => SuccessorIsAway(a, b, op, c);
    case Handoff(_, _, _, _, _) => SuccessorIsAway(a, b, op, c);
    case Revoke(_, _) =>
    case Recover(_, _) =>
    case Connect(lease, expected, _, _) =>
      AuthorisedIff(a, lease, expected);
      assert b.grants[expected].connected;
    case Disconnect(lease, _, expected) =>
      AuthorisedIff(a, lease, expected);
      ActiveIsNewest(b);
  }

  lemma SuccessorIsAway(a: Authority, b: Authority, op: string, c: ControllerCommand)
    requires Fenced(a) && (c.Adopt? || c.Handoff?) && T.Entitled(a, c) && T.Becomes(a, b, op, c)
    ensures !Connected(b) && (c.Adopt? ==> !Connected(a))
  {
  }

  // One session across a transition of `run`.
  ghost predicate Seen(db: Db, after: Db, run: string, told: Option<Connection>, id: string) {
    && id in db.sessions && id in after.sessions && after.sessions[id].run == db.sessions[id].run
    && (db.sessions[id].run == run && told.Some? ==> after.sessions[id].controller == told.value)
    && (db.sessions[id].run != run || told == None ==> after.sessions[id] == db.sessions[id])
  }

  lemma LeavesSeen(db: Db, after: Db, op: string, run: string, c: ControllerCommand, id: string)
    requires T.Leaves(db, after, op, run, c) && id in db.sessions
    ensures Seen(db, after, run, T.Told(db.runs[run], c), id)
  {
  }

  lemma FencedAfter(san: string -> string, db: Db, op: string, run: string, c: ControllerCommand, o: Outcome)
    requires SoundRuns(db) && o == ExecuteController(san, db, op, run, c) && run in db.runs
    ensures run in o.db.runs && Fenced(o.db.runs[run])
  {
    ControllerOpSound(san, db, op, run, c, o);
  }

  // What a committed transition of a fenced run tells.
  lemma TransitionTells(san: string -> string, db: Db, op: string, run: string, c: ControllerCommand, o: Outcome)
    requires SoundRuns(db) && !c.Recover? && o == ExecuteController(san, db, op, run, c) && o.reply.Fresh?
    ensures run in db.runs && run in o.db.runs && T.Leaves(db, o.db, op, run, c)
    ensures
      var told := T.Told(db.runs[run], c);
      if told.Some? then told == Some(ControllerConnected) <==> Connected(o.db.runs[run])
      else Connected(o.db.runs[run]) <==> Connected(db.runs[run])
  {
    T.TransitionLeaves(san, db, op, run, c, o);
    T.TransitionsIff(san, db, op, run, c);
    FencedAfter(san, db, op, run, c, o);
    ToldIsTrue(db.runs[run], o.db.runs[run], op, c);
  }

  // After a committed handoff, revocation or connect, and after a disconnect
  // that ends the current episode, every session of the run is told the same,
  // and it is the truth; every other transition, and every other session, is
  // left as it was.
  lemma ConnectionIsProjected(san: string -> string, db: Db, op: string, run: string, c: ControllerCommand, o: Outcome,
                              id: string)
    requires SoundRuns(db) && !c.Recover? && o == ExecuteController(san, db, op, run, c) && o.reply.Fresh?
    requires id in db.sessions
    ensures run in db.runs && Seen(db, o.db, run, T.Told(db.runs[run], c), id)
    ensures db.sessions[id].run == run && T.Told(db.runs[run], c).Some? ==> Agrees(o.db, id)
  {
    TransitionTells(san, db, op, run, c, o);
    LeavesSeen(db, o.db, op, run, c, id);
  }

  ghost predicate AllAgree(db: Db) {
    forall id :: id in db.sessions ==> Agrees(db, id)
  }

  // A session command that sets a connection the run does not have.
  ghost predicate Strays(db: Db, o: Outcome, named: string, c: Command) {
    && c.SetControllerConnection? && o.reply.Fresh? && named in db.sessions && db.sessions[named].run in db.runs
    && !(c.connection == ControllerConnected <==> Connected(db.runs[db.sessions[named].run]))
  }

  // The connection column across a session command.
  lemma ColumnMoves(san: string -> string, s: Session, t: Session, gen: nat, c: Command)
    requires C.Leaves(san, s, t, gen, c)
    ensures t.run == s.run && t.controller == if c.SetControllerConnection? then c.connection else s.controller
  {
  }

  lemma CommitMovesColumn(san: string -> string, db: Db, op: string, lease: string, named: string, c: Command, o: Outcome)
    requires SoundStore(db) && o == ExecuteSession(san, db, op, lease, named, c) && o.reply.Fresh?
    ensures ColumnMoved(db, o, named, c)
  {
    var id := C.Subject(named, c);
    C.CommitsIff(san, db, op, lease, named, c);
    C.CommitLeaves(san, db, op, lease, named, c, o);
    ColumnMoves(san, db.sessions[id], o.db.sessions[id], C.AuthorisedBy(db, lease, named, c), c);
  }

  ghost predicate ColumnMoved(db: Db, o: Outcome, named: string, c: Command) {
    var id := C.Subject(named, c);
    && id in db.sessions && id in o.db.sessions && o.db.sessions == db.sessions[id := o.db.sessions[id]]
    && o.db.runs == db.runs && o.db.sessions[id].run == db.sessions[id].run
    && o.db.sessions[id].controller == if c.SetControllerConnection? then c.connection else db.sessions[id].controller
  }

  lemma ColumnAgreesIff(db: Db, o: Outcome, named: string, c: Command, id: string)
    requires o.reply.Fresh? && ColumnMoved(db, o, named, c) && id in db.sessions && Agrees(db, id)
    ensures id in o.db.sessions
    ensures Agrees(o.db, id) <==> !(C.Subject(named, c) == id && Strays(db, o, named, c))
  {
    if C.Subject(named, c) != id {
      assert o.db.sessions[id] == db.sessions[id];
    } else if !c.SetControllerConnection? {
      TruthStays(db.sessions[id], db.runs, o.db.sessions[id], o.db.runs);
    }
  }

  lemma CommandAgreesIff(san: string -> string, db: Db, op: string, lease: string, named: string, c: Command, o: Outcome,
                         id: string)
    requires SoundStore(db) && o == ExecuteSession(san, db, op, lease, named, c) && id in db.sessions && Agrees(db, id)
    ensures id in o.db.sessions
    ensures Agrees(o.db, id) <==> !(C.Subject(named, c) == id && Strays(db, o, named, c))
  {
    C.SessionReplies(san, db, op, lease, named, c);
    if o.reply.Fresh? {
      CommitMovesColumn(san, db, op, lease, named, c, o);
      ColumnAgreesIff(db, o, named, c, id);
    }
  }

  // Does this transaction set a connection that its run does not have?
  ghost predicate EventStrays(san: string -> string, db: Db, e: Event) {
    e.SessionOp? && Strays(db, Execute(san, db, e), e.target, e.command)
  }

  lemma BirthAgrees(db: Db, op: string, session: string, b: Birth, o: Outcome)
    requires SoundStore(db) && AllAgree(db) && SessionBorn(db, op, session, b, o)
    ensures AllAgree(o.db)
  {
    if o.reply.Fresh? {
      ConnectedIff(db.runs[b.run]);
      forall id | id in o.db.sessions ensures Agrees(o.db, id) {
        assert id != session ==> Agrees(db, id);
      }
    }
  }

  lemma RunBirthAgrees(db: Db, op: string, run: string, digests: seq<string>, lease: string, o: Outcome)
    requires AllAgree(db) && o == ExecuteCreateRun(db, op, run, digests, lease)
    ensures AllAgree(o.db)
  {
    CreateRunEffect(db, op, run, digests, lease, o);
    forall id | id in o.db.sessions ensures Agrees(o.db, id) {
      TruthStays(db.sessions[id], db.runs, o.db.sessions[id], o.db.runs);
    }
  }

  lemma CommandsAgreeIff(san: string -> string, db: Db, op: string, lease: string, named: string, c: Command, o: Outcome)
    requires SoundStore(db) && AllAgree(db) && o == ExecuteSession(san, db, op, lease, named, c)
    ensures AllAgree(o.db) <==> !Strays(db, o, named, c)
  {
    OnlyCreationAdds(san, db, SessionOp(op, lease, named, c));
    forall id | id in db.sessions
      ensures id in o.db.sessions && (Agrees(o.db, id) <==> !(C.Subject(named, c) == id && Strays(db, o, named, c)))
    {
      CommandAgreesIff(san, db, op, lease, named, c, o, id);
    }
  }

  // The told sessions agree with what has become of the run, the others with
  // what has not changed.
  lemma SeenAgrees(db: Db, after: Db, run: string, told: Option<Connection>, id: string)
    requires Seen(db, after, run, told, id) && Agrees(db, id)
    requires run in db.runs && run in after.runs && after.runs == db.runs[run := after.runs[run]]
    requires if told.Some? then told == Some(ControllerConnected) <==> Connected(after.runs[run])
             else Connected(after.runs[run]) <==> Connected(db.runs[run])
    ensures Agrees(after, id)
  {
  }

  lemma LeavesAgree(db: Db, after: Db, op: string, run: string, c: ControllerCommand)
    requires AllAgree(db) && T.Leaves(db, after, op, run, c)
    requires
      var told := T.Told(db.runs[run], c);
      if told.Some? then told == Some(ControllerConnected) <==> Connected(after.runs[run])
      else Connected(after.runs[run]) <==> Connected(db.runs[run])
    ensures AllAgree(after)
  {
    forall id | id in after.sessions ensures Agrees(after, id) {
      LeavesSeen(db, after, op, run, c, id);
      SeenAgrees(db, after, run, T.Told(db.runs[run], c), id);
    }
  }

  lemma TransitionsAgree(san: string -> string, db: Db, op: string, run: string, c: ControllerCommand, o: Outcome)
    requires SoundRuns(db) && AllAgree(db) && o == ExecuteController(san, db, op, run, c)
    ensures AllAgree(o.db)
  {
    if o.reply.Fresh? && !c.Recover? {
      TransitionTells(san, db, op, run, c, o);
      LeavesAgree(db, o.db, op, run, c);
    } else {
      T.UnfreshKeeps(san, db, op, run, c, o);
      SameAgree(db, o.db);
    }
  }

  lemma SameAgree(db: Db, after: Db)
    requires AllAgree(db) && after.runs == db.runs && after.sessions == db.sessions
    ensures AllAgree(after)
  {
  }

  lemma AttemptsAgree(san: string -> string, db: Db, e: Event)
    requires AllAgree(db) && (e.AttemptBegins? || e.AttemptMoves?)
    ensures AllAgree(Execute(san, db, e).db)
  {
    AttemptsEffect(san, db, e);
    forall id | id in db.sessions ensures Agrees(Execute(san, db, e).db, id) {
      TruthStays(db.sessions[id], db.runs, Execute(san, db, e).db.sessions[id], Execute(san, db, e).db.runs);
    }
  }

  // One transaction keeps the agreement unless it sets a connection that the
  // run does not have: an if and only if.
  lemma EventAgreesIff(san: string -> string, db: Db, e: Event)
    requires SoundStore(db) && AllAgree(db)
    ensures AllAgree(Execute(san, db, e).db) <==> !EventStrays(san, db, e)
  {
    var o := Execute(san, db, e);
    match e
    case SessionOp(op, lease, named, c) => CommandsAgreeIff(san, db, op, lease, named, c, o);
    case ControllerOp(op, run, c) => TransitionsAgree(san, db, op, run, c, o);
    case CreateSession(op, lease, session, birth) =>
      CreateSessionEffect(db, op, lease, session, birth, o);
      BirthAgrees(db, op, session, birth, o);
    case CreateRun(op, run, digests, lease) => RunBirthAgrees(db, op, run, digests, lease, o);
    case _ => AttemptsAgree(san, db, e);
  }

  // Over a whole history, from an empty store on, every session tells the
  // truth about its run, as long as nobody sets a connection by command.
  lemma {:induction false} HistoryAgrees(san: string -> string, db: Db, events: seq<Event>)
    requires SoundStore(db) && AllAgree(db) && forall e :: e in events ==> ProperEvent(e)
    requires forall e :: e in events ==> !(e.SessionOp? && e.command.SetControllerConnection?)
    ensures AllAgree(History(san, db, events))
    decreases |events|
  {
    if events != [] {
      EventSound(san, db, events[0]);
      EventAgreesIff(san, db, events[0]);
      HistoryAgrees(san, Execute(san, db, events[0]).db, events[1..]);
    }
  }
}
