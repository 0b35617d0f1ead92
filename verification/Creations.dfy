// How runs and sessions come about: under which conditions a creation
// commits, exactly, and what it makes true for good.
module Creations {
  import opened Domain
  import opened SessionRules
  import opened SessionInvariants
  import opened SessionRuns
  import opened ControllerRules
  import opened LeaseFencing
  import opened Database
  import opened StoreInvariants

  // A run is created once; its lease is nobody's grant yet and serves the
  // administrator class alone.
  lemma RunCreationIff(db: Db, op: string, run: string, digests: seq<string>, lease: string, o: Outcome)
    requires o == ExecuteCreateRun(db, op, run, digests, lease)
    ensures o.reply.Fresh? <==>
      && op !in db.journal && run !in db.runs && !Blank(run) && !Blank(lease)
      && forall d :: d in digests ==> !Blank(d)
    ensures o.reply.Fresh? ==>
      && run in o.db.runs && o.db.runs == db.runs[run := o.db.runs[run]] && o.db.sessions == db.sessions
      && !o.db.runs[run].adopted && o.reply.receipt.op == op
    ensures o.reply.Fresh? ==> forall p :: Classify(o.db.runs[run], p, true).Err?
    ensures o.reply.Fresh? ==> forall p :: Classify(o.db.runs[run], p, false).Ok? <==> p == lease
  {
    if o.reply.Fresh? {
      forall p ensures Classify(o.db.runs[run], p, true).Err? && (Classify(o.db.runs[run], p, false).Ok? <==> p == lease) {
        NewRunAuthority(lease, op, p);
      }
    }
  }

  lemma NewRunAuthority(lease: string, op: string, p: string)
    requires !Blank(lease)
    ensures Classify(NewAuthority(lease, op), p, true).Err?
    ensures Classify(NewAuthority(lease, op), p, false).Ok? <==> p == lease
  {
    var a := NewAuthority(lease, op);
    NewAuthorityFenced(lease, op);
    AuthorisedIff(a, p, 0);
    if Classify(a, p, false).Ok? {
      AuthorisedIff(a, p, Classify(a, p, false).value);
    }
    if Classify(a, p, true).Ok? {
      AuthorisedIff(a, p, Classify(a, p, true).value);
    }
  }

  // A session is created under current authority over its run, as one of the
  // roster, and as its run's only primary of that contributor.
  lemma SessionCreationIff(db: Db, op: string, lease: string, session: string, b: Birth)
    ensures ExecuteCreateSession(db, op, lease, session, b).reply.Fresh? <==>
      && op !in db.journal && b.run in db.runs && Classify(db.runs[b.run], lease, false).Ok?
      && session !in db.sessions && b.contributor in ROSTER
      && !(b.primary && exists id :: id in db.sessions && IsPrimary(db.sessions[id], b.run, b.contributor))
  {
  }

  predicate IsPrimary(s: Session, run: string, contributor: string) {
    s.run == run && s.contributor == contributor && s.primary
  }

  // Every contributor is one of the roster and has one primary session in a
  // run at most.
  ghost predicate Staffed(db: Db) {
    && (forall id :: id in db.sessions ==> db.sessions[id].contributor in ROSTER)
    && (forall i, j :: i in db.sessions && j in db.sessions && SamePrimary(db.sessions[i], db.sessions[j]) ==> i == j)
  }

  predicate SamePrimary(s: Session, t: Session) {
    s.primary && t.primary && s.run == t.run && s.contributor == t.contributor
  }

  lemma EventKeepsPost(san: string -> string, db: Db, e: Event, id: string)
    requires id in db.sessions && Consistent(db.sessions[id])
    ensures id in Execute(san, db, e).db.sessions
    ensures SamePost(db.sessions[id], Execute(san, db, e).db.sessions[id])
  {
    EventIsSteps(san, db, e, id);
    RunSound(san, db.sessions[id], SessionSteps(san, db, e, id));
  }

  predicate SamePost(s: Session, t: Session) {
    t.run == s.run && t.contributor == s.contributor && t.primary == s.primary
  }

  lemma PostsKept(db: Db, after: Db)
    requires Staffed(db) && after.sessions.Keys == db.sessions.Keys
    requires forall id :: id in db.sessions ==> SamePost(db.sessions[id], after.sessions[id])
    ensures Staffed(after)
  {
  }

  lemma PostTaken(db: Db, op: string, lease: string, session: string, b: Birth, o: Outcome)
    requires Staffed(db) && o == ExecuteCreateSession(db, op, lease, session, b)
    ensures Staffed(o.db)
  {
    SessionCreationIff(db, op, lease, session, b);
    CreateSessionEffect(db, op, lease, session, b, o);
  }

  lemma EventKeepsStaff(san: string -> string, db: Db, e: Event)
    requires SoundStore(db) && Staffed(db)
    ensures Staffed(Execute(san, db, e).db)
  {
    var o := Execute(san, db, e);
    if e.CreateSession? {
      PostTaken(db, e.op, e.lease, e.session, e.birth, o);
    } else {
      OnlyCreationAdds(san, db, e);
      forall id | id in db.sessions ensures id in o.db.sessions && SamePost(db.sessions[id], o.db.sessions[id]) {
        EventKeepsPost(san, db, e, id);
      }
      PostsKept(db, o.db);
    }
  }

  // Over every history.
  lemma {:induction false} HistoryKeepsStaff(san: string -> string, db: Db, events: seq<Event>)
    requires SoundStore(db) && Staffed(db) && forall e :: e in events ==> ProperEvent(e)
    ensures Staffed(History(san, db, events))
    decreases |events|
  {
    if events != [] {
      EventSound(san, db, events[0]);
      EventKeepsStaff(san, db, events[0]);
      HistoryKeepsStaff(san, Execute(san, db, events[0]).db, events[1..]);
    }
  }
}
