/** A restart, seen from a session opened under an id that was used before. */
module HostReopening {
  import opened Events
  import opened Chain
  import opened HostModel
  import opened HostInvariant
  import opened HostRestart
  import opened HostRuns
  import opened HostEvents
  import opened HostRepeats
  import opened HostResumption
  import opened HostReuse
  import opened HostResends

  lemma OneStepShows(cfg: Config, sys: System, opens: seq<OpenSession>, e: Event)
    requires var (a, b) := (Step(cfg, sys, Sent(e)), Step(cfg, Restarted(sys, opens), Sent(e)));
             a.0.store != b.0.store || a.1 != b.1
    ensures !Invisible(cfg, sys, opens)
  {
    hide Step, Restarted;
    var other := Restarted(sys, opens);
    OneReply(cfg, sys, Sent(e));
    OneReply(cfg, other, Sent(e));
    assert [Sent(e)][1..] == [];
    assert SameOpenings(cfg, sys, other, [Sent(e)]);
    assert Run(cfg, sys, [Sent(e)]) == Step(cfg, sys, Sent(e)).0;
    assert Run(cfg, other, [Sent(e)]) == Step(cfg, other, Sent(e)).0;
  }

  /** A host that knows the operation's end, or the number, stores nothing. */
  lemma RefusesAgain(cfg: Config, h: Host, st: Store, s: string, e: Event)
    requires !h.tailUncertain && s in h.sessions && Declines(cfg, s, e)
    requires EventId(e) in h.sessions[s].outcomes || AlreadyDecided(cfg, h.sessions[s], e)
    ensures RecordOutcome(cfg, h, st, e, None, CalmEnv(ReadTail)).1 == st
  {
    var h1 := VerifySignature(cfg, h, e, s, Verifies).0;
    assert h1.sessions[s].outcomes == h.sessions[s].outcomes && h1.sessions[s].decided == h.sessions[s].decided;
    hide Seal;
  }

  /** What the resumed host knows of the session. */
  lemma ResumedKnows(cfg: Config, sys: System, s: string, opens: seq<OpenSession>)
    requires SystemInv(cfg, sys) && !InDoubt(sys) && s in OpenIds(opens)
    ensures var g := Resume(sys.store.records, opens);
            && Inv(cfg, g, sys.store) && !g.tailUncertain && g.ledger.count == |sys.store.records|
            && Committed(g.ledger, sys.store) == Committed(sys.host.ledger, sys.store) == sys.store.records
            && s in g.sessions && Agrees(cfg, g.sessions[s], s, EventsOf(sys.store.records))
  {
    ResumeKeepsInv(cfg, sys.host, sys.store, opens);
    ResumedLedger(cfg, sys.host.ledger, sys.store);
    hide Agrees, StoreInv, HeldInv, IndexInv, RestoredSessions, RememberedAttempts, OpenAttempts, ResumeFrom, OpenIds;
  }

  /** A number, or an end, that only the resumed host knows. */
  lemma ForgottenShows(cfg: Config, sys: System, s: string, opens: seq<OpenSession>)
    requires SystemInv(cfg, sys) && !InDoubt(sys) && s in OpenIds(opens)
    requires !Reusable(cfg, sys.host, sys.store, s)
    ensures !Invisible(cfg, Reopened(sys, s), opens)
  {
    InvIsEvents(cfg, true, sys.host, sys.store);
    ResumedKnows(cfg, sys, s, opens);
    var es := EventsOf(sys.store.records);
    hide SystemInv, EventsInv, Inv, Reusable, Resume, Agrees, Clashes, Declines, Invisible, InDoubt, SchemaValid, Step,
         NumberOf;
    var now := Reopened(sys, s);
    var id := NewString(set d | d in es :: EventId(d));
    var body := NewBody(es);
    var e := AnEventOf(cfg, sys, s);
    CommittedIsPrefix(cfg, sys);
    var again := Clashing(cfg, e, id, body);
    ClashingClashes(cfg, es, e, id, body, s);
    NewIsFree(cfg, sys, s, again);
    NotInDoubt(sys, s);
    EndsAgain(cfg, now, s, again);
    var g := Resume(sys.store.records, opens);
    ClashIsKnown(cfg, g.sessions[s], s, es, again);
    RefusesAgain(cfg, g, sys.store, s, again);
    OutcomeStep(cfg, System(g, sys.store), again);
    OneStepShows(cfg, now, opens, again);
  }

  lemma NotInDoubt(sys: System, s: string)
    requires !InDoubt(sys)
    ensures !InDoubt(Reopened(sys, s))
  {
  }

  lemma OutcomeStep(cfg: Config, sys: System, e: Event)
    ensures Step(cfg, sys, Sent(e)).0.store == RecordOutcome(cfg, sys.host, sys.store, e, None, CalmEnv(ReadTail)).1
    ensures Step(cfg, sys, Sent(e)).1 ==
              OutcomeReply(RecordOutcome(cfg, sys.host, sys.store, e, None, CalmEnv(ReadTail)).2)
  {
  }

  lemma ClashIsKnown(cfg: Config, x: Session, s: string, es: seq<Event>, e: Event)
    requires Agrees(cfg, x, s, es) && Declines(cfg, s, e) && Clashes(cfg, es, e)
    ensures EventId(e) in x.outcomes || AlreadyDecided(cfg, x, e)
  {
    assert KeyOf(e) == OpKey(Some(s), Some(EventId(e)));
  }

  /** An attempt that only the resumed host answers for. */
  lemma UnknownAttemptShows(cfg: Config, sys: System, s: string, opens: seq<OpenSession>)
    requires SystemInv(cfg, sys) && !InDoubt(sys) && s in OpenIds(opens)
    requires Reusable(cfg, sys.host, sys.store, s) && !Unused(sys.host, sys.store, s)
    ensures !Invisible(cfg, Reopened(sys, s), opens)
  {
    InvIsEvents(cfg, false, sys.host, sys.store);
    OpeningKeepsEvents(cfg, false, sys.host, sys.store, s);
    ResumedKnows(cfg, sys, s, opens);
    var es := EventsOf(sys.store.records);
    var e :| e in EventsOf(Committed(sys.host.ledger, sys.store)) && e.session == Some(s);
    CommittedFacts(cfg, sys.host, sys.store, e);
    var now := Reopened(sys, s);
    var g := Resume(sys.store.records, opens);
    var d := NewSuccess(cfg, now.host, now.store, e, s);
    AcceptedThere(cfg, sys, g, s, e);
    NoEndThere(cfg, sys, g, s, e);
    assert d !in g.sealedDigests by {
      SameDigests(cfg, sys, g);
    }
    hide SystemInv, EventsInv, Inv, Reusable, Unused, Resume, Agrees, Invisible, SchemaValid, Step, RecordOutcome;
    SuccessIsRuled(cfg, now.host, now.store, d, s);
    SuccessIsRuled(cfg, g, sys.store, d, s);
    OutcomeStep(cfg, now, d);
    OutcomeStep(cfg, System(g, sys.store), d);
    OneStepShows(cfg, now, opens, d);
  }

  lemma AcceptedThere(cfg: Config, sys: System, g: Host, s: string, e: Event)
    requires s in g.sessions && Agrees(cfg, g.sessions[s], s, EventsOf(sys.store.records))
    requires e in EventsOf(sys.store.records) && IsAttempt(e) && e.session == Some(s) && e.id.Some?
    ensures e.id.value in g.sessions[s].accepted
  {
    assert KeyOf(e) == OpKey(Some(s), Some(e.id.value));
  }

  lemma NoEndThere(cfg: Config, sys: System, g: Host, s: string, e: Event)
    requires Reusable(cfg, sys.host, sys.store, s) && Committed(sys.host.ledger, sys.store) == sys.store.records
    requires s in g.sessions && Agrees(cfg, g.sessions[s], s, EventsOf(sys.store.records)) && e.id.Some?
    ensures e.id.value !in g.sessions[s].outcomes
  {
  }

  lemma SameDigests(cfg: Config, sys: System, g: Host)
    requires SystemInv(cfg, sys) && Inv(cfg, g, sys.store)
    requires Committed(g.ledger, sys.store) == Committed(sys.host.ledger, sys.store)
    ensures forall d :: d in g.sealedDigests ==> d in sys.host.sealedDigests
  {
    hide LedgerInv, SessionInv, AttemptIds;
  }

  /**
   * After a fresh run, a restart once a session is opened under an id is invisible to it - exactly when the tail is
   * not in doubt and no committed record carries the id. Otherwise the resumed host, which reads the records of
   * that id back, answers something the running one does not.
   */
  lemma ReopenedRestartIff(cfg: Config, before: seq<Input>, s: string, opens: seq<OpenSession>)
    requires FreshRun(cfg, START, before)
    requires Handover(Reopened(Run(cfg, START, before), s).host, opens)
    ensures var sys := Run(cfg, START, before);
            Invisible(cfg, Reopened(sys, s), opens) <==> !InDoubt(sys) && Unused(sys.host, sys.store, s)
  {
    hide FreshRun, Run, Invisible, Unused, Reusable, SystemInv;
    StartInv(cfg);
    RunKeepsInv(cfg, START, before);
    var sys := Run(cfg, START, before);
    assert s in OpenIds(opens);
    if Unused(sys.host, sys.store, s) {
      UnusedKeeps(cfg, sys, s);
      InvisibleIffNoDoubt(cfg, Reopened(sys, s), opens);
    } else if InDoubt(sys) {
      DoubtShows(cfg, sys, s, opens);
    } else if Reusable(cfg, sys.host, sys.store, s) {
      UnknownAttemptShows(cfg, sys, s, opens);
    } else {
      ForgottenShows(cfg, sys, s, opens);
    }
  }

  lemma UnusedKeeps(cfg: Config, sys: System, s: string)
    requires SystemInv(cfg, sys) && Unused(sys.host, sys.store, s)
    ensures SystemInv(cfg, Reopened(sys, s))
  {
    hide Inv, Unused;
    OpeningUnusedKeepsInv(cfg, sys.host, sys.store, s);
  }

  lemma DoubtShows(cfg: Config, sys: System, s: string, opens: seq<OpenSession>)
    requires SystemInv(cfg, sys) && InDoubt(sys)
    ensures !Invisible(cfg, Reopened(sys, s), opens)
  {
    hide LedgerInv, HostInv, Invisible;
    if sys.host.tailUncertain {
      UncertaintyShows(cfg, Reopened(sys, s), opens);
    } else {
      UnseenRecordShows(cfg, Reopened(sys, s), opens);
    }
  }
}
