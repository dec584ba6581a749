/** No operation answered `accept` is lost sight of, over the rest of the run. */
module HostAccounts {
  import opened Events
  import opened Chain
  import opened Reasons
  import opened HostModel
  import opened HostInvariant
  import opened HostRestart
  import opened HostRuns
  import opened HostChain
  import opened HostEvents
  import opened HostAnswers

  // ----- nothing answered `accept` is lost sight of -----

  /** What every run keeps: an open session is one the host knows as issued. */
  ghost predicate Standing(cfg: Config, sys: System) {
    EventsInv(cfg, false, sys.host, sys.store) && sys.host.sessions.Keys <= sys.host.issued
  }

  /** The operation's attempt is committed, and its session is open and answers for it, or it ended, or it is
      flagged. */
  ghost predicate AccountedFor(sys: System, k: OpKey) {
    var es := EventsOf(Committed(sys.host.ledger, sys.store));
    && k.session.Some? && k.id.Some? && k in Attempts(es) && k.session.value in sys.host.issued
    && (|| (k.session.value in sys.host.sessions && k.id.value in sys.host.sessions[k.session.value].accepted)
        || Ended(es, k)
        || Anomaly(k.id.value, UnresolvedAttempt) in sys.host.anomalies)
  }

  lemma StartStanding(cfg: Config)
    ensures Standing(cfg, START)
  {
    StartEvents(cfg, false);
    hide EventsInv;
  }

  lemma StepKeepsStanding(cfg: Config, sys: System, input: Input)
    requires Standing(cfg, sys)
    ensures Standing(cfg, Step(cfg, sys, input).0)
  {
    StepKeepsEvents(cfg, false, sys, input);
    hide EventsInv, HandleAttempt, RecordOutcome, Reusable;
    match input
    case AttemptArrives(e, expected, env) => AttemptStores(cfg, sys.host, sys.store, e, expected, env);
    case OutcomeArrives(e, expected, env) => OutcomeStores(cfg, sys.host, sys.store, e, expected, env);
    case HostRestarts(opens) => ResumedSessions(opens, EventsOf(sys.store.records));
    case _ =>
  }

  lemma {:induction false} ResumedSessions(opens: seq<OpenSession>, es: seq<Event>)
    ensures RestoredSessions(opens, es).Keys == OpenIds(opens)
  {
    hide RestoredSession, Merge;
    if opens != [] {
      var os, o := opens[..|opens| - 1], opens[|opens| - 1];
      assert opens == os + [o];
      assert OpenIds(opens) == OpenIds(os) + {o.sessionId};
      ResumedSessions(os, es);
    }
  }

  lemma {:induction false} RunKeepsStanding(cfg: Config, sys: System, inputs: seq<Input>)
    requires Standing(cfg, sys)
    ensures Standing(cfg, Run(cfg, sys, inputs))
    decreases |inputs|
  {
    hide Standing, Step;
    if inputs != [] {
      StepKeepsStanding(cfg, sys, inputs[0]);
      RunKeepsStanding(cfg, Step(cfg, sys, inputs[0]).0, inputs[1..]);
    }
  }

  // ----- messages -----

  /** A message takes nothing a session accepted away. */
  ghost predicate AcceptsMore(h: Host, g: Host) {
    && h.sessions.Keys == g.sessions.Keys
    && forall s :: s in h.sessions ==> h.sessions[s].accepted <= g.sessions[s].accepted
  }

  lemma SettleAcceptsMore(cfg: Config, h: Host, st: Store, reading: Reading)
    ensures AcceptsMore(h, SettleTail(cfg, h, st, reading).0)
  {
  }

  lemma VerifyAcceptsMore(cfg: Config, h: Host, e: Event, s: string, verdict: Verdict)
    requires s in h.sessions
    ensures AcceptsMore(h, VerifySignature(cfg, h, e, s, verdict).0)
  {
  }

  lemma ConcludeAttemptAcceptsMore(cfg: Config, h: Host, st: Store, e: Event, s: string, env: Env)
    requires s in h.sessions && IsAttempt(e)
    ensures var (g, _, a) := ConcludeAttempt(cfg, h, st, e, s, env);
            && AcceptsMore(h, g)
            && (a.Accept? ==> EventId(e) in g.sessions[s].accepted)
  {
    hide Seal, AlreadyDecided;
    SealSameSessions(cfg, h, st, e, env);
  }

  lemma ConcludeOutcomeAcceptsMore(cfg: Config, h: Host, st: Store, e: Event, s: string, env: Env)
    requires s in h.sessions
    ensures AcceptsMore(h, ConcludeOutcome(cfg, h, st, e, s, env).0)
  {
    hide Seal, AlreadyDecided, AccountTo, Decide;
    SealSameSessions(cfg, h, st, e, env);
    AccountAcceptsMore(cfg, h.sessions[s], e);
  }

  lemma AccountAcceptsMore(cfg: Config, x: Session, e: Event)
    ensures x.accepted <= AccountTo(cfg, x, e).accepted && Decide(cfg, x, e).accepted == x.accepted
  {
  }

  lemma SealSameSessions(cfg: Config, h: Host, st: Store, e: Event, env: Env)
    ensures Seal(cfg, h, st, e, env).0.sessions == h.sessions
  {
  }

  lemma AcceptsChain(a: Host, b: Host, c: Host)
    requires AcceptsMore(a, b) && AcceptsMore(b, c)
    ensures AcceptsMore(a, c)
  {
  }

  lemma AttemptAcceptsMore(cfg: Config, h: Host, st: Store, e: Event, expected: Option<string>, env: Env)
    ensures var (g, _, a) := HandleAttempt(cfg, h, st, e, expected, env);
            && AcceptsMore(h, g)
            && (a.Accept? ==> e.session.Some? && e.id.Some? && e.session.value in g.sessions
                              && e.id.value in g.sessions[e.session.value].accepted)
  {
    hide SettleTail, ConcludeAttempt, VerifySignature;
    SettleAcceptsMore(cfg, h, st, env.reading);
    var h0 := SettleTail(cfg, h, st, env.reading).0;
    var (h1, admission) := Admit(h0, e, expected, true);
    if admission.Admitted? {
      var s := admission.session;
      VerifyAcceptsMore(cfg, h1, e, s, env.verdict);
      var h2 := VerifySignature(cfg, h1, e, s, env.verdict).0;
      ConcludeAttemptAcceptsMore(cfg, h2, st, e, s, env);
      AcceptsChain(h, h0, h2);
      AcceptsChain(h, h2, ConcludeAttempt(cfg, h2, st, e, s, env).0);
    }
  }

  lemma OutcomeAcceptsMore(cfg: Config, h: Host, st: Store, e: Event, expected: Option<string>, env: Env)
    ensures AcceptsMore(h, RecordOutcome(cfg, h, st, e, expected, env).0)
  {
    hide SettleTail, ConcludeOutcome, VerifySignature, SchemaValid;
    SettleAcceptsMore(cfg, h, st, env.reading);
    var h0 := SettleTail(cfg, h, st, env.reading).0;
    var (h1, admission) := Admit(h0, e, expected, false);
    if admission.Admitted? {
      var s := admission.session;
      VerifyAcceptsMore(cfg, h1, e, s, env.verdict);
      var h2 := VerifySignature(cfg, h1, e, s, env.verdict).0;
      ConcludeOutcomeAcceptsMore(cfg, h2, st, e, s, env);
      AcceptsChain(h, h0, h2);
      AcceptsChain(h, h2, ConcludeOutcome(cfg, h2, st, e, s, env).0);
    }
  }

  // ----- what every step keeps in view -----

  lemma CommittedGrows(l: LedgerState, st: Store, l': LedgerState, st': Store)
    requires l.count <= |st.records| && l'.count <= |st'.records|
    requires 0 <= l.count <= l'.count && st.records <= st'.records
    ensures EventsOf(Committed(l, st)) <= EventsOf(Committed(l', st'))
  {
  }

  lemma AttemptsGrow(a: seq<Event>, b: seq<Event>)
    requires a <= b
    ensures Attempts(a) <= Attempts(b)
  {
  }

  lemma GrowthKeepsAccount(sys: System, next: System, k: OpKey)
    requires ChainInv(sys.host.ledger, sys.store) && ChainInv(next.host.ledger, next.store) && AccountedFor(sys, k)
    requires Grows(sys.host, sys.store, next.host, next.store) && AcceptsMore(sys.host, next.host)
    requires sys.host.issued <= next.host.issued
    ensures AccountedFor(next, k)
  {
    hide Linked, LinksTo, Attempts, Ended;
    var es, fs := EventsOf(Committed(sys.host.ledger, sys.store)), EventsOf(Committed(next.host.ledger, next.store));
    CommittedGrows(sys.host.ledger, sys.store, next.host.ledger, next.store);
    AttemptsGrow(es, fs);
    if Ended(es, k) {
      EndedGrows(es, fs, k);
    }
  }

  lemma CloseKeepsAccount(cfg: Config, sys: System, s: string, k: OpKey)
    requires Standing(cfg, sys) && AccountedFor(sys, k)
    ensures AccountedFor(System(CloseSession(sys.host, s), sys.store), k)
  {
    hide StoredInv, IndexInv, Attempts, Terminals, Numbers, Ended;
    if k.session == Some(s) && s in sys.host.sessions && k.id.value in sys.host.sessions[s].accepted {
      var es := EventsOf(Committed(sys.host.ledger, sys.store));
      var x := sys.host.sessions[s];
      assert Tracks(cfg, false, x, s, es);
      assert k == OpKey(Some(s), Some(k.id.value));
      if k.id.value !in x.resolved {
        assert Anomaly(k.id.value, UnresolvedAttempt) in Unresolved(x.accepted - x.resolved);
      }
    }
  }

  lemma OpenKeepsAccount(sys: System, s: string, k: OpKey)
    requires AccountedFor(sys, k) && s !in sys.host.issued
    ensures AccountedFor(System(OpenNew(sys.host, s), sys.store), k)
  {
    hide Attempts, Ended;
  }

  /** A restart flags every sealed attempt outside the sessions kept open that no later record ended. */
  lemma {:induction false} OpenAttemptsCover(es: seq<Event>, open: set<string>, k: OpKey)
    requires forall e :: e in es ==> SchemaValid(e)
    requires k in Attempts(es) && k.session.Some? && k.session.value !in open
    ensures k in OpenAttempts(es, open) || Ended(es, k)
  {
    hide Ended;
    var before, e := es[..|es| - 1], es[|es| - 1];
    assert es == before + [e];
    SetsAfter(before, e);
    EndedAfter(before, e, k);
    if k in Attempts(before) {
      OpenAttemptsCover(before, open, k);
    }
  }

  /** A session read back answers for every attempt sealed in it. */
  lemma {:induction false} RestoredAccepts(s: string, es: seq<Event>, id: string)
    requires forall e :: e in es ==> SchemaValid(e)
    requires OpKey(Some(s), Some(id)) in Attempts(es)
    ensures id in RestoredSession(s, es).accepted
  {
    var before, e := es[..|es| - 1], es[|es| - 1];
    assert es == before + [e];
    SetsAfter(before, e);
    if OpKey(Some(s), Some(id)) in Attempts(before) {
      RestoredAccepts(s, before, id);
    }
  }

  lemma {:induction false} ResumedAccepts(opens: seq<OpenSession>, es: seq<Event>, s: string, id: string)
    requires forall e :: e in es ==> SchemaValid(e)
    requires OpKey(Some(s), Some(id)) in Attempts(es) && s in RestoredSessions(opens, es)
    ensures id in RestoredSessions(opens, es)[s].accepted
  {
    hide RestoredSession, SchemaValid, Attempts;
    var os, o := opens[..|opens| - 1], opens[|opens| - 1];
    if o.sessionId == s {
      RestoredAccepts(s, es, id);
    } else {
      ResumedAccepts(os, es, s, id);
    }
  }

  lemma ResumedAnswers(records: seq<Record>, opens: seq<OpenSession>, k: OpKey)
    requires forall e :: e in EventsOf(records) ==> SchemaValid(e)
    requires k in Attempts(EventsOf(records)) && k.session.Some? && k.id.Some?
    ensures var g := Resume(records, opens);
            && k.session.value in g.issued
            && (|| (k.session.value in g.sessions && k.id.value in g.sessions[k.session.value].accepted)
                || Ended(EventsOf(records), k)
                || Anomaly(k.id.value, UnresolvedAttempt) in g.anomalies)
  {
    hide Attempts, Ended, RestoredSessions, RememberedAttempts, OpenAttempts, ResumeFrom, SchemaValid, OpenIds;
    var es := EventsOf(records);
    AttemptIsIssued(es, k);
    ResumedSessions(opens, es);
    if k.session.value in OpenIds(opens) {
      assert k == OpKey(Some(k.session.value), Some(k.id.value));
      ResumedAccepts(opens, es, k.session.value, k.id.value);
    } else {
      OpenAttemptsCover(es, OpenIds(opens), k);
      var ks := OpenAttempts(es, OpenIds(opens));
      if k in ks {
        var i :| 0 <= i < |ks| && ks[i] == k;
        assert UnresolvedOnRestart(ks)[i] == Anomaly(k.id.value, UnresolvedAttempt);
      }
    }
  }

  lemma RestartKeepsAccount(cfg: Config, sys: System, opens: seq<OpenSession>, k: OpKey)
    requires Standing(cfg, sys) && AccountedFor(sys, k)
    ensures AccountedFor(System(Resume(sys.store.records, opens), sys.store), k)
  {
    var records := sys.store.records;
    SoundEvents(EventsOf(records), cfg.level2, false);
    ResumedStored(cfg, false, sys.host.ledger, sys.store);
    hide AllMay, Linked, LinksTo, HostTracks, Attempts, Ended, SchemaValid, NumberOf;
    CommittedGrows(sys.host.ledger, sys.store, ResumeFrom(records), sys.store);
    AttemptsGrow(EventsOf(Committed(sys.host.ledger, sys.store)), EventsOf(records));
    ResumedAnswers(records, opens, k);
    hide StoredInv, Resume;
    ResumedLedgerIs(records, opens);
  }

  lemma ResumedLedgerIs(records: seq<Record>, opens: seq<OpenSession>)
    ensures Resume(records, opens).ledger == ResumeFrom(records)
  {
  }

  lemma AttemptIsIssued(es: seq<Event>, k: OpKey)
    requires k in Attempts(es)
    ensures exists e :: e in es && e.session == k.session
  {
  }

  lemma StepKeepsAccount(cfg: Config, sys: System, input: Input, k: OpKey)
    requires Standing(cfg, sys) && AccountedFor(sys, k)
    ensures AccountedFor(Step(cfg, sys, input).0, k)
  {
    var h, st := sys.host, sys.store;
    var next := Step(cfg, sys, input).0;
    EventsParts(cfg, false, h, st);
    StepKeepsChain(cfg, sys, input);
    hide EventsInv, ChainInv, HandleAttempt, RecordOutcome, Resume, CloseSession, AccountedFor, Land, OpenNew;
    match input
    case AttemptArrives(e, expected, env) =>
      AttemptGrows(cfg, h, st, e, expected, env);
      AttemptAcceptsMore(cfg, h, st, e, expected, env);
      AttemptStores(cfg, h, st, e, expected, env);
      GrowthKeepsAccount(sys, next, k);
    case OutcomeArrives(e, expected, env) =>
      OutcomeGrows(cfg, h, st, e, expected, env);
      OutcomeAcceptsMore(cfg, h, st, e, expected, env);
      OutcomeStores(cfg, h, st, e, expected, env);
      GrowthKeepsAccount(sys, next, k);
    case SessionOpens(s) =>
      if s !in h.issued {
        OpenKeepsAccount(sys, s, k);
      }
    case SessionCloses(s) => CloseKeepsAccount(cfg, sys, s, k);
    case AppendLands(r) =>
      LandGrows(h, st, r);
      GrowthKeepsAccount(sys, next, k);
    case HostRestarts(opens) => RestartKeepsAccount(cfg, sys, opens, k);
  }

  lemma LandGrows(h: Host, st: Store, r: Record)
    ensures Grows(h, st, h, Land(st, r))
  {
  }

  /** The operations answered `accept` during a run. */
  function Accepted(cfg: Config, sys: System, inputs: seq<Input>): set<OpKey>
    decreases |inputs|
  {
    if inputs == [] then
      {}
    else
      var (next, reply) := Step(cfg, sys, inputs[0]);
      (if reply.AttemptReply? && reply.answer.Accept? then {KeyOf(inputs[0].attempt)} else {})
      + Accepted(cfg, next, inputs[1..])
  }

  lemma AcceptIsAccountedFor(cfg: Config, sys: System, input: Input)
    requires Standing(cfg, sys) && input.AttemptArrives?
    requires Step(cfg, sys, input).1.answer.Accept?
    ensures AccountedFor(Step(cfg, sys, input).0, KeyOf(input.attempt))
  {
    var h, st := sys.host, sys.store;
    var e := input.attempt;
    hide EventsInv, HandleAttempt, Ended;
    AcceptIsCommitted(cfg, h, st, e, input.expected, input.env);
    AttemptAcceptsMore(cfg, h, st, e, input.expected, input.env);
    AttemptStores(cfg, h, st, e, input.expected, input.env);
    var (g, st', a) := HandleAttempt(cfg, h, st, e, input.expected, input.env);
    assert EventsOf(Committed(g.ledger, st'))[a.position] == e;
  }

  lemma {:induction false} AccountSurvivesRun(cfg: Config, sys: System, inputs: seq<Input>, k: OpKey)
    requires Standing(cfg, sys) && (AccountedFor(sys, k) || k in Accepted(cfg, sys, inputs))
    ensures AccountedFor(Run(cfg, sys, inputs), k)
    decreases |inputs|
  {
    hide Standing, AccountedFor, Step;
    if inputs != [] {
      StepKeepsStanding(cfg, sys, inputs[0]);
      if AccountedFor(sys, k) {
        StepKeepsAccount(cfg, sys, inputs[0], k);
      } else if k !in Accepted(cfg, Step(cfg, sys, inputs[0]).0, inputs[1..]) {
        RepliesMatchInputs(cfg, sys, inputs[0]);
        AcceptIsAccountedFor(cfg, sys, inputs[0]);
      }
      AccountSurvivesRun(cfg, Step(cfg, sys, inputs[0]).0, inputs[1..], k);
    }
  }

  lemma RepliesMatchInputs(cfg: Config, sys: System, input: Input)
    ensures Step(cfg, sys, input).1.AttemptReply? <==> input.AttemptArrives?
  {
    hide HandleAttempt, RecordOutcome;
  }

  /**
   * No performed operation escapes the ledger: after every run, ids opened again included, an operation that was
   * answered `accept` has its attempt committed, and once its session is not open it has a terminal record after
   * the attempt, or an `unresolved-attempt` flag.
   */
  lemma NothingAcceptedEscapes(cfg: Config, inputs: seq<Input>, k: OpKey)
    requires k in Accepted(cfg, START, inputs)
    ensures var sys := Run(cfg, START, inputs);
            var es := EventsOf(Committed(sys.host.ledger, sys.store));
            && k.session.Some? && k.id.Some? && k in Attempts(es)
            && (k.session.value !in sys.host.sessions ==>
                  Ended(es, k) || Anomaly(k.id.value, UnresolvedAttempt) in sys.host.anomalies)
  {
    hide Run, Accepted, Ended, Attempts, Standing;
    StartStanding(cfg);
    AccountSurvivesRun(cfg, START, inputs, k);
  }

  // ----- exactly one end -----

  /** The attempts a restart flags are those with no terminal record, outside the sessions kept open. */
  lemma {:induction false} OpenAttemptsAre(es: seq<Event>, open: set<string>, level2: bool)
    requires WellKept(es, level2)
    ensures forall k :: k in OpenAttempts(es, open) <==>
              && k.session.Some? && k.id.Some? && k.session.value !in open
              && k in Attempts(es) && k !in Terminals(es)
  {
    hide WellKept, NumberOf, AttemptIds;
    if es == [] {
      SetsOfNothing();
    } else {
      var before, e := es[..|es| - 1], es[|es| - 1];
      assert es == before + [e];
      FittedAt(es, |es| - 1, level2);
      WellKeptPrefix(es, |es| - 1, level2);
      OpenAttemptsAre(before, open, level2);
      SetsAfter(before, e);
    }
  }

  /** The terminal record of an operation: one position, after its attempt. */
  ghost predicate ConcludedOnce(es: seq<Event>, k: OpKey) {
    exists j :: 0 <= j < |es| && !IsAttempt(es[j]) && KeyOf(es[j]) == k
      && (forall i :: 0 <= i < |es| && KeyOf(es[i]) == k && i != j ==> i < j && IsAttempt(es[i]))
  }

  lemma TerminalIsLast(es: seq<Event>, k: OpKey, level2: bool)
    requires WellKept(es, level2) && k in Terminals(es)
    ensures ConcludedOnce(es, k)
  {
    hide WellKept, NumberOf;
    var e :| e in es && !IsAttempt(e) && KeyOf(e) == k;
    var j :| 0 <= j < |es| && es[j] == e;
    Lifecycle(es, level2);
    forall i | 0 <= i < |es| && KeyOf(es[i]) == k && i != j ensures i < j && IsAttempt(es[i]) {
    }
  }

  lemma EndedHasTerminal(es: seq<Event>, k: OpKey)
    requires Ended(es, k)
    ensures k in Terminals(es)
  {
    var i, j :| 0 <= i < j < |es| && IsAttempt(es[i]) && KeyOf(es[i]) == k && !IsAttempt(es[j]) && KeyOf(es[j]) == k;
    assert es[j] in es;
  }

  lemma EndedIsConcluded(cfg: Config, l: LedgerState, st: Store, k: OpKey)
    requires LedgerInv(cfg, l, st) && Ended(EventsOf(Committed(l, st)), k)
    ensures ConcludedOnce(EventsOf(Committed(l, st)), k)
  {
    hide WellKept, Linked, Extends, HeldInv, ConcludedOnce, Ended, Terminals;
    var es := EventsOf(Committed(l, st));
    EndedHasTerminal(es, k);
    assert es == EventsOf(st.records)[..l.count];
    WellKeptPrefix(EventsOf(st.records), l.count, cfg.level2);
    TerminalIsLast(es, k, cfg.level2);
  }

  /** And in a fresh run that terminal record is the only one. */
  lemma AcceptedEndsOnce(cfg: Config, inputs: seq<Input>, k: OpKey)
    requires FreshRun(cfg, START, inputs) && k in Accepted(cfg, START, inputs)
    ensures var sys := Run(cfg, START, inputs);
            var es := EventsOf(Committed(sys.host.ledger, sys.store));
            && k.session.Some? && k.id.Some?
            && (k.session.value !in sys.host.sessions ==>
                  ConcludedOnce(es, k) || Anomaly(k.id.value, UnresolvedAttempt) in sys.host.anomalies)
  {
    hide HostInv, LedgerInv, FreshRun, Run, Accepted, ConcludedOnce, Attempts, Ended;
    StartInv(cfg);
    RunKeepsInv(cfg, START, inputs);
    NothingAcceptedEscapes(cfg, inputs, k);
    var sys := Run(cfg, START, inputs);
    if Ended(EventsOf(Committed(sys.host.ledger, sys.store)), k) {
      EndedIsConcluded(cfg, sys.host.ledger, sys.store, k);
    }
  }
}
