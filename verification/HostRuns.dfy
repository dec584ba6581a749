/** Whole runs of a host over its store, with every fault the environment can choose, and what they keep. */
module HostRuns {
  import opened Events
  import opened Chain
  import opened Reasons
  import opened HostModel
  import opened HostInvariant
  import opened HostRestart

  datatype System = System(host: Host, store: Store)

  datatype Input =
    | AttemptArrives(attempt: Event, expected: Option<string>, env: Env)
    | OutcomeArrives(outcome: Event, expected: Option<string>, env: Env)
    | SessionOpens(session: string)
    | SessionCloses(session: string)
    | AppendLands(record: Record)
    | HostRestarts(opens: seq<OpenSession>)

  datatype Reply = AttemptReply(answer: Answer) | OutcomeReply(disposition: Disposition) | AlreadyIssued | Done

  const START := System(
    Host(LedgerState(0, Genesis, []), map[], {}, false, map[], {}, {}, multiset{}),
    Store([], {}))

  function Step(cfg: Config, sys: System, input: Input): (System, Reply) {
    var h, st := sys.host, sys.store;
    match input
    case AttemptArrives(e, expected, env) =>
      var (g, st', a) := HandleAttempt(cfg, h, st, e, expected, env);
      (System(g, st'), AttemptReply(a))
    case OutcomeArrives(e, expected, env) =>
      var (g, st', d) := RecordOutcome(cfg, h, st, e, expected, env);
      (System(g, st'), OutcomeReply(d))
    case SessionOpens(s) =>
      if s in h.issued then (sys, AlreadyIssued) else (System(OpenNew(h, s), st), Done)
    case SessionCloses(s) => (System(CloseSession(h, s), st), Done)
    case AppendLands(r) => (System(h, Land(st, r)), Done)
    case HostRestarts(opens) => (System(Resume(st.records, opens), st), Done)
  }

  function Run(cfg: Config, sys: System, inputs: seq<Input>): System
    decreases |inputs|
  {
    if inputs == [] then sys else Run(cfg, Step(cfg, sys, inputs[0]).0, inputs[1..])
  }

  // ----- when a session id may be opened -----

  /** An id the host does not know as issued is one no committed record carries. */
  ghost predicate FreshIfNew(sys: System, input: Input) {
    input.SessionOpens? && input.session !in sys.host.issued ==> Unused(sys.host, sys.store, input.session)
  }

  ghost predicate FreshRun(cfg: Config, sys: System, inputs: seq<Input>)
    decreases |inputs|
  {
    inputs != [] ==> FreshIfNew(sys, inputs[0]) && FreshRun(cfg, Step(cfg, sys, inputs[0]).0, inputs[1..])
  }

  ghost predicate SystemInv(cfg: Config, sys: System) {
    Inv(cfg, sys.host, sys.store)
  }

  lemma StartInv(cfg: Config)
    ensures SystemInv(cfg, START)
  {
    SetsOfNothing();
    assert EventsOf([]) == [];
  }

  lemma StepKeepsInv(cfg: Config, sys: System, input: Input)
    requires SystemInv(cfg, sys) && FreshIfNew(sys, input)
    ensures SystemInv(cfg, Step(cfg, sys, input).0)
  {
    hide Inv, HandleAttempt, RecordOutcome, Unused, CloseSession, Land, Resume, OpenNew;
    var h, st := sys.host, sys.store;
    match input
    case AttemptArrives(e, expected, env) => AttemptKeepsInv(cfg, h, st, e, expected, env);
    case OutcomeArrives(e, expected, env) => OutcomeKeepsInv(cfg, h, st, e, expected, env);
    case SessionOpens(s) =>
      if s !in h.issued {
        OpeningUnusedKeepsInv(cfg, h, st, s);
      }
    case SessionCloses(s) => CloseKeepsInv(cfg, h, st, s);
    case AppendLands(r) => LandKeepsInv(cfg, h, st, r);
    case HostRestarts(opens) => ResumeKeepsInv(cfg, h, st, opens);
  }

  lemma {:induction false} RunKeepsInv(cfg: Config, sys: System, inputs: seq<Input>)
    requires SystemInv(cfg, sys) && FreshRun(cfg, sys, inputs)
    ensures SystemInv(cfg, Run(cfg, sys, inputs))
    decreases |inputs|
  {
    hide SystemInv, Step, FreshIfNew;
    if inputs != [] {
      StepKeepsInv(cfg, sys, inputs[0]);
      RunKeepsInv(cfg, Step(cfg, sys, inputs[0]).0, inputs[1..]);
    }
  }

  // ----- the life of an operation -----

  /** What a well-kept chain says, position by position. */
  lemma Lifecycle(es: seq<Event>, level2: bool)
    requires WellKept(es, level2)
    ensures forall i, j :: 0 <= i < j < |es| && IsAttempt(es[i]) && IsAttempt(es[j]) ==> es[i].id != es[j].id
    ensures forall i, j :: 0 <= i < j < |es| && !IsAttempt(es[i]) ==> KeyOf(es[i]) != KeyOf(es[j])
    ensures forall j :: 0 <= j < |es| && (es[j].outcome == Some(Success) || es[j].outcome == Some(Failed)) ==>
              exists i :: 0 <= i < j && IsAttempt(es[i]) && KeyOf(es[i]) == KeyOf(es[j])
    ensures level2 ==> forall i, j :: 0 <= i < j < |es| ==> NumberOf(es[i]) != NumberOf(es[j])
  {
    hide WellKept;
    forall i, j | 0 <= i < j < |es|
      ensures IsAttempt(es[i]) && IsAttempt(es[j]) ==> es[i].id != es[j].id
      ensures !IsAttempt(es[i]) ==> KeyOf(es[i]) != KeyOf(es[j])
      ensures level2 ==> NumberOf(es[i]) != NumberOf(es[j])
    {
      FittedAt(es, j, level2);
      InSets(es[..j], i);
    }
    forall j | 0 <= j < |es| && (es[j].outcome == Some(Success) || es[j].outcome == Some(Failed))
      ensures exists i :: 0 <= i < j && IsAttempt(es[i]) && KeyOf(es[i]) == KeyOf(es[j])
    {
      FittedAt(es, j, level2);
      var e :| e in es[..j] && IsAttempt(e) && KeyOf(e) == KeyOf(es[j]);
      var i :| 0 <= i < j && es[..j][i] == e;
    }
  }

  lemma FittedAt(es: seq<Event>, j: nat, level2: bool)
    requires WellKept(es, level2) && j < |es|
    ensures Fits(es[..j], es[j], level2)
  {
  }

  lemma InSets(es: seq<Event>, i: nat)
    requires i < |es|
    ensures IsAttempt(es[i]) ==> es[i].id in AttemptIds(es) && KeyOf(es[i]) in Attempts(es)
    ensures !IsAttempt(es[i]) ==> KeyOf(es[i]) in Terminals(es)
    ensures NumberOf(es[i]).Some? ==> NumberOf(es[i]).value in Numbers(es)
  {
    assert es[i] in es;
  }

  /** The life of every operation, in every stored chain a run leaves. */
  lemma RunLifecycle(cfg: Config, inputs: seq<Input>)
    requires FreshRun(cfg, START, inputs)
    ensures WellKept(EventsOf(Run(cfg, START, inputs).store.records), cfg.level2)
  {
    hide HostInv, Run, FreshRun, Linked, WellKept;
    StartInv(cfg);
    RunKeepsInv(cfg, START, inputs);
  }

  // ----- without a reused id, every run is fresh -----

  /** A record that is stored, or may still be: a delayed one whose position is free. */
  predicate MayShow(st: Store, r: Record) {
    r in st.records || (r in st.delayed && r.position >= |st.records|)
  }

  /** No delayed record can land any more: each has its position taken. */
  ghost predicate Quiet(st: Store) {
    forall r :: r in st.delayed ==> r.position < |st.records|
  }

  /** Every session a record carries that is stored, or may still be, is one the host knows as issued. */
  ghost predicate IssuedCovers(sys: System) {
    && (forall s :: s in sys.host.sessions ==> s in sys.host.issued)
    && (forall r :: MayShow(sys.store, r) ==>
          r.event.session.Some? && r.event.session.value in sys.host.issued)
  }

  /** No restart while an append is in flight that can still land. */
  ghost predicate CalmRestarts(cfg: Config, sys: System, inputs: seq<Input>)
    decreases |inputs|
  {
    inputs != [] ==>
      && (inputs[0].HostRestarts? ==> Quiet(sys.store))
      && CalmRestarts(cfg, Step(cfg, sys, inputs[0]).0, inputs[1..])
  }

  lemma SettleIssued(cfg: Config, h: Host, st: Store, reading: Reading)
    ensures SettleTail(cfg, h, st, reading).0.issued == h.issued
    ensures SettleTail(cfg, h, st, reading).0.sessions.Keys == h.sessions.Keys
  {
    hide Decide, AccountTo;
  }

  /** `r` is what the host makes of `e` under this environment, countersigned where it countersigns. */
  ghost predicate MadeFrom(cfg: Config, r: Record, e: Event, env: Env) {
    && r.event == e
    && (cfg.countersigner.Some? ==> env.signing.Signed?)
    && r == Countersigned(cfg, NextRecord(e, r.position, env.now, r.previousHash), env.signing)
  }

  /** Whatever sealing adds to the store, now or later, is made from the event. */
  ghost predicate StoreGrows(cfg: Config, st: Store, st': Store, e: Event, env: Env) {
    && |st.records| <= |st'.records|
    && (forall r :: r in st'.records ==> r in st.records || MadeFrom(cfg, r, e, env))
    && (forall r :: r in st'.delayed ==> r in st.delayed || MadeFrom(cfg, r, e, env))
  }

  lemma SealStores(cfg: Config, h: Host, st: Store, e: Event, env: Env)
    ensures var (g, st', _) := Seal(cfg, h, st, e, env);
            && StoreGrows(cfg, st, st', e, env)
            && g.issued == h.issued && g.sessions == h.sessions
  {
  }

  lemma VerifyIssued(cfg: Config, h: Host, e: Event, s: string, verdict: Verdict)
    requires s in h.sessions
    ensures var g := VerifySignature(cfg, h, e, s, verdict).0;
            && g.issued == h.issued && g.sessions.Keys == h.sessions.Keys
            && (cfg.level2 && VerifySignature(cfg, h, e, s, verdict).1 == Passed ==> verdict.Verifies?)
  {
  }

  lemma ConcludeAttemptStores(cfg: Config, h: Host, st: Store, e: Event, s: string, env: Env)
    requires s in h.sessions
    ensures var (g, st', _) := ConcludeAttempt(cfg, h, st, e, s, env);
            && StoreGrows(cfg, st, st', e, env)
            && g.issued == h.issued && g.sessions.Keys == h.sessions.Keys
  {
    hide Seal, Decide, AccountTo, AlreadyDecided;
    SealStores(cfg, h, st, e, env);
  }

  lemma ConcludeOutcomeStores(cfg: Config, h: Host, st: Store, e: Event, s: string, env: Env)
    requires s in h.sessions
    ensures var (g, st', _) := ConcludeOutcome(cfg, h, st, e, s, env);
            && StoreGrows(cfg, st, st', e, env)
            && g.issued == h.issued && g.sessions.Keys == h.sessions.Keys
  {
    hide Seal, Decide, AccountTo, AlreadyDecided;
    SealStores(cfg, h, st, e, env);
  }

  lemma AttemptStores(cfg: Config, h: Host, st: Store, e: Event, expected: Option<string>, env: Env)
    ensures var (g, st', _) := HandleAttempt(cfg, h, st, e, expected, env);
            && g.issued == h.issued && g.sessions.Keys == h.sessions.Keys
            && StoreGrows(cfg, st, st', e, env)
            && (st' == st ||
                  (e.session.Some? && e.session.value in h.sessions && (cfg.level2 ==> env.verdict.Verifies?)))
  {
    hide SettleTail, ConcludeAttempt, VerifySignature, SchemaValid;
    SettleIssued(cfg, h, st, env.reading);
    var h0 := SettleTail(cfg, h, st, env.reading).0;
    var (h1, admission) := Admit(h0, e, expected, true);
    if admission.Admitted? {
      VerifyIssued(cfg, h1, e, admission.session, env.verdict);
      var h2 := VerifySignature(cfg, h1, e, admission.session, env.verdict).0;
      ConcludeAttemptStores(cfg, h2, st, e, admission.session, env);
    }
  }

  lemma OutcomeStores(cfg: Config, h: Host, st: Store, e: Event, expected: Option<string>, env: Env)
    ensures var (g, st', _) := RecordOutcome(cfg, h, st, e, expected, env);
            && g.issued == h.issued && g.sessions.Keys == h.sessions.Keys
            && StoreGrows(cfg, st, st', e, env)
            && (st' == st ||
                  (e.session.Some? && e.session.value in h.sessions && (cfg.level2 ==> env.verdict.Verifies?)))
  {
    hide SettleTail, ConcludeOutcome, VerifySignature, SchemaValid;
    SettleIssued(cfg, h, st, env.reading);
    var h0 := SettleTail(cfg, h, st, env.reading).0;
    var (h1, admission) := Admit(h0, e, expected, false);
    if admission.Admitted? {
      VerifyIssued(cfg, h1, e, admission.session, env.verdict);
      var h2 := VerifySignature(cfg, h1, e, admission.session, env.verdict).0;
      ConcludeOutcomeStores(cfg, h2, st, e, admission.session, env);
    }
  }

  lemma ResumedIssued(records: seq<Record>, opens: seq<OpenSession>)
    requires forall r :: r in records ==> r.event.session.Some?
    ensures forall r :: r in records ==> r.event.session.value in Resume(records, opens).issued
    ensures OpenIds(opens) <= Resume(records, opens).issued
  {
    hide RestoredSessions, RememberedAttempts, OpenAttempts;
    forall r | r in records ensures r.event in EventsOf(records) {
      var i :| 0 <= i < |records| && records[i] == r;
      assert EventsOf(records)[i] == r.event;
    }
  }

  lemma StepKeepsCover(cfg: Config, sys: System, input: Input)
    requires SystemInv(cfg, sys) && IssuedCovers(sys)
    requires input.HostRestarts? ==> Quiet(sys.store)
    ensures IssuedCovers(Step(cfg, sys, input).0)
  {
    hide Inv, HandleAttempt, RecordOutcome, Resume;
    var h, st := sys.host, sys.store;
    match input
    case AttemptArrives(e, expected, env) => AttemptStores(cfg, h, st, e, expected, env);
    case OutcomeArrives(e, expected, env) => OutcomeStores(cfg, h, st, e, expected, env);
    case SessionOpens(s) =>
    case SessionCloses(s) =>
    case AppendLands(r) =>
    case HostRestarts(opens) =>
      ResumedIssued(st.records, opens);
      ResumeKeepsInv(cfg, h, st, opens);
  }

  lemma CoverIsFresh(sys: System, input: Input)
    requires IssuedCovers(sys)
    ensures FreshIfNew(sys, input)
  {
    forall e | e in EventsOf(Committed(sys.host.ledger, sys.store))
      ensures e.session.Some? && e.session.value in sys.host.issued
    {
      var c := Committed(sys.host.ledger, sys.store);
      var i :| 0 <= i < |c| && EventsOf(c)[i] == e;
      assert c[i] in sys.store.records;
    }
  }

  /** The one thing that can make an id look new to a host that once issued it is a restart while an
      append of its session was in flight; short of that, every run is fresh. */
  lemma {:induction false} CalmRunIsFresh(cfg: Config, sys: System, inputs: seq<Input>)
    requires SystemInv(cfg, sys) && IssuedCovers(sys) && CalmRestarts(cfg, sys, inputs)
    ensures FreshRun(cfg, sys, inputs)
    decreases |inputs|
  {
    hide SystemInv, Step, FreshIfNew, IssuedCovers;
    if inputs != [] {
      CoverIsFresh(sys, inputs[0]);
      StepKeepsInv(cfg, sys, inputs[0]);
      StepKeepsCover(cfg, sys, inputs[0]);
      CalmRunIsFresh(cfg, Step(cfg, sys, inputs[0]).0, inputs[1..]);
    }
  }

  /** From an empty store: with no restart while an append can still land, no id a host takes for new was used. */
  lemma CalmRestartsSuffice(cfg: Config, inputs: seq<Input>)
    requires CalmRestarts(cfg, START, inputs)
    ensures FreshRun(cfg, START, inputs)
  {
    hide SystemInv, CalmRestarts, FreshRun;
    StartInv(cfg);
    CalmRunIsFresh(cfg, START, inputs);
  }
}
