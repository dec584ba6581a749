/** Sending an event again: answered from the ledger, with nothing changed. */
module HostRepeats {
  import opened Events
  import opened Chain
  import opened Reasons
  import opened HostModel
  import opened HostInvariant
  import opened HostRestart
  import opened HostRuns
  import opened HostChain
  import opened HostEvents
  import opened HostAnswers

  /** The session has received the event's number, so receiving it again raises and flags nothing. */
  predicate ReceiptIn(x: Session, e: Event) {
    e.keyId.Some? && e.signerSeq.Some?
    && e.keyId.value in x.received && e.signerSeq.value <= x.received[e.keyId.value]
  }

  predicate ReceiptStands(cfg: Config, h: Host, e: Event) {
    e.session.Some? && e.session.value in h.sessions
    && (cfg.level2 ==> ReceiptIn(h.sessions[e.session.value], e))
  }

  /** The event is resent on its call, to a host whose tail is settled, while its signature still verifies. */
  ghost predicate Resendable(cfg: Config, h: Host, st: Store, e: Event, expected: Option<string>, env: Env) {
    && !h.tailUncertain && !env.expired
    && e in EventsOf(Committed(h.ledger, st))
    && e.session.Some? && e.session.value in h.sessions
    && (expected.Some? ==> expected == e.session)
    && (cfg.level2 ==> env.verdict.Verifies?)
  }

  lemma ReceiveAgain(h: Host, e: Event, s: string)
    requires s in h.sessions && e.keyId.Some? && e.signerSeq.Some?
    ensures Receive(h, e, s) == h <==> ReceiptIn(h.sessions[s], e)
    ensures var g := Receive(h, e, s);
            && g.sessions.Keys == h.sessions.Keys
            && g == h.(sessions := g.sessions, anomalies := g.anomalies)
  {
    var x := h.sessions[s];
    var k, n := e.keyId.value, e.signerSeq.value;
    if ReceiptIn(x, e) {
    } else {
      assert Receive(h, e, s).sessions[s].received[k] == n;
    }
  }

  lemma OneAttemptPerId(es: seq<Event>, d: Event, e: Event, level2: bool)
    requires AllMay(es, level2, false)
    requires d in es && e in es && IsAttempt(d) && IsAttempt(e) && d.id == e.id
    ensures d == e
  {
    var i :| 0 <= i < |es| && es[i] == d;
    var j :| 0 <= j < |es| && es[j] == e;
    var m, n := if i < j then i else j, if i < j then j else i;
    hide AllMay;
    if m < n {
      AttemptIdsDiffer(es, m, n, level2, false);
    }
  }

  lemma EventIn(c: seq<Record>, r: Record)
    requires r in c
    ensures r.event in EventsOf(c)
  {
    var i :| 0 <= i < |c| && c[i] == r;
    assert EventsOf(c)[i] == r.event;
  }

  lemma CommittedMay(cfg: Config, h: Host, st: Store)
    requires EventsInv(cfg, false, h, st)
    ensures AllMay(EventsOf(Committed(h.ledger, st)), cfg.level2, false)
  {
    var es := EventsOf(st.records);
    var c := EventsOf(Committed(h.ledger, st));
    forall i | 0 <= i < |c| ensures May(c[..i], c[i], cfg.level2, false) {
      assert c[..i] == es[..i];
      assert May(es[..i], es[i], cfg.level2, false);
    }
  }

  /** The index holds exactly the attempt that was sealed under the id. */
  lemma IndexedAttempt(cfg: Config, h: Host, st: Store, e: Event)
    requires EventsInv(cfg, false, h, st) && e in EventsOf(Committed(h.ledger, st)) && IsAttempt(e) && e.id.Some?
    ensures e.id.value in h.sealedAttempts && h.sealedAttempts[e.id.value].event == e
    ensures CommittedAs(h.ledger, st, e, AcceptOf(h.sealedAttempts[e.id.value]))
  {
    hide StoredInv, AllTrack, AllMay, CommittedAs, ChainInv;
    var c := Committed(h.ledger, st);
    assert Some(e.id.value) in AttemptIds(EventsOf(c));
    var r := h.sealedAttempts[e.id.value];
    EventIn(c, r);
    CommittedMay(cfg, h, st);
    OneAttemptPerId(EventsOf(c), r.event, e, cfg.level2);
    EventsParts(cfg, false, h, st);
    IndexedRecord(h.ledger, st, r);
  }

  /** The session answers for the attempt. */
  predicate IsAccepted(h: Host, e: Event) {
    e.session.Some? && e.id.Some? && e.session.value in h.sessions && e.id.value in h.sessions[e.session.value].accepted
  }

  /**
   * A committed attempt sent again is answered with its own accept and stores nothing. It changes nothing of the
   * host exactly when the session has its receipt and answers for it; otherwise the receipt, its gap flag and
   * the attempt are made good, and nothing else.
   */
  lemma ResendAttempt(cfg: Config, h: Host, st: Store, e: Event, expected: Option<string>, env: Env)
    requires EventsInv(cfg, false, h, st) && IsAttempt(e) && Resendable(cfg, h, st, e, expected, env)
    ensures var (g, st', a) := HandleAttempt(cfg, h, st, e, expected, env);
            && st' == st
            && CommittedAs(h.ledger, st, e, a)
            && (g == h <==> ReceiptStands(cfg, h, e) && IsAccepted(h, e))
            && MadeGood(h, g, e.session.value, if e.id.Some? then {e.id.value} else {})
  {
    hide EventsInv, SchemaValid, CommittedAs, Seal, NumberOf, Receive, ReceiptIn;
    CommittedFacts(cfg, h, st, e);
    var s := e.session.value;
    if cfg.level2 {
      ReceiveAgain(h, e, s);
    }
    IndexedAttempt(cfg, h, st, e);
    var (h2, check) := VerifySignature(cfg, h, e, s, env.verdict);
    assert check == Passed;
    ReceiveKeepsSets(cfg, h, e, s, env.verdict);
    var g := HandleAttempt(cfg, h, st, e, expected, env).0;
    assert g == WithSession(h2, s, h2.sessions[s].(accepted := h2.sessions[s].accepted + {e.id.value}));
    if e.id.value in h.sessions[s].accepted {
      assert h2.sessions[s].accepted + {e.id.value} == h2.sessions[s].accepted;
      assert WithSession(h2, s, h2.sessions[s]) == h2;
    } else {
      assert e.id.value in g.sessions[s].accepted;
    }
  }

  /** In session `s` the ids were accepted and a number was received; nothing else changed but the flags. */
  predicate MadeGood(h: Host, g: Host, s: string, ids: set<string>) {
    && s in h.sessions && s in g.sessions
    && g == h.(sessions := g.sessions, anomalies := g.anomalies)
    && g.sessions == h.sessions[s := g.sessions[s]]
    && g.sessions[s] == h.sessions[s].(accepted := h.sessions[s].accepted + ids, received := g.sessions[s].received)
  }

  lemma ReceiveKeepsSets(cfg: Config, h: Host, e: Event, s: string, verdict: Verdict)
    requires s in h.sessions && (cfg.level2 ==> verdict.Verifies?)
    requires cfg.level2 ==> e.keyId.Some? && e.signerSeq.Some? && e.signature.Some?
    ensures MadeGood(h, VerifySignature(cfg, h, e, s, verdict).0, s, {})
  {
    assert h.sessions[s].accepted + {} == h.sessions[s].accepted;
    assert h.sessions[s := h.sessions[s]] == h.sessions;
  }

  lemma CommittedFacts(cfg: Config, h: Host, st: Store, e: Event)
    requires EventsInv(cfg, false, h, st) && e in EventsOf(Committed(h.ledger, st))
    ensures SchemaValid(e) && e.canonical && e.id.Some? && e.session.Some?
    ensures cfg.level2 ==> e.keyId.Some? && e.signerSeq.Some? && e.signature.Some?
  {
    CommittedMay(cfg, h, st);
    hide EventsInv, AllMay;
    SoundEvents(EventsOf(Committed(h.ledger, st)), cfg.level2, false);
  }

  /** A sealed outcome sent again is reported as a repeat and stores nothing, and changes nothing of the host
      exactly when the session has its receipt. */
  lemma ResendOutcome(cfg: Config, h: Host, st: Store, e: Event, expected: Option<string>, env: Env)
    requires EventsInv(cfg, false, h, st) && !IsAttempt(e) && Resendable(cfg, h, st, e, expected, env)
    ensures var (g, st', d) := RecordOutcome(cfg, h, st, e, expected, env);
            && st' == st
            && d == Repeat
            && (g == h <==> ReceiptStands(cfg, h, e))
            && MadeGood(h, g, e.session.value, {})
  {
    CommittedFacts(cfg, h, st, e);
    EventsParts(cfg, false, h, st);
    assert e in h.sealedDigests;
    hide EventsInv, ChainInv, IndexInv, SchemaValid, Seal, NumberOf, Receive, ReceiptIn;
    if cfg.level2 {
      ReceiveAgain(h, e, e.session.value);
    }
    ReceiveKeepsSets(cfg, h, e, e.session.value, env.verdict);
  }

  // ----- receipts over a run -----

  /** Every event of an open session that is stored, or may still be, has its receipt. */
  ghost predicate Receipts(cfg: Config, sys: System) {
    forall r :: MayShow(sys.store, r)
      && r.event.session.Some? && r.event.session.value in sys.host.sessions
      ==> ReceiptStands(cfg, sys.host, r.event)
  }

  ghost predicate Raised(x: Session, y: Session) {
    forall k :: k in x.received ==> k in y.received && x.received[k] <= y.received[k]
  }

  /** In every session left open, receipts only go up. */
  ghost predicate ReceiptsRise(h: Host, g: Host) {
    h.sessions.Keys == g.sessions.Keys && forall s :: s in h.sessions ==> Raised(h.sessions[s], g.sessions[s])
  }

  lemma SettleReceipts(cfg: Config, h: Host, st: Store, reading: Reading)
    ensures ReceiptsRise(h, SettleTail(cfg, h, st, reading).0)
  {
  }

  lemma VerifyReceipts(cfg: Config, h: Host, e: Event, s: string, verdict: Verdict)
    requires s in h.sessions
    ensures var (g, check) := VerifySignature(cfg, h, e, s, verdict);
            && ReceiptsRise(h, g)
            && (cfg.level2 && check == Passed ==> ReceiptIn(g.sessions[s], e))
  {
  }

  lemma AccountKeepsReceived(cfg: Config, x: Session, e: Event)
    ensures AccountTo(cfg, x, e).received == x.received && Decide(cfg, x, e).received == x.received
  {
  }

  lemma SealSessions(cfg: Config, h: Host, st: Store, e: Event, env: Env)
    ensures Seal(cfg, h, st, e, env).0.sessions == h.sessions
  {
  }

  lemma ConcludeAttemptReceipts(cfg: Config, h: Host, st: Store, e: Event, s: string, env: Env)
    requires s in h.sessions
    ensures ReceiptsRise(h, ConcludeAttempt(cfg, h, st, e, s, env).0)
  {
    hide AlreadyDecided, Seal, AccountTo, Decide;
    SealSessions(cfg, h, st, e, env);
    AccountKeepsReceived(cfg, h.sessions[s], e);
  }

  lemma ConcludeOutcomeReceipts(cfg: Config, h: Host, st: Store, e: Event, s: string, env: Env)
    requires s in h.sessions
    ensures ReceiptsRise(h, ConcludeOutcome(cfg, h, st, e, s, env).0)
  {
    hide AlreadyDecided, Seal, AccountTo, Decide;
    SealSessions(cfg, h, st, e, env);
    AccountKeepsReceived(cfg, h.sessions[s], e);
  }

  lemma RiseChains(a: Host, b: Host, c: Host)
    requires ReceiptsRise(a, b) && ReceiptsRise(b, c)
    ensures ReceiptsRise(a, c)
  {
  }

  lemma RiseKeepsReceipt(cfg: Config, a: Host, b: Host, e: Event)
    requires ReceiptsRise(a, b) && ReceiptStands(cfg, a, e)
    ensures ReceiptStands(cfg, b, e)
  {
  }

  lemma AttemptReceipts(cfg: Config, h: Host, st: Store, e: Event, expected: Option<string>, env: Env)
    ensures var (g, st', _) := HandleAttempt(cfg, h, st, e, expected, env);
            && ReceiptsRise(h, g)
            && (st' != st ==> ReceiptStands(cfg, g, e))
  {
    hide SettleTail, ConcludeAttempt, VerifySignature, SchemaValid, ReceiptsRise;
    SettleReceipts(cfg, h, st, env.reading);
    var h0 := SettleTail(cfg, h, st, env.reading).0;
    SameReceipts(h);
    FlagReceipts(h, h0, EventId(e));
    var (h1, admission) := Admit(h0, e, expected, true);
    if admission.Admitted? {
      var s := admission.session;
      VerifyReceipts(cfg, h0, e, s, env.verdict);
      var h2 := VerifySignature(cfg, h0, e, s, env.verdict).0;
      RiseChains(h, h0, h2);
      RejectionReceipts(h, h2, EventId(e));
      ReceiptKeys(h0, h2);
      ConcludeAttemptReceipts(cfg, h2, st, e, s, env);
      var h3 := ConcludeAttempt(cfg, h2, st, e, s, env).0;
      RiseChains(h, h2, h3);
      if VerifySignature(cfg, h0, e, s, env.verdict).1 == Passed {
        RiseKeepsReceipt(cfg, h2, h3, e);
      }
    }
  }

  lemma OutcomeReceipts(cfg: Config, h: Host, st: Store, e: Event, expected: Option<string>, env: Env)
    ensures var (g, st', _) := RecordOutcome(cfg, h, st, e, expected, env);
            && ReceiptsRise(h, g)
            && (st' != st ==> ReceiptStands(cfg, g, e))
  {
    hide SettleTail, ConcludeOutcome, VerifySignature, SchemaValid, ReceiptsRise;
    SettleReceipts(cfg, h, st, env.reading);
    var h0 := SettleTail(cfg, h, st, env.reading).0;
    FlagReceipts(h, h0, EventId(e));
    var (h1, admission) := Admit(h0, e, expected, false);
    if admission.Admitted? {
      var s := admission.session;
      VerifyReceipts(cfg, h0, e, s, env.verdict);
      var h2 := VerifySignature(cfg, h0, e, s, env.verdict).0;
      RiseChains(h, h0, h2);
      ReceiptKeys(h0, h2);
      ConcludeOutcomeReceipts(cfg, h2, st, e, s, env);
      var h3 := ConcludeOutcome(cfg, h2, st, e, s, env).0;
      RiseChains(h, h2, h3);
      if VerifySignature(cfg, h0, e, s, env.verdict).1 == Passed {
        RiseKeepsReceipt(cfg, h2, h3, e);
      }
    }
  }

  lemma SameReceipts(h: Host)
    ensures ReceiptsRise(h, h)
  {
  }

  lemma ReceiptKeys(h: Host, g: Host)
    requires ReceiptsRise(h, g)
    ensures h.sessions.Keys == g.sessions.Keys
  {
  }

  lemma FlagReceipts(h: Host, g: Host, id: string)
    requires ReceiptsRise(h, g)
    ensures ReceiptsRise(h, Flag(g, id, SchemaInvalid)) && ReceiptsRise(h, Flag(g, id, ReplayDetected))
  {
  }

  lemma RejectionReceipts(h: Host, g: Host, id: string)
    requires ReceiptsRise(h, g)
    ensures ReceiptsRise(h, g.(rejectedIds := g.rejectedIds + {id}))
  {
  }

  lemma {:induction false} RestoredReceipts(s: string, es: seq<Event>, e: Event)
    requires e in es && e.session == Some(s) && e.version == Some(V04) && e.keyId.Some? && e.signerSeq.Some?
    ensures ReceiptIn(RestoredSession(s, es), e)
  {
    var before, last := es[..|es| - 1], es[|es| - 1];
    assert es == before + [last];
    if e in before {
      RestoredReceipts(s, before, e);
    }
  }

  lemma {:induction false} RestartReceipts(opens: seq<OpenSession>, es: seq<Event>, e: Event, s: string)
    requires e in es && e.session == Some(s) && e.version == Some(V04) && e.keyId.Some? && e.signerSeq.Some?
    requires s in RestoredSessions(opens, es)
    ensures ReceiptIn(RestoredSessions(opens, es)[s], e)
  {
    hide RestoredSession;
    var os, o := opens[..|opens| - 1], opens[|opens| - 1];
    if o.sessionId == s {
      RestoredReceipts(s, es, e);
    } else {
      RestartReceipts(os, es, e, s);
    }
  }

  lemma StepKeepsReceipts(cfg: Config, sys: System, input: Input)
    requires SystemInv(cfg, sys) && IssuedCovers(sys) && Receipts(cfg, sys)
    requires input.HostRestarts? ==> Quiet(sys.store)
    ensures Receipts(cfg, Step(cfg, sys, input).0)
  {
    hide Inv, HandleAttempt, RecordOutcome, Resume, ReceiptIn, ReceiptsRise, MadeFrom;
    var h, st := sys.host, sys.store;
    match input
    case AttemptArrives(e, expected, env) =>
      AttemptReceipts(cfg, h, st, e, expected, env);
      AttemptStores(cfg, h, st, e, expected, env);
      GrownReceipts(cfg, sys, Step(cfg, sys, input).0, e, env);
    case OutcomeArrives(e, expected, env) =>
      OutcomeReceipts(cfg, h, st, e, expected, env);
      OutcomeStores(cfg, h, st, e, expected, env);
      GrownReceipts(cfg, sys, Step(cfg, sys, input).0, e, env);
    case SessionOpens(s) =>
    case SessionCloses(s) =>
    case AppendLands(r) =>
    case HostRestarts(opens) => ResumedReceipts(cfg, sys, opens);
  }

  lemma GrownReceipts(cfg: Config, sys: System, next: System, e: Event, env: Env)
    requires Receipts(cfg, sys) && ReceiptsRise(sys.host, next.host)
    requires StoreGrows(cfg, sys.store, next.store, e, env)
    requires next.store != sys.store ==> ReceiptStands(cfg, next.host, e)
    ensures Receipts(cfg, next)
  {
    hide ReceiptStands;
    ReceiptKeys(sys.host, next.host);
    forall r | MayShow(next.store, r)
               && r.event.session.Some? && r.event.session.value in next.host.sessions
      ensures ReceiptStands(cfg, next.host, r.event)
    {
      if MayShow(sys.store, r) {
        RiseKeepsReceipt(cfg, sys.host, next.host, r.event);
      }
    }
  }

  lemma ResumedReceipts(cfg: Config, sys: System, opens: seq<OpenSession>)
    requires SystemInv(cfg, sys) && Quiet(sys.store)
    ensures Receipts(cfg, System(Resume(sys.store.records, opens), sys.store))
  {
    hide Inv, RestoredSessions, RememberedAttempts, OpenAttempts, SchemaValid, ReceiptIn;
    var g := Resume(sys.store.records, opens);
    var es := EventsOf(sys.store.records);
    forall r | r in sys.store.records && r.event.session.Some? && r.event.session.value in g.sessions
      ensures ReceiptStands(cfg, g, r.event)
    {
      StoredFacts(cfg, sys, r);
      if cfg.level2 {
        RestartReceipts(opens, es, r.event, r.event.session.value);
      }
    }
  }

  lemma StoredFacts(cfg: Config, sys: System, r: Record)
    requires SystemInv(cfg, sys) && r in sys.store.records
    ensures r.event in EventsOf(sys.store.records)
    ensures r.event.version == Some(V04)
    ensures cfg.level2 ==> r.event.keyId.Some? && r.event.signerSeq.Some?
  {
    hide HostInv, Linked, Extends, HeldInv;
    var es := EventsOf(sys.store.records);
    var i :| 0 <= i < |es| && sys.store.records[i] == r;
    assert es[i] == r.event;
    assert Fits(es[..i], es[i], cfg.level2);
  }

  lemma {:induction false} CalmRunKeepsReceipts(cfg: Config, sys: System, inputs: seq<Input>)
    requires SystemInv(cfg, sys) && IssuedCovers(sys) && Receipts(cfg, sys) && CalmRestarts(cfg, sys, inputs)
    ensures SystemInv(cfg, Run(cfg, sys, inputs)) && Receipts(cfg, Run(cfg, sys, inputs))
    decreases |inputs|
  {
    hide SystemInv, IssuedCovers, Receipts, Step, FreshIfNew;
    if inputs != [] {
      CoverIsFresh(sys, inputs[0]);
      StepKeepsInv(cfg, sys, inputs[0]);
      StepKeepsCover(cfg, sys, inputs[0]);
      StepKeepsReceipts(cfg, sys, inputs[0]);
      CalmRunKeepsReceipts(cfg, Step(cfg, sys, inputs[0]).0, inputs[1..]);
    }
  }

  lemma StartReceipts(cfg: Config)
    ensures IssuedCovers(START) && Receipts(cfg, START)
  {
  }
}
