/** A restart, seen from the sessions that stay open over it. */
module HostResumption {
  import opened Events
  import opened Chain
  import opened Reasons
  import opened HostModel
  import opened HostInvariant
  import opened HostRestart
  import opened HostRuns
  import opened HostRepeats

  /** The anomalies two hosts started the comparison with. */
  datatype Baseline = Baseline(running: multiset<Anomaly>, resumed: multiset<Anomaly>)

  ghost predicate SameSession(cfg: Config, exact: bool, x: Session, y: Session) {
    && x.accepted == y.accepted && x.resolved == y.resolved && x.outcomes == y.outcomes
    && (cfg.level2 ==> x.decided == y.decided)
    && (exact ==> x.received == y.received)
  }

  /**
   * Two hosts that answer alike. They may differ in the ids they issued, the ids they rejected and the
   * records they hold in memory; with a baseline they have also received the same numbers and flagged
   * the same anomalies since.
   */
  ghost predicate Twins(cfg: Config, base: Option<Baseline>, h: Host, g: Host) {
    && h.ledger.count == g.ledger.count && h.ledger.tailHash == g.ledger.tailHash
    && h.tailUncertain == g.tailUncertain
    && h.sealedAttempts == g.sealedAttempts && h.sealedDigests == g.sealedDigests
    && h.sessions.Keys == g.sessions.Keys
    && (forall s :: s in h.sessions ==> SameSession(cfg, base.Some?, h.sessions[s], g.sessions[s]))
    && (base.Some? ==> h.anomalies + base.value.resumed == g.anomalies + base.value.running)
  }

  // ----- twins stay twins -----

  lemma SameSum(a: multiset<Anomaly>, b: multiset<Anomaly>, c: multiset<Anomaly>, d: multiset<Anomaly>,
                m: multiset<Anomaly>)
    requires a + b == c + d
    ensures (a + m) + b == (c + m) + d
  {
    assert (a + m) + b == (a + b) + m;
    assert (c + m) + d == (c + d) + m;
  }

  lemma FlagTwins(cfg: Config, base: Option<Baseline>, h: Host, g: Host, id: string, c: Code)
    requires Twins(cfg, base, h, g)
    ensures Twins(cfg, base, Flag(h, id, c), Flag(g, id, c))
  {
    hide SameSession, AnomalyKindOf;
    if base.Some? {
      SameSum(h.anomalies, base.value.resumed, g.anomalies, base.value.running,
              multiset{Anomaly(id, AnomalyKindOf(c))});
    }
  }

  lemma SessionTwins(cfg: Config, base: Option<Baseline>, h: Host, g: Host, s: string, x: Session, y: Session)
    requires Twins(cfg, base, h, g) && SameSession(cfg, base.Some?, x, y)
    ensures Twins(cfg, base, WithSession(h, s, x), WithSession(g, s, y))
  {
    hide SameSession;
  }

  lemma RejectedTwins(cfg: Config, base: Option<Baseline>, h: Host, g: Host, a: set<string>, b: set<string>)
    requires Twins(cfg, base, h, g)
    ensures Twins(cfg, base, h.(rejectedIds := a), g.(rejectedIds := b))
  {
    hide SameSession;
  }

  lemma UncertainTwins(cfg: Config, base: Option<Baseline>, h: Host, g: Host, u: bool)
    requires Twins(cfg, base, h, g)
    ensures Twins(cfg, base, h.(tailUncertain := u), g.(tailUncertain := u))
  {
    hide SameSession;
  }

  lemma ResumedTwins(cfg: Config, base: Option<Baseline>, h: Host, g: Host, l: LedgerState)
    requires Twins(cfg, base, h, g)
    ensures Twins(cfg, base, h.(ledger := l), g.(ledger := l))
  {
    hide SameSession;
  }

  lemma CommitTwins(cfg: Config, base: Option<Baseline>, h: Host, g: Host, r: Record)
    requires Twins(cfg, base, h, g)
    ensures Twins(cfg, base, CommitAndRemember(h, r), CommitAndRemember(g, r))
  {
    hide SameSession;
  }

  lemma SessionOf(cfg: Config, base: Option<Baseline>, h: Host, g: Host, s: string)
    requires Twins(cfg, base, h, g) && s in h.sessions
    ensures s in g.sessions && SameSession(cfg, base.Some?, h.sessions[s], g.sessions[s])
  {
  }

  lemma AccountTwins(cfg: Config, exact: bool, x: Session, y: Session, e: Event)
    requires SameSession(cfg, exact, x, y)
    ensures SameSession(cfg, exact, AccountTo(cfg, x, e), AccountTo(cfg, y, e))
    ensures SameSession(cfg, exact, Decide(cfg, x, e), Decide(cfg, y, e))
    ensures AlreadyDecided(cfg, x, e) == AlreadyDecided(cfg, y, e)
  {
  }

  lemma AbsorbTwins(cfg: Config, base: Option<Baseline>, h: Host, g: Host, r: Record)
    requires Twins(cfg, base, h, g)
    ensures Twins(cfg, base, Absorb(cfg, h, r), Absorb(cfg, g, r))
  {
    hide SameSession, AccountTo, CommitAndRemember;
    CommitTwins(cfg, base, h, g, r);
    CommitSessions(h, r);
    CommitSessions(g, r);
    if r.event.session.Some? && r.event.session.value in h.sessions {
      var s := r.event.session.value;
      SessionOf(cfg, base, h, g, s);
      AccountTwins(cfg, base.Some?, h.sessions[s], g.sessions[s], r.event);
      SessionTwins(cfg, base, CommitAndRemember(h, r), CommitAndRemember(g, r), s,
                   AccountTo(cfg, h.sessions[s], r.event), AccountTo(cfg, g.sessions[s], r.event));
    }
  }

  lemma CommitSessions(h: Host, r: Record)
    ensures CommitAndRemember(h, r).sessions == h.sessions
  {
  }

  lemma SettleTwins(cfg: Config, base: Option<Baseline>, h: Host, g: Host, st: Store, reading: Reading)
    requires Twins(cfg, base, h, g)
    ensures Twins(cfg, base, SettleTail(cfg, h, st, reading).0, SettleTail(cfg, g, st, reading).0)
    ensures SettleTail(cfg, h, st, reading).1 == SettleTail(cfg, g, st, reading).1
  {
    hide SameSession, Absorb, ResumeFrom;
    if h.tailUncertain && reading == ReadTail {
      UncertainTwins(cfg, base, h, g, false);
      if st.records != [] {
        var r := st.records[|st.records| - 1];
        AbsorbTwins(cfg, base, h, g, r);
        UncertainTwins(cfg, base, Absorb(cfg, h, r), Absorb(cfg, g, r), false);
        var l := ResumeFrom(st.records);
        ResumedTwins(cfg, base, h, g, l);
        UncertainTwins(cfg, base, h.(ledger := l), g.(ledger := l), false);
      }
    }
  }

  lemma AdmitTwins(cfg: Config, base: Option<Baseline>, h: Host, g: Host, e: Event, expected: Option<string>,
                   attempt: bool)
    requires Twins(cfg, base, h, g)
    ensures Twins(cfg, base, Admit(h, e, expected, attempt).0, Admit(g, e, expected, attempt).0)
    ensures Admit(h, e, expected, attempt).1 == Admit(g, e, expected, attempt).1
  {
    hide SameSession, SchemaValid, Flag;
    FlagTwins(cfg, base, h, g, EventId(e), SchemaInvalid);
    FlagTwins(cfg, base, h, g, EventId(e), ReplayDetected);
  }

  /** Receiving a number touches what the session has received, and the flags. */
  lemma ReceiveChanges(h: Host, e: Event, s: string)
    requires s in h.sessions && e.keyId.Some? && e.signerSeq.Some?
    ensures var g := Receive(h, e, s);
            && s in g.sessions
            && g == WithSession(h, s, h.sessions[s].(received := g.sessions[s].received)).(anomalies := g.anomalies)
  {
    assert WithSession(h, s, h.sessions[s]) == h;
  }

  lemma ReceiptTwins(cfg: Config, h: Host, g: Host, s: string, h': Host, g': Host)
    requires Twins(cfg, None, h, g) && s in h.sessions && s in g.sessions && s in h'.sessions && s in g'.sessions
    requires h' == WithSession(h, s, h.sessions[s].(received := h'.sessions[s].received)).(anomalies := h'.anomalies)
    requires g' == WithSession(g, s, g.sessions[s].(received := g'.sessions[s].received)).(anomalies := g'.anomalies)
    ensures Twins(cfg, None, h', g')
  {
  }

  lemma SameReceiptTwins(cfg: Config, base: Option<Baseline>, h: Host, g: Host, s: string, received: map<string, int>)
    requires Twins(cfg, base, h, g) && s in h.sessions && s in g.sessions
    ensures Twins(cfg, base, WithSession(h, s, h.sessions[s].(received := received)),
                  WithSession(g, s, g.sessions[s].(received := received)))
  {
    SessionOf(cfg, base, h, g, s);
    SessionTwins(cfg, base, h, g, s, h.sessions[s].(received := received), g.sessions[s].(received := received));
  }

  lemma ReceiveTwins(cfg: Config, base: Option<Baseline>, h: Host, g: Host, e: Event, s: string)
    requires Twins(cfg, base, h, g) && s in h.sessions && s in g.sessions && e.keyId.Some? && e.signerSeq.Some?
    ensures Twins(cfg, base, Receive(h, e, s), Receive(g, e, s))
  {
    hide SameSession, Twins, Flag;
    if base.Some? {
      SameReceived(cfg, base, h, g, s);
      FlagTwins(cfg, base, h, g, EventId(e), SignerSeqGap);
      FlagSessions(h, EventId(e), SignerSeqGap);
      FlagSessions(g, EventId(e), SignerSeqGap);
      var received := h.sessions[s].received[e.keyId.value := e.signerSeq.value];
      SameReceiptTwins(cfg, base, h, g, s, received);
      SameReceiptTwins(cfg, base, Flag(h, EventId(e), SignerSeqGap), Flag(g, EventId(e), SignerSeqGap), s, received);
    } else {
      ReceiveChanges(h, e, s);
      ReceiveChanges(g, e, s);
      ReceiptTwins(cfg, h, g, s, Receive(h, e, s), Receive(g, e, s));
    }
  }

  lemma SameReceived(cfg: Config, base: Option<Baseline>, h: Host, g: Host, s: string)
    requires Twins(cfg, base, h, g) && base.Some? && s in h.sessions && s in g.sessions
    ensures h.sessions[s].received == g.sessions[s].received
  {
  }

  lemma FlagSessions(h: Host, id: string, c: Code)
    ensures Flag(h, id, c).sessions == h.sessions
  {
  }

  lemma VerifyTwins(cfg: Config, base: Option<Baseline>, h: Host, g: Host, e: Event, s: string, verdict: Verdict)
    requires Twins(cfg, base, h, g) && s in h.sessions && s in g.sessions
    ensures Twins(cfg, base, VerifySignature(cfg, h, e, s, verdict).0, VerifySignature(cfg, g, e, s, verdict).0)
    ensures VerifySignature(cfg, h, e, s, verdict).1 == VerifySignature(cfg, g, e, s, verdict).1
  {
    hide Twins, Receive, Flag;
    if cfg.level2 && e.keyId.Some? && e.signerSeq.Some? {
      ReceiveTwins(cfg, base, h, g, e, s);
      if verdict.Refuses? {
        FlagTwins(cfg, base, h, g, EventId(e), verdict.reason);
      }
    }
    FlagTwins(cfg, base, h, g, EventId(e), L2Unsigned);
  }

  lemma SealTwins(cfg: Config, base: Option<Baseline>, h: Host, g: Host, st: Store, e: Event, env: Env)
    requires Twins(cfg, base, h, g)
    ensures Twins(cfg, base, Seal(cfg, h, st, e, env).0, Seal(cfg, g, st, e, env).0)
    ensures Seal(cfg, h, st, e, env).1 == Seal(cfg, g, st, e, env).1
    ensures Seal(cfg, h, st, e, env).2 == Seal(cfg, g, st, e, env).2
    ensures Seal(cfg, h, st, e, env).0.sessions == h.sessions && Seal(cfg, g, st, e, env).0.sessions == g.sessions
  {
    hide SameSession, CommitAndRemember, Append, Countersigned;
    UncertainTwins(cfg, base, h, g, true);
    var r := Countersigned(cfg, NextRecord(e, h.ledger.count, env.now, h.ledger.tailHash), env.signing);
    CommitTwins(cfg, base, h, g, r);
    CommitSessions(h, r);
    CommitSessions(g, r);
  }

  lemma RejectReplayTwins(cfg: Config, base: Option<Baseline>, h: Host, g: Host, e: Event, s: string)
    requires Twins(cfg, base, h, g) && s in h.sessions && s in g.sessions
    ensures Twins(cfg, base, RejectReplay(cfg, h, e, s), RejectReplay(cfg, g, e, s))
  {
    SessionOf(cfg, base, h, g, s);
    hide Twins, SameSession, Decide, Flag;
    AccountTwins(cfg, base.Some?, h.sessions[s], g.sessions[s], e);
    var h1 := WithSession(h, s, Decide(cfg, h.sessions[s], e));
    var g1 := WithSession(g, s, Decide(cfg, g.sessions[s], e));
    SessionTwins(cfg, base, h, g, s, Decide(cfg, h.sessions[s], e), Decide(cfg, g.sessions[s], e));
    RejectedTwins(cfg, base, h1, g1, h1.rejectedIds + {EventId(e)}, g1.rejectedIds + {EventId(e)});
    FlagTwins(cfg, base, h1.(rejectedIds := h1.rejectedIds + {EventId(e)}),
              g1.(rejectedIds := g1.rejectedIds + {EventId(e)}), EventId(e), ReplayDetected);
  }

  lemma AcceptedTwins(cfg: Config, exact: bool, x: Session, y: Session, id: string)
    requires SameSession(cfg, exact, x, y)
    ensures SameSession(cfg, exact, x.(accepted := x.accepted + {id}), y.(accepted := y.accepted + {id}))
  {
  }

  lemma ConcludeAttemptTwins(cfg: Config, base: Option<Baseline>, h: Host, g: Host, st: Store, e: Event, s: string,
                             env: Env)
    requires Twins(cfg, base, h, g) && s in h.sessions && s in g.sessions
    ensures var (h', sh, a) := ConcludeAttempt(cfg, h, st, e, s, env);
            var (g', sg, b) := ConcludeAttempt(cfg, g, st, e, s, env);
            Twins(cfg, base, h', g') && sh == sg && a == b
  {
    SameViews(cfg, base, h, g, e, s);
    SessionOf(cfg, base, h, g, s);
    var x, y := h.sessions[s], g.sessions[s];
    hide Twins, SameSession, Seal, AccountTo, AlreadyDecided, RejectReplay, WithSession;
    AcceptedTwins(cfg, base.Some?, x, y, EventId(e));
    SessionTwins(cfg, base, h, g, s, x.(accepted := x.accepted + {EventId(e)}),
                 y.(accepted := y.accepted + {EventId(e)}));
    RejectReplayTwins(cfg, base, h, g, e, s);
    SealedTwins(cfg, base, h, g, st, e, s, env);
  }

  /** What is held back from the session is the same, whichever rule holds it back. */
  lemma DecidedTwins(cfg: Config, base: Option<Baseline>, h: Host, g: Host, e: Event, s: string, c: Code)
    requires Twins(cfg, base, h, g) && s in h.sessions && s in g.sessions
    ensures Twins(cfg, base, Flag(WithSession(h, s, Decide(cfg, h.sessions[s], e)), EventId(e), c),
                  Flag(WithSession(g, s, Decide(cfg, g.sessions[s], e)), EventId(e), c))
  {
    SessionOf(cfg, base, h, g, s);
    hide Twins, SameSession, Decide, WithSession, Flag;
    AccountTwins(cfg, base.Some?, h.sessions[s], g.sessions[s], e);
    SessionTwins(cfg, base, h, g, s, Decide(cfg, h.sessions[s], e), Decide(cfg, g.sessions[s], e));
    FlagTwins(cfg, base, WithSession(h, s, Decide(cfg, h.sessions[s], e)),
              WithSession(g, s, Decide(cfg, g.sessions[s], e)), EventId(e), c);
  }

  lemma SealedTwins(cfg: Config, base: Option<Baseline>, h: Host, g: Host, st: Store, e: Event, s: string, env: Env)
    requires Twins(cfg, base, h, g) && s in h.sessions && s in g.sessions
    ensures var h', g' := Seal(cfg, h, st, e, env).0, Seal(cfg, g, st, e, env).0;
            && Twins(cfg, base, h', g')
            && Twins(cfg, base, WithSession(h', s, AccountTo(cfg, h.sessions[s], e)),
                     WithSession(g', s, AccountTo(cfg, g.sessions[s], e)))
    ensures Seal(cfg, h, st, e, env).1 == Seal(cfg, g, st, e, env).1
    ensures Seal(cfg, h, st, e, env).2 == Seal(cfg, g, st, e, env).2
  {
    SessionOf(cfg, base, h, g, s);
    hide Twins, SameSession, Seal, AccountTo, WithSession;
    AccountTwins(cfg, base.Some?, h.sessions[s], g.sessions[s], e);
    SealTwins(cfg, base, h, g, st, e, env);
    SessionTwins(cfg, base, Seal(cfg, h, st, e, env).0, Seal(cfg, g, st, e, env).0, s,
                 AccountTo(cfg, h.sessions[s], e), AccountTo(cfg, g.sessions[s], e));
  }

  lemma ConcludeOutcomeTwins(cfg: Config, base: Option<Baseline>, h: Host, g: Host, st: Store, e: Event, s: string,
                             env: Env)
    requires Twins(cfg, base, h, g) && s in h.sessions && s in g.sessions
    ensures var (h', sh, a) := ConcludeOutcome(cfg, h, st, e, s, env);
            var (g', sg, b) := ConcludeOutcome(cfg, g, st, e, s, env);
            Twins(cfg, base, h', g') && sh == sg && a == b
  {
    SameViews(cfg, base, h, g, e, s);
    hide Twins, SameSession, Seal, AccountTo, Decide, AlreadyDecided, WithSession, Flag;
    DecidedTwins(cfg, base, h, g, e, s, ReplayDetected);
    DecidedTwins(cfg, base, h, g, e, s, OrphanedOutcome);
    FlagTwins(cfg, base, h, g, EventId(e), ReplayDetected);
    SealedTwins(cfg, base, h, g, st, e, s, env);
  }

  lemma SameViews(cfg: Config, base: Option<Baseline>, h: Host, g: Host, e: Event, s: string)
    requires Twins(cfg, base, h, g) && s in h.sessions && s in g.sessions
    ensures h.sealedAttempts == g.sealedAttempts && h.sealedDigests == g.sealedDigests
    ensures h.sessions[s].accepted == g.sessions[s].accepted && h.sessions[s].outcomes == g.sessions[s].outcomes
    ensures AlreadyDecided(cfg, h.sessions[s], e) == AlreadyDecided(cfg, g.sessions[s], e)
  {
    AccountTwins(cfg, base.Some?, h.sessions[s], g.sessions[s], e);
  }

  lemma AttemptTwins(cfg: Config, base: Option<Baseline>, h: Host, g: Host, st: Store, e: Event,
                     expected: Option<string>, env: Env)
    requires Twins(cfg, base, h, g)
    ensures var (h', sh, a) := HandleAttempt(cfg, h, st, e, expected, env);
            var (g', sg, b) := HandleAttempt(cfg, g, st, e, expected, env);
            Twins(cfg, base, h', g') && sh == sg && a == b
  {
    hide Twins, SettleTail, VerifySignature, ConcludeAttempt, SchemaValid;
    SettleTwins(cfg, base, h, g, st, env.reading);
    var h0, g0 := SettleTail(cfg, h, st, env.reading).0, SettleTail(cfg, g, st, env.reading).0;
    AdmitTwins(cfg, base, h0, g0, e, expected, true);
    var (h1, admission) := Admit(h0, e, expected, true);
    var g1 := Admit(g0, e, expected, true).0;
    if admission.Admitted? {
      var s := admission.session;
      VerifyIssued(cfg, h1, e, s, env.verdict);
      VerifyIssued(cfg, g1, e, s, env.verdict);
      VerifyTwins(cfg, base, h1, g1, e, s, env.verdict);
      var h2, g2 := VerifySignature(cfg, h1, e, s, env.verdict).0, VerifySignature(cfg, g1, e, s, env.verdict).0;
      RejectedTwins(cfg, base, h2, g2, h2.rejectedIds + {EventId(e)}, g2.rejectedIds + {EventId(e)});
      ConcludeAttemptTwins(cfg, base, h2, g2, st, e, s, env);
    }
  }

  lemma OutcomeTwins(cfg: Config, base: Option<Baseline>, h: Host, g: Host, st: Store, e: Event,
                     expected: Option<string>, env: Env)
    requires Twins(cfg, base, h, g)
    ensures var (h', sh, a) := RecordOutcome(cfg, h, st, e, expected, env);
            var (g', sg, b) := RecordOutcome(cfg, g, st, e, expected, env);
            Twins(cfg, base, h', g') && sh == sg && a == b
  {
    hide Twins, SettleTail, VerifySignature, ConcludeOutcome, SchemaValid;
    SettleTwins(cfg, base, h, g, st, env.reading);
    var h0, g0 := SettleTail(cfg, h, st, env.reading).0, SettleTail(cfg, g, st, env.reading).0;
    AdmitTwins(cfg, base, h0, g0, e, expected, false);
    var (h1, admission) := Admit(h0, e, expected, false);
    var g1 := Admit(g0, e, expected, false).0;
    if admission.Admitted? {
      var s := admission.session;
      VerifyIssued(cfg, h1, e, s, env.verdict);
      VerifyIssued(cfg, g1, e, s, env.verdict);
      VerifyTwins(cfg, base, h1, g1, e, s, env.verdict);
      ConcludeOutcomeTwins(cfg, base, VerifySignature(cfg, h1, e, s, env.verdict).0,
                           VerifySignature(cfg, g1, e, s, env.verdict).0, st, e, s, env);
    }
  }

  lemma CloseTwins(cfg: Config, base: Option<Baseline>, h: Host, g: Host, s: string)
    requires Twins(cfg, base, h, g)
    ensures Twins(cfg, base, CloseSession(h, s), CloseSession(g, s))
  {
    if s in h.sessions {
      SessionOf(cfg, base, h, g, s);
      var ids := h.sessions[s].accepted - h.sessions[s].resolved;
      assert ids == g.sessions[s].accepted - g.sessions[s].resolved;
      hide SameSession, Unresolved;
      if base.Some? {
        SameSum(h.anomalies, base.value.resumed, g.anomalies, base.value.running, multiset(Unresolved(ids)));
      }
    }
  }

  lemma OpenTwins(cfg: Config, base: Option<Baseline>, h: Host, g: Host, s: string)
    requires Twins(cfg, base, h, g)
    ensures Twins(cfg, base, OpenNew(h, s), OpenNew(g, s))
  {
  }

  /** Inputs a restart may come between unseen, further restarts included: an id opened later is one both
      hosts issued, or neither. */
  ghost predicate SameOpenings(cfg: Config, a: System, b: System, inputs: seq<Input>)
    decreases |inputs|
  {
    inputs != [] ==>
      && (inputs[0].SessionOpens? ==> (inputs[0].session in a.host.issued <==> inputs[0].session in b.host.issued))
      && SameOpenings(cfg, Step(cfg, a, inputs[0]).0, Step(cfg, b, inputs[0]).0, inputs[1..])
  }

  lemma StepTwins(cfg: Config, base: Option<Baseline>, a: System, b: System, input: Input)
    requires Twins(cfg, base, a.host, b.host) && a.store == b.store
    requires base.Some? ==> !input.HostRestarts?
    requires input.SessionOpens? ==> (input.session in a.host.issued <==> input.session in b.host.issued)
    ensures var (a', x) := Step(cfg, a, input);
            var (b', y) := Step(cfg, b, input);
            Twins(cfg, base, a'.host, b'.host) && a'.store == b'.store && x == y
  {
    hide Twins, HandleAttempt, RecordOutcome, CloseSession, OpenNew, Land, Resume;
    match input
    case HostRestarts(opens) => SelfTwins(cfg, Resume(a.store.records, opens));
    case AttemptArrives(e, expected, env) => AttemptTwins(cfg, base, a.host, b.host, a.store, e, expected, env);
    case OutcomeArrives(e, expected, env) => OutcomeTwins(cfg, base, a.host, b.host, a.store, e, expected, env);
    case SessionOpens(s) => OpenTwins(cfg, base, a.host, b.host, s);
    case SessionCloses(s) => CloseTwins(cfg, base, a.host, b.host, s);
    case AppendLands(r) =>
  }

  /** Two hosts resumed alike are one. */
  lemma SelfTwins(cfg: Config, h: Host)
    ensures Twins(cfg, None, h, h)
  {
  }

  /** The replies of a run, in order. */
  function Replies(cfg: Config, sys: System, inputs: seq<Input>): seq<Reply>
    decreases |inputs|
  {
    if inputs == [] then
      []
    else
      var (next, reply) := Step(cfg, sys, inputs[0]);
      [reply] + Replies(cfg, next, inputs[1..])
  }

  lemma {:induction false} RunTwins(cfg: Config, base: Option<Baseline>, a: System, b: System, inputs: seq<Input>)
    requires Twins(cfg, base, a.host, b.host) && a.store == b.store && SameOpenings(cfg, a, b, inputs)
    requires base.Some? ==> forall i :: 0 <= i < |inputs| ==> !inputs[i].HostRestarts?
    ensures Replies(cfg, a, inputs) == Replies(cfg, b, inputs)
    ensures Run(cfg, a, inputs).store == Run(cfg, b, inputs).store
    ensures Twins(cfg, base, Run(cfg, a, inputs).host, Run(cfg, b, inputs).host)
    decreases |inputs|
  {
    hide Twins, Step;
    if inputs != [] {
      StepTwins(cfg, base, a, b, inputs[0]);
      RunTwins(cfg, base, Step(cfg, a, inputs[0]).0, Step(cfg, b, inputs[0]).0, inputs[1..]);
    }
  }

  // ----- the resumed host is a twin -----

  /** The sessions named at resumption: every open one, each with its tracker, and no other. */
  ghost predicate Handover(h: Host, opens: seq<OpenSession>) {
    && OpenIds(opens) == h.sessions.Keys
    && (forall o :: o in opens ==> o.signers == TrackerOf(h, o.sessionId))
  }

  /** An append may have landed unseen, or did. */
  predicate InDoubt(sys: System) {
    sys.host.tailUncertain || |sys.store.records| != sys.host.ledger.count
  }

  lemma {:induction false} HandedOver(h: Host, opens: seq<OpenSession>, es: seq<Event>)
    requires forall o :: o in opens ==> o.signers == TrackerOf(h, o.sessionId)
    ensures forall s :: s in RestoredSessions(opens, es) ==>
              RestoredSessions(opens, es)[s] == Merge(RestoredSession(s, es), TrackerOf(h, s))
  {
    hide Merge, RestoredSession, TrackerOf;
    if opens != [] {
      var os, o := opens[..|opens| - 1], opens[|opens| - 1];
      assert o in opens && forall p :: p in os ==> p in opens;
      HandedOver(h, os, es);
    }
  }

  lemma OneTerminalPerKey(es: seq<Event>, d: Event, e: Event, level2: bool)
    requires WellKept(es, level2)
    requires d in es && e in es && !IsAttempt(d) && !IsAttempt(e) && KeyOf(d) == KeyOf(e)
    ensures d == e
  {
    hide WellKept, NumberOf, SchemaValid;
    var i :| 0 <= i < |es| && es[i] == d;
    var j :| 0 <= j < |es| && es[j] == e;
    Lifecycle(es, level2);
  }

  /** What a chain says of a session, it says once. */
  lemma AgreementIsUnique(cfg: Config, x: Session, y: Session, s: string, es: seq<Event>)
    requires Agrees(cfg, x, s, es) && Agrees(cfg, y, s, es) && WellKept(es, cfg.level2)
    ensures x.accepted == y.accepted && x.resolved == y.resolved && x.outcomes == y.outcomes
  {
    hide WellKept, Attempts, Terminals, Numbers;
    forall id | id in x.outcomes ensures id in y.outcomes && x.outcomes[id] == y.outcomes[id] {
      OneTerminalPerKey(es, x.outcomes[id], y.outcomes[id], cfg.level2);
    }
    assert x.outcomes.Keys == y.outcomes.Keys;
  }

  lemma {:induction false} RestoredDecisions(s: string, es: seq<Event>, k: string, n: int)
    requires (k, n) in RestoredSession(s, es).decided
    ensures exists e :: e in es && e.session == Some(s) && e.keyId == Some(k) && e.signerSeq == Some(n)
  {
    var before, e := es[..|es| - 1], es[|es| - 1];
    if (k, n) in RestoredSession(s, before).decided {
      RestoredDecisions(s, before, k, n);
      var d :| d in before && d.session == Some(s) && d.keyId == Some(k) && d.signerSeq == Some(n);
      assert d in es;
    } else {
      assert e in es;
    }
  }

  lemma {:induction false} RestoredReceived(s: string, es: seq<Event>, k: string)
    requires k in RestoredSession(s, es).received
    ensures exists e :: e in es && e.session == Some(s) && e.keyId == Some(k)
                        && e.signerSeq == Some(RestoredSession(s, es).received[k])
  {
    var before, e := es[..|es| - 1], es[|es| - 1];
    var x := RestoredSession(s, before);
    if k in x.received && RestoredSession(s, es).received[k] == x.received[k] {
      RestoredReceived(s, before, k);
      var d :| d in before && d.session == Some(s) && d.keyId == Some(k) && d.signerSeq == Some(x.received[k]);
      assert d in es;
    } else {
      assert e in es;
    }
  }

  lemma WellKeptMember(es: seq<Event>, e: Event, level2: bool)
    requires WellKept(es, level2) && e in es
    ensures SchemaValid(e)
  {
    hide SchemaValid;
    var i :| 0 <= i < |es| && es[i] == e;
    assert Fits(es[..i], es[i], level2);
  }

  lemma DecisionIsNumbered(s: string, es: seq<Event>, k: string, n: int)
    requires WellKept(es, true) && (k, n) in RestoredSession(s, es).decided
    ensures Number(k, s, n) in Numbers(es)
  {
    hide WellKept, RestoredSession;
    RestoredDecisions(s, es, k, n);
    var e :| e in es && e.session == Some(s) && e.keyId == Some(k) && e.signerSeq == Some(n);
    WellKeptMember(es, e, true);
    assert NumberOf(e) == Some(Number(k, s, n));
  }

  /** Nothing the chain says was decided is missing from the session that kept running. */
  lemma DecisionsAreKnown(cfg: Config, x: Session, s: string, es: seq<Event>)
    requires cfg.level2 && Agrees(cfg, x, s, es) && WellKept(es, true)
    ensures RestoredSession(s, es).decided <= x.decided
  {
    hide WellKept, RestoredSession, Attempts, Terminals, Numbers;
    forall p | p in RestoredSession(s, es).decided ensures p in x.decided {
      DecisionIsNumbered(s, es, p.0, p.1);
    }
  }

  lemma ReceiptsAreKnown(x: Session, s: string, es: seq<Event>)
    requires forall e :: e in es && e.session == Some(s) ==> ReceiptIn(x, e)
    ensures Merge(RestoredSession(s, es), Some(SignerTracker(x.decided, x.received))).received == x.received
  {
    hide RestoredSession;
    var y := RestoredSession(s, es);
    forall k | k in y.received ensures k in x.received && y.received[k] <= x.received[k] {
      RestoredReceived(s, es, k);
      var e :| e in es && e.session == Some(s) && e.keyId == Some(k) && e.signerSeq == Some(y.received[k]);
      assert ReceiptIn(x, e);
    }
  }

  lemma RestoredIsSame(cfg: Config, x: Session, s: string, es: seq<Event>)
    requires Agrees(cfg, x, s, es) && WellKept(es, cfg.level2)
    ensures SameSession(cfg, false, x, Merge(RestoredSession(s, es), Some(SignerTracker(x.decided, x.received))))
  {
    hide Agrees, WellKept, RestoredSession;
    RestoredAgrees(cfg, s, es);
    AgreementIsUnique(cfg, x, RestoredSession(s, es), s, es);
    if cfg.level2 {
      DecisionsAreKnown(cfg, x, s, es);
    }
  }

  lemma SameIndex(cfg: Config, h: Host, g: Host, c: seq<Record>)
    requires IndexInv(h, c) && IndexInv(g, c) && WellKept(EventsOf(c), cfg.level2)
    ensures h.sealedAttempts == g.sealedAttempts && h.sealedDigests == g.sealedDigests
  {
    hide WellKept, AttemptIds;
    forall id | id in h.sealedAttempts ensures h.sealedAttempts[id] == g.sealedAttempts[id] {
      OneRecordPerAttemptId(c, h.sealedAttempts[id], g.sealedAttempts[id], cfg.level2);
    }
    assert h.sealedAttempts.Keys == g.sealedAttempts.Keys;
  }

  lemma OneRecordPerAttemptId(c: seq<Record>, q: Record, r: Record, level2: bool)
    requires WellKept(EventsOf(c), level2) && q in c && r in c
    requires IsAttempt(q.event) && IsAttempt(r.event) && q.event.id == r.event.id
    ensures q == r
  {
    hide WellKept, NumberOf;
    var i :| 0 <= i < |c| && c[i] == q;
    var j :| 0 <= j < |c| && c[j] == r;
    var es := EventsOf(c);
    assert es[i] == q.event && es[j] == r.event;
    Lifecycle(es, level2);
  }

  /** What `Receipts` says of one session. */
  ghost predicate ReceiptsOf(x: Session, s: string, es: seq<Event>) {
    forall e :: e in es && e.session == Some(s) ==> ReceiptIn(x, e)
  }

  lemma ReceiptsPerSession(cfg: Config, sys: System, s: string)
    requires cfg.level2 && Receipts(cfg, sys) && s in sys.host.sessions
    ensures ReceiptsOf(sys.host.sessions[s], s, EventsOf(sys.store.records))
  {
    var es := EventsOf(sys.store.records);
    forall e | e in es && e.session == Some(s) ensures ReceiptIn(sys.host.sessions[s], e) {
      var i :| 0 <= i < |es| && es[i] == e;
      assert sys.store.records[i] in sys.store.records && sys.store.records[i].event == e;
      assert ReceiptStands(cfg, sys.host, e);
    }
  }

  /** With the tail not in doubt, the resumed host is a twin of the one that never stopped; over a run
      whose restarts are calm, down to the flags it raises from then on. */
  lemma ResumedIsTwin(cfg: Config, sys: System, opens: seq<OpenSession>)
    requires SystemInv(cfg, sys) && !InDoubt(sys) && Handover(sys.host, opens)
    ensures Twins(cfg, None, sys.host, Resume(sys.store.records, opens))
    ensures cfg.level2 && Receipts(cfg, sys) ==>
              var g := Resume(sys.store.records, opens);
              Twins(cfg, Some(Baseline(sys.host.anomalies, g.anomalies)), sys.host, g)
  {
    hide Linked, WellKept, Extends, HeldInv, Agrees, IndexInv, RestoredSessions, RestoredSession, Merge, SameSession,
         Receipts, OpenAttempts, RememberedAttempts, ReceiptsOf;
    var h, st := sys.host, sys.store;
    var g := Resume(st.records, opens);
    var es := EventsOf(st.records);
    ResumedIndexes(cfg, st.records, opens);
    ResumedLedger(cfg, h.ledger, st);
    assert Committed(h.ledger, st) == st.records;
    SameIndex(cfg, h, g, st.records);
    HandedOver(h, opens, es);
    forall s | s in h.sessions
      ensures SameSession(cfg, false, h.sessions[s], g.sessions[s])
      ensures cfg.level2 && Receipts(cfg, sys) ==> SameSession(cfg, true, h.sessions[s], g.sessions[s])
    {
      var x := h.sessions[s];
      assert g.sessions[s] == Merge(RestoredSession(s, es), Some(SignerTracker(x.decided, x.received)));
      RestoredIsSame(cfg, x, s, es);
      if cfg.level2 && Receipts(cfg, sys) {
        ReceiptsPerSession(cfg, sys, s);
        RestoredIsExact(cfg, x, s, es);
      }
    }
  }

  lemma RestoredIsExact(cfg: Config, x: Session, s: string, es: seq<Event>)
    requires ReceiptsOf(x, s, es)
    requires SameSession(cfg, false, x, Merge(RestoredSession(s, es), Some(SignerTracker(x.decided, x.received))))
    ensures SameSession(cfg, true, x, Merge(RestoredSession(s, es), Some(SignerTracker(x.decided, x.received))))
  {
    hide Merge, RestoredSession;
    ReceiptsAreKnown(x, s, es);
  }

  // ----- when a restart shows -----

  function Restarted(sys: System, opens: seq<OpenSession>): System {
    System(Resume(sys.store.records, opens), sys.store)
  }

  /** Whatever comes next, both hosts answer the same and store the same. */
  ghost predicate Invisible(cfg: Config, sys: System, opens: seq<OpenSession>) {
    forall inputs :: SameOpenings(cfg, sys, Restarted(sys, opens), inputs) ==>
      && Replies(cfg, sys, inputs) == Replies(cfg, Restarted(sys, opens), inputs)
      && Run(cfg, sys, inputs).store == Run(cfg, Restarted(sys, opens), inputs).store
  }

  lemma InvisibleIfSettled(cfg: Config, sys: System, opens: seq<OpenSession>)
    requires SystemInv(cfg, sys) && Handover(sys.host, opens) && !InDoubt(sys)
    ensures Invisible(cfg, sys, opens)
  {
    hide SystemInv, Handover, Twins, Replies, Run, SameOpenings, Receipts, Resume;
    ResumedIsTwin(cfg, sys, opens);
    forall inputs | SameOpenings(cfg, sys, Restarted(sys, opens), inputs)
      ensures Replies(cfg, sys, inputs) == Replies(cfg, Restarted(sys, opens), inputs)
      ensures Run(cfg, sys, inputs).store == Run(cfg, Restarted(sys, opens), inputs).store
    {
      RunTwins(cfg, None, sys, Restarted(sys, opens), inputs);
    }
  }

  const NO_EVENT := Event(None, None, None, None, None, None, None, None, 0, false, false)

  function CalmEnv(reading: Reading): Env {
    Env(0, false, reading, Verifies, true, Signed((p: Payload) => ""), Acked, false)
  }

  /** While the host is unsure of its tail, a read that fails holds back an answer the resumed host gives. */
  lemma UncertaintyShows(cfg: Config, sys: System, opens: seq<OpenSession>)
    requires sys.host.tailUncertain
    ensures !Invisible(cfg, sys, opens)
  {
    hide Resume;
    var input := AttemptArrives(NO_EVENT, None, CalmEnv(ReadFailed));
    var other := Restarted(sys, opens);
    ResumedIsCertain(sys.store.records, opens);
    OneReply(cfg, sys, input);
    OneReply(cfg, other, input);
    assert Step(cfg, sys, input).1 == AttemptReply(Unavailable);
    assert Step(cfg, other, input).1 == AttemptReply(Reject(SchemaInvalid));
    assert SameOpenings(cfg, sys, other, [input]);
    assert Replies(cfg, sys, [input]) != Replies(cfg, other, [input]);
  }

  lemma ResumedIsCertain(records: seq<Record>, opens: seq<OpenSession>)
    ensures !Resume(records, opens).tailUncertain
  {
  }

  lemma OneReply(cfg: Config, sys: System, input: Input)
    ensures Replies(cfg, sys, [input]) == [Step(cfg, sys, input).1]
  {
    hide Step;
    assert [input][1..] == [];
  }

  ghost predicate ShorterThan(taken: set<string>, n: nat) {
    forall t :: t in taken ==> |t| < n
  }

  lemma {:induction false} LengthsAreBounded(taken: set<string>)
    ensures exists n: nat :: ShorterThan(taken, n)
  {
    if t :| t in taken {
      LengthsAreBounded(taken - {t});
      var n: nat :| ShorterThan(taken - {t}, n);
      forall u | u in taken ensures |u| < n + |t| + 1 {
        assert u == t || u in taken - {t};
      }
      assert ShorterThan(taken, n + |t| + 1);
    } else {
      assert ShorterThan(taken, 0);
    }
  }

  lemma NewString(taken: set<string>) returns (s: string)
    ensures s !in taken
  {
    LengthsAreBounded(taken);
    var n: nat :| ShorterThan(taken, n);
    s := seq(n, _ => 'x');
  }

  /** A new attempt of a new session, numbered 0. */
  function NewAttempt(s: string): Event {
    Event(Some(s), Some(V04), Some(s), Some(Attempted), None, Some("k"), Some(0), Some("g"), 0, true, true)
  }

  /** With no doubt of its own, a host answers a new session's first attempt as the store lets it append. */
  lemma FirstAttempt(cfg: Config, sys: System, s: string)
    requires !sys.host.tailUncertain && s !in sys.host.issued && s !in sys.host.sealedAttempts
    ensures var (began, x) := Step(cfg, sys, SessionOpens(s));
            var y := Step(cfg, began, AttemptArrives(NewAttempt(s), None, CalmEnv(ReadTail))).1;
            && Replies(cfg, sys, [SessionOpens(s), AttemptArrives(NewAttempt(s), None, CalmEnv(ReadTail))]) == [x, y]
            && x == Done && y.AttemptReply?
            && (sys.host.ledger.count == |sys.store.records| <==> y.answer.Accept?)
            && (sys.host.ledger.count != |sys.store.records| ==> y.answer == Unavailable)
  {
    var began := Step(cfg, sys, SessionOpens(s)).0;
    var input := AttemptArrives(NewAttempt(s), None, CalmEnv(ReadTail));
    var inputs := [SessionOpens(s), input];
    assert inputs[1..] == [input];
    OneReply(cfg, began, input);
    var e, env := NewAttempt(s), CalmEnv(ReadTail);
    assert SchemaValid(e);
    var (h1, check) := VerifySignature(cfg, began.host, e, s, Verifies);
    assert check == Passed;
    assert h1.sessions[s].decided == {} && h1.sessions[s].outcomes == map[];
    hide VerifySignature, SchemaValid;
    AnswerOfNew(cfg, h1, sys.store, e, s, env);
  }

  lemma AnswerOfNew(cfg: Config, h: Host, st: Store, e: Event, s: string, env: Env)
    requires s in h.sessions && EventId(e) !in h.sealedAttempts && EventId(e) !in h.sessions[s].outcomes
    requires h.sessions[s].decided == {} && env.persistenceAvailable && env.signing.Signed? && env.fate == Acked
    requires !env.interrupted
    ensures var a := ConcludeAttempt(cfg, h, st, e, s, env).2;
            if h.ledger.count == |st.records| then a.Accept? else a == Unavailable
  {
  }

  /** A record the host has not seen holds back an attempt that the resumed host accepts. */
  lemma UnseenRecordShows(cfg: Config, sys: System, opens: seq<OpenSession>)
    requires LedgerInv(cfg, sys.host.ledger, sys.store) && !sys.host.tailUncertain
    requires |sys.store.records| != sys.host.ledger.count
    ensures !Invisible(cfg, sys, opens)
  {
    hide HostInv, GoodChain, Extends, HeldInv, Resume, Step, Replies, Run;
    var other := Restarted(sys, opens);
    ResumedIsCertain(sys.store.records, opens);
    ResumedLedger(cfg, sys.host.ledger, sys.store);
    LedgerOfResumed(sys.store.records, opens);
    var taken := sys.host.issued + other.host.issued + sys.host.sealedAttempts.Keys + other.host.sealedAttempts.Keys;
    var s := NewString(taken);
    FirstAttempt(cfg, sys, s);
    FirstAttempt(cfg, other, s);
    var inputs := [SessionOpens(s), AttemptArrives(NewAttempt(s), None, CalmEnv(ReadTail))];
    OpeningsOfNew(cfg, sys, other, s, inputs[1]);
    assert Replies(cfg, sys, inputs) != Replies(cfg, other, inputs);
  }

  lemma LedgerOfResumed(records: seq<Record>, opens: seq<OpenSession>)
    ensures Resume(records, opens).ledger == ResumeFrom(records)
  {
  }

  lemma OpeningsOfNew(cfg: Config, a: System, b: System, s: string, input: Input)
    requires s !in a.host.issued && s !in b.host.issued && input.AttemptArrives?
    ensures SameOpenings(cfg, a, b, [SessionOpens(s), input])
  {
    hide Step;
    assert [SessionOpens(s), input][1..] == [input];
    assert [input][1..] == [];
    assert SameOpenings(cfg, Step(cfg, a, SessionOpens(s)).0, Step(cfg, b, SessionOpens(s)).0, [input]);
  }

  lemma InvisibleIffNoDoubt(cfg: Config, sys: System, opens: seq<OpenSession>)
    requires SystemInv(cfg, sys) && Handover(sys.host, opens)
    ensures Invisible(cfg, sys, opens) <==> !InDoubt(sys)
  {
    hide LedgerInv, HostInv, Handover, Invisible;
    if !InDoubt(sys) {
      InvisibleIfSettled(cfg, sys, opens);
    } else if sys.host.tailUncertain {
      UncertaintyShows(cfg, sys, opens);
    } else {
      UnseenRecordShows(cfg, sys, opens);
    }
  }

  /**
   * Restart is invisible to open sessions - exactly when the tail is not in doubt: then, and only then,
   * a host resumed from its records after any run, with each open session and its tracker, answers
   * everything that may come next as the host that never stopped, and stores the same records.
   */
  lemma RestartIsInvisibleIff(cfg: Config, before: seq<Input>, opens: seq<OpenSession>)
    requires FreshRun(cfg, START, before) && Handover(Run(cfg, START, before).host, opens)
    ensures Invisible(cfg, Run(cfg, START, before), opens) <==> !InDoubt(Run(cfg, START, before))
  {
    hide FreshRun, Run, Handover, Invisible, SystemInv;
    StartInv(cfg);
    RunKeepsInv(cfg, START, before);
    InvisibleIffNoDoubt(cfg, Run(cfg, START, before), opens);
  }

  ghost predicate AnyRestart(inputs: seq<Input>) {
    exists i :: 0 <= i < |inputs| && inputs[i].HostRestarts?
  }

  /** A further restart makes the two hosts one. */
  lemma {:induction false} RestartMakesOne(cfg: Config, a: System, b: System, inputs: seq<Input>)
    requires Twins(cfg, None, a.host, b.host) && a.store == b.store && SameOpenings(cfg, a, b, inputs)
    requires AnyRestart(inputs)
    ensures Run(cfg, a, inputs) == Run(cfg, b, inputs)
    decreases |inputs|
  {
    var i :| 0 <= i < |inputs| && inputs[i].HostRestarts?;
    if inputs[0].HostRestarts? {
      assert Step(cfg, a, inputs[0]).0 == Step(cfg, b, inputs[0]).0;
    } else {
      assert inputs[1..][i - 1] == inputs[i];
      hide Twins, Step;
      StepTwins(cfg, None, a, b, inputs[0]);
      RestartMakesOne(cfg, Step(cfg, a, inputs[0]).0, Step(cfg, b, inputs[0]).0, inputs[1..]);
    }
  }

  /** At Level 2, over runs whose restarts are calm, the flags raised afterwards are the same too; and once
      the host restarts again, the two are one. */
  lemma RestartFlagsTheSame(cfg: Config, before: seq<Input>, opens: seq<OpenSession>, after: seq<Input>)
    requires cfg.level2 && CalmRestarts(cfg, START, before)
    requires !InDoubt(Run(cfg, START, before)) && Handover(Run(cfg, START, before).host, opens)
    requires SameOpenings(cfg, Run(cfg, START, before), Restarted(Run(cfg, START, before), opens), after)
    ensures var sys := Run(cfg, START, before);
            var other := Restarted(sys, opens);
            if AnyRestart(after) then
              Run(cfg, sys, after) == Run(cfg, other, after)
            else
              Run(cfg, sys, after).host.anomalies + other.host.anomalies
              == Run(cfg, other, after).host.anomalies + sys.host.anomalies
  {
    hide CalmRestarts, Handover, SystemInv, Receipts, Run, SameOpenings, Resume, IssuedCovers;
    StartInv(cfg);
    StartReceipts(cfg);
    CalmRunKeepsReceipts(cfg, START, before);
    var sys := Run(cfg, START, before);
    var other := Restarted(sys, opens);
    ResumedIsTwin(cfg, sys, opens);
    if AnyRestart(after) {
      RestartMakesOne(cfg, sys, other, after);
    } else {
      RunTwins(cfg, Some(Baseline(sys.host.anomalies, other.host.anomalies)), sys, other, after);
    }
  }
}
