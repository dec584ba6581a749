/** What every step of a host keeps, and the proof that it does. */
module HostInvariant {
  import opened Events
  import opened Chain
  import opened Reasons
  import opened HostModel

  // ----- the invariant -----

  /** The records the host has committed: the prefix of the stored chain its ledger counts. */
  function Committed(l: LedgerState, st: Store): seq<Record> {
    if 0 <= l.count <= |st.records| then st.records[..l.count] else st.records
  }

  ghost predicate Extends(cfg: Config, c: seq<Record>, r: Record) {
    LinksTo(c, r) && Fits(EventsOf(c), r.event, cfg.level2)
  }

  /** A linked chain whose every event fitted when it was sealed. */
  ghost predicate GoodChain(cfg: Config, c: seq<Record>) {
    Linked(c) && WellKept(EventsOf(c), cfg.level2)
  }

  /** One good stored chain, at most one record ahead of the host; a delayed append fits or is void. */
  ghost predicate StoreInv(cfg: Config, l: LedgerState, st: Store) {
    && 0 <= l.count <= |st.records| <= l.count + 1
    && GoodChain(cfg, st.records)
    && l.tailHash == TailHash(Committed(l, st))
    && (forall d :: d in st.delayed ==>
          d.position < l.count || (d.position == l.count && Extends(cfg, Committed(l, st), d)))
  }

  /** The partition-wide indexes say what the committed chain says. */
  ghost predicate IndexInv(h: Host, c: seq<Record>) {
    && (forall e :: e in h.sealedDigests <==> e in EventsOf(c))
    && (forall id :: id in h.sealedAttempts <==> Some(id) in AttemptIds(EventsOf(c)))
    && (forall id :: id in h.sealedAttempts ==>
          && h.sealedAttempts[id] in c
          && IsAttempt(h.sealedAttempts[id].event)
          && h.sealedAttempts[id].event.id == Some(id))
  }

  /** A session's sets say what the committed chain says about it. */
  ghost predicate Agrees(cfg: Config, x: Session, s: string, es: seq<Event>) {
    && (forall id :: id in x.accepted <==> OpKey(Some(s), Some(id)) in Attempts(es))
    && (forall id :: id in x.outcomes <==> OpKey(Some(s), Some(id)) in Terminals(es))
    && (forall id :: id in x.outcomes ==>
          x.outcomes[id] in es && !IsAttempt(x.outcomes[id]) && KeyOf(x.outcomes[id]) == OpKey(Some(s), Some(id)))
    && (forall id :: id in x.resolved <==> id in x.accepted && id in x.outcomes)
    && (cfg.level2 ==> forall k, n :: Number(k, s, n) in Numbers(es) ==> (k, n) in x.decided)
  }

  ghost predicate SessionInv(cfg: Config, h: Host, es: seq<Event>) {
    forall s :: s in h.sessions ==> Agrees(cfg, h.sessions[s], s, es)
  }

  /** What the ledger holds in memory is the end of the committed chain. */
  ghost predicate HeldInv(l: LedgerState, c: seq<Record>) {
    |l.held| <= |c| && l.held == c[|c| - |l.held|..]
  }

  ghost predicate LedgerInv(cfg: Config, l: LedgerState, st: Store) {
    StoreInv(cfg, l, st) && HeldInv(l, Committed(l, st))
  }

  ghost predicate HostInv(cfg: Config, h: Host, c: seq<Record>) {
    IndexInv(h, c) && SessionInv(cfg, h, EventsOf(c))
  }

  ghost predicate Inv(cfg: Config, h: Host, st: Store) {
    LedgerInv(cfg, h.ledger, st) && HostInv(cfg, h, Committed(h.ledger, st))
  }

  // ----- absorbing a record -----

  lemma AgreesAfter(cfg: Config, x: Session, s: string, es: seq<Event>, e: Event)
    requires Agrees(cfg, x, s, es) && Fits(es, e, cfg.level2) && e.session == Some(s)
    ensures Agrees(cfg, AccountTo(cfg, x, e), s, es + [e])
  {
    SetsAfter(es, e);
  }

  lemma AgreesElsewhere(cfg: Config, x: Session, s: string, es: seq<Event>, e: Event)
    requires Agrees(cfg, x, s, es) && e.session != Some(s)
    ensures Agrees(cfg, x, s, es + [e])
  {
    SetsAfter(es, e);
  }

  lemma SessionsAfter(cfg: Config, h: Host, es: seq<Event>, r: Record)
    requires SessionInv(cfg, h, es) && Fits(es, r.event, cfg.level2)
    ensures SessionInv(cfg, Absorb(cfg, h, r), es + [r.event])
  {
    var g := Absorb(cfg, h, r);
    forall s | s in g.sessions ensures Agrees(cfg, g.sessions[s], s, es + [r.event]) {
      if r.event.session == Some(s) {
        AgreesAfter(cfg, h.sessions[s], s, es, r.event);
      } else {
        AgreesElsewhere(cfg, h.sessions[s], s, es, r.event);
      }
    }
  }

  lemma AbsorbedIndexes(cfg: Config, h: Host, r: Record)
    ensures Absorb(cfg, h, r).sealedDigests == h.sealedDigests + {r.event}
    ensures Absorb(cfg, h, r).sealedAttempts ==
              if IsAttempt(r.event) then h.sealedAttempts[EventId(r.event) := r] else h.sealedAttempts
  {
  }

  lemma IndexesAfter(cfg: Config, h: Host, c: seq<Record>, r: Record)
    requires IndexInv(h, c) && Sound(EventsOf(c), r.event, cfg.level2)
    ensures IndexInv(Absorb(cfg, h, r), c + [r])
  {
    assert r.event.id.Some?;
    hide Sound, Absorb, AttemptIds;
    AbsorbedIndexes(cfg, h, r);
    SetsAfter(EventsOf(c), r.event);
    EventsAfter(c, r);
  }

  lemma HostAfter(cfg: Config, h: Host, c: seq<Record>, r: Record)
    requires HostInv(cfg, h, c) && Fits(EventsOf(c), r.event, cfg.level2)
    ensures HostInv(cfg, Absorb(cfg, h, r), c + [r])
  {
    EventsAfter(c, r);
    IndexesAfter(cfg, h, c, r);
    SessionsAfter(cfg, h, EventsOf(c), r);
  }

  lemma GoodChainAfter(cfg: Config, c: seq<Record>, r: Record)
    requires GoodChain(cfg, c) && Extends(cfg, c, r)
    ensures GoodChain(cfg, c + [r])
  {
    LinkedAfter(c, r);
    EventsAfter(c, r);
    WellKeptAfter(EventsOf(c), r.event, cfg.level2);
  }

  /** The ledger moves its tail onto the record the store holds right after the committed chain. */
  lemma LedgerAfter(cfg: Config, l: LedgerState, st: Store, r: Record)
    requires 0 <= l.count && |st.records| == l.count + 1 && r == st.records[l.count]
    requires HeldInv(l, st.records[..l.count])
    requires GoodChain(cfg, st.records)
    requires forall d :: d in st.delayed ==> d.position <= l.count
    ensures LedgerInv(cfg, Commit(l, r), st)
    ensures Committed(Commit(l, r), st) == st.records
  {
    hide GoodChain, Extends;
  }

  // ----- settling the tail -----

  /** The last stored record, where it is ahead of the host, fits and is what the host adopts. */
  lemma AheadExtends(cfg: Config, l: LedgerState, st: Store)
    requires StoreInv(cfg, l, st) && |st.records| == l.count + 1
    ensures Extends(cfg, Committed(l, st), st.records[l.count])
    ensures st.records == Committed(l, st) + [st.records[l.count]]
    ensures st.records[l.count].position == l.count
    ensures st.records[l.count].previousHash == l.tailHash
  {
    var n := l.count;
    var es := EventsOf(st.records);
    assert LinksTo(st.records[..n], st.records[n]);
    assert es[..n] == EventsOf(st.records[..n]);
    assert Fits(es[..n], es[n], cfg.level2);
  }

  lemma TailPosition(cfg: Config, c: seq<Record>)
    requires GoodChain(cfg, c) && c != []
    ensures c[|c| - 1].position == |c| - 1
  {
    assert LinksTo(c[..|c| - 1], c[|c| - 1]);
  }

  lemma AdoptKeepsInv(cfg: Config, h: Host, st: Store)
    requires Inv(cfg, h, st) && |st.records| == h.ledger.count + 1
    ensures Inv(cfg, Absorb(cfg, h, st.records[h.ledger.count]), st)
  {
    var r := st.records[h.ledger.count];
    AheadExtends(cfg, h.ledger, st);
    LedgerAfter(cfg, h.ledger, st, r);
    HostAfter(cfg, h, Committed(h.ledger, st), r);
  }

  lemma UncertaintyIsFree(cfg: Config, h: Host, st: Store, uncertain: bool)
    requires Inv(cfg, h, st)
    ensures Inv(cfg, h.(tailUncertain := uncertain), st)
  {
    hide LedgerInv, Agrees;
  }

  lemma SettleKeepsInv(cfg: Config, h: Host, st: Store, reading: Reading)
    requires Inv(cfg, h, st)
    ensures Inv(cfg, SettleTail(cfg, h, st, reading).0, st)
  {
    hide GoodChain, Extends, HostInv, HeldInv, Absorb;
    if h.tailUncertain && reading == ReadTail {
      if st.records != [] {
        TailPosition(cfg, st.records);
      }
      if |st.records| == h.ledger.count + 1 {
        AheadExtends(cfg, h.ledger, st);
        AdoptKeepsInv(cfg, h, st);
        UncertaintyIsFree(cfg, Absorb(cfg, h, st.records[h.ledger.count]), st, false);
      } else {
        UncertaintyIsFree(cfg, h, st, false);
      }
    }
  }

  // ----- sealing -----

  lemma NextExtends(cfg: Config, l: LedgerState, st: Store, e: Event, env: Env)
    requires StoreInv(cfg, l, st) && Fits(EventsOf(Committed(l, st)), e, cfg.level2)
    ensures Extends(cfg, Committed(l, st), Countersigned(cfg, NextRecord(e, l.count, env.now, l.tailHash), env.signing))
  {
    hide GoodChain, Fits;
  }

  /** A failed append leaves a good store, whatever became of the record. */
  lemma AppendKeepsInv(cfg: Config, l: LedgerState, st: Store, r: Record, fate: Fate)
    requires LedgerInv(cfg, l, st) && Extends(cfg, Committed(l, st), r) && r.position == l.count
    ensures !Append(st, r, fate).1 ==> LedgerInv(cfg, l, Append(st, r, fate).0)
    ensures Committed(l, Append(st, r, fate).0) == Committed(l, st)
    ensures Append(st, r, fate).1 ==>
              && LedgerInv(cfg, Commit(l, r), Append(st, r, fate).0)
              && Append(st, r, fate).0.records == Committed(l, st) + [r]
              && Committed(Commit(l, r), Append(st, r, fate).0) == Committed(l, st) + [r]
  {
    hide GoodChain, Extends;
    if r.position == |st.records| {
      assert Committed(l, st) == st.records;
      GoodChainAfter(cfg, st.records, r);
      assert (st.records + [r])[..l.count] == st.records;
      if fate == Acked {
        LedgerAfter(cfg, l, Append(st, r, fate).0, r);
      }
    }
  }

  /** Sealing an event that fits, in its open session, keeps the invariant whatever the environment does. */
  lemma SealKeepsInv(cfg: Config, h: Host, st: Store, e: Event, s: string, env: Env)
    requires Inv(cfg, h, st) && s in h.sessions && e.session == Some(s)
    requires Fits(EventsOf(Committed(h.ledger, st)), e, cfg.level2)
    ensures var (g, st', sealing) := Seal(cfg, h, st, e, env);
            if sealing.SealedAs? then
              && WithSession(g, s, AccountTo(cfg, h.sessions[s], e)) == Absorb(cfg, h, sealing.record)
              && Inv(cfg, Absorb(cfg, h, sealing.record), st')
            else
              Inv(cfg, g, st')
  {
    hide Fits, GoodChain, HeldInv, IndexInv, SessionInv, Extends;
    var r := Countersigned(cfg, NextRecord(e, h.ledger.count, env.now, h.ledger.tailHash), env.signing);
    NextExtends(cfg, h.ledger, st, e, env);
    AppendKeepsInv(cfg, h.ledger, st, r, env.fate);
    UncertaintyIsFree(cfg, h, st, true);
    HostAfter(cfg, h, Committed(h.ledger, st), r);
    var (g, st', sealing) := Seal(cfg, h, st, e, env);
    if !sealing.SealedAs? {
      if st' == st {
      } else {
        assert LedgerInv(cfg, h.ledger, st');
        UncertaintyIsFree(cfg, h, st', true);
      }
    }
  }

  // ----- the decisions -----

  lemma AgreesWithMoreDecided(cfg: Config, x: Session, y: Session, s: string, es: seq<Event>)
    requires Agrees(cfg, x, s, es) && x.decided <= y.decided
    requires y == x.(decided := y.decided, received := y.received)
    ensures Agrees(cfg, y, s, es)
  {
  }

  /** A session may gain decisions and receipts, and the host flags, without touching what the chain says. */
  lemma SessionChangeKeepsInv(cfg: Config, h: Host, g: Host, st: Store, s: string)
    requires Inv(cfg, h, st) && s in h.sessions && s in g.sessions
    requires g == h.(sessions := g.sessions, rejectedIds := g.rejectedIds, anomalies := g.anomalies)
    requires g.sessions == h.sessions[s := g.sessions[s]]
    requires h.sessions[s].decided <= g.sessions[s].decided
    requires g.sessions[s] == h.sessions[s].(decided := g.sessions[s].decided, received := g.sessions[s].received)
    ensures Inv(cfg, g, st)
  {
    hide LedgerInv, Agrees, AttemptIds;
    AgreesWithMoreDecided(cfg, h.sessions[s], g.sessions[s], s, EventsOf(Committed(h.ledger, st)));
  }

  lemma VerifyKeepsInv(cfg: Config, h: Host, st: Store, e: Event, s: string, verdict: Verdict)
    requires Inv(cfg, h, st) && s in h.sessions
    ensures var g := VerifySignature(cfg, h, e, s, verdict).0;
            && Inv(cfg, g, st)
            && g.ledger == h.ledger
            && g.sessions.Keys == h.sessions.Keys
  {
    hide Inv;
    SessionChangeKeepsInv(cfg, h, VerifySignature(cfg, h, e, s, verdict).0, st, s);
  }

  /** Past every check, an attempt is one the chain can take. */
  lemma AdmittedAttemptFits(cfg: Config, h: Host, st: Store, e: Event, s: string)
    requires Inv(cfg, h, st) && s in h.sessions && e.session == Some(s)
    requires SchemaValid(e) && e.canonical && IsAttempt(e)
    requires cfg.level2 ==> NumberOf(e).Some?
    requires EventId(e) !in h.sealedAttempts && EventId(e) !in h.sessions[s].outcomes
    requires !AlreadyDecided(cfg, h.sessions[s], e)
    ensures Fits(EventsOf(Committed(h.ledger, st)), e, cfg.level2)
  {
    hide LedgerInv;
    assert Agrees(cfg, h.sessions[s], s, EventsOf(Committed(h.ledger, st)));
  }

  lemma AdmittedOutcomeFits(cfg: Config, h: Host, st: Store, e: Event, s: string)
    requires Inv(cfg, h, st) && s in h.sessions && e.session == Some(s)
    requires SchemaValid(e) && e.canonical && !IsAttempt(e)
    requires cfg.level2 ==> NumberOf(e).Some?
    requires EventId(e) !in h.sessions[s].outcomes && !AlreadyDecided(cfg, h.sessions[s], e)
    requires EventId(e) in h.sessions[s].accepted || e.outcome == Some(Aborted)
    ensures Fits(EventsOf(Committed(h.ledger, st)), e, cfg.level2)
  {
    hide LedgerInv;
    assert Agrees(cfg, h.sessions[s], s, EventsOf(Committed(h.ledger, st)));
  }

  /** The ledger answers a repeat for the session the record is already accounted to. */
  lemma RepeatIsAccounted(cfg: Config, h: Host, st: Store, e: Event, s: string)
    requires Inv(cfg, h, st) && s in h.sessions && e.session == Some(s) && e.id.Some? && IsAttempt(e)
    requires e.id.value in h.sealedAttempts && h.sealedAttempts[e.id.value].event == e
    ensures e.id.value in h.sessions[s].accepted
  {
    hide LedgerInv;
    var c := Committed(h.ledger, st);
    assert Agrees(cfg, h.sessions[s], s, EventsOf(c));
    var r := h.sealedAttempts[e.id.value];
    var i :| 0 <= i < |c| && c[i] == r;
    assert EventsOf(c)[i] == e;
  }

  lemma ConcludeAttemptKeepsInv(cfg: Config, h: Host, st: Store, e: Event, s: string, env: Env)
    requires Inv(cfg, h, st) && s in h.sessions && e.session == Some(s)
    requires SchemaValid(e) && e.canonical && IsAttempt(e)
    requires cfg.level2 ==> NumberOf(e).Some?
    ensures var (g, st', _) := ConcludeAttempt(cfg, h, st, e, s, env); Inv(cfg, g, st')
  {
    hide Inv, Seal, NumberOf, Absorb;
    var id := EventId(e);
    var x := h.sessions[s];
    if id in h.sealedAttempts && h.sealedAttempts[id].event == e {
      RepeatIsAccounted(cfg, h, st, e, s);
      assert x.accepted + {id} == x.accepted;
      assert WithSession(h, s, x) == h;
    } else if id in h.sealedAttempts || id in x.outcomes || AlreadyDecided(cfg, x, e) {
      SessionChangeKeepsInv(cfg, h, RejectReplay(cfg, h, e, s), st, s);
    } else {
      AdmittedAttemptFits(cfg, h, st, e, s);
      SealKeepsInv(cfg, h, st, e, s, env);
    }
  }

  lemma ConcludeOutcomeKeepsInv(cfg: Config, h: Host, st: Store, e: Event, s: string, env: Env)
    requires Inv(cfg, h, st) && s in h.sessions && e.session == Some(s)
    requires SchemaValid(e) && e.canonical && !IsAttempt(e)
    requires cfg.level2 ==> NumberOf(e).Some?
    ensures var (g, st', _) := ConcludeOutcome(cfg, h, st, e, s, env); Inv(cfg, g, st')
  {
    hide Inv, Seal, NumberOf, Absorb;
    var id := EventId(e);
    var x := h.sessions[s];
    var (g, st', d) := ConcludeOutcome(cfg, h, st, e, s, env);
    if id in x.outcomes || e in h.sealedDigests || AlreadyDecided(cfg, x, e)
       || (id !in x.accepted && e.outcome != Some(Aborted)) || !env.persistenceAvailable {
      SessionChangeKeepsInv(cfg, h, g, st, s);
    } else {
      AdmittedOutcomeFits(cfg, h, st, e, s);
      SealKeepsInv(cfg, h, st, e, s, env);
    }
  }

  lemma FlagKeepsInv(cfg: Config, h: Host, st: Store, id: string, c: Code)
    requires Inv(cfg, h, st)
    ensures Inv(cfg, Flag(h, id, c), st)
  {
    hide LedgerInv, Agrees;
  }

  lemma RejectedIdIsFree(cfg: Config, h: Host, st: Store, ids: set<string>)
    requires Inv(cfg, h, st)
    ensures Inv(cfg, h.(rejectedIds := ids), st)
  {
    hide LedgerInv, Agrees;
  }

  /** One attempt, whatever the event and the environment, keeps the invariant. */
  lemma AttemptKeepsInv(cfg: Config, h: Host, st: Store, e: Event, expected: Option<string>, env: Env)
    requires Inv(cfg, h, st)
    ensures var (g, st', _) := HandleAttempt(cfg, h, st, e, expected, env); Inv(cfg, g, st')
  {
    hide Inv, SettleTail, ConcludeAttempt;
    if !env.expired {
      SettleKeepsInv(cfg, h, st, env.reading);
      var h0 := SettleTail(cfg, h, st, env.reading).0;
      FlagKeepsInv(cfg, h0, st, EventId(e), SchemaInvalid);
      FlagKeepsInv(cfg, h0, st, EventId(e), ReplayDetected);
      var (h1, admission) := Admit(h0, e, expected, true);
      if admission.Admitted? {
        var s := admission.session;
        VerifyKeepsInv(cfg, h1, st, e, s, env.verdict);
        var (h2, check) := VerifySignature(cfg, h1, e, s, env.verdict);
        RejectedIdIsFree(cfg, h2, st, h2.rejectedIds + {EventId(e)});
        if check == Passed {
          ConcludeAttemptKeepsInv(cfg, h2, st, e, s, env);
        }
      }
    }
  }

  /** One outcome keeps the invariant. */
  lemma OutcomeKeepsInv(cfg: Config, h: Host, st: Store, e: Event, expected: Option<string>, env: Env)
    requires Inv(cfg, h, st)
    ensures var (g, st', _) := RecordOutcome(cfg, h, st, e, expected, env); Inv(cfg, g, st')
  {
    hide Inv, SettleTail, ConcludeOutcome;
    SettleKeepsInv(cfg, h, st, env.reading);
    var h0 := SettleTail(cfg, h, st, env.reading).0;
    FlagKeepsInv(cfg, h0, st, EventId(e), SchemaInvalid);
    FlagKeepsInv(cfg, h0, st, EventId(e), ReplayDetected);
    var (h1, admission) := Admit(h0, e, expected, false);
    if admission.Admitted? {
      var s := admission.session;
      VerifyKeepsInv(cfg, h1, st, e, s, env.verdict);
      if VerifySignature(cfg, h1, e, s, env.verdict).1 == Passed {
        ConcludeOutcomeKeepsInv(cfg, VerifySignature(cfg, h1, e, s, env.verdict).0, st, e, s, env);
      }
    }
  }

  // ----- sessions, landings, restarts -----

  /** No committed record carries the session. */
  ghost predicate Unused(h: Host, st: Store, s: string) {
    forall e :: e in EventsOf(Committed(h.ledger, st)) ==> e.session != Some(s)
  }

  lemma OpeningUnusedKeepsInv(cfg: Config, h: Host, st: Store, s: string)
    requires Inv(cfg, h, st) && Unused(h, st, s)
    ensures Inv(cfg, OpenNew(h, s), st)
  {
    hide LedgerInv;
    var es := EventsOf(Committed(h.ledger, st));
    var g := OpenNew(h, s);
    forall t | t in g.sessions ensures Agrees(cfg, g.sessions[t], t, es) {
      if t != s {
        assert Agrees(cfg, h.sessions[t], t, es);
      }
    }
  }

  lemma OpeningUsedBreaksInv(cfg: Config, h: Host, st: Store, s: string)
    requires Inv(cfg, h, st) && !Unused(h, st, s)
    ensures !Inv(cfg, OpenNew(h, s), st)
  {
    hide LedgerInv;
    var es := EventsOf(Committed(h.ledger, st));
    var e :| e in es && e.session == Some(s);
    CommittedIsValid(cfg, h, st, e);
    assert KeyOf(e) == OpKey(Some(s), Some(e.id.value));
    assert OpenNew(h, s).sessions[s] == EMPTY_SESSION;
    assert !Agrees(cfg, EMPTY_SESSION, s, es);
  }

  /** A session that opens empty agrees with the chain exactly when no committed record carries it. */
  lemma OpeningAgreesIffUnused(cfg: Config, h: Host, st: Store, s: string)
    requires Inv(cfg, h, st)
    ensures Inv(cfg, OpenNew(h, s), st) <==> Unused(h, st, s)
  {
    hide Inv;
    if Unused(h, st, s) {
      OpeningUnusedKeepsInv(cfg, h, st, s);
    } else {
      OpeningUsedBreaksInv(cfg, h, st, s);
    }
  }

  lemma CommittedIsValid(cfg: Config, h: Host, st: Store, e: Event)
    requires Inv(cfg, h, st) && e in EventsOf(Committed(h.ledger, st))
    ensures SchemaValid(e)
  {
    hide HostInv, SchemaValid;
    var c := Committed(h.ledger, st);
    var i :| 0 <= i < |c| && EventsOf(c)[i] == e;
    var es := EventsOf(st.records);
    assert e == es[i];
    assert Fits(es[..i], es[i], cfg.level2);
  }

  lemma CloseKeepsInv(cfg: Config, h: Host, st: Store, s: string)
    requires Inv(cfg, h, st)
    ensures Inv(cfg, CloseSession(h, s), st)
  {
    hide LedgerInv, Agrees;
  }

  lemma LandKeepsInv(cfg: Config, h: Host, st: Store, r: Record)
    requires Inv(cfg, h, st)
    ensures Inv(cfg, h, Land(st, r))
    ensures Committed(h.ledger, Land(st, r)) == Committed(h.ledger, st)
  {
    hide HostInv, GoodChain, Extends;
    if r in st.delayed && r.position == |st.records| {
      assert Committed(h.ledger, st) == st.records;
      GoodChainAfter(cfg, st.records, r);
      assert Committed(h.ledger, Land(st, r)) == st.records;
    }
  }
}
