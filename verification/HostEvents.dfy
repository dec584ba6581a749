/**
 * What the stored events say over every run. With `once` the invariant adds that each operation ends once
 * and each number is sealed once, and needs that no session is opened under an id whose records it missed.
 */
module HostEvents {
  import opened Events
  import opened Chain
  import opened Reasons
  import opened HostModel
  import opened HostInvariant
  import opened HostRestart
  import opened HostRuns
  import opened HostChain

  /** `e` may be sealed after `es`. */
  ghost predicate May(es: seq<Event>, e: Event, level2: bool, once: bool) {
    if once then Fits(es, e, level2) else Sound(es, e, level2)
  }

  ghost predicate AllMay(es: seq<Event>, level2: bool, once: bool) {
    forall i :: 0 <= i < |es| ==> May(es[..i], es[i], level2, once)
  }

  /** The stored chain, and a delayed append that can still land right after the committed part. */
  ghost predicate StoredInv(cfg: Config, once: bool, l: LedgerState, st: Store) {
    && ChainInv(l, st)
    && AllMay(EventsOf(st.records), cfg.level2, once)
    && (forall d :: d in st.delayed && d.position == l.count ==>
          May(EventsOf(Committed(l, st)), d.event, cfg.level2, once))
  }

  /** A session accepts what was sealed and resolves what ended; with `once` it knows every end and every number
      sealed in it. */
  ghost predicate Tracks(cfg: Config, once: bool, x: Session, s: string, es: seq<Event>) {
    && (forall id :: id in x.accepted ==> OpKey(Some(s), Some(id)) in Attempts(es))
    && (forall id :: id in x.resolved ==> Ended(es, OpKey(Some(s), Some(id))))
    && (once ==> forall id :: OpKey(Some(s), Some(id)) in Terminals(es) ==> id in x.outcomes)
    && (once && cfg.level2 ==> forall k, n :: Number(k, s, n) in Numbers(es) ==> (k, n) in x.decided)
  }

  ghost predicate AllTrack(cfg: Config, once: bool, h: Host, es: seq<Event>) {
    forall s :: s in h.sessions ==> Tracks(cfg, once, h.sessions[s], s, es)
  }

  ghost predicate HostTracks(cfg: Config, once: bool, h: Host, c: seq<Record>) {
    IndexInv(h, c) && AllTrack(cfg, once, h, EventsOf(c))
  }

  ghost predicate EventsInv(cfg: Config, once: bool, h: Host, st: Store) {
    StoredInv(cfg, once, h.ledger, st) && HostTracks(cfg, once, h, Committed(h.ledger, st))
  }

  /** The full invariant is the stronger one. */
  lemma InvIsEvents(cfg: Config, once: bool, h: Host, st: Store)
    requires Inv(cfg, h, st)
    ensures EventsInv(cfg, once, h, st)
  {
    LedgerIsChain(cfg, h.ledger, st);
    KeptIsMay(EventsOf(st.records), cfg.level2, once);
    hide WellKept, AllMay, ChainInv, IndexInv, HeldInv, Linked, Sound, LinksTo, Agrees, Tracks;
    var es := EventsOf(Committed(h.ledger, st));
    WellKeptPrefix(EventsOf(st.records), h.ledger.count, cfg.level2);
    assert es == EventsOf(st.records)[..h.ledger.count];
    forall s | s in h.sessions ensures Tracks(cfg, once, h.sessions[s], s, es) {
      AgreesIsTracks(cfg, once, h.sessions[s], s, es);
    }
  }

  lemma AgreesIsTracks(cfg: Config, once: bool, x: Session, s: string, es: seq<Event>)
    requires Agrees(cfg, x, s, es) && WellKept(es, cfg.level2)
    ensures Tracks(cfg, once, x, s, es)
  {
    hide WellKept, Ended, SchemaValid;
    forall id | id in x.resolved ensures Ended(es, OpKey(Some(s), Some(id))) {
      KeptIsEnded(es, OpKey(Some(s), Some(id)), cfg.level2);
    }
  }

  /** In a well-kept chain the terminal record of a sealed attempt comes after it. */
  lemma KeptIsEnded(es: seq<Event>, k: OpKey, level2: bool)
    requires WellKept(es, level2) && k in Attempts(es) && k in Terminals(es)
    ensures Ended(es, k)
  {
    hide WellKept, SchemaValid, NumberOf;
    var e :| e in es && IsAttempt(e) && KeyOf(e) == k;
    var d :| d in es && !IsAttempt(d) && KeyOf(d) == k;
    var i :| 0 <= i < |es| && es[i] == e;
    var j :| 0 <= j < |es| && es[j] == d;
    Lifecycle(es, level2);
  }

  lemma KeptIsMay(es: seq<Event>, level2: bool, once: bool)
    requires WellKept(es, level2)
    ensures AllMay(es, level2, once)
  {
    forall i | 0 <= i < |es| ensures May(es[..i], es[i], level2, once) {
      assert Fits(es[..i], es[i], level2);
    }
  }

  // ----- one more record -----

  lemma MayAfter(es: seq<Event>, e: Event, level2: bool, once: bool)
    requires AllMay(es, level2, once) && May(es, e, level2, once)
    ensures AllMay(es + [e], level2, once)
  {
    hide May;
    forall i | 0 <= i < |es + [e]| ensures May((es + [e])[..i], (es + [e])[i], level2, once) {
      if i < |es| {
        assert (es + [e])[..i] == es[..i];
      } else {
        assert (es + [e])[..i] == es;
      }
    }
  }

  lemma MayAt(es: seq<Event>, i: nat, level2: bool, once: bool)
    requires AllMay(es, level2, once) && i < |es|
    ensures May(es[..i], es[i], level2, once) && Sound(es[..i], es[i], level2)
  {
  }

  /** No attempt id is sealed twice. */
  lemma AttemptIdsDiffer(es: seq<Event>, i: nat, j: nat, level2: bool, once: bool)
    requires AllMay(es, level2, once) && i < j < |es| && IsAttempt(es[i]) && IsAttempt(es[j])
    ensures es[i].id != es[j].id
  {
    MayAt(es, j, level2, once);
    InSets(es[..j], i);
    hide AllMay, SchemaValid, NumberOf;
  }

  lemma TracksAfter(cfg: Config, once: bool, x: Session, s: string, es: seq<Event>, e: Event)
    requires Tracks(cfg, once, x, s, es) && Sound(es, e, cfg.level2)
    ensures Tracks(cfg, once, if e.session == Some(s) then AccountTo(cfg, x, e) else x, s, es + [e])
  {
    SetsAfter(es, e);
    EndsAfter(es, e);
    hide Ended;
  }

  lemma EndsAfter(es: seq<Event>, e: Event)
    ensures forall k :: Ended(es + [e], k) <==> Ended(es, k) || (!IsAttempt(e) && KeyOf(e) == k && k in Attempts(es))
  {
    hide Ended;
    forall k ensures Ended(es + [e], k) <==> Ended(es, k) || (!IsAttempt(e) && KeyOf(e) == k && k in Attempts(es)) {
      EndedAfter(es, e, k);
    }
  }

  lemma HostAfterRecord(cfg: Config, once: bool, h: Host, c: seq<Record>, r: Record)
    requires HostTracks(cfg, once, h, c) && Sound(EventsOf(c), r.event, cfg.level2)
    ensures HostTracks(cfg, once, Absorb(cfg, h, r), c + [r])
  {
    EventsAfter(c, r);
    IndexesAfter(cfg, h, c, r);
    hide IndexInv, Sound, Tracks;
    var g := Absorb(cfg, h, r);
    forall s | s in g.sessions ensures Tracks(cfg, once, g.sessions[s], s, EventsOf(c) + [r.event]) {
      TracksAfter(cfg, once, h.sessions[s], s, EventsOf(c), r.event);
    }
  }

  lemma MayIsSound(es: seq<Event>, e: Event, level2: bool, once: bool)
    requires May(es, e, level2, once)
    ensures Sound(es, e, level2)
  {
  }

  // ----- settling -----

  lemma AdoptKeepsEvents(cfg: Config, once: bool, h: Host, st: Store)
    requires EventsInv(cfg, once, h, st) && |st.records| == h.ledger.count + 1
    ensures EventsInv(cfg, once, Absorb(cfg, h, st.records[h.ledger.count]), st)
  {
    var r := st.records[h.ledger.count];
    var es := EventsOf(st.records);
    AheadLinks(h.ledger, st);
    AdoptKeepsTheLedger(cfg, h, r);
    MayAt(es, h.ledger.count, cfg.level2, once);
    assert es[..h.ledger.count] == EventsOf(Committed(h.ledger, st));
    HostAfterRecord(cfg, once, h, Committed(h.ledger, st), r);
    assert forall d :: d in st.delayed ==> d.position <= h.ledger.count;
    hide Linked, LinksTo, HostTracks, AllMay, May, Absorb, Sound;
  }

  lemma DoubtIsFree(cfg: Config, once: bool, h: Host, st: Store, uncertain: bool)
    requires EventsInv(cfg, once, h, st)
    ensures EventsInv(cfg, once, h.(tailUncertain := uncertain), st)
  {
    hide StoredInv, Tracks;
  }

  lemma SettleKeepsEvents(cfg: Config, once: bool, h: Host, st: Store, reading: Reading)
    requires EventsInv(cfg, once, h, st)
    ensures EventsInv(cfg, once, SettleTail(cfg, h, st, reading).0, st)
  {
    hide Linked, LinksTo, HostTracks, AllMay, May, Absorb;
    if h.tailUncertain && reading == ReadTail {
      if st.records != [] {
        TailIs(h.ledger, st);
      }
      if |st.records| == h.ledger.count + 1 {
        AdoptKeepsEvents(cfg, once, h, st);
        DoubtIsFree(cfg, once, Absorb(cfg, h, st.records[h.ledger.count]), st, false);
      } else {
        DoubtIsFree(cfg, once, h, st, false);
      }
    }
  }

  // ----- sealing -----

  lemma StoredWithNext(cfg: Config, once: bool, l: LedgerState, st: Store, r: Record)
    requires StoredInv(cfg, once, l, st) && LinksTo(Committed(l, st), r) && r.position == |st.records|
    requires May(EventsOf(Committed(l, st)), r.event, cfg.level2, once)
    ensures AllMay(EventsOf(st.records + [r]), cfg.level2, once)
    ensures forall d :: d in st.delayed ==> d.position <= l.count
  {
    assert Committed(l, st) == st.records;
    EventsAfter(st.records, r);
    MayAfter(EventsOf(st.records), r.event, cfg.level2, once);
    hide AllMay, May, Linked, LinksTo;
  }

  lemma AppendKeepsStored(cfg: Config, once: bool, l: LedgerState, st: Store, r: Record, fate: Fate)
    requires StoredInv(cfg, once, l, st) && LinksTo(Committed(l, st), r)
    requires May(EventsOf(Committed(l, st)), r.event, cfg.level2, once)
    ensures var (st', acked) := Append(st, r, fate);
            && StoredInv(cfg, once, if acked then Commit(l, r) else l, st')
            && Committed(l, st') == Committed(l, st)
            && (acked ==> Committed(Commit(l, r), st') == Committed(l, st) + [r])
  {
    AppendKeepsChain(l, st, r, fate);
    hide ChainInv, AllMay, May, LinksTo;
    if r.position == |st.records| {
      StoredWithNext(cfg, once, l, st, r);
    }
  }

  /** Sealing an event that may be sealed, in its open session, keeps the invariant whatever the environment does. */
  lemma SealKeepsEvents(cfg: Config, once: bool, h: Host, st: Store, e: Event, s: string, env: Env)
    requires EventsInv(cfg, once, h, st) && s in h.sessions && e.session == Some(s)
    requires May(EventsOf(Committed(h.ledger, st)), e, cfg.level2, once)
    ensures var (g, st', sealing) := Seal(cfg, h, st, e, env);
            EventsInv(cfg, once,
                      if sealing.SealedAs? then WithSession(g, s, AccountTo(cfg, h.sessions[s], e)) else g, st')
  {
    var r := Countersigned(cfg, NextRecord(e, h.ledger.count, env.now, h.ledger.tailHash), env.signing);
    hide ChainInv, AllMay, May, HostTracks, Sound, LinksTo, Absorb, AccountTo, Committed;
    NextLinks(cfg, h.ledger, st, e, env);
    hide StoredInv;
    AppendKeepsStored(cfg, once, h.ledger, st, r, env.fate);
    MayIsSound(EventsOf(Committed(h.ledger, st)), e, cfg.level2, once);
    HostAfterRecord(cfg, once, h, Committed(h.ledger, st), r);
    AdoptKeepsTheLedger(cfg, h, r);
    TracksInDoubt(cfg, once, h, Committed(h.ledger, st));
    AdoptsInItsSession(cfg, h, r, s);
  }

  lemma TracksInDoubt(cfg: Config, once: bool, h: Host, c: seq<Record>)
    requires HostTracks(cfg, once, h, c)
    ensures HostTracks(cfg, once, h.(tailUncertain := true), c)
  {
    hide Tracks;
  }

  lemma AdoptsInItsSession(cfg: Config, h: Host, r: Record, s: string)
    requires r.event.session == Some(s) && s in h.sessions
    ensures WithSession(CommitAndRemember(h, r), s, AccountTo(cfg, h.sessions[s], r.event)) == Absorb(cfg, h, r)
  {
    hide AccountTo;
  }

  // ----- the decisions -----

  /** A session may gain decisions, receipts and accepted attempts that are sealed, and the host flags. */
  lemma SessionChangeKeepsEvents(cfg: Config, once: bool, h: Host, g: Host, st: Store, s: string)
    requires EventsInv(cfg, once, h, st) && s in h.sessions && s in g.sessions
    requires g == h.(sessions := g.sessions, rejectedIds := g.rejectedIds, anomalies := g.anomalies)
    requires g.sessions == h.sessions[s := g.sessions[s]]
    requires h.sessions[s].decided <= g.sessions[s].decided && h.sessions[s].outcomes == g.sessions[s].outcomes
    requires h.sessions[s].resolved == g.sessions[s].resolved
    requires forall id :: id in g.sessions[s].accepted ==>
               id in h.sessions[s].accepted || OpKey(Some(s), Some(id)) in Attempts(EventsOf(Committed(h.ledger, st)))
    ensures EventsInv(cfg, once, g, st)
  {
    hide StoredInv, AttemptIds, Attempts, Terminals, Numbers, Ended;
    var es := EventsOf(Committed(h.ledger, st));
    forall t | t in g.sessions ensures Tracks(cfg, once, g.sessions[t], t, es) {
      assert Tracks(cfg, once, h.sessions[t], t, es);
    }
  }

  lemma FlagKeepsEvents(cfg: Config, once: bool, h: Host, st: Store, id: string, c: Code, ids: set<string>)
    requires EventsInv(cfg, once, h, st)
    ensures EventsInv(cfg, once, Flag(h, id, c), st) && EventsInv(cfg, once, h.(rejectedIds := ids), st)
  {
    hide StoredInv, Tracks;
  }

  lemma VerifyKeepsEvents(cfg: Config, once: bool, h: Host, st: Store, e: Event, s: string, verdict: Verdict)
    requires EventsInv(cfg, once, h, st) && s in h.sessions
    ensures var g := VerifySignature(cfg, h, e, s, verdict).0;
            EventsInv(cfg, once, g, st) && g.sessions.Keys == h.sessions.Keys
    ensures cfg.level2 && VerifySignature(cfg, h, e, s, verdict).1 == Passed ==> e.keyId.Some? && e.signerSeq.Some?
  {
    hide EventsInv;
    SessionChangeKeepsEvents(cfg, once, h, VerifySignature(cfg, h, e, s, verdict).0, st, s);
  }

  lemma AdmittedAttemptMay(cfg: Config, once: bool, h: Host, st: Store, e: Event, s: string)
    requires EventsInv(cfg, once, h, st) && s in h.sessions && e.session == Some(s)
    requires SchemaValid(e) && e.canonical && IsAttempt(e) && (cfg.level2 ==> NumberOf(e).Some?)
    requires EventId(e) !in h.sealedAttempts && EventId(e) !in h.sessions[s].outcomes
    requires !AlreadyDecided(cfg, h.sessions[s], e)
    ensures May(EventsOf(Committed(h.ledger, st)), e, cfg.level2, once)
  {
    hide StoredInv;
    assert Tracks(cfg, once, h.sessions[s], s, EventsOf(Committed(h.ledger, st)));
  }

  lemma AdmittedOutcomeMay(cfg: Config, once: bool, h: Host, st: Store, e: Event, s: string)
    requires EventsInv(cfg, once, h, st) && s in h.sessions && e.session == Some(s)
    requires SchemaValid(e) && e.canonical && !IsAttempt(e) && (cfg.level2 ==> NumberOf(e).Some?)
    requires EventId(e) !in h.sessions[s].outcomes && !AlreadyDecided(cfg, h.sessions[s], e)
    requires EventId(e) in h.sessions[s].accepted || e.outcome == Some(Aborted)
    ensures May(EventsOf(Committed(h.ledger, st)), e, cfg.level2, once)
  {
    hide StoredInv, IndexInv;
    assert Tracks(cfg, once, h.sessions[s], s, EventsOf(Committed(h.ledger, st)));
  }

  lemma RepeatIsSealed(h: Host, c: seq<Record>, e: Event, s: string)
    requires IndexInv(h, c) && e.id.Some? && e.session == Some(s) && IsAttempt(e)
    requires e.id.value in h.sealedAttempts && h.sealedAttempts[e.id.value].event == e
    ensures OpKey(Some(s), e.id) in Attempts(EventsOf(c))
  {
    var r := h.sealedAttempts[e.id.value];
    var i :| 0 <= i < |c| && c[i] == r;
    assert EventsOf(c)[i] == e;
  }

  lemma ConcludeAttemptKeepsEvents(cfg: Config, once: bool, h: Host, st: Store, e: Event, s: string, env: Env)
    requires EventsInv(cfg, once, h, st) && s in h.sessions && e.session == Some(s)
    requires SchemaValid(e) && e.canonical && IsAttempt(e) && (cfg.level2 ==> NumberOf(e).Some?)
    ensures var (g, st', _) := ConcludeAttempt(cfg, h, st, e, s, env); EventsInv(cfg, once, g, st')
  {
    hide StoredInv, IndexInv, Tracks, Seal, NumberOf;
    var id := EventId(e);
    var x := h.sessions[s];
    if id in h.sealedAttempts && h.sealedAttempts[id].event == e {
      RepeatIsSealed(h, Committed(h.ledger, st), e, s);
      hide EventsInv;
      SessionChangeKeepsEvents(cfg, once, h, ConcludeAttempt(cfg, h, st, e, s, env).0, st, s);
    } else if id in h.sealedAttempts || id in x.outcomes || AlreadyDecided(cfg, x, e) {
      hide EventsInv;
      SessionChangeKeepsEvents(cfg, once, h, RejectReplay(cfg, h, e, s), st, s);
    } else {
      hide EventsInv;
      AdmittedAttemptMay(cfg, once, h, st, e, s);
      SealKeepsEvents(cfg, once, h, st, e, s, env);
    }
  }

  lemma ConcludeOutcomeKeepsEvents(cfg: Config, once: bool, h: Host, st: Store, e: Event, s: string, env: Env)
    requires EventsInv(cfg, once, h, st) && s in h.sessions && e.session == Some(s)
    requires SchemaValid(e) && e.canonical && !IsAttempt(e) && (cfg.level2 ==> NumberOf(e).Some?)
    ensures var (g, st', _) := ConcludeOutcome(cfg, h, st, e, s, env); EventsInv(cfg, once, g, st')
  {
    hide EventsInv, Seal, NumberOf;
    var id := EventId(e);
    var x := h.sessions[s];
    var (g, st', d) := ConcludeOutcome(cfg, h, st, e, s, env);
    if id in x.outcomes || e in h.sealedDigests || AlreadyDecided(cfg, x, e)
       || (id !in x.accepted && e.outcome != Some(Aborted)) || !env.persistenceAvailable {
      SessionChangeKeepsEvents(cfg, once, h, g, st, s);
    } else {
      AdmittedOutcomeMay(cfg, once, h, st, e, s);
      SealKeepsEvents(cfg, once, h, st, e, s, env);
    }
  }

  lemma AttemptKeepsEvents(cfg: Config, once: bool, h: Host, st: Store, e: Event, expected: Option<string>, env: Env)
    requires EventsInv(cfg, once, h, st)
    ensures var (g, st', _) := HandleAttempt(cfg, h, st, e, expected, env); EventsInv(cfg, once, g, st')
  {
    hide EventsInv, SettleTail, ConcludeAttempt, VerifySignature;
    if !env.expired {
      SettleKeepsEvents(cfg, once, h, st, env.reading);
      var h0 := SettleTail(cfg, h, st, env.reading).0;
      FlagKeepsEvents(cfg, once, h0, st, EventId(e), SchemaInvalid, {});
      FlagKeepsEvents(cfg, once, h0, st, EventId(e), ReplayDetected, {});
      var (h1, admission) := Admit(h0, e, expected, true);
      if admission.Admitted? {
        var s := admission.session;
        VerifyKeepsEvents(cfg, once, h1, st, e, s, env.verdict);
        var (h2, check) := VerifySignature(cfg, h1, e, s, env.verdict);
        FlagKeepsEvents(cfg, once, h2, st, EventId(e), SchemaInvalid, h2.rejectedIds + {EventId(e)});
        if check == Passed {
          ConcludeAttemptKeepsEvents(cfg, once, h2, st, e, s, env);
        }
      }
    }
  }

  lemma OutcomeKeepsEvents(cfg: Config, once: bool, h: Host, st: Store, e: Event, expected: Option<string>, env: Env)
    requires EventsInv(cfg, once, h, st)
    ensures var (g, st', _) := RecordOutcome(cfg, h, st, e, expected, env); EventsInv(cfg, once, g, st')
  {
    hide EventsInv, SettleTail, ConcludeOutcome, VerifySignature;
    SettleKeepsEvents(cfg, once, h, st, env.reading);
    var h0 := SettleTail(cfg, h, st, env.reading).0;
    FlagKeepsEvents(cfg, once, h0, st, EventId(e), SchemaInvalid, {});
    FlagKeepsEvents(cfg, once, h0, st, EventId(e), ReplayDetected, {});
    var (h1, admission) := Admit(h0, e, expected, false);
    if admission.Admitted? {
      var s := admission.session;
      VerifyKeepsEvents(cfg, once, h1, st, e, s, env.verdict);
      if VerifySignature(cfg, h1, e, s, env.verdict).1 == Passed {
        ConcludeOutcomeKeepsEvents(cfg, once, VerifySignature(cfg, h1, e, s, env.verdict).0, st, e, s, env);
      }
    }
  }

  // ----- sessions, landings, restarts -----

  /** Nothing the chain holds of the session matters to a host that has forgotten it: at Level 2 it holds
      nothing, and at Level 1 no operation of it ended. */
  ghost predicate Reusable(cfg: Config, h: Host, st: Store, s: string) {
    forall e :: e in EventsOf(Committed(h.ledger, st)) && e.session == Some(s) ==> IsAttempt(e) && !cfg.level2
  }

  lemma OpeningKeepsEvents(cfg: Config, once: bool, h: Host, st: Store, s: string)
    requires EventsInv(cfg, once, h, st) && (once ==> Reusable(cfg, h, st, s))
    ensures EventsInv(cfg, once, OpenNew(h, s), st)
  {
    hide StoredInv;
    var es := EventsOf(Committed(h.ledger, st));
    var g := OpenNew(h, s);
    forall t | t in g.sessions ensures Tracks(cfg, once, g.sessions[t], t, es) {
      if t != s {
        assert Tracks(cfg, once, h.sessions[t], t, es);
      }
    }
  }

  lemma CloseKeepsEvents(cfg: Config, once: bool, h: Host, st: Store, s: string)
    requires EventsInv(cfg, once, h, st)
    ensures EventsInv(cfg, once, CloseSession(h, s), st)
  {
    hide StoredInv, Tracks;
  }

  lemma LandKeepsEvents(cfg: Config, once: bool, h: Host, st: Store, r: Record)
    requires EventsInv(cfg, once, h, st)
    ensures EventsInv(cfg, once, h, Land(st, r))
  {
    LandKeepsChain(h.ledger, st, r);
    if r in st.delayed && r.position == |st.records| {
      assert Committed(h.ledger, st) == st.records;
      EventsAfter(st.records, r);
      MayAfter(EventsOf(st.records), r.event, cfg.level2, once);
    }
    hide HostTracks, ChainInv, AllMay, May;
  }

  /** A session read back tracks the records it was read from, whatever else they say. */
  lemma {:induction false} RestoredTracks(cfg: Config, once: bool, s: string, es: seq<Event>)
    requires forall e :: e in es ==> SchemaValid(e)
    ensures Tracks(cfg, once, RestoredSession(s, es), s, es)
  {
    if es == [] {
      SetsOfNothing();
    } else {
      var before, e := es[..|es| - 1], es[|es| - 1];
      assert es == before + [e];
      RestoredTracks(cfg, once, s, before);
      RestoreTracks(cfg, once, RestoredSession(s, before), s, before, e);
    }
  }

  lemma RestoreTracks(cfg: Config, once: bool, x: Session, s: string, es: seq<Event>, e: Event)
    requires Tracks(cfg, once, x, s, es) && SchemaValid(e)
    ensures Tracks(cfg, once, if e.session == Some(s) && e.version == Some(V04) then Restore(x, e) else x, s, es + [e])
  {
    SetsAfter(es, e);
    EndsAfter(es, e);
    hide Ended;
  }

  lemma MergeTracks(cfg: Config, once: bool, x: Session, s: string, es: seq<Event>, signers: Option<SignerTracker>)
    requires Tracks(cfg, once, x, s, es)
    ensures Tracks(cfg, once, Merge(x, signers), s, es)
  {
  }

  lemma {:induction false} RestoredSessionsTrack(cfg: Config, once: bool, opens: seq<OpenSession>, es: seq<Event>)
    requires forall e :: e in es ==> SchemaValid(e)
    ensures forall s :: s in RestoredSessions(opens, es) ==> Tracks(cfg, once, RestoredSessions(opens, es)[s], s, es)
  {
    hide Tracks, SchemaValid;
    if opens != [] {
      var o := opens[|opens| - 1];
      RestoredSessionsTrack(cfg, once, opens[..|opens| - 1], es);
      RestoredTracks(cfg, once, o.sessionId, es);
      MergeTracks(cfg, once, RestoredSession(o.sessionId, es), o.sessionId, es, o.signers);
    }
  }

  lemma SoundEvents(es: seq<Event>, level2: bool, once: bool)
    requires AllMay(es, level2, once)
    ensures forall e :: e in es ==> SchemaValid(e) && e.canonical && (level2 ==> NumberOf(e).Some?)
  {
    hide SchemaValid, NumberOf;
    forall e | e in es ensures SchemaValid(e) && e.canonical && (level2 ==> NumberOf(e).Some?) {
      var i :| 0 <= i < |es| && es[i] == e;
      MayAt(es, i, level2, once);
    }
  }

  lemma ResumeKeepsEvents(cfg: Config, once: bool, h: Host, st: Store, opens: seq<OpenSession>)
    requires EventsInv(cfg, once, h, st)
    ensures EventsInv(cfg, once, Resume(st.records, opens), st)
  {
    var es := EventsOf(st.records);
    SoundEvents(es, cfg.level2, once);
    ResumedTracks(cfg, once, st.records, opens);
    ResumedStored(cfg, once, h.ledger, st);
    hide StoredInv, HostTracks, RestoredSessions, RememberedAttempts, OpenAttempts, ResumeFrom;
  }

  lemma ResumedTracks(cfg: Config, once: bool, records: seq<Record>, opens: seq<OpenSession>)
    requires forall e :: e in EventsOf(records) ==> SchemaValid(e)
    ensures HostTracks(cfg, once, Resume(records, opens), records)
  {
    RememberedAttemptsIndex(records);
    RestoredSessionsTrack(cfg, once, opens, EventsOf(records));
    hide Tracks, RestoredSessions, RememberedAttempts, OpenAttempts, ResumeFrom, SchemaValid, AttemptIds;
  }

  lemma ResumedStored(cfg: Config, once: bool, l: LedgerState, st: Store)
    requires StoredInv(cfg, once, l, st)
    ensures StoredInv(cfg, once, ResumeFrom(st.records), st)
    ensures Committed(ResumeFrom(st.records), st) == st.records
  {
    ResumeKeepsChain(l, st);
    assert st.records[..|st.records|] == st.records;
    if |st.records| == l.count {
      assert Committed(l, st) == st.records;
    }
    hide AllMay, May, Linked, LinksTo;
  }

  lemma StepKeepsEvents(cfg: Config, once: bool, sys: System, input: Input)
    requires EventsInv(cfg, once, sys.host, sys.store)
    requires once && input.SessionOpens? && input.session !in sys.host.issued ==>
               Reusable(cfg, sys.host, sys.store, input.session)
    ensures EventsInv(cfg, once, Step(cfg, sys, input).0.host, Step(cfg, sys, input).0.store)
  {
    hide EventsInv, HandleAttempt, RecordOutcome, CloseSession, Land, Resume, OpenNew, Reusable;
    var h, st := sys.host, sys.store;
    match input
    case AttemptArrives(e, expected, env) => AttemptKeepsEvents(cfg, once, h, st, e, expected, env);
    case OutcomeArrives(e, expected, env) => OutcomeKeepsEvents(cfg, once, h, st, e, expected, env);
    case SessionOpens(s) =>
      if s !in h.issued {
        OpeningKeepsEvents(cfg, once, h, st, s);
      }
    case SessionCloses(s) => CloseKeepsEvents(cfg, once, h, st, s);
    case AppendLands(r) => LandKeepsEvents(cfg, once, h, st, r);
    case HostRestarts(opens) => ResumeKeepsEvents(cfg, once, h, st, opens);
  }

  /** An id no committed record carries is one a host may forget. */
  lemma UnusedIsReusable(cfg: Config, h: Host, st: Store, s: string)
    requires Unused(h, st, s)
    ensures Reusable(cfg, h, st, s)
  {
  }

  lemma {:induction false} RunKeepsEvents(cfg: Config, once: bool, sys: System, inputs: seq<Input>)
    requires EventsInv(cfg, once, sys.host, sys.store) && (once ==> FreshRun(cfg, sys, inputs))
    ensures EventsInv(cfg, once, Run(cfg, sys, inputs).host, Run(cfg, sys, inputs).store)
    decreases |inputs|
  {
    hide EventsInv, Step, Unused, Reusable;
    if inputs != [] {
      if once && inputs[0].SessionOpens? && inputs[0].session !in sys.host.issued {
        UnusedIsReusable(cfg, sys.host, sys.store, inputs[0].session);
      }
      StepKeepsEvents(cfg, once, sys, inputs[0]);
      RunKeepsEvents(cfg, once, Step(cfg, sys, inputs[0]).0, inputs[1..]);
    }
  }

  lemma StartEvents(cfg: Config, once: bool)
    ensures EventsInv(cfg, once, START.host, START.store)
  {
    StartInv(cfg);
    InvIsEvents(cfg, once, START.host, START.store);
  }

  /**
   * The chain of every run, ids opened again included: each stored event is a canonical event of the current
   * version, numbered at Level 2; no attempt id is sealed twice; and `success` and `failed` follow their attempt.
   */
  lemma EveryChainIsSound(cfg: Config, inputs: seq<Input>)
    ensures var es := EventsOf(Run(cfg, START, inputs).store.records);
            && (forall i :: 0 <= i < |es| ==> Sound(es[..i], es[i], cfg.level2))
            && (forall i, j :: 0 <= i < j < |es| && IsAttempt(es[i]) && IsAttempt(es[j]) ==> es[i].id != es[j].id)
            && (forall j :: 0 <= j < |es| && (es[j].outcome == Some(Success) || es[j].outcome == Some(Failed)) ==>
                  exists i :: 0 <= i < j && IsAttempt(es[i]) && KeyOf(es[i]) == KeyOf(es[j]))
  {
    hide Run, HostTracks, ChainInv, SchemaValid, NumberOf;
    StartEvents(cfg, false);
    RunKeepsEvents(cfg, false, START, inputs);
    var es := EventsOf(Run(cfg, START, inputs).store.records);
    forall j | 0 <= j < |es| ensures Sound(es[..j], es[j], cfg.level2) {
      MayAt(es, j, cfg.level2, false);
    }
    forall i, j | 0 <= i < j < |es| && IsAttempt(es[i]) && IsAttempt(es[j]) ensures es[i].id != es[j].id {
      AttemptIdsDiffer(es, i, j, cfg.level2, false);
    }
    forall j | 0 <= j < |es| && (es[j].outcome == Some(Success) || es[j].outcome == Some(Failed))
      ensures exists i :: 0 <= i < j && IsAttempt(es[i]) && KeyOf(es[i]) == KeyOf(es[j])
    {
      assert Sound(es[..j], es[j], cfg.level2);
      var e :| e in es[..j] && IsAttempt(e) && KeyOf(e) == KeyOf(es[j]);
      var i :| 0 <= i < j && es[..j][i] == e;
    }
  }
}
