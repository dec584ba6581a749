/** What the host answers, said from the chain alone: the indexes and session sets are a faster way to ask it. */
module HostRulings {
  import opened Events
  import opened Chain
  import opened Reasons
  import opened HostModel
  import opened HostInvariant
  import opened HostRuns
  import opened HostChain
  import opened HostEvents
  import opened HostRepeats

  /** The first rule that applies to an event, in the order the rules are checked. */
  datatype Ruling =
    | Malformed
    | NotThisCall
    | NotSigned(reason: Code)
    | NotChecked
    | SealedBefore
    | Replayed
    | Orphan
    | MaySeal

  /** Structure, session and signature: what is asked before the chain is. */
  function Preliminary(cfg: Config, h: Host, e: Event, expected: Option<string>, verdict: Verdict, attempt: bool)
    : Option<Ruling>
  {
    if !SchemaValid(e) || IsAttempt(e) != attempt || !e.canonical then
      Some(Malformed)
    else if e.session.value !in h.sessions || (expected.Some? && e.session != expected) then
      Some(NotThisCall)
    else if !cfg.level2 then
      None
    else if e.signature.None? || e.keyId.None? || e.signerSeq.None? then
      Some(NotSigned(L2Unsigned))
    else
      match verdict
      case VerifierRaised => Some(NotChecked)
      case Refuses(reason) => Some(NotSigned(reason))
      case Verifies => None
  }

  /** The number was decided in the event's session: sealed, or refused after its signature verified. */
  predicate DecidedInSession(cfg: Config, h: Host, e: Event) {
    e.session.Some? && e.session.value in h.sessions && AlreadyDecided(cfg, h.sessions[e.session.value], e)
  }

  ghost function AttemptRuling(cfg: Config, h: Host, es: seq<Event>, e: Event, expected: Option<string>,
                               verdict: Verdict)
    : Ruling
  {
    var first := Preliminary(cfg, h, e, expected, verdict, true);
    if first.Some? then
      first.value
    else if e in es then
      SealedBefore
    else if e.id in AttemptIds(es) || KeyOf(e) in Terminals(es) || DecidedInSession(cfg, h, e) then
      Replayed
    else
      MaySeal
  }

  ghost function OutcomeRuling(cfg: Config, h: Host, es: seq<Event>, e: Event, expected: Option<string>,
                               verdict: Verdict)
    : Ruling
  {
    var first := Preliminary(cfg, h, e, expected, verdict, false);
    if first.Some? then
      first.value
    else if e in es then
      SealedBefore
    else if KeyOf(e) in Terminals(es) || DecidedInSession(cfg, h, e) then
      Replayed
    else if KeyOf(e) !in Attempts(es) && e.outcome != Some(Aborted) then
      Orphan
    else
      MaySeal
  }

  /** Everything an append needs: the store takes it at the host's position, and says so. */
  predicate CanSeal(cfg: Config, h: Host, st: Store, env: Env) {
    && env.persistenceAvailable
    && (cfg.countersigner.Some? ==> env.signing.Signed?)
    && env.fate == Acked && |st.records| == h.ledger.count
  }

  /** The record that seals an event: the next of the chain, at the host's time, countersigned where the host
      countersigns. */
  ghost predicate IsSealOf(cfg: Config, h: Host, st: Store, e: Event, env: Env, r: Record) {
    && r.event == e && r.hostTs == env.now && LinksTo(Committed(h.ledger, st), r)
    && match cfg.countersigner
       case None => r.hostSignature.None? && r.hostKeyId.None? && r.logId.None?
       case Some(k) =>
         && r.hostKeyId == Some(k) && r.logId == Some(cfg.logId) && env.signing.Signed?
         && r.hostSignature ==
              Some(env.signing.sign(Payload(r.position, r.hostTs, cfg.logId, r.previousHash, r.recordHash)))
  }

  /** Nothing keeps the host from appending: the store is there, and what has to be signed was. */
  predicate MayAppend(cfg: Config, env: Env) {
    env.persistenceAvailable && (cfg.countersigner.Some? ==> env.signing.Signed?)
  }

  /** Sealing was broken off: in the countersigner, or in an append that was not acknowledged. */
  predicate BrokenOff(cfg: Config, h: Host, st: Store, env: Env) {
    if MayAppend(cfg, env) then
      !CanSeal(cfg, h, st, env) && env.interrupted
    else
      env.persistenceAvailable && env.signing.SignerInterrupted?
  }

  /** What became of the sealing: nothing where the host could not append, and otherwise one record, stored, lost
      or delayed as the store has it, committed where that was acknowledged. The tail is in doubt exactly where an
      append was not acknowledged or sealing was broken off. */
  ghost predicate Appended(cfg: Config, h: Host, st: Store, e: Event, env: Env, g: Host, st': Store) {
    && (g.tailUncertain <==> BrokenOff(cfg, h, st, env) || (MayAppend(cfg, env) && !CanSeal(cfg, h, st, env)))
    && if MayAppend(cfg, env) then
         exists r ::
           && IsSealOf(cfg, h, st, e, env, r)
           && var free := |st.records| == h.ledger.count;
           && st'.records == st.records + (if free && (env.fate.Acked? || env.fate.LandedUnacked?) then [r] else [])
           && st'.delayed == st.delayed + (if free && env.fate.Delayed? then {r} else {})
           && Committed(g.ledger, st') == Committed(h.ledger, st) + if CanSeal(cfg, h, st, env) then [r] else []
       else
         st' == st && Committed(g.ledger, st') == Committed(h.ledger, st)
  }

  /** The number lies past the next one after the highest its session has received, or past 0 where it has none. */
  predicate LeavesGap(cfg: Config, h: Host, e: Event) {
    && cfg.level2 && e.keyId.Some? && e.signerSeq.Some? && e.session.Some? && e.session.value in h.sessions
    && var received := h.sessions[e.session.value].received;
    if e.keyId.value in received then e.signerSeq.value > received[e.keyId.value] + 1 else e.signerSeq.value > 0
  }

  /** A signature that is missing or of an unknown key is flagged as one that does not verify. */
  function SignatureKind(reason: Code): Code {
    if reason == L2Unsigned || reason == UnknownKey then SignatureInvalid else reason
  }

  /** What a ruling flags, beside the gap the event's number leaves. */
  function FlaggedBy(ruling: Ruling, e: Event, gap: bool): multiset<Anomaly> {
    var id := if e.id.Some? then e.id.value else "<unknown>";
    var gaps := if gap then multiset{Anomaly(id, SignerSeqGap)} else multiset{};
    match ruling
    case Malformed => multiset{Anomaly(id, SchemaInvalid)}
    case NotThisCall => multiset{Anomaly(id, ReplayDetected)}
    case NotSigned(reason) => multiset{Anomaly(id, SignatureKind(reason))}
    case NotChecked => multiset{}
    case SealedBefore => gaps
    case Replayed => gaps + multiset{Anomaly(id, ReplayDetected)}
    case Orphan => gaps + multiset{Anomaly(id, OrphanedOutcome)}
    case MaySeal => gaps
  }

  /** Past the signature the highest number received under the event's key is kept. */
  predicate HighestKept(cfg: Config, h: Host, g: Host, e: Event)
    requires e.session.Some? && e.session.value in h.sessions && e.session.value in g.sessions
    requires cfg.level2 ==> e.keyId.Some? && e.signerSeq.Some?
  {
    var s := e.session.value;
    var before, after := h.sessions[s].received, g.sessions[s].received;
    if !cfg.level2 then
      after == before
    else
      var k, n := e.keyId.value, e.signerSeq.value;
      after == if k in before && before[k] >= n then before else before[k := n]
  }

  /** An event that decided nothing can come again: the sets that decide are as they were. */
  ghost predicate NothingDecided(h: Host, g: Host) {
    && g.ledger == h.ledger && g.sealedAttempts == h.sealedAttempts && g.sealedDigests == h.sealedDigests
    && g.sessions.Keys == h.sessions.Keys
    && forall s :: s in h.sessions ==> g.sessions[s] == h.sessions[s].(received := g.sessions[s].received)
  }

  // ----- what the session's sets say is what the chain says -----

  lemma AttemptView(cfg: Config, h: Host, st: Store, e: Event, s: string)
    requires Inv(cfg, h, st) && s in h.sessions && e.session == Some(s) && e.id.Some? && IsAttempt(e)
    ensures var es := EventsOf(Committed(h.ledger, st));
            && (e.id.value in h.sealedAttempts && h.sealedAttempts[e.id.value].event == e <==> e in es)
            && (e.id.value in h.sealedAttempts <==> e.id in AttemptIds(es))
            && (e.id.value in h.sessions[s].outcomes <==> KeyOf(e) in Terminals(es))
            && (e in es ==> h.sealedAttempts[e.id.value] in Committed(h.ledger, st))
  {
    var c := Committed(h.ledger, st);
    hide LedgerInv, AttemptIds;
    if e in EventsOf(c) {
      KnownAttempt(cfg, h, st, e);
    }
    assert Agrees(cfg, h.sessions[s], s, EventsOf(c));
    if e.id.value in h.sealedAttempts && h.sealedAttempts[e.id.value].event == e {
      EventIn(c, h.sealedAttempts[e.id.value]);
    }
  }

  lemma KnownAttempt(cfg: Config, h: Host, st: Store, e: Event)
    requires Inv(cfg, h, st) && e in EventsOf(Committed(h.ledger, st)) && IsAttempt(e) && e.id.Some?
    ensures e.id.value in h.sealedAttempts && h.sealedAttempts[e.id.value].event == e
  {
    InvIsEvents(cfg, false, h, st);
    hide Inv, EventsInv;
    IndexedAttempt(cfg, h, st, e);
  }

  lemma OutcomeView(cfg: Config, h: Host, st: Store, e: Event, s: string)
    requires Inv(cfg, h, st) && s in h.sessions && e.session == Some(s) && e.id.Some? && !IsAttempt(e)
    ensures var es := EventsOf(Committed(h.ledger, st));
            && (e in h.sealedDigests <==> e in es)
            && (e.id.value in h.sessions[s].outcomes <==> KeyOf(e) in Terminals(es))
            && (e.id.value in h.sessions[s].outcomes && h.sessions[s].outcomes[e.id.value] == e ==> e in es)
            && (e.id.value in h.sessions[s].accepted <==> KeyOf(e) in Attempts(es))
  {
    hide LedgerInv, AttemptIds;
    assert Agrees(cfg, h.sessions[s], s, EventsOf(Committed(h.ledger, st)));
  }

  lemma FlagDecidesNothing(h: Host, id: string, c: Code)
    ensures NothingDecided(h, Flag(h, id, c)) && Flag(h, id, c).tailUncertain == h.tailUncertain
  {
    SameDecides(h);
  }

  lemma ReceiveDecidesNothing(h: Host, e: Event, s: string)
    requires s in h.sessions && e.keyId.Some? && e.signerSeq.Some?
    ensures NothingDecided(h, Receive(h, e, s)) && Receive(h, e, s).tailUncertain == h.tailUncertain
  {
    SameDecides(h);
  }

  /** Up to the chain, the first rule decides alike; past it the receipt is taken and nothing else. */
  lemma PreliminaryIs(cfg: Config, h: Host, e: Event, expected: Option<string>, verdict: Verdict, attempt: bool)
    ensures var (h1, admission) := Admit(h, e, expected, attempt);
            var first := Preliminary(cfg, h, e, expected, verdict, attempt);
            && NothingDecided(h, h1)
            && (admission.Declined? <==> first == Some(Malformed) || first == Some(NotThisCall))
            && (first == Some(Malformed) ==> admission == Declined(SchemaInvalid))
            && (first == Some(NotThisCall) ==> admission == Declined(ReplayDetected))
            && (admission.Admitted? ==>
                  var (h2, check) := VerifySignature(cfg, h1, e, admission.session, verdict);
                  && NothingDecided(h, h2) && admission.session in h2.sessions
                  && h2.tailUncertain == h.tailUncertain
                  && (first == None <==> check == Passed)
                  && (first == Some(NotChecked) <==> check == CheckRaised)
                  && (check.Unverified? ==> first == Some(NotSigned(check.reason))))
  {
    FlagDecidesNothing(h, EventId(e), SchemaInvalid);
    FlagDecidesNothing(h, EventId(e), ReplayDetected);
    var admission := Admit(h, e, expected, attempt).1;
    if admission.Admitted? {
      AdmittedHas(h, e, expected, attempt);
      VerifiedIs(cfg, h, e, admission.session, verdict);
    }
    SameDecides(h);
    hide SchemaValid, VerifySignature, Flag, NothingDecided;
  }

  lemma VerifiedIs(cfg: Config, h: Host, e: Event, s: string, verdict: Verdict)
    requires s in h.sessions
    ensures var (g, check) := VerifySignature(cfg, h, e, s, verdict);
            && NothingDecided(h, g) && s in g.sessions && g.tailUncertain == h.tailUncertain
            && (check == if !cfg.level2 then Passed
                         else if e.signature.None? || e.keyId.None? || e.signerSeq.None? then Unverified(L2Unsigned)
                         else match verdict
                              case VerifierRaised => CheckRaised
                              case Refuses(reason) => Unverified(reason)
                              case Verifies => Passed)
  {
    FlagDecidesNothing(h, EventId(e), L2Unsigned);
    if verdict.Refuses? {
      FlagDecidesNothing(h, EventId(e), verdict.reason);
    }
    if e.keyId.Some? && e.signerSeq.Some? {
      ReceiveDecidesNothing(h, e, s);
    }
    SameDecides(h);
    SameKeys(h, VerifySignature(cfg, h, e, s, verdict).0);
    hide Flag, Receive, NothingDecided;
  }

  lemma SameKeys(h: Host, g: Host)
    ensures NothingDecided(h, g) ==> g.sessions.Keys == h.sessions.Keys
  {
  }

  /** What an attempt past its checks gets, by the host's own indexes. */
  lemma ConcludedAttempt(cfg: Config, h: Host, st: Store, e: Event, s: string, env: Env)
    requires s in h.sessions && !h.tailUncertain && EndsAtTail(h.ledger, st)
    ensures var (g, st', a) := ConcludeAttempt(cfg, h, st, e, s, env);
            var id := EventId(e);
            if id in h.sealedAttempts && h.sealedAttempts[id].event == e then
              st' == st && a == AcceptOf(h.sealedAttempts[id])
            else if id in h.sealedAttempts || id in h.sessions[s].outcomes || AlreadyDecided(cfg, h.sessions[s], e) then
              st' == st && a == Reject(ReplayDetected)
              && (Numbered(cfg, e) ==> s in g.sessions && AlreadyDecided(cfg, g.sessions[s], e))
            else
              && Appended(cfg, h, st, e, env, g, st')
              && (a.Accept? <==> CanSeal(cfg, h, st, env))
              && (a.Accept? ==> st'.records != [] && a == AcceptOf(st'.records[|st'.records| - 1]))
              && (!a.Accept? ==>
                    a == (if BrokenOff(cfg, h, st, env) then Raised else Unavailable) && NothingDecided(h, g))
  {
    SealOutcome(cfg, h, st, e, env);
    if env.persistenceAvailable {
      SealAppends(cfg, h, st, e, env);
    }
    NoAppend(cfg, h, st, e, env);
    SameDecides(h);
    hide Seal, AccountTo, NothingDecided, Appended, CanSeal, EndsAtTail;
  }

  lemma SameDecides(h: Host)
    ensures NothingDecided(h, h)
  {
    forall s | s in h.sessions ensures h.sessions[s] == h.sessions[s].(received := h.sessions[s].received) {
    }
  }

  lemma DecidesNeither(h: Host, g: Host, k: Host)
    requires NothingDecided(h, g) && NothingDecided(g, k)
    ensures NothingDecided(h, k)
  {
  }

  /** A host that decided nothing since answers alike. */
  lemma SameAnswers(cfg: Config, h: Host, g: Host, st: Store, e: Event, s: string, env: Env)
    requires NothingDecided(h, g) && s in h.sessions && s in g.sessions
    ensures g.ledger == h.ledger && g.sealedAttempts == h.sealedAttempts && g.sealedDigests == h.sealedDigests
    ensures g.sessions[s].outcomes == h.sessions[s].outcomes && g.sessions[s].accepted == h.sessions[s].accepted
    ensures AlreadyDecided(cfg, g.sessions[s], e) == AlreadyDecided(cfg, h.sessions[s], e)
    ensures CanSeal(cfg, g, st, env) == CanSeal(cfg, h, st, env)
  {
    assert g.sessions[s] == h.sessions[s].(received := g.sessions[s].received);
  }

  lemma AttemptPastChecks(cfg: Config, h: Host, h2: Host, st: Store, e: Event, s: string, env: Env)
    requires Inv(cfg, h, st) && NothingDecided(h, h2) && s in h.sessions && s in h2.sessions && !h2.tailUncertain
    requires e.session == Some(s) && e.id.Some? && IsAttempt(e)
    ensures var es := EventsOf(Committed(h.ledger, st));
            var (g, st', a) := ConcludeAttempt(cfg, h2, st, e, s, env);
            if e in es then
              st' == st && exists r :: r in Committed(h.ledger, st) && r.event == e && a == AcceptOf(r)
            else if e.id in AttemptIds(es) || KeyOf(e) in Terminals(es) || AlreadyDecided(cfg, h.sessions[s], e) then
              st' == st && a == Reject(ReplayDetected)
              && (Numbered(cfg, e) ==> s in g.sessions && AlreadyDecided(cfg, g.sessions[s], e))
            else
              && Appended(cfg, h, st, e, env, g, st')
              && (a.Accept? <==> CanSeal(cfg, h, st, env))
              && (a.Accept? ==> st'.records != [] && a == AcceptOf(st'.records[|st'.records| - 1]))
              && (!a.Accept? ==>
                    a == (if BrokenOff(cfg, h, st, env) then Raised else Unavailable) && NothingDecided(h, g))
  {
    hide Inv, Committed, AttemptIds, Terminals, NothingDecided, ConcludeAttempt, AlreadyDecided, CanSeal;
    AttemptView(cfg, h, st, e, s);
    SameAnswers(cfg, h, h2, st, e, s, env);
    hide Appended, BrokenOff, EndsAtTail;
    InvEnds(cfg, h, st);
    ConcludedAttempt(cfg, h2, st, e, s, env);
    var (g, st', _) := ConcludeAttempt(cfg, h2, st, e, s, env);
    AppendedAlike(cfg, h, h2, st, e, env, g, st');
    if NothingDecided(h2, g) {
      DecidesNeither(h, h2, g);
    }
  }

  /** A seal happens exactly when everything it needs is there; otherwise the chain and sessions stand. */
  lemma SealOutcome(cfg: Config, h: Host, st: Store, e: Event, env: Env)
    ensures var (g, _, sealing) := Seal(cfg, h, st, e, env);
            && (env.persistenceAvailable ==> (sealing.SealedAs? <==> CanSeal(cfg, h, st, env)))
            && (!sealing.SealedAs? ==> NothingDecided(h, g))
            && g.sessions == h.sessions
  {
  }

  /** The host's ledger stands at the end of what is committed, with the store at most one record ahead. */
  ghost predicate EndsAtTail(l: LedgerState, st: Store) {
    0 <= l.count <= |st.records| && l.tailHash == TailHash(Committed(l, st))
  }

  /** What becomes of the sealing is a matter of the ledger alone. */
  lemma AppendedAlike(cfg: Config, h: Host, h2: Host, st: Store, e: Event, env: Env, g: Host, st': Store)
    requires h2.ledger == h.ledger
    ensures Appended(cfg, h2, st, e, env, g, st') <==> Appended(cfg, h, st, e, env, g, st')
    ensures BrokenOff(cfg, h2, st, env) <==> BrokenOff(cfg, h, st, env)
  {
    hide Committed;
    forall r ensures IsSealOf(cfg, h2, st, e, env, r) <==> IsSealOf(cfg, h, st, e, env, r) {
    }
    hide IsSealOf;
  }

  lemma InvEnds(cfg: Config, h: Host, st: Store)
    requires Inv(cfg, h, st)
    ensures EndsAtTail(h.ledger, st)
  {
    LedgerIsChain(cfg, h.ledger, st);
    hide LedgerInv, Committed, Linked;
  }

  lemma NoAppend(cfg: Config, h: Host, st: Store, e: Event, env: Env)
    requires !h.tailUncertain
    ensures !env.persistenceAvailable ==>
              Appended(cfg, h, st, e, env, h, st) && !CanSeal(cfg, h, st, env) && !BrokenOff(cfg, h, st, env)
  {
  }

  lemma SealedRecord(cfg: Config, h: Host, st: Store, e: Event, env: Env)
    requires EndsAtTail(h.ledger, st) && MayAppend(cfg, env)
    ensures IsSealOf(cfg, h, st, e, env,
                     Countersigned(cfg, NextRecord(e, h.ledger.count, env.now, h.ledger.tailHash), env.signing))
  {
  }

  lemma SealAppends(cfg: Config, h: Host, st: Store, e: Event, env: Env)
    requires EndsAtTail(h.ledger, st) && !h.tailUncertain && env.persistenceAvailable
    ensures var (g, st', sealing) := Seal(cfg, h, st, e, env);
            && Appended(cfg, h, st, e, env, g, st')
            && (sealing.SealedAs? <==> CanSeal(cfg, h, st, env))
            && (sealing.SealRaised? <==> BrokenOff(cfg, h, st, env))
            && (sealing.SealedAs? ==> st'.records != [] && sealing.record == st'.records[|st'.records| - 1])
  {
    if MayAppend(cfg, env) {
      SealedRecord(cfg, h, st, e, env);
    }
    hide IsSealOf, TailHash;
  }

  /** What an outcome past its checks gets, by the host's own indexes. */
  lemma ConcludedOutcome(cfg: Config, h: Host, st: Store, e: Event, s: string, env: Env)
    requires s in h.sessions && !h.tailUncertain && EndsAtTail(h.ledger, st)
    ensures var (g, st', d) := ConcludeOutcome(cfg, h, st, e, s, env);
            var id, x := EventId(e), h.sessions[s];
            if (id in x.outcomes && x.outcomes[id] == e) || e in h.sealedDigests then
              st' == st && d == Repeat && NothingDecided(h, g)
            else if id in x.outcomes || AlreadyDecided(cfg, x, e)
                    || (id !in x.accepted && e.outcome != Some(Aborted)) then
              st' == st && d == Refused
              && (Numbered(cfg, e) ==> s in g.sessions && AlreadyDecided(cfg, g.sessions[s], e))
            else
              && Appended(cfg, h, st, e, env, g, st')
              && (d == Sealed <==> CanSeal(cfg, h, st, env))
              && (d != Sealed ==>
                    d == (if BrokenOff(cfg, h, st, env) then OutcomeRaised else NotRecorded) && NothingDecided(h, g))
  {
    SealOutcome(cfg, h, st, e, env);
    if env.persistenceAvailable {
      SealAppends(cfg, h, st, e, env);
    }
    NoAppend(cfg, h, st, e, env);
    SameDecides(h);
    hide Seal, AccountTo, NothingDecided, Appended, CanSeal, EndsAtTail;
  }

  lemma OutcomePastChecks(cfg: Config, h: Host, h2: Host, st: Store, e: Event, s: string, env: Env)
    requires Inv(cfg, h, st) && NothingDecided(h, h2) && s in h.sessions && s in h2.sessions && !h2.tailUncertain
    requires e.session == Some(s) && e.id.Some? && !IsAttempt(e)
    ensures var es := EventsOf(Committed(h.ledger, st));
            var (g, st', d) := ConcludeOutcome(cfg, h2, st, e, s, env);
            if e in es then
              st' == st && d == Repeat && NothingDecided(h, g)
            else if KeyOf(e) in Terminals(es) || AlreadyDecided(cfg, h.sessions[s], e)
                    || (KeyOf(e) !in Attempts(es) && e.outcome != Some(Aborted)) then
              st' == st && d == Refused
              && (Numbered(cfg, e) ==> s in g.sessions && AlreadyDecided(cfg, g.sessions[s], e))
            else
              && Appended(cfg, h, st, e, env, g, st')
              && (d == Sealed <==> CanSeal(cfg, h, st, env))
              && (d != Sealed ==>
                    d == (if BrokenOff(cfg, h, st, env) then OutcomeRaised else NotRecorded) && NothingDecided(h, g))
  {
    hide Inv, Committed, Attempts, Terminals, NothingDecided, ConcludeOutcome, AlreadyDecided, CanSeal;
    OutcomeView(cfg, h, st, e, s);
    SameAnswers(cfg, h, h2, st, e, s, env);
    hide Appended, BrokenOff, EndsAtTail;
    InvEnds(cfg, h, st);
    ConcludedOutcome(cfg, h2, st, e, s, env);
    var (g, st', _) := ConcludeOutcome(cfg, h2, st, e, s, env);
    AppendedAlike(cfg, h, h2, st, e, env, g, st');
    if NothingDecided(h2, g) {
      DecidesNeither(h, h2, g);
    }
  }

  // ----- the rulings -----

  /**
   * An attempt answered as the chain rules: refused for its form, session or signature, answered from the ledger
   * where it is sealed, refused as a replay where its id is sealed otherwise, its operation concluded or its
   * number decided - which then stays decided - and otherwise accepted exactly when it can be sealed.
   * `unavailable` decides nothing, so the attempt may come again.
   */
  ghost predicate AnsweredByChain(cfg: Config, h: Host, st: Store, e: Event, expected: Option<string>, env: Env,
                                  g: Host, st': Store, a: Answer)
  {
    var c := Committed(h.ledger, st);
    var ruling := AttemptRuling(cfg, h, EventsOf(c), e, expected, env.verdict);
    && g.anomalies == h.anomalies + FlaggedBy(ruling, e, LeavesGap(cfg, h, e))
    && AttemptGets(cfg, h, st, e, env, ruling, g, st', a)
  }

  ghost predicate AttemptGets(cfg: Config, h: Host, st: Store, e: Event, env: Env, ruling: Ruling,
                              g: Host, st': Store, a: Answer)
  {
    var c := Committed(h.ledger, st);
    match ruling
    case Malformed => a == Reject(SchemaInvalid) && st' == st
    case NotThisCall => a == Reject(ReplayDetected) && st' == st
    case NotSigned(reason) => a == Reject(reason) && st' == st
    case NotChecked => a == Raised && st' == st
    case SealedBefore => st' == st && exists r :: r in c && r.event == e && a == AcceptOf(r)
    case Replayed =>
      && a == Reject(ReplayDetected) && st' == st
      && (Numbered(cfg, e) ==> DecidedInSession(cfg, g, e))
    case MaySeal =>
      && Appended(cfg, h, st, e, env, g, st')
      && (a.Accept? <==> CanSeal(cfg, h, st, env))
      && (a.Accept? ==> st'.records != [] && a == AcceptOf(st'.records[|st'.records| - 1]))
      && (!a.Accept? ==> a == (if BrokenOff(cfg, h, st, env) then Raised else Unavailable) && NothingDecided(h, g))
    case Orphan => false
  }

  lemma AttemptGetsIt(cfg: Config, h: Host, st: Store, e: Event, expected: Option<string>, env: Env)
    requires Inv(cfg, h, st) && !h.tailUncertain && !env.expired
    ensures var (g, st', a) := HandleAttempt(cfg, h, st, e, expected, env);
            var ruling := AttemptRuling(cfg, h, EventsOf(Committed(h.ledger, st)), e, expected, env.verdict);
            AttemptGets(cfg, h, st, e, env, ruling, g, st', a)
  {
    hide Inv, VerifySignature, ConcludeAttempt, SchemaValid, NothingDecided, Committed, AttemptIds, Terminals, CanSeal;
    PreliminaryIs(cfg, h, e, expected, env.verdict, true);
    var (h1, admission) := Admit(h, e, expected, true);
    if admission.Admitted? {
      AdmittedHas(h, e, expected, true);
      var s := admission.session;
      var (h2, check) := VerifySignature(cfg, h1, e, s, env.verdict);
      if check == Passed {
        AttemptPastChecks(cfg, h, h2, st, e, s, env);
      }
    }
  }

  /** Past the signature, a ruling adds its own flag to that of the gap; before it, there is no gap. */
  lemma FlagsAdd(e: Event, gap: bool)
    requires e.id.Some?
    ensures FlaggedBy(MaySeal, e, gap) + multiset{} == FlaggedBy(SealedBefore, e, gap) == FlaggedBy(MaySeal, e, gap)
    ensures FlaggedBy(MaySeal, e, gap) + multiset{Anomaly(e.id.value, ReplayDetected)} == FlaggedBy(Replayed, e, gap)
    ensures FlaggedBy(MaySeal, e, gap) + multiset{Anomaly(e.id.value, OrphanedOutcome)} == FlaggedBy(Orphan, e, gap)
  {
  }

  lemma NoGapBefore(ruling: Ruling, e: Event, gap: bool)
    requires ruling.Malformed? || ruling.NotThisCall? || ruling.NotSigned? || ruling.NotChecked?
    ensures FlaggedBy(ruling, e, false) == FlaggedBy(ruling, e, gap)
  {
  }

  lemma PreliminaryKinds(cfg: Config, h: Host, e: Event, expected: Option<string>, verdict: Verdict, attempt: bool)
    ensures var first := Preliminary(cfg, h, e, expected, verdict, attempt);
            first.Some? ==>
              first.value.Malformed? || first.value.NotThisCall? || first.value.NotSigned? || first.value.NotChecked?
  {
    hide SchemaValid;
  }

  lemma Regroup(a: multiset<Anomaly>, b: multiset<Anomaly>, c: multiset<Anomaly>)
    ensures a + b + c == a + (b + c)
  {
  }

  lemma AttemptFlagsIt(cfg: Config, h: Host, st: Store, e: Event, expected: Option<string>, env: Env)
    requires Inv(cfg, h, st) && !h.tailUncertain && !env.expired
    ensures var g := HandleAttempt(cfg, h, st, e, expected, env).0;
            var ruling := AttemptRuling(cfg, h, EventsOf(Committed(h.ledger, st)), e, expected, env.verdict);
            g.anomalies == h.anomalies + FlaggedBy(ruling, e, LeavesGap(cfg, h, e))
  {
    hide Inv, VerifySignature, ConcludeAttempt, SchemaValid, NothingDecided, Committed, AttemptIds, Terminals, CanSeal,
         LeavesGap, FlaggedBy, Preliminary, Admit, AlreadyDecided;
    PreliminaryIs(cfg, h, e, expected, env.verdict, true);
    PreliminaryFlags(cfg, h, e, expected, env.verdict, true);
    PreliminaryKinds(cfg, h, e, expected, env.verdict, true);
    var first := Preliminary(cfg, h, e, expected, env.verdict, true);
    if first.Some? {
      NoGapBefore(first.value, e, LeavesGap(cfg, h, e));
    }
    AdmittedHas(h, e, expected, true);
    var (h1, admission) := Admit(h, e, expected, true);
    if admission.Admitted? {
      var s := admission.session;
      var (h2, check) := VerifySignature(cfg, h1, e, s, env.verdict);
      if check == Passed {
        AttemptFlags(cfg, h, h2, st, e, s, env);
        FlagsAdd(e, LeavesGap(cfg, h, e));
        var g := ConcludeAttempt(cfg, h2, st, e, s, env).0;
        Regroup(h.anomalies, FlaggedBy(MaySeal, e, LeavesGap(cfg, h, e)), g.anomalies - h2.anomalies);
      }
    }
  }

  /** A settled host answers an attempt as the chain rules. */
  lemma AttemptIsRuled(cfg: Config, h: Host, st: Store, e: Event, expected: Option<string>, env: Env)
    requires Inv(cfg, h, st) && !h.tailUncertain && !env.expired
    ensures var (g, st', a) := HandleAttempt(cfg, h, st, e, expected, env);
            AnsweredByChain(cfg, h, st, e, expected, env, g, st', a)
  {
    hide Inv, HandleAttempt, AttemptGets, AttemptRuling, FlaggedBy, LeavesGap;
    AttemptGetsIt(cfg, h, st, e, expected, env);
    AttemptFlagsIt(cfg, h, st, e, expected, env);
  }

  lemma AdmittedHas(h: Host, e: Event, expected: Option<string>, attempt: bool)
    ensures var (h1, admission) := Admit(h, e, expected, attempt);
            admission.Admitted? ==>
              && e.id.Some? && e.session == Some(admission.session) && IsAttempt(e) == attempt
              && admission.session in h.sessions && h1 == h
  {
  }

  lemma AdmitFlags(h: Host, e: Event, expected: Option<string>, attempt: bool)
    ensures var (h1, admission) := Admit(h, e, expected, attempt);
            && (admission == Declined(SchemaInvalid) ==>
                  h1.anomalies == h.anomalies + FlaggedBy(Malformed, e, false))
            && (admission == Declined(ReplayDetected) ==>
                  h1.anomalies == h.anomalies + FlaggedBy(NotThisCall, e, false))
            && (admission.Admitted? ==>
                  h1 == h && admission.session in h.sessions && e.session == Some(admission.session))
  {
    hide SchemaValid;
  }

  lemma VerifyFlags(cfg: Config, h: Host, e: Event, s: string, verdict: Verdict)
    requires s in h.sessions && e.session == Some(s)
    ensures var (g, check) := VerifySignature(cfg, h, e, s, verdict);
            && (check.Unverified? ==> g.anomalies == h.anomalies + FlaggedBy(NotSigned(check.reason), e, false))
            && (check == CheckRaised ==> g.anomalies == h.anomalies + FlaggedBy(NotChecked, e, false))
            && (check == Passed ==> g.anomalies == h.anomalies + FlaggedBy(MaySeal, e, LeavesGap(cfg, h, e)))
  {
  }

  /** What the checks before the chain flag: the first that fails, or the gap the number leaves. */
  lemma PreliminaryFlags(cfg: Config, h: Host, e: Event, expected: Option<string>, verdict: Verdict, attempt: bool)
    ensures var (h1, admission) := Admit(h, e, expected, attempt);
            var first := Preliminary(cfg, h, e, expected, verdict, attempt);
            && (admission.Declined? ==> first.Some? && h1.anomalies == h.anomalies + FlaggedBy(first.value, e, false))
            && (admission.Admitted? ==>
                  && h1 == h && admission.session in h.sessions
                  && var (h2, check) := VerifySignature(cfg, h1, e, admission.session, verdict);
                  && (first.Some? ==> h2.anomalies == h.anomalies + FlaggedBy(first.value, e, false))
                  && (first.None? ==> h2.anomalies == h.anomalies + FlaggedBy(MaySeal, e, LeavesGap(cfg, h, e))))
  {
    AdmitFlags(h, e, expected, attempt);
    PreliminaryIs(cfg, h, e, expected, verdict, attempt);
    var admission := Admit(h, e, expected, attempt).1;
    if admission.Admitted? {
      VerifyFlags(cfg, h, e, admission.session, verdict);
      VerifyKinds(cfg, h, e, expected, verdict, attempt);
    }
    hide SchemaValid, VerifySignature, NothingDecided, LeavesGap, FlaggedBy, Flag;
  }

  lemma VerifyKinds(cfg: Config, h: Host, e: Event, expected: Option<string>, verdict: Verdict, attempt: bool)
    ensures var admission := Admit(h, e, expected, attempt).1;
            admission.Admitted? ==>
              && var check := VerifySignature(cfg, h, e, admission.session, verdict).1;
                 var first := Preliminary(cfg, h, e, expected, verdict, attempt);
              && (check == Passed <==> first == None)
              && (check == CheckRaised ==> first == Some(NotChecked))
              && (check.Unverified? ==> first == Some(NotSigned(check.reason)))
  {
    hide SchemaValid, Receive, Flag;
  }

  lemma SealFlagsNothing(cfg: Config, h: Host, st: Store, e: Event, env: Env)
    ensures Seal(cfg, h, st, e, env).0.anomalies == h.anomalies
  {
  }

  lemma ConcludedAttemptFlags(cfg: Config, h: Host, st: Store, e: Event, s: string, env: Env)
    requires s in h.sessions
    ensures var g := ConcludeAttempt(cfg, h, st, e, s, env).0;
            var id := EventId(e);
            g.anomalies == h.anomalies +
              if !(id in h.sealedAttempts && h.sealedAttempts[id].event == e)
                 && (id in h.sealedAttempts || id in h.sessions[s].outcomes || AlreadyDecided(cfg, h.sessions[s], e))
              then multiset{Anomaly(id, ReplayDetected)} else multiset{}
  {
    SealFlagsNothing(cfg, h, st, e, env);
    hide Seal, AccountTo, Decide, AlreadyDecided;
  }

  lemma AttemptFlags(cfg: Config, h: Host, h2: Host, st: Store, e: Event, s: string, env: Env)
    requires Inv(cfg, h, st) && NothingDecided(h, h2) && s in h.sessions && s in h2.sessions
    requires e.session == Some(s) && e.id.Some? && IsAttempt(e)
    ensures var es := EventsOf(Committed(h.ledger, st));
            var g := ConcludeAttempt(cfg, h2, st, e, s, env).0;
            g.anomalies == h2.anomalies +
              if e !in es && (e.id in AttemptIds(es) || KeyOf(e) in Terminals(es)
                              || AlreadyDecided(cfg, h.sessions[s], e))
              then multiset{Anomaly(e.id.value, ReplayDetected)} else multiset{}
  {
    hide Inv, Committed, AttemptIds, Terminals, NothingDecided, AlreadyDecided, ConcludeAttempt, CanSeal;
    AttemptView(cfg, h, st, e, s);
    SameAnswers(cfg, h, h2, st, e, s, env);
    ConcludedAttemptFlags(cfg, h2, st, e, s, env);
  }

  /** The same of an outcome: a repeat where it is sealed, refused where its operation is concluded, its number
      decided or its attempt missing, and otherwise sealed exactly when it can be. */
  ghost predicate RuledByChain(cfg: Config, h: Host, st: Store, e: Event, expected: Option<string>, env: Env,
                               g: Host, st': Store, d: Disposition)
  {
    var ruling := OutcomeRuling(cfg, h, EventsOf(Committed(h.ledger, st)), e, expected, env.verdict);
    && g.anomalies == h.anomalies + FlaggedBy(ruling, e, LeavesGap(cfg, h, e))
    && OutcomeGets(cfg, h, st, e, env, ruling, g, st', d)
  }

  ghost predicate OutcomeGets(cfg: Config, h: Host, st: Store, e: Event, env: Env, ruling: Ruling,
                              g: Host, st': Store, d: Disposition)
  {
    match ruling
    case Malformed => d == Refused && st' == st
    case NotThisCall => d == Refused && st' == st
    case NotSigned(_) => d == Refused && st' == st
    case NotChecked => d == OutcomeRaised && st' == st
    case SealedBefore => d == Repeat && st' == st && NothingDecided(h, g)
    case Replayed => d == Refused && st' == st && (Numbered(cfg, e) ==> DecidedInSession(cfg, g, e))
    case Orphan => d == Refused && st' == st && (Numbered(cfg, e) ==> DecidedInSession(cfg, g, e))
    case MaySeal =>
      && Appended(cfg, h, st, e, env, g, st')
      && (d == Sealed <==> CanSeal(cfg, h, st, env))
      && (d != Sealed ==>
            d == (if BrokenOff(cfg, h, st, env) then OutcomeRaised else NotRecorded) && NothingDecided(h, g))
  }

  lemma OutcomeGetsIt(cfg: Config, h: Host, st: Store, e: Event, expected: Option<string>, env: Env)
    requires Inv(cfg, h, st) && !h.tailUncertain
    ensures var (g, st', d) := RecordOutcome(cfg, h, st, e, expected, env);
            var ruling := OutcomeRuling(cfg, h, EventsOf(Committed(h.ledger, st)), e, expected, env.verdict);
            OutcomeGets(cfg, h, st, e, env, ruling, g, st', d)
  {
    hide Inv, VerifySignature, ConcludeOutcome, SchemaValid, NothingDecided, Committed, Attempts, Terminals, CanSeal;
    PreliminaryIs(cfg, h, e, expected, env.verdict, false);
    var (h1, admission) := Admit(h, e, expected, false);
    if admission.Admitted? {
      AdmittedHas(h, e, expected, false);
      var s := admission.session;
      var (h2, check) := VerifySignature(cfg, h1, e, s, env.verdict);
      if check == Passed {
        OutcomePastChecks(cfg, h, h2, st, e, s, env);
      }
    }
  }

  lemma OutcomeFlagsIt(cfg: Config, h: Host, st: Store, e: Event, expected: Option<string>, env: Env)
    requires Inv(cfg, h, st) && !h.tailUncertain
    ensures var g := RecordOutcome(cfg, h, st, e, expected, env).0;
            var ruling := OutcomeRuling(cfg, h, EventsOf(Committed(h.ledger, st)), e, expected, env.verdict);
            g.anomalies == h.anomalies + FlaggedBy(ruling, e, LeavesGap(cfg, h, e))
  {
    hide Inv, VerifySignature, ConcludeOutcome, SchemaValid, NothingDecided, Committed, Attempts, Terminals, CanSeal,
         LeavesGap, FlaggedBy, Preliminary, Admit, AlreadyDecided;
    PreliminaryIs(cfg, h, e, expected, env.verdict, false);
    PreliminaryFlags(cfg, h, e, expected, env.verdict, false);
    PreliminaryKinds(cfg, h, e, expected, env.verdict, false);
    var first := Preliminary(cfg, h, e, expected, env.verdict, false);
    if first.Some? {
      NoGapBefore(first.value, e, LeavesGap(cfg, h, e));
    }
    AdmittedHas(h, e, expected, false);
    var (h1, admission) := Admit(h, e, expected, false);
    if admission.Admitted? {
      var s := admission.session;
      var (h2, check) := VerifySignature(cfg, h1, e, s, env.verdict);
      if check == Passed {
        OutcomeFlags(cfg, h, h2, st, e, s, env);
        FlagsAdd(e, LeavesGap(cfg, h, e));
        var g := ConcludeOutcome(cfg, h2, st, e, s, env).0;
        Regroup(h.anomalies, FlaggedBy(MaySeal, e, LeavesGap(cfg, h, e)), g.anomalies - h2.anomalies);
      }
    }
  }

  lemma OutcomeIsRuled(cfg: Config, h: Host, st: Store, e: Event, expected: Option<string>, env: Env)
    requires Inv(cfg, h, st) && !h.tailUncertain
    ensures var (g, st', d) := RecordOutcome(cfg, h, st, e, expected, env);
            RuledByChain(cfg, h, st, e, expected, env, g, st', d)
  {
    hide Inv, RecordOutcome, OutcomeGets, OutcomeRuling, FlaggedBy, LeavesGap;
    OutcomeGetsIt(cfg, h, st, e, expected, env);
    OutcomeFlagsIt(cfg, h, st, e, expected, env);
  }

  lemma ConcludedOutcomeFlags(cfg: Config, h: Host, st: Store, e: Event, s: string, env: Env)
    requires s in h.sessions
    ensures var g := ConcludeOutcome(cfg, h, st, e, s, env).0;
            var id, x := EventId(e), h.sessions[s];
            g.anomalies == h.anomalies +
              if (id in x.outcomes && x.outcomes[id] == e) || e in h.sealedDigests then multiset{}
              else if id in x.outcomes || AlreadyDecided(cfg, x, e) then multiset{Anomaly(id, ReplayDetected)}
              else if id !in x.accepted && e.outcome != Some(Aborted) then multiset{Anomaly(id, OrphanedOutcome)}
              else multiset{}
  {
    SealFlagsNothing(cfg, h, st, e, env);
    hide Seal, AccountTo, Decide, AlreadyDecided;
  }

  lemma OutcomeFlags(cfg: Config, h: Host, h2: Host, st: Store, e: Event, s: string, env: Env)
    requires Inv(cfg, h, st) && NothingDecided(h, h2) && s in h.sessions && s in h2.sessions
    requires e.session == Some(s) && e.id.Some? && !IsAttempt(e)
    ensures var es := EventsOf(Committed(h.ledger, st));
            var g := ConcludeOutcome(cfg, h2, st, e, s, env).0;
            g.anomalies == h2.anomalies +
              if e in es then multiset{}
              else if KeyOf(e) in Terminals(es) || AlreadyDecided(cfg, h.sessions[s], e) then
                multiset{Anomaly(e.id.value, ReplayDetected)}
              else if KeyOf(e) !in Attempts(es) && e.outcome != Some(Aborted) then
                multiset{Anomaly(e.id.value, OrphanedOutcome)}
              else multiset{}
  {
    hide Inv, Committed, Attempts, Terminals, NothingDecided, AlreadyDecided, ConcludeOutcome, CanSeal;
    OutcomeView(cfg, h, st, e, s);
    SameAnswers(cfg, h, h2, st, e, s, env);
    ConcludedOutcomeFlags(cfg, h2, st, e, s, env);
  }

  // ----- in doubt of the tail -----

  /** The host once its doubt is ended: every stored record is committed, and what was flagged and open stands. */
  ghost predicate SettledFrom(cfg: Config, h: Host, st: Store, g: Host) {
    && Inv(cfg, g, st) && !g.tailUncertain
    && Committed(g.ledger, st) == (if h.tailUncertain then st.records else Committed(h.ledger, st))
    && g.anomalies == h.anomalies && g.issued == h.issued && g.sessions.Keys == h.sessions.Keys
    && (forall s :: s in h.sessions ==> g.sessions[s].received == h.sessions[s].received)
    && (Committed(h.ledger, st) == st.records ==> g == h.(tailUncertain := false))
  }

  lemma SettlingIs(cfg: Config, h: Host, st: Store, reading: Reading)
    requires Inv(cfg, h, st)
    ensures var (g, settling) := SettleTail(cfg, h, st, reading);
            if h.tailUncertain && reading == ReadFailed then
              (g, settling) == (h, TailUnread)
            else if h.tailUncertain && reading == ReadInterrupted then
              (g, settling) == (h, TailReadRaised)
            else
              settling == TailSettled && SettledFrom(cfg, h, st, g)
  {
    hide Inv, Absorb, Committed;
    SettleKeepsInv(cfg, h, st, reading);
    SettleIssued(cfg, h, st, reading);
    if h.tailUncertain && reading == ReadTail {
      SettledCommitted(cfg, h, st);
      SettledAsAdopted(cfg, h, st);
    } else {
      assert !h.tailUncertain ==> h.(tailUncertain := false) == h;
    }
  }

  /** Settling adopts the one record the host had not seen, or nothing. */
  lemma SettledAsAdopted(cfg: Config, h: Host, st: Store)
    requires Inv(cfg, h, st) && h.tailUncertain
    ensures var g := SettleTail(cfg, h, st, ReadTail).0;
            && !g.tailUncertain && g.anomalies == h.anomalies
            && (forall s :: s in h.sessions ==> s in g.sessions && g.sessions[s].received == h.sessions[s].received)
            && (Committed(h.ledger, st) == st.records ==> g == h.(tailUncertain := false))
  {
    InvIsChain(cfg, h, st);
    hide Inv, SettleTail;
    if st.records != [] {
      TailIs(h.ledger, st);
      AbsorbFlagsNothing(cfg, h, st.records[|st.records| - 1]);
    }
    CommittedLength(h, st);
    hide ChainInv;
    SettledShape(cfg, h, st);
    hide Absorb, Committed;
  }

  /** What is read is the host's own tail, or the record after it. */
  lemma SettledShape(cfg: Config, h: Host, st: Store)
    requires h.tailUncertain && 0 <= h.ledger.count <= |st.records|
    requires st.records != [] ==>
               var tail := st.records[|st.records| - 1];
               tail.position == |st.records| - 1 <= h.ledger.count
               && (tail.position == h.ledger.count ==> tail.previousHash == h.ledger.tailHash)
    ensures SettleTail(cfg, h, st, ReadTail).0 ==
              if |st.records| == h.ledger.count then h.(tailUncertain := false)
              else Absorb(cfg, h, st.records[|st.records| - 1]).(tailUncertain := false)
  {
    hide Absorb;
  }

  lemma CommittedLength(h: Host, st: Store)
    requires ChainInv(h.ledger, st)
    ensures |Committed(h.ledger, st)| == h.ledger.count
  {
  }

  lemma InvIsChain(cfg: Config, h: Host, st: Store)
    requires Inv(cfg, h, st)
    ensures ChainInv(h.ledger, st) && h.ledger.count <= |st.records|
  {
    LedgerIsChain(cfg, h.ledger, st);
    hide LedgerInv;
  }

  lemma SettledCommitted(cfg: Config, h: Host, st: Store)
    requires Inv(cfg, h, st) && h.tailUncertain
    ensures Committed(SettleTail(cfg, h, st, ReadTail).0.ledger, st) == st.records
  {
    InvIsChain(cfg, h, st);
    SettleKeepsChain(cfg, h, st, ReadTail);
    assert st.records[..|st.records|] == st.records;
    hide Inv, ChainInv, SettleTail;
  }

  lemma AbsorbFlagsNothing(cfg: Config, h: Host, r: Record)
    ensures Absorb(cfg, h, r).anomalies == h.anomalies && Absorb(cfg, h, r).sessions.Keys == h.sessions.Keys
    ensures forall s :: s in h.sessions ==> Absorb(cfg, h, r).sessions[s].received == h.sessions[s].received
  {
  }

  /**
   * Whatever the host is in doubt of: an attempt whose deadline passed is `unavailable` and changes nothing; one
   * that comes while the tail cannot be read is `unavailable`, or raises where the reading was interrupted, and
   * changes nothing either; and any other is answered by the chain, once what the store holds is adopted.
   */
  lemma AttemptIsAnswered(cfg: Config, h: Host, st: Store, e: Event, expected: Option<string>, env: Env)
    requires Inv(cfg, h, st)
    ensures var (g, st', a) := HandleAttempt(cfg, h, st, e, expected, env);
            if env.expired then
              (g, st', a) == (h, st, Unavailable)
            else if h.tailUncertain && env.reading == ReadFailed then
              (g, st', a) == (h, st, Unavailable)
            else if h.tailUncertain && env.reading == ReadInterrupted then
              (g, st', a) == (h, st, Raised)
            else
              exists h0 :: SettledFrom(cfg, h, st, h0) && AnsweredByChain(cfg, h0, st, e, expected, env, g, st', a)
  {
    hide Inv, SettleTail, DecideAttempt, SettledFrom, AnsweredByChain;
    SettlingIs(cfg, h, st, env.reading);
    var (h0, settling) := SettleTail(cfg, h, st, env.reading);
    if !env.expired && settling == TailSettled {
      SettledStays(cfg, h, st, h0, env.reading);
      AttemptIsRuled(cfg, h0, st, e, expected, env);
    }
  }

  lemma SettledStays(cfg: Config, h: Host, st: Store, g: Host, reading: Reading)
    requires SettledFrom(cfg, h, st, g)
    ensures Inv(cfg, g, st) && !g.tailUncertain && SettleTail(cfg, g, st, reading) == (g, TailSettled)
  {
    hide Inv;
  }

  /** The same of an outcome: `not-recorded` while the tail cannot be read, so that it is sent again. */
  lemma OutcomeIsAnswered(cfg: Config, h: Host, st: Store, e: Event, expected: Option<string>, env: Env)
    requires Inv(cfg, h, st)
    ensures var (g, st', d) := RecordOutcome(cfg, h, st, e, expected, env);
            if h.tailUncertain && env.reading == ReadFailed then
              (g, st', d) == (h, st, NotRecorded)
            else if h.tailUncertain && env.reading == ReadInterrupted then
              (g, st', d) == (h, st, OutcomeRaised)
            else
              exists h0 :: SettledFrom(cfg, h, st, h0) && RuledByChain(cfg, h0, st, e, expected, env, g, st', d)
  {
    hide Inv, SettleTail, DecideOutcome, SettledFrom, RuledByChain;
    SettlingIs(cfg, h, st, env.reading);
    var (h0, settling) := SettleTail(cfg, h, st, env.reading);
    if settling == TailSettled {
      SettledStays(cfg, h, st, h0, env.reading);
      OutcomeIsRuled(cfg, h0, st, e, expected, env);
    }
  }

  /** Past the signature, the highest number received under a key is kept, whatever the ruling. */
  lemma HighestIsKept(cfg: Config, h: Host, e: Event, s: string, verdict: Verdict)
    requires s in h.sessions && e.session == Some(s) && VerifySignature(cfg, h, e, s, verdict).1 == Passed
    ensures var g := VerifySignature(cfg, h, e, s, verdict).0;
            && s in g.sessions && (cfg.level2 ==> e.keyId.Some? && e.signerSeq.Some?) && HighestKept(cfg, h, g, e)
  {
  }

  /** A session's close flags exactly its attempts that have no terminal record. */
  lemma CloseFlagsExactly(cfg: Config, h: Host, st: Store, s: string)
    requires Inv(cfg, h, st) && s in h.sessions
    ensures var es := EventsOf(Committed(h.ledger, st));
            CloseSession(h, s).anomalies ==
              h.anomalies + multiset(set k | k in Attempts(es) - Terminals(es) && k.session == Some(s) && k.id.Some? ::
                                       Anomaly(k.id.value, UnresolvedAttempt))
  {
    hide LedgerInv, AttemptIds, Attempts, Terminals;
    var es := EventsOf(Committed(h.ledger, st));
    var x := h.sessions[s];
    assert Agrees(cfg, x, s, es);
    var flagged := set k | k in Attempts(es) - Terminals(es) && k.session == Some(s) && k.id.Some? ::
                     Anomaly(k.id.value, UnresolvedAttempt);
    forall a ensures a in flagged <==> a in Unresolved(x.accepted - x.resolved) {
      if a in Unresolved(x.accepted - x.resolved) {
        assert OpKey(Some(s), Some(a.id)) in Attempts(es) - Terminals(es);
      }
      if a in flagged {
        var k :| k in Attempts(es) - Terminals(es) && k.session == Some(s) && k.id.Some?
                 && a == Anomaly(k.id.value, UnresolvedAttempt);
        assert k == OpKey(Some(s), Some(a.id));
      }
    }
    assert flagged == Unresolved(x.accepted - x.resolved);
  }
}
