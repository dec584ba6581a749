/** What an answer of the host commits it to, over the rest of the run. */
module HostAnswers {
  import opened Events
  import opened Chain
  import opened Reasons
  import opened HostModel
  import opened HostInvariant
  import opened HostRestart
  import opened HostRuns
  import opened HostChain
  import opened HostEvents

  // ----- the chain only grows -----

  /** Nothing committed, stored or flagged is taken back, and the same sessions are open. */
  ghost predicate Grows(h: Host, st: Store, g: Host, st': Store) {
    && h.sessions.Keys == g.sessions.Keys
    && h.anomalies <= g.anomalies
    && h.ledger.count <= g.ledger.count
    && st.records <= st'.records
  }

  lemma SettleGrows(cfg: Config, h: Host, st: Store, reading: Reading)
    requires ChainInv(h.ledger, st)
    ensures Grows(h, st, SettleTail(cfg, h, st, reading).0, st)
  {
    SettleIssued(cfg, h, st, reading);
    SettleKeepsChain(cfg, h, st, reading);
    hide ChainInv, AccountTo;
  }

  lemma SealGrows(cfg: Config, h: Host, st: Store, e: Event, env: Env)
    ensures var (g, st', _) := Seal(cfg, h, st, e, env); Grows(h, st, g, st')
  {
  }

  lemma VerifyGrows(cfg: Config, h: Host, st: Store, e: Event, s: string, verdict: Verdict)
    requires s in h.sessions
    ensures Grows(h, st, VerifySignature(cfg, h, e, s, verdict).0, st)
  {
  }

  lemma ConcludeAttemptGrows(cfg: Config, h: Host, st: Store, e: Event, s: string, env: Env)
    requires s in h.sessions
    ensures var (g, st', _) := ConcludeAttempt(cfg, h, st, e, s, env); Grows(h, st, g, st')
  {
    hide Seal, Decide, AccountTo, AlreadyDecided;
    SealGrows(cfg, h, st, e, env);
  }

  lemma ConcludeOutcomeGrows(cfg: Config, h: Host, st: Store, e: Event, s: string, env: Env)
    requires s in h.sessions
    ensures var (g, st', _) := ConcludeOutcome(cfg, h, st, e, s, env); Grows(h, st, g, st')
  {
    hide Seal, Decide, AccountTo, AlreadyDecided;
    SealGrows(cfg, h, st, e, env);
  }

  lemma AttemptGrows(cfg: Config, h: Host, st: Store, e: Event, expected: Option<string>, env: Env)
    requires ChainInv(h.ledger, st)
    ensures var (g, st', _) := HandleAttempt(cfg, h, st, e, expected, env); Grows(h, st, g, st')
  {
    hide ChainInv, SettleTail, ConcludeAttempt, VerifySignature, SchemaValid;
    SettleGrows(cfg, h, st, env.reading);
    var h0 := SettleTail(cfg, h, st, env.reading).0;
    var (h1, admission) := Admit(h0, e, expected, true);
    if admission.Admitted? {
      VerifyGrows(cfg, h1, st, e, admission.session, env.verdict);
      ConcludeAttemptGrows(cfg, VerifySignature(cfg, h1, e, admission.session, env.verdict).0, st, e,
                           admission.session, env);
    }
  }

  lemma OutcomeGrows(cfg: Config, h: Host, st: Store, e: Event, expected: Option<string>, env: Env)
    requires ChainInv(h.ledger, st)
    ensures var (g, st', _) := RecordOutcome(cfg, h, st, e, expected, env); Grows(h, st, g, st')
  {
    hide ChainInv, SettleTail, ConcludeOutcome, VerifySignature, SchemaValid;
    SettleGrows(cfg, h, st, env.reading);
    var h0 := SettleTail(cfg, h, st, env.reading).0;
    var (h1, admission) := Admit(h0, e, expected, false);
    if admission.Admitted? {
      VerifyGrows(cfg, h1, st, e, admission.session, env.verdict);
      ConcludeOutcomeGrows(cfg, VerifySignature(cfg, h1, e, admission.session, env.verdict).0, st, e,
                           admission.session, env);
    }
  }

  // ----- an accept is a commitment -----

  /** The answer names a committed record of exactly this event, at the position and with the hash it says. */
  ghost predicate CommittedAs(l: LedgerState, st: Store, e: Event, a: Answer) {
    && a.Accept?
    && 0 <= a.position < l.count <= |st.records|
    && st.records[a.position].event == e
    && AcceptOf(st.records[a.position]) == a
  }

  lemma IndexedRecord(l: LedgerState, st: Store, r: Record)
    requires ChainInv(l, st) && r in Committed(l, st)
    ensures CommittedAs(l, st, r.event, AcceptOf(r))
  {
    var c := Committed(l, st);
    var i :| 0 <= i < |c| && c[i] == r;
    assert LinksTo(st.records[..i], st.records[i]);
    hide Linked;
  }

  lemma SealCommits(cfg: Config, h: Host, st: Store, e: Event, env: Env)
    requires ChainInv(h.ledger, st)
    ensures var (g, st', sealing) := Seal(cfg, h, st, e, env);
            sealing.SealedAs? ==> CommittedAs(g.ledger, st', e, AcceptOf(sealing.record))
  {
    hide Linked, LinksTo;
  }

  lemma ConcludedAcceptIsCommitted(cfg: Config, h: Host, st: Store, e: Event, s: string, env: Env)
    requires ChainInv(h.ledger, st) && IndexInv(h, Committed(h.ledger, st)) && s in h.sessions
    ensures var (g, st', a) := ConcludeAttempt(cfg, h, st, e, s, env);
            a.Accept? ==> CommittedAs(g.ledger, st', e, a)
  {
    hide ChainInv, AttemptIds, Seal, Decide, AccountTo, AlreadyDecided, CommittedAs;
    var id := EventId(e);
    if id in h.sealedAttempts && h.sealedAttempts[id].event == e {
      IndexedRecord(h.ledger, st, h.sealedAttempts[id]);
    }
    SealCommits(cfg, h, st, e, env);
  }

  lemma EventsParts(cfg: Config, once: bool, h: Host, st: Store)
    requires EventsInv(cfg, once, h, st)
    ensures ChainInv(h.ledger, st) && IndexInv(h, Committed(h.ledger, st))
  {
  }

  /** An attempt is answered `accept` only when a record of exactly that attempt is committed. */
  lemma AcceptIsCommitted(cfg: Config, h: Host, st: Store, e: Event, expected: Option<string>, env: Env)
    requires EventsInv(cfg, false, h, st)
    ensures var (g, st', a) := HandleAttempt(cfg, h, st, e, expected, env);
            a.Accept? ==> CommittedAs(g.ledger, st', e, a) && IsAttempt(e) && e.id.Some? && e.session.Some?
  {
    hide EventsInv, ChainInv, IndexInv, SettleTail, ConcludeAttempt, VerifySignature, CommittedAs;
    SettleKeepsEvents(cfg, false, h, st, env.reading);
    var (h1, admission) := Admit(SettleTail(cfg, h, st, env.reading).0, e, expected, true);
    if admission.Admitted? {
      VerifyKeepsEvents(cfg, false, h1, st, e, admission.session, env.verdict);
      var h2 := VerifySignature(cfg, h1, e, admission.session, env.verdict).0;
      EventsParts(cfg, false, h2, st);
      ConcludedAcceptIsCommitted(cfg, h2, st, e, admission.session, env);
    }
  }

  lemma CommittedStays(h: Host, st: Store, g: Host, st': Store, e: Event, a: Answer)
    requires ChainGrows(h, st, g, st') && CommittedAs(h.ledger, st, e, a)
    ensures CommittedAs(g.ledger, st', e, a)
  {
    hide Linked, LinksTo;
  }

  /**
   * An accept is a commitment, over every run from an empty store - restarts, late appends and ids opened again
   * included: an attempt answered `accept` is from then on committed, at the position and with the hash the
   * accept states, however the run goes on.
   */
  lemma EveryAcceptIsCommitted(cfg: Config, before: seq<Input>, input: Input, after: seq<Input>)
    requires input.AttemptArrives? && Step(cfg, Run(cfg, START, before), input).1.AttemptReply?
    requires Step(cfg, Run(cfg, START, before), input).1.answer.Accept?
    ensures var last := Run(cfg, START, before + [input] + after);
            && IsAttempt(input.attempt)
            && CommittedAs(last.host.ledger, last.store, input.attempt,
                           Step(cfg, Run(cfg, START, before), input).1.answer)
  {
    hide Run, EventsInv, ChainInv, HandleAttempt, CommittedAs;
    StartEvents(cfg, false);
    RunKeepsEvents(cfg, false, START, before);
    var sys := Run(cfg, START, before);
    var (next, reply) := Step(cfg, sys, input);
    AcceptIsCommitted(cfg, sys.host, sys.store, input.attempt, input.expected, input.env);
    RunSplits(cfg, START, before, [input]);
    RunSplits(cfg, START, before + [input], after);
    OneStep(cfg, sys, input);
    StepKeepsEvents(cfg, false, sys, input);
    EventsParts(cfg, false, next.host, next.store);
    RunKeepsChain(cfg, next, after);
    CommittedStays(next.host, next.store, Run(cfg, next, after).host, Run(cfg, next, after).store, input.attempt,
                   reply.answer);
  }

  lemma OneStep(cfg: Config, sys: System, input: Input)
    ensures Run(cfg, sys, [input]) == Step(cfg, sys, input).0
  {
    hide Step;
    assert [input][1..] == [];
  }
}
