/**
 * One chain under ambiguous writes: what every run keeps of the store and the ledger, whatever the appends
 * did and whichever sessions were opened, ids used before included.
 */
module HostChain {
  import opened Events
  import opened Chain
  import opened HostModel
  import opened HostInvariant
  import opened HostRuns

  /** One linked stored chain, at most one record ahead of the host; a delayed append links to it or is void. */
  ghost predicate ChainInv(l: LedgerState, st: Store) {
    && 0 <= l.count <= |st.records| <= l.count + 1
    && Linked(st.records)
    && l.tailHash == TailHash(Committed(l, st))
    && (forall d :: d in st.delayed ==> d.position < l.count || (d.position == l.count && LinksTo(Committed(l, st), d)))
  }

  /** The chain is kept, and nothing stored or committed is taken back. */
  ghost predicate ChainGrows(h: Host, st: Store, g: Host, st': Store) {
    ChainInv(g.ledger, st') && st.records <= st'.records && h.ledger.count <= g.ledger.count
  }

  /** The chain of the full invariant is one. */
  lemma LedgerIsChain(cfg: Config, l: LedgerState, st: Store)
    requires LedgerInv(cfg, l, st)
    ensures ChainInv(l, st)
  {
    hide WellKept, Fits, HeldInv, Linked;
  }

  // ----- every operation -----

  /** The stored record ahead of the host is the one it would adopt. */
  lemma AheadLinks(l: LedgerState, st: Store)
    requires ChainInv(l, st) && |st.records| == l.count + 1
    ensures LinksTo(Committed(l, st), st.records[l.count])
    ensures ChainInv(Commit(l, st.records[l.count]), st)
    ensures Committed(Commit(l, st.records[l.count]), st) == st.records
    ensures st.records == Committed(l, st) + [st.records[l.count]]
  {
    assert LinksTo(st.records[..l.count], st.records[l.count]);
    hide Linked;
  }

  lemma TailIs(l: LedgerState, st: Store)
    requires ChainInv(l, st) && st.records != []
    ensures var tail := st.records[|st.records| - 1];
            && tail.position == |st.records| - 1
            && (tail.position == l.count ==> tail.previousHash == l.tailHash)
  {
    var n := |st.records| - 1;
    assert LinksTo(st.records[..n], st.records[n]);
  }

  lemma SettleKeepsChain(cfg: Config, h: Host, st: Store, reading: Reading)
    requires ChainInv(h.ledger, st)
    ensures ChainInv(SettleTail(cfg, h, st, reading).0.ledger, st)
    ensures h.ledger.count <= SettleTail(cfg, h, st, reading).0.ledger.count
    ensures h.tailUncertain && reading == ReadTail ==> SettleTail(cfg, h, st, reading).0.ledger.count == |st.records|
  {
    if h.tailUncertain && reading == ReadTail {
      if st.records != [] {
        TailIs(h.ledger, st);
      }
      if |st.records| == h.ledger.count + 1 {
        AheadLinks(h.ledger, st);
        AdoptKeepsTheLedger(cfg, h, st.records[h.ledger.count]);
      }
    }
    hide ChainInv, Absorb;
  }

  lemma AdoptKeepsTheLedger(cfg: Config, h: Host, r: Record)
    ensures Absorb(cfg, h, r).ledger == Commit(h.ledger, r)
  {
  }

  /** A record stored right after the committed chain leaves the chain behind it as it was. */
  lemma StoredNext(l: LedgerState, st: Store, r: Record, delayed: set<Record>)
    requires ChainInv(l, st) && LinksTo(Committed(l, st), r) && r.position == |st.records| && delayed <= st.delayed
    ensures ChainInv(l, Store(st.records + [r], delayed))
    ensures Committed(l, Store(st.records + [r], delayed)) == Committed(l, st) == st.records
  {
    assert Committed(l, st) == st.records;
    LinkedAfter(st.records, r);
    assert (st.records + [r])[..l.count] == st.records;
    hide Linked, LinksTo;
  }

  /** What the append of the next record leaves, acknowledged or not. */
  lemma AppendKeepsChain(l: LedgerState, st: Store, r: Record, fate: Fate)
    requires ChainInv(l, st) && LinksTo(Committed(l, st), r)
    ensures var (st', acked) := Append(st, r, fate);
            && ChainInv(if acked then Commit(l, r) else l, st')
            && st.records <= st'.records
            && Committed(l, st') == Committed(l, st)
            && (acked ==> st'.records == Committed(l, st) + [r] && Committed(Commit(l, r), st') == st'.records)
  {
    var (st', acked) := Append(st, r, fate);
    if r.position == |st.records| {
      StoredNext(l, st, r, st.delayed);
      if acked {
        AheadLinks(l, st');
      }
    }
    hide Linked, LinksTo;
  }

  lemma NextLinks(cfg: Config, l: LedgerState, st: Store, e: Event, env: Env)
    requires ChainInv(l, st)
    ensures LinksTo(Committed(l, st), Countersigned(cfg, NextRecord(e, l.count, env.now, l.tailHash), env.signing))
  {
    hide Linked;
  }

  lemma SealKeepsChain(cfg: Config, h: Host, st: Store, e: Event, env: Env)
    requires ChainInv(h.ledger, st)
    ensures var (g, st', sealing) := Seal(cfg, h, st, e, env); ChainGrows(h, st, g, st')
  {
    var r := Countersigned(cfg, NextRecord(e, h.ledger.count, env.now, h.ledger.tailHash), env.signing);
    NextLinks(cfg, h.ledger, st, e, env);
    AppendKeepsChain(h.ledger, st, r, env.fate);
    hide ChainInv, LinksTo, Countersigned;
  }

  lemma VerifyKeepsLedger(cfg: Config, h: Host, e: Event, s: string, verdict: Verdict)
    requires s in h.sessions
    ensures var g := VerifySignature(cfg, h, e, s, verdict).0;
            g.ledger == h.ledger && g.tailUncertain == h.tailUncertain && g.sessions.Keys == h.sessions.Keys
  {
  }

  /** The one thing an attempt or an outcome does to the store is what sealing it does. */
  lemma ConcludingSeals(cfg: Config, h: Host, st: Store, e: Event, s: string, env: Env)
    requires s in h.sessions
    ensures var (g, st', _) := ConcludeAttempt(cfg, h, st, e, s, env);
            || (g.ledger, st') == (h.ledger, st)
            || (g.ledger, st') == (Seal(cfg, h, st, e, env).0.ledger, Seal(cfg, h, st, e, env).1)
    ensures var (g, st', _) := ConcludeOutcome(cfg, h, st, e, s, env);
            || (g.ledger, st') == (h.ledger, st)
            || (g.ledger, st') == (Seal(cfg, h, st, e, env).0.ledger, Seal(cfg, h, st, e, env).1)
  {
    hide Seal, Decide, AccountTo, AlreadyDecided;
  }

  lemma ConcludingKeepsChain(cfg: Config, h: Host, st: Store, e: Event, s: string, env: Env)
    requires ChainInv(h.ledger, st) && s in h.sessions
    ensures var (g, st', _) := ConcludeAttempt(cfg, h, st, e, s, env); ChainGrows(h, st, g, st')
    ensures var (g, st', _) := ConcludeOutcome(cfg, h, st, e, s, env); ChainGrows(h, st, g, st')
  {
    hide ChainInv, Seal, ConcludeAttempt, ConcludeOutcome;
    ConcludingSeals(cfg, h, st, e, s, env);
    SealKeepsChain(cfg, h, st, e, env);
  }

  lemma AttemptKeepsChain(cfg: Config, h: Host, st: Store, e: Event, expected: Option<string>, env: Env)
    requires ChainInv(h.ledger, st)
    ensures var (g, st', _) := HandleAttempt(cfg, h, st, e, expected, env); ChainGrows(h, st, g, st')
  {
    hide ChainInv, SettleTail, ConcludeAttempt, VerifySignature, SchemaValid;
    SettleKeepsChain(cfg, h, st, env.reading);
    var (h1, admission) := Admit(SettleTail(cfg, h, st, env.reading).0, e, expected, true);
    if admission.Admitted? {
      VerifyKeepsLedger(cfg, h1, e, admission.session, env.verdict);
      ConcludingKeepsChain(cfg, VerifySignature(cfg, h1, e, admission.session, env.verdict).0, st, e,
                           admission.session, env);
    }
  }

  lemma OutcomeKeepsChain(cfg: Config, h: Host, st: Store, e: Event, expected: Option<string>, env: Env)
    requires ChainInv(h.ledger, st)
    ensures var (g, st', _) := RecordOutcome(cfg, h, st, e, expected, env); ChainGrows(h, st, g, st')
  {
    hide ChainInv, SettleTail, ConcludeOutcome, VerifySignature, SchemaValid;
    SettleKeepsChain(cfg, h, st, env.reading);
    var (h1, admission) := Admit(SettleTail(cfg, h, st, env.reading).0, e, expected, false);
    if admission.Admitted? {
      VerifyKeepsLedger(cfg, h1, e, admission.session, env.verdict);
      ConcludingKeepsChain(cfg, VerifySignature(cfg, h1, e, admission.session, env.verdict).0, st, e,
                           admission.session, env);
    }
  }

  lemma LandKeepsChain(l: LedgerState, st: Store, r: Record)
    requires ChainInv(l, st)
    ensures ChainInv(l, Land(st, r)) && st.records <= Land(st, r).records
    ensures Committed(l, Land(st, r)) == Committed(l, st)
  {
    if r in st.delayed && r.position == |st.records| {
      StoredNext(l, st, r, st.delayed - {r});
    }
    hide Linked, LinksTo;
  }

  lemma ResumeKeepsChain(l: LedgerState, st: Store)
    requires ChainInv(l, st)
    ensures ChainInv(ResumeFrom(st.records), st) && ResumeFrom(st.records).count == |st.records|
  {
    if st.records != [] {
      TailIs(l, st);
    }
    assert st.records[..|st.records|] == st.records;
    hide Linked, LinksTo;
  }

  /** Records once stored stay where they are, and records once committed stay committed, even over a restart. */
  lemma StepKeepsChain(cfg: Config, sys: System, input: Input)
    requires ChainInv(sys.host.ledger, sys.store)
    ensures var next := Step(cfg, sys, input).0;
            ChainGrows(sys.host, sys.store, next.host, next.store)
  {
    var h, st := sys.host, sys.store;
    if input.HostRestarts? {
      ResumeKeepsChain(h.ledger, st);
      assert h.ledger.count <= |st.records|;
    }
    hide ChainInv, HandleAttempt, RecordOutcome, ResumeFrom, Land;
    match input
    case AttemptArrives(e, expected, env) => AttemptKeepsChain(cfg, h, st, e, expected, env);
    case OutcomeArrives(e, expected, env) => OutcomeKeepsChain(cfg, h, st, e, expected, env);
    case SessionOpens(s) =>
    case SessionCloses(s) =>
    case AppendLands(r) => LandKeepsChain(h.ledger, st, r);
    case HostRestarts(opens) =>
  }

  // ----- every run -----

  lemma {:induction false} RunKeepsChain(cfg: Config, sys: System, inputs: seq<Input>)
    requires ChainInv(sys.host.ledger, sys.store)
    ensures var last := Run(cfg, sys, inputs);
            ChainGrows(sys.host, sys.store, last.host, last.store)
    decreases |inputs|
  {
    hide ChainInv, Step;
    if inputs != [] {
      StepKeepsChain(cfg, sys, inputs[0]);
      RunKeepsChain(cfg, Step(cfg, sys, inputs[0]).0, inputs[1..]);
    }
  }

  lemma StartChain()
    ensures ChainInv(START.host.ledger, START.store)
  {
  }

  /**
   * No fork: over every run from an empty store - appends that fail, land unnoticed or land late, restarts at
   * any point, ids opened again - one linked chain is stored, the host's chain is a prefix of it at most one
   * record shorter, and a delayed append links to that prefix or can never land.
   */
  lemma NoFork(cfg: Config, inputs: seq<Input>)
    ensures var sys := Run(cfg, START, inputs);
            var n := sys.host.ledger.count;
            && Linked(sys.store.records)
            && 0 <= n <= |sys.store.records| <= n + 1
            && sys.host.ledger.tailHash == TailHash(sys.store.records[..n])
            && (forall d :: d in sys.store.delayed ==> d.position < n || LinksTo(sys.store.records[..n], d))
  {
    hide Run, Linked, LinksTo;
    StartChain();
    RunKeepsChain(cfg, START, inputs);
  }

  /** So the branch for a chain that another writer extended is never taken: in every run a stored tail is no
      further than one past the host's, and one past is the record the host adopts. */
  lemma NoOtherWriter(cfg: Config, inputs: seq<Input>)
    requires Run(cfg, START, inputs).store.records != []
    ensures var sys := Run(cfg, START, inputs);
            var tail := sys.store.records[|sys.store.records| - 1];
            && tail.position <= sys.host.ledger.count
            && (tail.position == sys.host.ledger.count ==> tail.previousHash == sys.host.ledger.tailHash)
  {
    hide Run, Linked;
    StartChain();
    RunKeepsChain(cfg, START, inputs);
    TailIs(Run(cfg, START, inputs).host.ledger, Run(cfg, START, inputs).store);
  }

  lemma {:induction false} RunSplits(cfg: Config, sys: System, before: seq<Input>, after: seq<Input>)
    ensures Run(cfg, sys, before + after) == Run(cfg, Run(cfg, sys, before), after)
    decreases |before|
  {
    hide Step;
    if before == [] {
      assert before + after == after;
    } else {
      assert (before + after)[1..] == before[1..] + after;
      RunSplits(cfg, Step(cfg, sys, before[0]).0, before[1..], after);
    }
  }

  /** Nothing a run stored or committed is taken back, however it goes on. */
  lemma RunKeepsRecords(cfg: Config, before: seq<Input>, after: seq<Input>)
    ensures var sys, last := Run(cfg, START, before), Run(cfg, START, before + after);
            && sys.store.records <= last.store.records
            && Committed(sys.host.ledger, sys.store) <= Committed(last.host.ledger, last.store)
  {
    hide Run, Linked, LinksTo;
    RunSplits(cfg, START, before, after);
    StartChain();
    RunKeepsChain(cfg, START, before);
    RunKeepsChain(cfg, Run(cfg, START, before), after);
  }
}
