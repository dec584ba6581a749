/** The host against the verifier: what an independent audit of the stored records finds after any run. */
module HostAudit {
  import opened Events
  import opened Chain
  import opened Reasons
  import opened HostModel
  import opened HostInvariant
  import opened HostRestart
  import opened HostRuns
  import opened HostChain
  import opened HostEvents
  import V = Verifier
  import opened GapAccounting

  /** The out-of-band checks: an event's own signature, and a countersignature under a host key. */
  datatype Checks = Checks(signature: Event -> bool, countersignature: (string, string, Payload) -> bool)

  /** The checks accept what the host's verifier accepted and what its countersigner signs. */
  ghost predicate HonestEnv(cfg: Config, k: Checks, e: Event, env: Env) {
    && (env.verdict.Verifies? ==> k.signature(e))
    && (cfg.countersigner.Some? && env.signing.Signed? ==>
          forall p :: k.countersignature(cfg.countersigner.value, env.signing.sign(p), p))
  }

  ghost predicate HonestInput(cfg: Config, k: Checks, input: Input) {
    && (input.AttemptArrives? ==> HonestEnv(cfg, k, input.attempt, input.env))
    && (input.OutcomeArrives? ==> HonestEnv(cfg, k, input.outcome, input.env))
  }

  ghost predicate HonestRun(cfg: Config, k: Checks, inputs: seq<Input>) {
    forall i :: 0 <= i < |inputs| ==> HonestInput(cfg, k, inputs[i])
  }

  /** A record the checks accept: signed at Level 2, and countersigned where the host countersigns. */
  ghost predicate Authentic(cfg: Config, k: Checks, r: Record) {
    && (cfg.level2 ==> k.signature(r.event))
    && (match cfg.countersigner
        case None => r.hostSignature.None? && r.hostKeyId.None? && r.logId.None?
        case Some(key) =>
          && r.hostSignature.Some? && r.hostKeyId == Some(key) && r.logId == Some(cfg.logId)
          && k.countersignature(key, r.hostSignature.value, PayloadOf(r, cfg.logId)))
  }

  ghost predicate AllAuthentic(cfg: Config, k: Checks, st: Store) {
    forall r :: r in st.records || r in st.delayed ==> Authentic(cfg, k, r)
  }

  lemma MadeIsAuthentic(cfg: Config, k: Checks, r: Record, e: Event, env: Env)
    requires HonestEnv(cfg, k, e, env) && MadeFrom(cfg, r, e, env) && (cfg.level2 ==> env.verdict.Verifies?)
    ensures Authentic(cfg, k, r)
  {
  }

  lemma GrowthIsAuthentic(cfg: Config, k: Checks, st: Store, st': Store, e: Event, env: Env)
    requires AllAuthentic(cfg, k, st) && HonestEnv(cfg, k, e, env) && StoreGrows(cfg, st, st', e, env)
    requires cfg.level2 ==> env.verdict.Verifies?
    ensures AllAuthentic(cfg, k, st')
  {
    hide Authentic, MadeFrom, HonestEnv;
    forall r | r in st'.records || r in st'.delayed ensures Authentic(cfg, k, r) {
      if r !in st.records && r !in st.delayed {
        MadeIsAuthentic(cfg, k, r, e, env);
      }
    }
  }

  lemma StepKeepsAuthentic(cfg: Config, k: Checks, sys: System, input: Input)
    requires AllAuthentic(cfg, k, sys.store) && HonestInput(cfg, k, input)
    ensures AllAuthentic(cfg, k, Step(cfg, sys, input).0.store)
  {
    hide HandleAttempt, RecordOutcome, Resume, Authentic, StoreGrows, HonestEnv;
    var h, st := sys.host, sys.store;
    var st' := Step(cfg, sys, input).0.store;
    if input.AttemptArrives? {
      AttemptStores(cfg, h, st, input.attempt, input.expected, input.env);
      if st' != st {
        GrowthIsAuthentic(cfg, k, st, st', input.attempt, input.env);
      }
    } else if input.OutcomeArrives? {
      OutcomeStores(cfg, h, st, input.outcome, input.expected, input.env);
      if st' != st {
        GrowthIsAuthentic(cfg, k, st, st', input.outcome, input.env);
      }
    }
  }

  lemma {:induction false} RunKeepsAuthentic(cfg: Config, k: Checks, sys: System, inputs: seq<Input>)
    requires AllAuthentic(cfg, k, sys.store) && HonestRun(cfg, k, inputs)
    ensures AllAuthentic(cfg, k, Run(cfg, sys, inputs).store)
    decreases |inputs|
  {
    hide AllAuthentic, Step, HonestInput;
    if inputs != [] {
      StepKeepsAuthentic(cfg, k, sys, inputs[0]);
      RunKeepsAuthentic(cfg, k, Step(cfg, sys, inputs[0]).0, inputs[1..]);
    }
  }

  // ----- the audit -----

  /** Everything a deployment can ask the verifier to check of this host's chain. */
  function AuditOptions(cfg: Config, k: Checks, digest: Option<Hash>): V.Options {
    V.Options(
      digest,
      if cfg.level2 then Some(k.signature) else None,
      Some(k.countersignature),
      if cfg.countersigner.Some? then Some(V.Identity(cfg.logId, {cfg.countersigner.value})) else None,
      cfg.countersigner.Some?)
  }

  /** In a linked chain of hashable events, the stored hashes are the recomputed ones. */
  lemma {:induction false} LinkedRecomputes(c: seq<Record>)
    requires Linked(c) && forall i :: 0 <= i < |c| ==> c[i].event.canonical
    ensures V.Recomputed(c) == TailHash(c)
  {
    if c != [] {
      var d := c[..|c| - 1];
      forall i | 0 <= i < |d| ensures LinksTo(d[..i], d[i]) {
        assert d[..i] == c[..i];
      }
      LinkedRecomputes(d);
      assert LinksTo(c[..|c| - 1], c[|c| - 1]);
    }
  }

  /** What every run leaves: a linked chain of events a host seals. */
  ghost predicate SoundChain(cfg: Config, c: seq<Record>) {
    Linked(c) && AllMay(EventsOf(c), cfg.level2, false)
  }

  lemma SoundPrefix(cfg: Config, c: seq<Record>, n: nat)
    requires SoundChain(cfg, c) && n <= |c|
    ensures SoundChain(cfg, c[..n])
  {
    hide LinksTo, May;
    var d := c[..n];
    forall i | 0 <= i < n ensures LinksTo(d[..i], d[i]) {
      assert d[..i] == c[..i];
      assert LinksTo(c[..i], c[i]);
    }
    forall i | 0 <= i < n ensures May(EventsOf(d)[..i], EventsOf(d)[i], cfg.level2, false) {
      assert EventsOf(d)[..i] == EventsOf(c)[..i];
      assert May(EventsOf(c)[..i], EventsOf(c)[i], cfg.level2, false);
    }
  }

  lemma SoundRecomputes(cfg: Config, c: seq<Record>)
    requires SoundChain(cfg, c)
    ensures V.Recomputed(c) == TailHash(c)
  {
    hide AllMay, Linked, SchemaValid, NumberOf;
    SoundEvents(EventsOf(c), cfg.level2, false);
    forall i | 0 <= i < |c| ensures c[i].event.canonical {
      assert EventsOf(c)[i] in EventsOf(c);
    }
    LinkedRecomputes(c);
  }

  /** What is found at a record of such a chain: that its number was sealed before, or nothing. */
  ghost function ReplayIssue(c: seq<Record>, i: nat): seq<V.Issue>
    requires i < |c|
  {
    if V.Replayed(c[i].event, Numbers(EventsOf(c[..i]))) then [V.Issue(Some(i), ReplayDetected)] else []
  }

  ghost function ReplayIssues(c: seq<Record>, n: nat): seq<V.Issue>
    requires n <= |c|
  {
    if n == 0 then [] else ReplayIssues(c, n - 1) + ReplayIssue(c, n - 1)
  }

  lemma RecordFindsOnlyReplay(cfg: Config, k: Checks, c: seq<Record>, i: nat, digest: Option<Hash>)
    requires SoundChain(cfg, c) && i < |c| && Authentic(cfg, k, c[i])
    ensures V.IssuesAt(c, i, AuditOptions(cfg, k, digest)) == ReplayIssue(c, i)
  {
    SoundPrefix(cfg, c, i);
    SoundRecomputes(cfg, c[..i]);
    LinkAt(c, i);
    MayAt(EventsOf(c), i, cfg.level2, false);
    assert EventsOf(c)[..i] == EventsOf(c[..i]);
    hide SoundChain, SchemaValid, V.Recomputed, V.Replayed, AttemptIds, Attempts, Numbers, NumberOf, May, TailHash;
  }

  lemma LinkAt(c: seq<Record>, i: nat)
    requires Linked(c) && i < |c|
    ensures LinksTo(c[..i], c[i])
  {
  }

  lemma {:induction false} ChainFindsOnlyReplays(cfg: Config, k: Checks, c: seq<Record>, n: nat, digest: Option<Hash>)
    requires SoundChain(cfg, c) && n <= |c| && forall r :: r in c ==> Authentic(cfg, k, r)
    ensures V.ChainIssues(c, n, AuditOptions(cfg, k, digest)) == ReplayIssues(c, n)
  {
    hide SoundChain, Authentic, V.IssuesAt, ReplayIssue, AuditOptions;
    if n > 0 {
      ChainFindsOnlyReplays(cfg, k, c, n - 1, digest);
      assert c[n - 1] in c;
      RecordFindsOnlyReplay(cfg, k, c, n - 1, digest);
    }
  }

  /** What a full audit of `c` reports: every number sealed twice, and the gaps the accounting leaves. */
  ghost function ReplaysAndGaps(c: seq<Record>): seq<V.Issue> {
    ReplayIssues(c, |c|) + V.GapIssues(AllGaps(EventsOf(c), Groups(EventsOf(c))))
  }

  lemma AuditOfSound(cfg: Config, k: Checks, c: seq<Record>, digest: Option<Hash>)
    requires SoundChain(cfg, c) && forall r :: r in c ==> Authentic(cfg, k, r)
    requires digest.Some? ==> digest.value == TailHash(c)
    ensures V.Issues(c, AuditOptions(cfg, k, digest)) == ReplaysAndGaps(c)
  {
    hide SoundChain, Authentic, V.ChainIssues, V.Recomputed, ReplayIssues, AllGaps, Groups, V.GapIssues, TailHash;
    ChainFindsOnlyReplays(cfg, k, c, |c|, digest);
    SoundRecomputes(cfg, c);
  }

  /** The stored and the committed chain of a run. */
  lemma RunIsSound(cfg: Config, k: Checks, inputs: seq<Input>)
    requires HonestRun(cfg, k, inputs)
    ensures var sys := Run(cfg, START, inputs);
            var c := Committed(sys.host.ledger, sys.store);
            && SoundChain(cfg, sys.store.records) && SoundChain(cfg, c)
            && (forall r :: r in sys.store.records || r in c ==> Authentic(cfg, k, r))
            && sys.host.ledger.tailHash == TailHash(c)
  {
    hide Run, HonestRun, Authentic, AllMay, Linked, HostTracks, TailHash;
    StartEvents(cfg, false);
    RunKeepsEvents(cfg, false, START, inputs);
    RunKeepsAuthentic(cfg, k, START, inputs);
    var sys := Run(cfg, START, inputs);
    SoundPrefix(cfg, sys.store.records, sys.host.ledger.count);
  }

  /**
   * The host against the verifier, over every run of either level, ids opened again included. A full audit of
   * the stored records - signatures, countersignatures and the bound identity included - reports exactly the
   * numbers sealed twice and the gaps the accounting leaves; and so does one of the committed records against
   * the digest the host anchors, which is the one recomputed from them.
   */
  lemma AuditFindsReplaysAndGaps(cfg: Config, k: Checks, inputs: seq<Input>)
    requires HonestRun(cfg, k, inputs)
    ensures var sys := Run(cfg, START, inputs);
            var c := Committed(sys.host.ledger, sys.store);
            && V.Issues(sys.store.records, AuditOptions(cfg, k, None)) == ReplaysAndGaps(sys.store.records)
            && V.Recomputed(c) == sys.host.ledger.tailHash
            && V.Issues(c, AuditOptions(cfg, k, Some(sys.host.ledger.tailHash))) == ReplaysAndGaps(c)
  {
    hide Run, HonestRun, Authentic, SoundChain, V.Issues, V.Recomputed, ReplaysAndGaps, TailHash, AuditOptions,
         Committed;
    RunIsSound(cfg, k, inputs);
    var sys := Run(cfg, START, inputs);
    var c := Committed(sys.host.ledger, sys.store);
    AuditOfSound(cfg, k, sys.store.records, None);
    AuditOfSound(cfg, k, c, Some(sys.host.ledger.tailHash));
    SoundRecomputes(cfg, c);
  }

  /** A record of a run is clean exactly when its number was not sealed before. */
  lemma OnlyReplays(cfg: Config, k: Checks, inputs: seq<Input>, i: nat)
    requires HonestRun(cfg, k, inputs) && i < |Run(cfg, START, inputs).store.records|
    ensures var c := Run(cfg, START, inputs).store.records;
            V.CleanAt(c, i, AuditOptions(cfg, k, None)) <==> !V.Replayed(c[i].event, Numbers(EventsOf(c[..i])))
  {
    hide Run, HonestRun, Authentic, SoundChain, V.CleanAt, V.Replayed, V.IssuesAt, AuditOptions;
    RunIsSound(cfg, k, inputs);
    var c := Run(cfg, START, inputs).store.records;
    assert c[i] in c;
    RecordFindsOnlyReplay(cfg, k, c, i, None);
    V.CleanAtIffNoIssues(c, i, AuditOptions(cfg, k, None));
  }

  /** A well-kept Level-2 chain seals no number twice. */
  lemma {:induction false} KeptReplaysNothing(c: seq<Record>, n: nat)
    requires WellKept(EventsOf(c), true) && n <= |c|
    ensures ReplayIssues(c, n) == []
  {
    hide WellKept, SchemaValid, NumberOf;
    if n > 0 {
      KeptReplaysNothing(c, n - 1);
      FittedAt(EventsOf(c), n - 1, true);
      assert EventsOf(c)[..n - 1] == EventsOf(c[..n - 1]);
    }
  }

  /**
   * For every run of a Level-2 host in which no id a committed record carries is opened again, that leaves the
   * gaps alone, all of kind `signer-seq-gap`.
   */
  lemma AuditFindsOnlyGaps(cfg: Config, k: Checks, inputs: seq<Input>)
    requires cfg.level2 && FreshRun(cfg, START, inputs) && HonestRun(cfg, k, inputs)
    ensures var sys := Run(cfg, START, inputs);
            var es := EventsOf(sys.store.records);
            && V.Issues(sys.store.records, AuditOptions(cfg, k, None)) == V.GapIssues(AllGaps(es, Groups(es)))
            && V.Recomputed(Committed(sys.host.ledger, sys.store)) == sys.host.ledger.tailHash
            && V.Issues(Committed(sys.host.ledger, sys.store), AuditOptions(cfg, k, Some(sys.host.ledger.tailHash)))
                 == V.GapIssues(AllGaps(EventsOf(Committed(sys.host.ledger, sys.store)),
                                        Groups(EventsOf(Committed(sys.host.ledger, sys.store)))))
  {
    hide Run, FreshRun, HonestRun, V.Issues, V.Recomputed, AllGaps, Groups, V.GapIssues, WellKept, AuditOptions;
    AuditFindsReplaysAndGaps(cfg, k, inputs);
    RunLifecycle(cfg, inputs);
    NoFork(cfg, inputs);
    var sys := Run(cfg, START, inputs);
    WellKeptPrefix(EventsOf(sys.store.records), sys.host.ledger.count, true);
    var c := Committed(sys.host.ledger, sys.store);
    assert EventsOf(c) == EventsOf(sys.store.records)[..sys.host.ledger.count];
    KeptReplaysNothing(sys.store.records, |sys.store.records|);
    KeptReplaysNothing(c, |c|);
  }

  /** And in such a run only a Level-1 host lets a number be sealed twice. */
  lemma OnlyReplaysAtLevel1(cfg: Config, k: Checks, inputs: seq<Input>, i: nat)
    requires FreshRun(cfg, START, inputs) && HonestRun(cfg, k, inputs)
    requires i < |Run(cfg, START, inputs).store.records|
    ensures var c := Run(cfg, START, inputs).store.records;
            !V.CleanAt(c, i, AuditOptions(cfg, k, None)) ==>
              !cfg.level2 && V.Replayed(c[i].event, Numbers(EventsOf(c[..i])))
  {
    hide Run, FreshRun, HonestRun, V.CleanAt, WellKept, SchemaValid, NumberOf, AuditOptions;
    OnlyReplays(cfg, k, inputs, i);
    RunLifecycle(cfg, inputs);
    var c := Run(cfg, START, inputs).store.records;
    FittedAt(EventsOf(c), i, cfg.level2);
    assert EventsOf(c)[..i] == EventsOf(c[..i]);
  }
}
