/** Opening a session under an id that was used before: exactly when it is safe, and a run in which it is not. */
module HostReuse {
  import opened Events
  import opened Chain
  import opened Reasons
  import opened HostModel
  import opened HostInvariant
  import opened HostRestart
  import opened HostRuns
  import opened HostChain
  import opened HostEvents
  import opened HostRepeats
  import opened HostResumption
  import V = Verifier

  function Reopened(sys: System, s: string): System {
    System(OpenNew(sys.host, s), sys.store)
  }

  /** However the run goes on, with no further id reused, every stored chain is well kept. */
  ghost predicate SafeToOpen(cfg: Config, sys: System, s: string) {
    forall inputs :: FreshRun(cfg, Reopened(sys, s), inputs) ==>
      WellKept(EventsOf(Run(cfg, Reopened(sys, s), inputs).store.records), cfg.level2)
  }

  lemma ReusableIsSafe(cfg: Config, sys: System, s: string)
    requires EventsInv(cfg, true, sys.host, sys.store) && Reusable(cfg, sys.host, sys.store, s)
    ensures SafeToOpen(cfg, sys, s)
  {
    hide FreshRun, Run, Reusable, HostTracks, ChainInv;
    OpeningKeepsEvents(cfg, true, sys.host, sys.store, s);
    forall inputs | FreshRun(cfg, Reopened(sys, s), inputs)
      ensures WellKept(EventsOf(Run(cfg, Reopened(sys, s), inputs).store.records), cfg.level2)
    {
      RunKeepsEvents(cfg, true, Reopened(sys, s), inputs);
      MayIsKept(EventsOf(Run(cfg, Reopened(sys, s), inputs).store.records), cfg.level2);
    }
  }

  lemma MayIsKept(es: seq<Event>, level2: bool)
    requires AllMay(es, level2, true)
    ensures WellKept(es, level2)
  {
    forall i | 0 <= i < |es| ensures Fits(es[..i], es[i], level2) {
      assert May(es[..i], es[i], level2, true);
    }
  }

  // ----- a used id -----

  /** An outcome of session `s` that says the tool declined to act. */
  predicate Declines(cfg: Config, s: string, e: Event) {
    && SchemaValid(e) && e.canonical && e.outcome == Some(Aborted) && e.session == Some(s)
    && (cfg.level2 ==> NumberOf(e).Some?)
  }

  /** It does not fit a chain of `es`: at Level 2 its number was sealed, at Level 1 its operation ended. */
  ghost predicate Clashes(cfg: Config, es: seq<Event>, e: Event) {
    if cfg.level2 then NumberOf(e).Some? && NumberOf(e).value in Numbers(es) else KeyOf(e) in Terminals(es)
  }

  /** Nothing the host keeps stands in its way. */
  predicate FreeFor(cfg: Config, h: Host, s: string, e: Event) {
    && s in h.sessions && EventId(e) !in h.sessions[s].outcomes && e !in h.sealedDigests
    && !AlreadyDecided(cfg, h.sessions[s], e)
  }

  function Sent(e: Event): Input {
    OutcomeArrives(e, None, CalmEnv(ReadTail))
  }

  lemma PassesTheChecks(cfg: Config, h: Host, s: string, e: Event)
    requires Declines(cfg, s, e) && FreeFor(cfg, h, s, e)
    ensures Admit(h, e, None, false) == (h, Admitted(s))
    ensures var (h1, check) := VerifySignature(cfg, h, e, s, Verifies);
            && check == Passed && FreeFor(cfg, h1, s, e)
            && h1.ledger == h.ledger && h1.tailUncertain == h.tailUncertain
  {
  }

  /** With no doubt of its tail the host seals it. */
  lemma EndsAgain(cfg: Config, sys: System, s: string, e: Event)
    requires !InDoubt(sys) && Declines(cfg, s, e) && FreeFor(cfg, sys.host, s, e)
    ensures var st' := Step(cfg, sys, Sent(e)).0.store;
            && |st'.records| == |sys.store.records| + 1
            && st'.records[..|sys.store.records|] == sys.store.records
            && st'.records[|sys.store.records|].event == e
  {
    PassesTheChecks(cfg, sys.host, s, e);
    var h1 := VerifySignature(cfg, sys.host, e, s, Verifies).0;
    var env := CalmEnv(ReadTail);
    var r := Countersigned(cfg, NextRecord(e, h1.ledger.count, env.now, h1.ledger.tailHash), env.signing);
    hide VerifySignature, Declines, Admit, AlreadyDecided;
    assert ConcludeOutcome(cfg, h1, sys.store, e, s, env).1.records == sys.store.records + [r];
  }

  /** On a store ahead of the host its append fails, and the host is unsure from then on. */
  lemma EndFails(cfg: Config, sys: System, s: string, e: Event)
    requires !sys.host.tailUncertain && sys.host.ledger.count != |sys.store.records|
    requires Declines(cfg, s, e) && FreeFor(cfg, sys.host, s, e)
    ensures var next := Step(cfg, sys, Sent(e)).0;
            && next.store == sys.store && next.host.tailUncertain && next.host.ledger == sys.host.ledger
            && FreeFor(cfg, next.host, s, e)
  {
    PassesTheChecks(cfg, sys.host, s, e);
    hide VerifySignature, Declines, Admit, AlreadyDecided;
  }

  /** A record the host was not sure of is not in the way either, and is settled by any message. */
  lemma SettledFree(cfg: Config, sys: System, s: string, e: Event)
    requires StoredInv(cfg, true, sys.host.ledger, sys.store) && sys.host.tailUncertain
    requires Declines(cfg, s, e) && FreeFor(cfg, sys.host, s, e)
    requires Clashes(cfg, EventsOf(Committed(sys.host.ledger, sys.store)), e)
    requires forall d :: d in EventsOf(sys.store.records) ==> d != e && (cfg.level2 ==> EventId(d) != EventId(e))
    ensures var next := Step(cfg, sys, AttemptArrives(NO_EVENT, None, CalmEnv(ReadTail))).0;
            && next.store == sys.store && !InDoubt(next) && FreeFor(cfg, next.host, s, e)
            && next.host.sessions.Keys == sys.host.sessions.Keys
  {
    hide Adopt, SchemaValid, AllMay, May, Linked, LinksTo, Declines, Clashes;
    assert !SchemaValid(NO_EVENT) by {
      NoEventIsMalformed();
    }
    var h, st := sys.host, sys.store;
    SettleIssued(cfg, h, st, ReadTail);
    if st.records != [] {
      TailIs(h.ledger, st);
    }
    if |st.records| == h.ledger.count + 1 {
      AdoptedFree(cfg, h, st, s, e);
    }
  }

  lemma NoEventIsMalformed()
    ensures !SchemaValid(NO_EVENT)
  {
  }

  lemma AdoptedFree(cfg: Config, h: Host, st: Store, s: string, e: Event)
    requires StoredInv(cfg, true, h.ledger, st) && |st.records| == h.ledger.count + 1
    requires Declines(cfg, s, e) && FreeFor(cfg, h, s, e) && Clashes(cfg, EventsOf(Committed(h.ledger, st)), e)
    requires forall d :: d in EventsOf(st.records) ==> d != e && (cfg.level2 ==> EventId(d) != EventId(e))
    ensures var g := Absorb(cfg, h, st.records[h.ledger.count]);
            g.ledger.count == |st.records| && FreeFor(cfg, g, s, e)
  {
    var r := st.records[h.ledger.count];
    assert r.event in EventsOf(st.records) by {
      assert EventsOf(st.records)[h.ledger.count] == r.event;
    }
    MayAt(EventsOf(st.records), h.ledger.count, cfg.level2, true);
    assert EventsOf(st.records)[..h.ledger.count] == EventsOf(Committed(h.ledger, st));
    AdoptKeepsTheLedger(cfg, h, r);
    DoesNotClash(cfg, EventsOf(Committed(h.ledger, st)), r.event, e);
    AbsorbedFree(cfg, h, r, s, e);
  }

  lemma DoesNotClash(cfg: Config, es: seq<Event>, d: Event, e: Event)
    requires Fits(es, d, cfg.level2) && Clashes(cfg, es, e)
    ensures if cfg.level2 then NumberOf(d) != NumberOf(e) else KeyOf(d) != KeyOf(e) || IsAttempt(d)
    ensures d.id.Some?
  {
  }

  lemma AbsorbedFree(cfg: Config, h: Host, r: Record, s: string, e: Event)
    requires Declines(cfg, s, e) && FreeFor(cfg, h, s, e) && r.event != e && r.event.id.Some?
    requires if cfg.level2 then NumberOf(r.event) != NumberOf(e) && EventId(r.event) != EventId(e)
             else KeyOf(r.event) != KeyOf(e) || IsAttempt(r.event)
    ensures FreeFor(cfg, Absorb(cfg, h, r), s, e)
  {
  }

  /** The outcome that clashes with `e`: at Level 2 under its number, at Level 1 of its operation. */
  function Clashing(cfg: Config, e: Event, id: string, body: nat): Event {
    if cfg.level2 then
      Event(Some(id), Some(V04), e.session, Some(Aborted), Some(HostUnavailable), e.keyId, e.signerSeq, Some("g"), body,
            true, true)
    else
      Event(e.id, Some(V04), e.session, Some(Aborted), Some(HostUnavailable), None, None, None, body, true, true)
  }

  lemma {:induction false} NewBody(es: seq<Event>) returns (body: nat)
    ensures forall e :: e in es ==> e.body < body
  {
    body := 0;
    if es != [] {
      body := NewBody(es[..|es| - 1]);
      var last := es[|es| - 1];
      assert forall e :: e in es ==> e in es[..|es| - 1] || e == last;
      body := body + last.body + 1;
    }
  }

  /** The audit finds a number sealed twice at record `i`. */
  ghost predicate ReplayAt(c: seq<Record>, i: nat) {
    i < |c| && V.Replayed(c[i].event, Numbers(EventsOf(c[..i])))
  }

  /** It is reported under its own kind, whatever else the auditor is asked to check. */
  lemma ReplayIsReported(c: seq<Record>, i: nat, opts: V.Options)
    requires i < |c|
    ensures ReplayAt(c, i) <==> V.Issue(Some(c[i].position), ReplayDetected) in V.IssuesAt(c, i, opts)
  {
    hide V.Orphaned, V.SignatureOk, V.CountersignatureOk, V.IdentityOk, V.HashAfter;
  }

  /** However the run goes on, with no further id reused, an audit finds no number sealed twice. */
  ghost predicate NeverReplays(cfg: Config, sys: System, s: string) {
    forall inputs, i: nat :: FreshRun(cfg, Reopened(sys, s), inputs) ==>
      !ReplayAt(Run(cfg, Reopened(sys, s), inputs).store.records, i)
  }

  lemma WellKeptNeverReplays(c: seq<Record>, i: nat)
    requires WellKept(EventsOf(c), true)
    ensures !ReplayAt(c, i)
  {
    hide SchemaValid;
    if i < |c| {
      assert Fits(EventsOf(c)[..i], EventsOf(c)[i], true);
      assert EventsOf(c)[..i] == EventsOf(c[..i]);
    }
  }

  lemma SafeNeverReplays(cfg: Config, sys: System, s: string)
    requires cfg.level2 && SafeToOpen(cfg, sys, s)
    ensures NeverReplays(cfg, sys, s)
  {
    hide FreshRun, Run, WellKept, ReplayAt;
    forall inputs, i: nat | FreshRun(cfg, Reopened(sys, s), inputs)
      ensures !ReplayAt(Run(cfg, Reopened(sys, s), inputs).store.records, i)
    {
      WellKeptNeverReplays(Run(cfg, Reopened(sys, s), inputs).store.records, i);
    }
  }

  /** A chain that ends in an event that clashes with what precedes it is not well kept. */
  lemma ClashShows(cfg: Config, c: seq<Record>, c': seq<Record>, committed: seq<Event>, e: Event)
    requires |c'| == |c| + 1 && c'[..|c|] == c && c'[|c|].event == e
    requires committed <= EventsOf(c) && Clashes(cfg, committed, e)
    ensures !WellKept(EventsOf(c'), cfg.level2)
    ensures cfg.level2 ==> ReplayAt(c', |c|)
  {
    assert EventsOf(c')[..|c|] == EventsOf(c) && EventsOf(c')[|c|] == e;
    assert forall d :: d in committed ==> d in EventsOf(c);
    hide SchemaValid, NumberOf;
    assert !Fits(EventsOf(c')[..|c|], EventsOf(c')[|c|], cfg.level2);
  }

  /** What a run that ends the operation, or takes the number, again comes to. */
  lemma UsedClashes(cfg: Config, sys: System, s: string) returns (inputs: seq<Input>)
    requires EventsInv(cfg, true, sys.host, sys.store) && !Reusable(cfg, sys.host, sys.store, s)
    ensures FreshRun(cfg, Reopened(sys, s), inputs)
    ensures var c := Run(cfg, Reopened(sys, s), inputs).store.records;
            && !WellKept(EventsOf(c), cfg.level2)
            && (cfg.level2 ==> ReplayAt(c, |sys.store.records|))
  {
    hide FreshRun, Run, Step, SchemaValid, InDoubt, Clashes, WellKept, NumberOf, StoredInv;
    var c := sys.store.records;
    var es := EventsOf(Committed(sys.host.ledger, sys.store));
    var id := NewString(set d | d in EventsOf(c) :: EventId(d));
    var body := NewBody(EventsOf(c));
    var e := AnEventOf(cfg, sys, s);
    var again := Clashing(cfg, e, id, body);
    CommittedIsPrefix(cfg, sys);
    ClashingClashes(cfg, es, e, id, body, s);
    var now := Reopened(sys, s);
    assert FreeFor(cfg, now.host, s, again) && now.host.ledger == sys.host.ledger by {
      NewIsFree(cfg, sys, s, again);
    }
    var settle := AttemptArrives(NO_EVENT, None, CalmEnv(ReadTail));
    var before: seq<Input>;
    if !InDoubt(now) {
      before := [];
      MessagesRun(cfg, now, before);
    } else if now.host.tailUncertain {
      before := [settle];
      SettledFree(cfg, now, s, again);
      MessagesRun(cfg, now, before);
    } else {
      before := [Sent(again), settle];
      assert now.host.ledger.count != |now.store.records| by {
        AheadOnly(now);
      }
      EndFails(cfg, now, s, again);
      SettledFree(cfg, Step(cfg, now, Sent(again)).0, s, again);
      MessagesRun(cfg, now, before);
    }
    var free := Run(cfg, now, before);
    assert free.store == now.store && !InDoubt(free) && FreeFor(cfg, free.host, s, again);
    EndsAgain(cfg, free, s, again);
    OneMoreStep(cfg, now, before, Sent(again));
    inputs := before + [Sent(again)];
    ClashShows(cfg, c, Run(cfg, now, inputs).store.records, es, again);
  }

  lemma CommittedIsPrefix(cfg: Config, sys: System)
    requires EventsInv(cfg, true, sys.host, sys.store)
    ensures EventsOf(Committed(sys.host.ledger, sys.store)) <= EventsOf(sys.store.records)
    ensures forall d :: d in sys.host.sealedDigests ==> d in EventsOf(sys.store.records)
    ensures forall d :: d in EventsOf(Committed(sys.host.ledger, sys.store)) ==>
              SchemaValid(d) && (cfg.level2 ==> NumberOf(d).Some?)
    ensures StoredInv(cfg, true, sys.host.ledger, sys.store)
  {
    SoundEvents(EventsOf(sys.store.records), cfg.level2, true);
    hide AllMay, Linked, LinksTo, May, SchemaValid, NumberOf, AttemptIds, AllTrack;
    var es := EventsOf(Committed(sys.host.ledger, sys.store));
    assert forall d :: d in es ==> d in EventsOf(sys.store.records);
  }

  lemma AnEventOf(cfg: Config, sys: System, s: string) returns (e: Event)
    requires !Reusable(cfg, sys.host, sys.store, s)
    ensures e in EventsOf(Committed(sys.host.ledger, sys.store)) && e.session == Some(s)
    ensures cfg.level2 || !IsAttempt(e)
  {
    e :| e in EventsOf(Committed(sys.host.ledger, sys.store)) && e.session == Some(s) && (cfg.level2 || !IsAttempt(e));
  }

  lemma ClashingClashes(cfg: Config, es: seq<Event>, e: Event, id: string, body: nat, s: string)
    requires e in es && e.session == Some(s) && (cfg.level2 || !IsAttempt(e))
    requires SchemaValid(e) && (cfg.level2 ==> NumberOf(e).Some?)
    ensures Declines(cfg, s, Clashing(cfg, e, id, body)) && Clashes(cfg, es, Clashing(cfg, e, id, body))
  {
  }

  lemma NewIsFree(cfg: Config, sys: System, s: string, e: Event)
    requires e !in sys.host.sealedDigests
    ensures FreeFor(cfg, Reopened(sys, s).host, s, e)
  {
  }

  lemma AheadOnly(sys: System)
    requires InDoubt(sys) && !sys.host.tailUncertain
    ensures sys.host.ledger.count != |sys.store.records|
  {
  }

  predicate IsMessage(input: Input) {
    input.AttemptArrives? || input.OutcomeArrives?
  }

  /** A run of messages alone opens no session, so it reuses no id. */
  lemma MessagesRun(cfg: Config, sys: System, inputs: seq<Input>)
    requires |inputs| <= 2 && forall i :: 0 <= i < |inputs| ==> IsMessage(inputs[i])
    ensures FreshRun(cfg, sys, inputs)
    ensures |inputs| == 0 ==> Run(cfg, sys, inputs) == sys
    ensures |inputs| == 1 ==> Run(cfg, sys, inputs) == Step(cfg, sys, inputs[0]).0
    ensures |inputs| == 2 ==> Run(cfg, sys, inputs) == Step(cfg, Step(cfg, sys, inputs[0]).0, inputs[1]).0
  {
    hide Step, Run, FreshRun;
    EmptyRun(cfg, sys);
    if inputs != [] {
      var next := Step(cfg, sys, inputs[0]).0;
      RunOne(cfg, sys, inputs);
      EmptyRun(cfg, next);
      if |inputs| == 1 {
        assert inputs[1..] == [];
      } else {
        assert inputs[1..][1..] == [];
        RunOne(cfg, next, inputs[1..]);
        EmptyRun(cfg, Step(cfg, next, inputs[1]).0);
      }
    }
  }

  lemma {:induction false} OneMoreStep(cfg: Config, sys: System, inputs: seq<Input>, last: Input)
    requires FreshRun(cfg, sys, inputs) && IsMessage(last)
    ensures FreshRun(cfg, sys, inputs + [last])
    ensures Run(cfg, sys, inputs + [last]) == Step(cfg, Run(cfg, sys, inputs), last).0
    decreases |inputs|
  {
    hide Step;
    if inputs == [] {
      assert [] + [last] == [last] && [last][1..] == [];
    } else {
      assert (inputs + [last])[1..] == inputs[1..] + [last];
      OneMoreStep(cfg, Step(cfg, sys, inputs[0]).0, inputs[1..], last);
    }
  }

  lemma SafeIffReusable(cfg: Config, sys: System, s: string)
    requires SystemInv(cfg, sys)
    ensures SafeToOpen(cfg, sys, s) <==> Reusable(cfg, sys.host, sys.store, s)
    ensures cfg.level2 ==> (NeverReplays(cfg, sys, s) <==> Reusable(cfg, sys.host, sys.store, s))
  {
    InvIsEvents(cfg, true, sys.host, sys.store);
    hide SystemInv, Reusable, EventsInv, Run, FreshRun, WellKept, ReplayAt;
    if Reusable(cfg, sys.host, sys.store, s) {
      ReusableIsSafe(cfg, sys, s);
      if cfg.level2 {
        SafeNeverReplays(cfg, sys, s);
      }
    } else {
      var inputs := UsedClashes(cfg, sys, s);
    }
  }

  /** At either level: after any run, a session opened under an id that no committed record carries keeps every
      stored chain well kept, however the run goes on. */
  lemma OpeningUnusedIsSafe(cfg: Config, before: seq<Input>, s: string)
    requires FreshRun(cfg, START, before)
    requires Unused(Run(cfg, START, before).host, Run(cfg, START, before).store, s)
    ensures SafeToOpen(cfg, Run(cfg, START, before), s)
  {
    hide FreshRun, Run, SafeToOpen, Unused, Reusable, SystemInv;
    StartInv(cfg);
    RunKeepsInv(cfg, START, before);
    var sys := Run(cfg, START, before);
    UnusedIsReusable(cfg, sys.host, sys.store, s);
    SafeIffReusable(cfg, sys, s);
  }

  /**
   * After any run, a session may be opened under an id - exactly when, at Level 2, no committed record carries
   * the id and, at Level 1, no committed terminal record does. Otherwise some run goes on to seal a number
   * twice, which an audit reports, or to end an operation twice.
   */
  lemma OpeningIsSafeIff(cfg: Config, before: seq<Input>, s: string)
    requires FreshRun(cfg, START, before)
    ensures var sys := Run(cfg, START, before);
            && (SafeToOpen(cfg, sys, s) <==> Reusable(cfg, sys.host, sys.store, s))
            && (cfg.level2 ==> (NeverReplays(cfg, sys, s) <==> Unused(sys.host, sys.store, s)))
  {
    hide FreshRun, Run, SafeToOpen, NeverReplays, Unused, Reusable, SystemInv;
    StartInv(cfg);
    RunKeepsInv(cfg, START, before);
    var sys := Run(cfg, START, before);
    SafeIffReusable(cfg, sys, s);
    if cfg.level2 {
      ReusableIsUnused(cfg, sys.host, sys.store, s);
    }
  }

  lemma ReusableIsUnused(cfg: Config, h: Host, st: Store, s: string)
    requires cfg.level2
    ensures Reusable(cfg, h, st, s) <==> Unused(h, st, s)
  {
  }

  // ----- a run in which it is not -----

  /** The tool declined to act: an outcome that needs no attempt before it. */
  const LATE_EVENT := Event(Some("s"), Some(V04), Some("s"), Some(Aborted), Some(HostUnavailable), Some("k"), Some(0),
                            Some("g"), 0, true, true)

  function LateRecord(cfg: Config): Record {
    Countersigned(cfg, NextRecord(LATE_EVENT, 0, 0, Genesis), Signed((p: Payload) => ""))
  }

  /**
   * A restart while an append is in flight: the host that comes back has not issued "s"; the record then
   * lands and is adopted by a host that has no session for it.
   */
  function LateLanding(cfg: Config): seq<Input> {
    [ SessionOpens("s"),
      OutcomeArrives(LATE_EVENT, None, CalmEnv(ReadTail).(fate := Delayed)),
      HostRestarts([]),
      AppendLands(LateRecord(cfg)),
      SessionOpens("t"),
      AttemptArrives(NewAttempt("t"), None, CalmEnv(ReadTail)),
      AttemptArrives(NO_EVENT, None, CalmEnv(ReadTail)) ]
  }

  lemma RunOne(cfg: Config, sys: System, inputs: seq<Input>)
    requires inputs != []
    ensures Run(cfg, sys, inputs) == Run(cfg, Step(cfg, sys, inputs[0]).0, inputs[1..])
    ensures FreshRun(cfg, sys, inputs) <==>
              FreshIfNew(sys, inputs[0]) && FreshRun(cfg, Step(cfg, sys, inputs[0]).0, inputs[1..])
  {
  }

  lemma DelayedOutcome(cfg: Config)
    ensures Step(cfg, Step(cfg, START, LateLanding(cfg)[0]).0, LateLanding(cfg)[1]).0.store
            == Store([], {LateRecord(cfg)})
  {
  }

  lemma ResumedEmpty()
    ensures Resume([], []) == START.host
  {
  }

  /** An attempt on a store ahead of the host fails to append, and leaves the host unsure. */
  lemma AttemptOnUnseen(cfg: Config, sys: System)
    requires !sys.host.tailUncertain && sys.host.ledger.count != |sys.store.records|
    requires "t" in sys.host.sessions && sys.host.sessions["t"] == EMPTY_SESSION && "t" !in sys.host.sealedAttempts
    ensures var next := Step(cfg, sys, LateLanding(cfg)[5]).0;
            && next.store == sys.store && next.host.tailUncertain
            && next.host.ledger == sys.host.ledger && next.host.issued == sys.host.issued
  {
    var e, env := NewAttempt("t"), CalmEnv(ReadTail);
    assert SchemaValid(e);
    var (h1, check) := VerifySignature(cfg, sys.host, e, "t", Verifies);
    assert check == Passed && h1.sessions["t"].decided == {} && h1.sessions["t"].outcomes == map[];
    assert h1.ledger == sys.host.ledger && h1.issued == sys.host.issued && h1.sealedAttempts == sys.host.sealedAttempts;
    hide VerifySignature, SchemaValid;
  }

  /** Any message settles the tail: here one that is then declined. */
  lemma AdoptedLate(cfg: Config, sys: System)
    requires sys.host.tailUncertain && sys.host.ledger == LedgerState(0, Genesis, [])
    requires sys.store == Store([LateRecord(cfg)], {})
    ensures var next := Step(cfg, sys, LateLanding(cfg)[6]).0;
            && next.store == sys.store && !InDoubt(next) && next.host.issued == sys.host.issued
  {
    hide Adopt;
    SettleIssued(cfg, sys.host, sys.store, ReadTail);
    assert Adopt(cfg, CommitAndRemember(sys.host, LateRecord(cfg)), LateRecord(cfg)).ledger.count == 1 by {
      AdoptKeepsLedger(cfg, CommitAndRemember(sys.host, LateRecord(cfg)), LateRecord(cfg));
    }
  }

  lemma AdoptKeepsLedger(cfg: Config, h: Host, r: Record)
    ensures Adopt(cfg, h, r).ledger == h.ledger
  {
  }

  lemma LateLandingEnds(cfg: Config)
    ensures var sys := Run(cfg, START, LateLanding(cfg));
            && FreshRun(cfg, START, LateLanding(cfg))
            && !InDoubt(sys) && "s" !in sys.host.issued
            && sys.store.records == [LateRecord(cfg)]
  {
    hide Run, FreshRun, Step, Resume, Land;
    var q := LateLanding(cfg);
    var s1 := Step(cfg, START, q[0]).0;
    var s2 := Step(cfg, s1, q[1]).0;
    DelayedOutcome(cfg);
    LateSteps(cfg, s2);
    var s3 := Step(cfg, s2, q[2]).0;
    var s4 := Step(cfg, s3, q[3]).0;
    var s5 := Step(cfg, s4, q[4]).0;
    var s6 := Step(cfg, s5, q[5]).0;
    var s7 := Step(cfg, s6, q[6]).0;
    AttemptOnUnseen(cfg, s5);
    AdoptedLate(cfg, s6);
    RunOne(cfg, START, q);
    assert q[1..][0] == q[1] && q[1..][1..] == q[2..];
    RunOne(cfg, s1, q[1..]);
    assert q[2..][0] == q[2] && q[2..][1..] == q[3..];
    RunOne(cfg, s2, q[2..]);
    assert q[3..][0] == q[3] && q[3..][1..] == q[4..];
    RunOne(cfg, s3, q[3..]);
    assert q[4..][0] == q[4] && q[4..][1..] == q[5..];
    RunOne(cfg, s4, q[4..]);
    assert q[5..][0] == q[5] && q[5..][1..] == q[6..];
    RunOne(cfg, s5, q[5..]);
    assert q[6..][0] == q[6] && q[6..][1..] == [];
    RunOne(cfg, s6, q[6..]);
    EmptyRun(cfg, s7);
  }

  lemma EmptyRun(cfg: Config, sys: System)
    ensures Run(cfg, sys, []) == sys && FreshRun(cfg, sys, [])
  {
  }

  /** The restart, the landing and the opening of "t". */
  lemma LateSteps(cfg: Config, s2: System)
    requires s2.store == Store([], {LateRecord(cfg)})
    ensures var s3 := Step(cfg, s2, LateLanding(cfg)[2]).0;
            var s4 := Step(cfg, s3, LateLanding(cfg)[3]).0;
            var s5 := Step(cfg, s4, LateLanding(cfg)[4]).0;
            && s5.store == Store([LateRecord(cfg)], {})
            && s5.host == OpenNew(START.host, "t")
            && Unused(s4.host, s4.store, "t")
  {
    ResumedEmpty();
    assert ({LateRecord(cfg)} - {LateRecord(cfg)}) == {};
    assert [] + [LateRecord(cfg)] == [LateRecord(cfg)];
  }

  /** The condition of `OpeningIsSafeIff` does fail in a run from an empty store: the id of a session whose
      last append outlived a restart is taken by the host for a new one. */
  lemma ReuseHappens(cfg: Config)
    ensures var sys := Run(cfg, START, LateLanding(cfg));
            && FreshRun(cfg, START, LateLanding(cfg))
            && "s" !in sys.host.issued
            && !SafeToOpen(cfg, sys, "s") && (cfg.level2 ==> !NeverReplays(cfg, sys, "s"))
  {
    hide Run, FreshRun, LateLanding, SafeToOpen, NeverReplays, SystemInv;
    StartInv(cfg);
    LateLandingEnds(cfg);
    RunKeepsInv(cfg, START, LateLanding(cfg));
    var sys := Run(cfg, START, LateLanding(cfg));
    assert Committed(sys.host.ledger, sys.store) == [LateRecord(cfg)];
    assert EventsOf([LateRecord(cfg)])[0] == LATE_EVENT;
    SafeIffReusable(cfg, sys, "s");
  }
}
