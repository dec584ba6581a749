/** A run with resends in it, against the run without them. */
module HostResends {
  import opened Events
  import opened Chain
  import opened HostModel
  import opened HostInvariant
  import opened HostRuns
  import opened HostEvents
  import opened HostAnswers
  import opened HostRepeats
  import opened HostResumption
  import opened HostReuse

  /** `input` resends an event that is committed, on its open session, with the tail settled; with `known` the
      session of an attempt answers for it. */
  ghost predicate IsResend(cfg: Config, sys: System, input: Input, known: bool) {
    || (input.AttemptArrives? && IsAttempt(input.attempt)
        && Resendable(cfg, sys.host, sys.store, input.attempt, input.expected, input.env)
        && (known ==> IsAccepted(sys.host, input.attempt)))
    || (input.OutcomeArrives? && !IsAttempt(input.outcome)
        && Resendable(cfg, sys.host, sys.store, input.outcome, input.expected, input.env))
  }

  /** `more` is `inputs` with any number of resends put in, anywhere. */
  ghost predicate WithResends(cfg: Config, sys: System, more: seq<Input>, inputs: seq<Input>, known: bool)
    decreases |more|
  {
    if more == [] then
      inputs == []
    else
      var next := Step(cfg, sys, more[0]).0;
      || (IsResend(cfg, sys, more[0], known) && WithResends(cfg, next, more[1..], inputs, known))
      || (inputs != [] && inputs[0] == more[0] && WithResends(cfg, next, more[1..], inputs[1..], known))
  }

  // ----- every run -----

  lemma TwinsChain(cfg: Config, a: Host, b: Host, c: Host)
    requires Twins(cfg, None, a, b) && Twins(cfg, None, b, c)
    ensures Twins(cfg, None, a, c)
  {
  }

  lemma MadeGoodIsTwin(cfg: Config, h: Host, g: Host, s: string, ids: set<string>)
    requires MadeGood(h, g, s, ids) && ids <= h.sessions[s].accepted
    ensures Twins(cfg, None, g, h)
  {
    assert h.sessions[s].accepted + ids == h.sessions[s].accepted;
  }

  /** A resend of what the session answers for changes receipts and flags at most, and stores nothing. */
  lemma ResendIsTwin(cfg: Config, sys: System, input: Input)
    requires EventsInv(cfg, false, sys.host, sys.store) && IsResend(cfg, sys, input, true)
    ensures var next := Step(cfg, sys, input).0;
            next.store == sys.store && next.host.issued == sys.host.issued && Twins(cfg, None, next.host, sys.host)
  {
    hide EventsInv, HandleAttempt, RecordOutcome, CommittedAs, ReceiptStands, Twins;
    var h, st := sys.host, sys.store;
    if input.AttemptArrives? {
      var e := input.attempt;
      ResendAttempt(cfg, h, st, e, input.expected, input.env);
      MadeGoodIsTwin(cfg, h, HandleAttempt(cfg, h, st, e, input.expected, input.env).0, e.session.value, {e.id.value});
    } else {
      var e := input.outcome;
      ResendOutcome(cfg, h, st, e, input.expected, input.env);
      MadeGoodIsTwin(cfg, h, RecordOutcome(cfg, h, st, e, input.expected, input.env).0, e.session.value, {});
    }
  }

  lemma IssuedAlike(cfg: Config, a: System, b: System, input: Input)
    requires a.host.issued == b.host.issued && a.store == b.store
    ensures Step(cfg, a, input).0.host.issued == Step(cfg, b, input).0.host.issued
  {
    hide HandleAttempt, RecordOutcome, Resume;
    match input
    case AttemptArrives(e, expected, env) =>
      AttemptStores(cfg, a.host, a.store, e, expected, env);
      AttemptStores(cfg, b.host, b.store, e, expected, env);
    case OutcomeArrives(e, expected, env) =>
      OutcomeStores(cfg, a.host, a.store, e, expected, env);
      OutcomeStores(cfg, b.host, b.store, e, expected, env);
    case _ =>
  }

  lemma {:induction false} ResendsKeepTwins(cfg: Config, a: System, b: System, more: seq<Input>, inputs: seq<Input>)
    requires EventsInv(cfg, false, a.host, a.store) && WithResends(cfg, a, more, inputs, true)
    requires Twins(cfg, None, a.host, b.host) && a.store == b.store && a.host.issued == b.host.issued
    ensures Run(cfg, a, more).store == Run(cfg, b, inputs).store
    ensures Twins(cfg, None, Run(cfg, a, more).host, Run(cfg, b, inputs).host)
    decreases |more|
  {
    hide EventsInv, Twins, IsResend, Step, Reusable;
    if more != [] {
      var next := Step(cfg, a, more[0]).0;
      StepKeepsEvents(cfg, false, a, more[0]);
      if IsResend(cfg, a, more[0], true) && WithResends(cfg, next, more[1..], inputs, true) {
        ResendIsTwin(cfg, a, more[0]);
        TwinsChain(cfg, next.host, a.host, b.host);
        ResendsKeepTwins(cfg, next, b, more[1..], inputs);
      } else {
        StepTwins(cfg, None, a, b, more[0]);
        IssuedAlike(cfg, a, b, more[0]);
        ResendsKeepTwins(cfg, next, Step(cfg, b, more[0]).0, more[1..], inputs[1..]);
      }
    }
  }

  /**
   * Resends change no chain. Over every run, ids opened again included, a run with any number of resends put in -
   * each attempt one its session answers for - stores the same records as the run without them, and ends in a
   * host that answers alike from then on.
   */
  lemma ResendsSealTheSame(cfg: Config, more: seq<Input>, inputs: seq<Input>)
    requires WithResends(cfg, START, more, inputs, true)
    ensures Run(cfg, START, more).store == Run(cfg, START, inputs).store
    ensures Twins(cfg, None, Run(cfg, START, more).host, Run(cfg, START, inputs).host)
  {
    hide EventsInv, Twins, WithResends, Run;
    StartEvents(cfg, false);
    SelfTwins(cfg, START.host);
    ResendsKeepTwins(cfg, START, START, more, inputs);
  }

  // ----- fresh runs -----

  /** Where the full invariant holds, a session answers for every attempt sealed in it. */
  lemma CommittedIsAccepted(cfg: Config, h: Host, st: Store, e: Event)
    requires Inv(cfg, h, st) && IsAttempt(e) && e in EventsOf(Committed(h.ledger, st))
    requires e.session.Some? && e.session.value in h.sessions
    ensures IsAccepted(h, e)
  {
    InvIsEvents(cfg, false, h, st);
    hide EventsInv, LedgerInv, IndexInv;
    CommittedFacts(cfg, h, st, e);
    var s := e.session.value;
    assert Agrees(cfg, h.sessions[s], s, EventsOf(Committed(h.ledger, st)));
    assert KeyOf(e) == OpKey(Some(s), Some(e.id.value));
  }

  lemma ResendIsKnown(cfg: Config, sys: System, input: Input)
    requires SystemInv(cfg, sys) && IsResend(cfg, sys, input, false)
    ensures IsResend(cfg, sys, input, true)
  {
    hide Inv, IsAccepted;
    if input.AttemptArrives? {
      CommittedIsAccepted(cfg, sys.host, sys.store, input.attempt);
    }
  }

  lemma FreshAlike(cfg: Config, a: System, b: System, input: Input)
    requires Twins(cfg, None, a.host, b.host) && a.store == b.store && a.host.issued == b.host.issued
    requires FreshIfNew(b, input)
    ensures FreshIfNew(a, input)
  {
  }

  lemma ResendIsFresh(cfg: Config, sys: System, input: Input, known: bool)
    requires IsResend(cfg, sys, input, known)
    ensures FreshIfNew(sys, input)
  {
  }

  /** In a fresh run every resend is of that kind. */
  lemma {:induction false} FreshResendsAreKnown(cfg: Config, a: System, b: System, more: seq<Input>, inputs: seq<Input>)
    requires SystemInv(cfg, a) && WithResends(cfg, a, more, inputs, false) && FreshRun(cfg, b, inputs)
    requires Twins(cfg, None, a.host, b.host) && a.store == b.store && a.host.issued == b.host.issued
    ensures WithResends(cfg, a, more, inputs, true)
    decreases |more|
  {
    hide SystemInv, Twins, IsResend, FreshIfNew, Step, EventsInv;
    if more != [] {
      var next := Step(cfg, a, more[0]).0;
      if IsResend(cfg, a, more[0], false) && WithResends(cfg, next, more[1..], inputs, false) {
        ResendIsKnown(cfg, a, more[0]);
        SystemIsEvents(cfg, a);
        ResendIsTwin(cfg, a, more[0]);
        TwinsChain(cfg, next.host, a.host, b.host);
        ResendIsFresh(cfg, a, more[0], true);
        StepKeepsInv(cfg, a, more[0]);
        FreshResendsAreKnown(cfg, next, b, more[1..], inputs);
      } else {
        FreshAlike(cfg, a, b, more[0]);
        StepKeepsInv(cfg, a, more[0]);
        StepTwins(cfg, None, a, b, more[0]);
        IssuedAlike(cfg, a, b, more[0]);
        FreshResendsAreKnown(cfg, next, Step(cfg, b, more[0]).0, more[1..], inputs[1..]);
      }
    }
  }

  lemma SystemIsEvents(cfg: Config, sys: System)
    requires SystemInv(cfg, sys)
    ensures EventsInv(cfg, false, sys.host, sys.store)
  {
    hide Inv, EventsInv;
    InvIsEvents(cfg, false, sys.host, sys.store);
  }

  /** So a fresh run with any number of resends put in stores the same records as the run without them. */
  lemma FreshResendsSealTheSame(cfg: Config, more: seq<Input>, inputs: seq<Input>)
    requires FreshRun(cfg, START, inputs) && WithResends(cfg, START, more, inputs, false)
    ensures Run(cfg, START, more).store == Run(cfg, START, inputs).store
    ensures Twins(cfg, None, Run(cfg, START, more).host, Run(cfg, START, inputs).host)
  {
    hide SystemInv, Twins, WithResends, Run, FreshRun;
    StartInv(cfg);
    SelfTwins(cfg, START.host);
    FreshResendsAreKnown(cfg, START, START, more, inputs);
    ResendsSealTheSame(cfg, more, inputs);
  }

  // ----- calm runs -----

  lemma CommittedHasReceipt(cfg: Config, sys: System, e: Event)
    requires Receipts(cfg, sys) && e in EventsOf(Committed(sys.host.ledger, sys.store))
    requires e.session.Some? && e.session.value in sys.host.sessions
    ensures ReceiptStands(cfg, sys.host, e)
  {
    hide ReceiptStands;
    var c := Committed(sys.host.ledger, sys.store);
    var i :| 0 <= i < |c| && EventsOf(c)[i] == e;
    assert c[i] in sys.store.records && c[i].event == e;
  }

  /** Where receipts stand, a resend is a stutter. */
  lemma ResendStutters(cfg: Config, sys: System, input: Input)
    requires SystemInv(cfg, sys) && Receipts(cfg, sys) && IsResend(cfg, sys, input, false)
    ensures Step(cfg, sys, input).0 == sys
  {
    SystemIsEvents(cfg, sys);
    ResendIsKnown(cfg, sys, input);
    hide SystemInv, EventsInv, HandleAttempt, RecordOutcome, ReceiptStands, CommittedAs, MadeGood, Receipts, Committed;
    var e := if input.AttemptArrives? then input.attempt else input.outcome;
    CommittedHasReceipt(cfg, sys, e);
    if input.AttemptArrives? {
      ResendAttempt(cfg, sys.host, sys.store, e, input.expected, input.env);
    } else {
      ResendOutcome(cfg, sys.host, sys.store, e, input.expected, input.env);
    }
  }

  lemma {:induction false} ResendsChangeNothing(cfg: Config, sys: System, more: seq<Input>, inputs: seq<Input>)
    requires SystemInv(cfg, sys) && IssuedCovers(sys) && Receipts(cfg, sys)
    requires CalmRestarts(cfg, sys, inputs) && WithResends(cfg, sys, more, inputs, false)
    ensures Run(cfg, sys, more) == Run(cfg, sys, inputs)
    decreases |more|
  {
    hide SystemInv, IssuedCovers, Receipts, IsResend, Step, FreshIfNew;
    if more != [] {
      var next := Step(cfg, sys, more[0]).0;
      if IsResend(cfg, sys, more[0], false) && WithResends(cfg, next, more[1..], inputs, false) {
        ResendStutters(cfg, sys, more[0]);
        ResendsChangeNothing(cfg, sys, more[1..], inputs);
      } else {
        CoverIsFresh(sys, more[0]);
        StepKeepsInv(cfg, sys, more[0]);
        StepKeepsCover(cfg, sys, more[0]);
        StepKeepsReceipts(cfg, sys, more[0]);
        ResendsChangeNothing(cfg, next, more[1..], inputs[1..]);
      }
    }
  }

  /** And where it restarts only while no append can still land, the two runs end in one state: the same receipts
      and anomalies too. */
  lemma ResendsChangeNoRun(cfg: Config, more: seq<Input>, inputs: seq<Input>)
    requires CalmRestarts(cfg, START, inputs) && WithResends(cfg, START, more, inputs, false)
    ensures Run(cfg, START, more) == Run(cfg, START, inputs)
  {
    hide CalmRestarts, WithResends, SystemInv, Receipts, IssuedCovers, Run;
    StartInv(cfg);
    StartReceipts(cfg);
    ResendsChangeNothing(cfg, START, more, inputs);
  }

  // ----- an attempt the session does not answer for -----

  /** The success of the operation, under a key the session has not seen. */
  function SuccessOf(e: Event, key: string, body: nat): Event {
    Event(e.id, Some(V04), e.session, Some(Success), None, Some(key), Some(0), Some("g"), body, true, true)
  }

  lemma SuccessIsRuled(cfg: Config, h: Host, st: Store, e: Event, s: string)
    requires !h.tailUncertain && h.ledger.count == |st.records| && s in h.sessions && e.session == Some(s)
    requires SchemaValid(e) && e.canonical && e.outcome == Some(Success) && e.signature.Some?
    requires EventId(e) !in h.sessions[s].outcomes && e !in h.sealedDigests && !AlreadyDecided(cfg, h.sessions[s], e)
    ensures RecordOutcome(cfg, h, st, e, None, CalmEnv(ReadTail)).2 ==
              if EventId(e) in h.sessions[s].accepted then Sealed else Refused
  {
    var (h1, check) := VerifySignature(cfg, h, e, s, Verifies);
    assert check == Passed && h1.ledger == h.ledger && h1.sealedDigests == h.sealedDigests;
    assert h1.sessions[s] == h.sessions[s].(received := h1.sessions[s].received);
    assert AlreadyDecided(cfg, h1.sessions[s], e) == AlreadyDecided(cfg, h.sessions[s], e);
    assert Admit(h, e, None, false) == (h, Admitted(s));
    hide VerifySignature, SchemaValid, AlreadyDecided, Admit;
  }

  /** An event of the operation that the host has not sealed, under a number the session has not decided. */
  lemma NewSuccess(cfg: Config, h: Host, st: Store, e: Event, s: string) returns (d: Event)
    requires EventsInv(cfg, false, h, st) && s in h.sessions && e.session == Some(s) && e.id.Some?
    ensures KeyOf(d) == KeyOf(e) && d.outcome == Some(Success) && SchemaValid(d) && d.canonical && d.signature.Some?
    ensures d !in h.sealedDigests && !AlreadyDecided(cfg, h.sessions[s], d)
  {
    EventsParts(cfg, false, h, st);
    hide EventsInv;
    var body := NewBody(EventsOf(Committed(h.ledger, st)));
    var key := NewString(set p | p in h.sessions[s].decided :: p.0);
    d := SuccessOf(e, key, body);
    assert (key, 0) !in h.sessions[s].decided;
  }

  /**
   * The condition is needed where an id was opened again: an attempt resent to a session that does not answer for
   * it is accepted there, so a `success` of its operation is sealed that would have been orphaned.
   */
  lemma UnknownResendShows(cfg: Config, sys: System, input: Input) returns (d: Event)
    requires EventsInv(cfg, false, sys.host, sys.store) && !InDoubt(sys)
    requires input.AttemptArrives? && IsResend(cfg, sys, input, false) && !IsAccepted(sys.host, input.attempt)
    requires EventId(input.attempt) !in sys.host.sessions[input.attempt.session.value].outcomes
    ensures KeyOf(d) == KeyOf(input.attempt) && d.outcome == Some(Success)
    ensures Step(cfg, sys, Sent(d)).1 == OutcomeReply(Refused)
    ensures Step(cfg, Step(cfg, sys, input).0, Sent(d)).1 == OutcomeReply(Sealed)
  {
    var h, st, e := sys.host, sys.store, input.attempt;
    var s := e.session.value;
    hide EventsInv, HandleAttempt, RecordOutcome, CommittedAs, ReceiptStands, SchemaValid;
    ResendAttempt(cfg, h, st, e, input.expected, input.env);
    CommittedFacts(cfg, h, st, e);
    d := NewSuccess(cfg, h, st, e, s);
    SuccessIsRuled(cfg, h, st, d, s);
    SuccessIsRuled(cfg, Step(cfg, sys, input).0.host, st, d, s);
  }
}
