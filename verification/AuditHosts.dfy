/** The host that keeps one partition, updated in place; each operation is proved to compute its specification. */
module AuditHosts {
  import opened Events
  import opened Chain
  import opened Reasons
  import opened HostInvariant
  import opened HostEvents
  import opened HostAnswers
  import opened HostRestart
  import opened Ledgers
  import HostRuns
  import M = HostModel

  class AuditHost {
    const partition: string
    const cfg: M.Config
    const ledger: Ledger
    const repository: Repository
    var sessions: map<string, M.Session>
    var issued: set<string>
    var tailUncertain: bool
    var sealedAttempts: map<string, Record>
    var sealedDigests: set<Event>
    var rejectedIds: set<string>
    var anomalies: seq<M.Anomaly>

    function State(): M.Host
      reads this, ledger
    {
      M.Host(ledger.State(), sessions, issued, tailUncertain, sealedAttempts, sealedDigests, rejectedIds,
             multiset(anomalies))
    }

    function Stored(): M.Store
      reads repository
    {
      repository.StoreOf(partition)
    }

    /** The invariant every operation keeps. */
    ghost predicate Valid()
      reads this, ledger, repository
    {
      Inv(cfg, State(), Stored())
    }

    /** What they keep even where an id was opened again. */
    ghost predicate Reached()
      reads this, ledger, repository
    {
      EventsInv(cfg, false, State(), Stored())
    }

    /** A host over an empty partition. */
    constructor (partition: string, cfg: M.Config, repository: Repository)
      ensures this.partition == partition && this.cfg == cfg && this.repository == repository && fresh(ledger)
      ensures State() == HostRuns.START.host
      ensures Stored() == HostRuns.START.store ==> Valid() && Reached()
    {
      this.partition, this.cfg, this.repository := partition, cfg, repository;
      ledger := new Ledger();
      sessions, issued, tailUncertain := map[], {}, false;
      sealedAttempts, sealedDigests, rejectedIds, anomalies := map[], {}, {}, [];
      new;
      HostRuns.StartInv(cfg);
      StartEvents(cfg, false);
    }

    /** A host that continues the stored chain of the partition, with the named sessions open. */
    constructor Resume(partition: string, cfg: M.Config, repository: Repository, opens: seq<M.OpenSession>)
      ensures this.partition == partition && this.cfg == cfg && this.repository == repository && fresh(ledger)
      ensures State() == M.Resume(Stored().records, opens)
      ensures (exists h :: Inv(cfg, h, Stored())) ==> Valid()
      ensures (exists h :: EventsInv(cfg, false, h, Stored())) ==> Reached()
    {
      this.partition, this.cfg, this.repository := partition, cfg, repository;
      ledger := new Ledger();
      sessions, issued, tailUncertain := map[], {}, false;
      sealedAttempts, sealedDigests, rejectedIds, anomalies := map[], {}, {}, [];
      new;
      var records := repository.ReadAll(partition);
      ReadBack(records);
      ReopenAll(records, opens);
      FlagUnresolved(records, M.OpenIds(opens));
      assert records[..|records|] == records;
      if h :| Inv(cfg, h, Stored()) {
        ResumeKeepsInv(cfg, h, Stored(), opens);
      }
      if h :| EventsInv(cfg, false, h, Stored()) {
        ResumeKeepsEvents(cfg, false, h, Stored(), opens);
      }
    }

    /** The ledger state and the indexes, from the stored records. */
    method ReadBack(records: seq<Record>)
      requires sealedAttempts == map[] && sealedDigests == {} && issued == {}
      modifies this, ledger
      ensures ledger.State() == M.ResumeFrom(records)
      ensures sealedAttempts == M.RememberedAttempts(records)
      ensures sealedDigests == set e | e in EventsOf(records)
      ensures issued == set e | e in EventsOf(records) && e.session.Some? :: e.session.value
      ensures sessions == old(sessions) && tailUncertain == old(tailUncertain)
      ensures rejectedIds == old(rejectedIds) && anomalies == old(anomalies)
    {
      hide Linked, Ledger.At;
      ledger.ResumeFrom(if records == [] then None else Some(records[|records| - 1]));
      hide M.ResumeFrom, TailHash;
      var i := 0;
      while i < |records|
        invariant 0 <= i <= |records|
        invariant ledger.State() == M.ResumeFrom(records)
        invariant sealedAttempts == M.RememberedAttempts(records[..i])
        invariant sealedDigests == set e | e in EventsOf(records[..i])
        invariant issued == set e | e in EventsOf(records[..i]) && e.session.Some? :: e.session.value
        invariant sessions == old(sessions) && tailUncertain == old(tailUncertain)
        invariant rejectedIds == old(rejectedIds) && anomalies == old(anomalies)
      {
        var r := records[i];
        Remember(r);
        if r.event.session.Some? {
          issued := issued + {r.event.session.value};
        }
        assert records[..i + 1] == records[..i] + [r];
        assert EventsOf(records[..i + 1]) == EventsOf(records[..i]) + [r.event];
        i := i + 1;
      }
      assert records[..|records|] == records;
    }

    method ReopenAll(records: seq<Record>, opens: seq<M.OpenSession>)
      requires sessions == map[]
      modifies this
      ensures sessions == M.RestoredSessions(opens, EventsOf(records))
      ensures issued == old(issued) + M.OpenIds(opens)
      ensures sealedAttempts == old(sealedAttempts) && sealedDigests == old(sealedDigests)
      ensures tailUncertain == old(tailUncertain) && rejectedIds == old(rejectedIds) && anomalies == old(anomalies)
    {
      hide M.Merge, M.RestoredSession, M.RestoredSessions, M.OpenIds;
      NoneOpen(EventsOf(records));
      var i := 0;
      while i < |opens|
        invariant 0 <= i <= |opens|
        invariant sessions == M.RestoredSessions(opens[..i], EventsOf(records))
        invariant issued == old(issued) + M.OpenIds(opens[..i])
        invariant sealedAttempts == old(sealedAttempts) && sealedDigests == old(sealedDigests)
        invariant tailUncertain == old(tailUncertain) && rejectedIds == old(rejectedIds) && anomalies == old(anomalies)
      {
        var o := opens[i];
        issued := issued + {o.sessionId};
        var x := RestoredSession(o.sessionId, records);
        sessions := sessions[o.sessionId := M.Merge(x, o.signers)];
        OneMoreOpen(opens[..i], o, EventsOf(records));
        assert opens[..i + 1] == opens[..i] + [o];
        i := i + 1;
      }
      assert opens[..|opens|] == opens;
    }

    /** Flags each attempt that no later record of its operation resolved, outside the open sessions. */
    method FlagUnresolved(records: seq<Record>, open: set<string>)
      modifies this
      ensures State() == old(State()).(anomalies := old(State()).anomalies
                + multiset(M.UnresolvedOnRestart(M.OpenAttempts(EventsOf(records), open))))
    {
      var openAttempts: seq<OpKey> := [];
      var i := 0;
      while i < |records|
        invariant 0 <= i <= |records|
        invariant openAttempts == M.OpenAttempts(EventsOf(records[..i]), open)
        invariant State() == old(State()) && anomalies == old(anomalies)
      {
        var e := records[i].event;
        EventsAfter(records[..i], records[i]);
        assert records[..i + 1] == records[..i] + [records[i]];
        if e.session.Some? && e.version == Some(V04) && e.session.value !in open {
          var k := OpKey(e.session, Some(M.EventId(e)));
          if !IsAttempt(e) {
            openAttempts := M.Without(openAttempts, k);
          } else if k !in openAttempts {
            openAttempts := openAttempts + [k];
          }
        }
        i := i + 1;
      }
      assert records[..|records|] == records;
      anomalies := anomalies + M.UnresolvedOnRestart(openAttempts);
    }

    // ----- small parts -----

    method Flag(id: string, kind: Code)
      modifies this
      ensures State() == M.Flag(old(State()), id, kind)
      ensures anomalies == old(anomalies) + [M.Anomaly(id, M.AnomalyKindOf(kind))]
    {
      anomalies := anomalies + [M.Anomaly(id, M.AnomalyKindOf(kind))];
    }

    /** Notes a sealed record, so that a repeat of it is recognized. */
    method Remember(r: Record)
      modifies this
      ensures State() == M.Remember(old(State()), r)
      ensures anomalies == old(anomalies)
    {
      sealedDigests := sealedDigests + {r.event};
      if IsAttempt(r.event) {
        sealedAttempts := sealedAttempts[M.EventId(r.event) := r];
      }
    }

    method Decide(e: Event, s: string)
      requires s in sessions
      modifies this
      ensures State() == M.WithSession(old(State()), s, M.Decide(cfg, old(sessions[s]), e))
    {
      var x := sessions[s];
      if cfg.level2 && e.keyId.Some? && e.signerSeq.Some? {
        x := x.(decided := x.decided + {(e.keyId.value, e.signerSeq.value)});
      }
      sessions := sessions[s := x];
    }

    /** The session takes `e` as sealed in it. */
    method Account(e: Event, s: string)
      requires s in sessions
      modifies this
      ensures State() == M.WithSession(old(State()), s, M.AccountTo(cfg, old(sessions[s]), e))
    {
      Decide(e, s);
      var x := sessions[s];
      var id := M.EventId(e);
      if IsAttempt(e) {
        x := x.(accepted := x.accepted + {id});
      } else {
        x := x.(outcomes := x.outcomes[id := e]);
        if id in x.accepted {
          x := x.(resolved := x.resolved + {id});
        }
      }
      sessions := sessions[s := x];
    }

    // ----- the tail and the seal -----

    /** Reads the stored tail back after an append that may have landed, and adopts the record that did. */
    method SettleTail(reading: M.Reading) returns (settling: M.Settling)
      modifies this, ledger
      ensures (State(), settling) == M.SettleTail(cfg, old(State()), Stored(), reading)
    {
      hide M.Absorb, Linked, Ledger.At;
      if !tailUncertain {
        return M.TailSettled;
      }
      match reading
      case ReadFailed => return M.TailUnread;
      case ReadInterrupted => return M.TailReadRaised;
      case ReadTail =>
        var tail := repository.LoadTail(partition);
        if tail.Some? && tail.value.position == ledger.count && tail.value.previousHash == ledger.tailHash {
          Absorb(tail.value);
        } else if tail.Some? && tail.value.position > ledger.count {
          ledger.ResumeFrom(tail);
        }
        tailUncertain := false;
        return M.TailSettled;
    }

    /** A record the store holds becomes the committed tail. */
    method CommitAndRemember(r: Record)
      modifies this, ledger
      ensures State() == M.CommitAndRemember(old(State()), r)
    {
      ledger.Commit(r);
      Remember(r);
    }

    method Absorb(r: Record)
      modifies this, ledger
      ensures State() == M.Absorb(cfg, old(State()), r)
    {
      hide M.Adopt, M.CommitAndRemember;
      CommitAndRemember(r);
      Adopt(r);
    }

    method Adopt(r: Record)
      modifies this
      ensures State() == M.Adopt(cfg, old(State()), r)
    {
      if r.event.session.Some? && r.event.session.value in sessions {
        Account(r.event, r.event.session.value);
      }
    }

    /** Seals, countersigns, appends, and only then commits. */
    method Seal(e: Event, env: M.Env) returns (sealing: M.Sealing)
      modifies this, ledger, repository
      ensures (State(), Stored(), sealing) == M.Seal(cfg, old(State()), old(Stored()), e, env)
      ensures forall p :: p != partition ==> repository.StoreOf(p) == old(repository.StoreOf(p))
    {
      hide Linked, LinksTo, Ledger.At, M.CommitAndRemember;
      var r := ledger.Seal(e, env.now);
      if cfg.countersigner.Some? {
        match env.signing
        case SignerFailed => return M.NotSealed;
        case SignerInterrupted =>
          tailUncertain := true;
          return M.SealRaised;
        case Signed(sign) =>
          r := r.(hostSignature := Some(sign(PayloadOf(r, cfg.logId))), hostKeyId := cfg.countersigner,
                  logId := Some(cfg.logId));
      }
      assert r == M.Countersigned(cfg, NextRecord(e, ledger.count, env.now, ledger.tailHash), env.signing);
      var acked := repository.AppendOver(partition, r, env.fate);
      if !acked {
        tailUncertain := true;
        return if env.interrupted then M.SealRaised else M.NotSealed;
      }
      CommitAndRemember(r);
      return M.SealedAs(r);
    }

    // ----- admission and signature -----

    method Admit(e: Event, expected: Option<string>, attempt: bool) returns (admission: M.Admission)
      modifies this
      ensures (State(), admission) == M.Admit(old(State()), e, expected, attempt)
    {
      if !SchemaValid(e) || IsAttempt(e) != attempt || !e.canonical {
        Flag(M.EventId(e), SchemaInvalid);
        return M.Declined(SchemaInvalid);
      }
      if e.session.value !in sessions || (expected.Some? && e.session != expected) {
        Flag(M.EventId(e), ReplayDetected);
        return M.Declined(ReplayDetected);
      }
      return M.Admitted(e.session.value);
    }

    method VerifySignature(e: Event, s: string, verdict: M.Verdict) returns (check: M.Check)
      requires s in sessions
      modifies this
      ensures (State(), check) == M.VerifySignature(cfg, old(State()), e, s, verdict)
    {
      if !cfg.level2 {
        return M.Passed;
      }
      if e.signature.None? || e.keyId.None? || e.signerSeq.None? {
        Flag(M.EventId(e), L2Unsigned);
        return M.Unverified(L2Unsigned);
      }
      match verdict
      case VerifierRaised => return M.CheckRaised;
      case Refuses(reason) =>
        Flag(M.EventId(e), reason);
        return M.Unverified(reason);
      case Verifies =>
        var x, k, n := sessions[s], e.keyId.value, e.signerSeq.value;
        if n > (if k in x.received then x.received[k] + 1 else 0) {
          Flag(M.EventId(e), SignerSeqGap);
        }
        if k !in x.received || n > x.received[k] {
          sessions := sessions[s := x.(received := x.received[k := n])];
        }
        return M.Passed;
    }

    method RejectReplay(e: Event, s: string)
      requires s in sessions
      modifies this
      ensures State() == M.RejectReplay(cfg, old(State()), e, s)
    {
      rejectedIds := rejectedIds + {M.EventId(e)};
      Decide(e, s);
      Flag(M.EventId(e), ReplayDetected);
    }

    // ----- the operations -----

    /** Decides one attempt. An accept names a committed record of exactly this attempt. */
    method HandleAttempt(e: Event, expected: Option<string>, env: M.Env) returns (answer: M.Answer)
      modifies this, ledger, repository
      ensures (State(), Stored(), answer) == M.HandleAttempt(cfg, old(State()), old(Stored()), e, expected, env)
      ensures forall p :: p != partition ==> repository.StoreOf(p) == old(repository.StoreOf(p))
      ensures (old(Valid()) ==> Valid()) && (old(Reached()) ==> Reached())
      ensures old(Reached()) && answer.Accept? ==> CommittedAs(State().ledger, Stored(), e, answer)
    {
      AttemptIsSound(cfg, State(), Stored(), e, expected, env);
      hide Inv, EventsInv, CommittedAs, M.SettleTail, M.DecideAttempt;
      if env.expired {
        return M.Unavailable;
      }
      var settling := SettleTail(env.reading);
      match settling
      case TailUnread => return M.Unavailable;
      case TailReadRaised => return M.Raised;
      case TailSettled => answer := DecideAttempt(e, expected, env);
    }

    method DecideAttempt(e: Event, expected: Option<string>, env: M.Env) returns (answer: M.Answer)
      modifies this, ledger, repository
      ensures (State(), Stored(), answer) == M.DecideAttempt(cfg, old(State()), old(Stored()), e, expected, env)
      ensures forall p :: p != partition ==> repository.StoreOf(p) == old(repository.StoreOf(p))
    {
      hide SchemaValid, M.VerifySignature, M.ConcludeAttempt;
      var admission := Admit(e, expected, true);
      match admission
      case Declined(reason) => return M.Reject(reason);
      case Admitted(s) =>
        HostRuns.VerifyIssued(cfg, State(), e, s, env.verdict);
        var check := VerifySignature(e, s, env.verdict);
        match check
        case CheckRaised => return M.Raised;
        case Unverified(reason) =>
          rejectedIds := rejectedIds + {M.EventId(e)};
          return M.Reject(reason);
        case Passed => answer := ConcludeAttempt(e, s, env);
    }

    method ConcludeAttempt(e: Event, s: string, env: M.Env) returns (answer: M.Answer)
      requires s in sessions
      modifies this, ledger, repository
      ensures (State(), Stored(), answer) == M.ConcludeAttempt(cfg, old(State()), old(Stored()), e, s, env)
      ensures forall p :: p != partition ==> repository.StoreOf(p) == old(repository.StoreOf(p))
    {
      hide M.Seal, M.AccountTo, M.Decide, M.RejectReplay;
      var id := M.EventId(e);
      if id in sealedAttempts {
        var r := sealedAttempts[id];
        if r.event == e {
          sessions := sessions[s := sessions[s].(accepted := sessions[s].accepted + {id})];
          return M.AcceptOf(r);
        }
        RejectReplay(e, s);
        return M.Reject(ReplayDetected);
      }
      if id in sessions[s].outcomes || M.AlreadyDecided(cfg, sessions[s], e) {
        RejectReplay(e, s);
        return M.Reject(ReplayDetected);
      }
      if !env.persistenceAvailable {
        return M.Unavailable;
      }
      ghost var h, st := State(), Stored();
      SealKeepsSessions(cfg, h, st, e, env);
      var sealing := Seal(e, env);
      match sealing
      case SealRaised => return M.Raised;
      case NotSealed => return M.Unavailable;
      case SealedAs(r) =>
        Account(e, s);
        return M.AcceptOf(r);
    }

    /** Seals one outcome, or drops and flags it. */
    method RecordOutcome(e: Event, expected: Option<string>, env: M.Env) returns (disposition: M.Disposition)
      modifies this, ledger, repository
      ensures (State(), Stored(), disposition) == M.RecordOutcome(cfg, old(State()), old(Stored()), e, expected, env)
      ensures forall p :: p != partition ==> repository.StoreOf(p) == old(repository.StoreOf(p))
      ensures (old(Valid()) ==> Valid()) && (old(Reached()) ==> Reached())
    {
      OutcomeIsSound(cfg, State(), Stored(), e, expected, env);
      hide Inv, EventsInv, M.SettleTail, M.DecideOutcome;
      var settling := SettleTail(env.reading);
      match settling
      case TailUnread => return M.NotRecorded;
      case TailReadRaised => return M.OutcomeRaised;
      case TailSettled => disposition := DecideOutcome(e, expected, env);
    }

    method DecideOutcome(e: Event, expected: Option<string>, env: M.Env) returns (disposition: M.Disposition)
      modifies this, ledger, repository
      ensures (State(), Stored(), disposition) == M.DecideOutcome(cfg, old(State()), old(Stored()), e, expected, env)
      ensures forall p :: p != partition ==> repository.StoreOf(p) == old(repository.StoreOf(p))
    {
      hide SchemaValid, M.VerifySignature, M.ConcludeOutcome;
      var admission := Admit(e, expected, false);
      match admission
      case Declined(_) => return M.Refused;
      case Admitted(s) =>
        HostRuns.VerifyIssued(cfg, State(), e, s, env.verdict);
        var check := VerifySignature(e, s, env.verdict);
        match check
        case CheckRaised => return M.OutcomeRaised;
        case Unverified(_) => return M.Refused;
        case Passed => disposition := ConcludeOutcome(e, s, env);
    }

    method ConcludeOutcome(e: Event, s: string, env: M.Env) returns (disposition: M.Disposition)
      requires s in sessions
      modifies this, ledger, repository
      ensures (State(), Stored(), disposition) == M.ConcludeOutcome(cfg, old(State()), old(Stored()), e, s, env)
      ensures forall p :: p != partition ==> repository.StoreOf(p) == old(repository.StoreOf(p))
    {
      hide M.Seal, M.AccountTo, M.Decide;
      var id := M.EventId(e);
      var x := sessions[s];
      if (id in x.outcomes && x.outcomes[id] == e) || e in sealedDigests {
        return M.Repeat;
      }
      if id in x.outcomes {
        Decide(e, s);
        Flag(id, ReplayDetected);
        return M.Refused;
      }
      if M.AlreadyDecided(cfg, x, e) {
        Flag(id, ReplayDetected);
        return M.Refused;
      }
      if id !in x.accepted && e.outcome != Some(Aborted) {
        Decide(e, s);
        Flag(id, OrphanedOutcome);
        return M.Refused;
      }
      if !env.persistenceAvailable {
        return M.NotRecorded;
      }
      ghost var h, st := State(), Stored();
      SealKeepsSessions(cfg, h, st, e, env);
      var sealing := Seal(e, env);
      match sealing
      case SealRaised => return M.OutcomeRaised;
      case NotSealed => return M.NotRecorded;
      case SealedAs(_) =>
        Account(e, s);
        return M.Sealed;
    }

    // ----- sessions -----

    /** Issues an id never issued before. The session agrees with the chain exactly when no record carries it. */
    method OpenSession(s: string) returns (issuedNow: bool)
      modifies this
      ensures issuedNow <==> s !in old(issued)
      ensures State() == if issuedNow then M.OpenNew(old(State()), s) else old(State())
      ensures old(Valid()) && issuedNow ==> (Valid() <==> old(Unused(State(), Stored(), s)))
      ensures old(Reached()) ==> Reached()
    {
      ghost var h, st := State(), Stored();
      if Inv(cfg, h, st) {
        OpeningAgreesIffUnused(cfg, h, st, s);
      }
      if EventsInv(cfg, false, h, st) {
        OpeningKeepsEvents(cfg, false, h, st, s);
      }
      if s in issued {
        return false;
      }
      issued := issued + {s};
      sessions := sessions[s := M.EMPTY_SESSION];
      return true;
    }

    /** Ends a session: each attempt it accepted and did not resolve is flagged, once. */
    method CloseSession(s: string)
      modifies this
      ensures State() == M.CloseSession(old(State()), s)
      ensures (old(Valid()) ==> Valid()) && (old(Reached()) ==> Reached())
    {
      CloseIsSound(cfg, State(), Stored(), s);
      hide Inv, EventsInv, M.Unresolved;
      if s in sessions {
        var x := sessions[s];
        sessions := sessions - {s};
        FlagEach(x.accepted - x.resolved);
      }
    }

    method FlagEach(ids: set<string>)
      modifies this
      ensures State() == old(State()).(anomalies := old(State()).anomalies + multiset(M.Unresolved(ids)))
    {
      hide M.Unresolved;
      var left := ids;
      assert ids - ids == {};
      NoneUnresolved();
      while left != {}
        invariant left <= ids
        invariant State() == old(State()).(anomalies := old(State()).anomalies + multiset(M.Unresolved(ids - left)))
        decreases left
      {
        var id :| id in left;
        Flag(id, UnresolvedAttempt);
        OneMoreUnresolved(ids - left, id);
        assert ids - (left - {id}) == (ids - left) + {id};
        left := left - {id};
      }
      assert ids - {} == ids;
    }

    /** The tracker of an open session, to be kept beside the ledger. */
    method SignerTracker(s: string) returns (tracker: Option<M.SignerTracker>)
      ensures tracker == M.TrackerOf(State(), s)
    {
      tracker := if s in sessions then Some(M.SignerTracker(sessions[s].decided, sessions[s].received)) else None;
    }
  }

  lemma NoneOpen(es: seq<Event>)
    ensures M.OpenIds([]) == {} && M.RestoredSessions([], es) == map[]
  {
  }

  lemma OneMoreOpen(opens: seq<M.OpenSession>, o: M.OpenSession, es: seq<Event>)
    ensures M.OpenIds(opens + [o]) == M.OpenIds(opens) + {o.sessionId}
    ensures M.RestoredSessions(opens + [o], es) ==
              M.RestoredSessions(opens, es)[o.sessionId := M.Merge(M.RestoredSession(o.sessionId, es), o.signers)]
  {
    hide M.Merge, M.RestoredSession;
    assert (opens + [o])[..|opens|] == opens;
  }

  lemma NoneUnresolved()
    ensures M.Unresolved({}) == {}
  {
  }

  lemma OneMoreUnresolved(ids: set<string>, id: string)
    requires id !in ids
    ensures multiset(M.Unresolved(ids + {id})) ==
              multiset(M.Unresolved(ids)) + multiset{M.Anomaly(id, UnresolvedAttempt)}
  {
    assert M.Anomaly(id, UnresolvedAttempt) !in M.Unresolved(ids);
    assert M.Unresolved(ids + {id}) == M.Unresolved(ids) + {M.Anomaly(id, UnresolvedAttempt)};
  }

  lemma AttemptIsSound(cfg: M.Config, h: M.Host, st: M.Store, e: Event, expected: Option<string>, env: M.Env)
    ensures Inv(cfg, h, st) ==> var (g, st', a) := M.HandleAttempt(cfg, h, st, e, expected, env); Inv(cfg, g, st')
    ensures EventsInv(cfg, false, h, st) ==>
              var (g, st', a) := M.HandleAttempt(cfg, h, st, e, expected, env);
              EventsInv(cfg, false, g, st') && (a.Accept? ==> CommittedAs(g.ledger, st', e, a))
  {
    hide Inv, EventsInv, M.HandleAttempt, CommittedAs;
    if Inv(cfg, h, st) {
      AttemptKeepsInv(cfg, h, st, e, expected, env);
    }
    if EventsInv(cfg, false, h, st) {
      AttemptKeepsEvents(cfg, false, h, st, e, expected, env);
      AcceptIsCommitted(cfg, h, st, e, expected, env);
    }
  }

  lemma OutcomeIsSound(cfg: M.Config, h: M.Host, st: M.Store, e: Event, expected: Option<string>, env: M.Env)
    ensures Inv(cfg, h, st) ==> var (g, st', _) := M.RecordOutcome(cfg, h, st, e, expected, env); Inv(cfg, g, st')
    ensures EventsInv(cfg, false, h, st) ==>
              var (g, st', _) := M.RecordOutcome(cfg, h, st, e, expected, env); EventsInv(cfg, false, g, st')
  {
    hide Inv, EventsInv, M.RecordOutcome;
    if Inv(cfg, h, st) {
      OutcomeKeepsInv(cfg, h, st, e, expected, env);
    }
    if EventsInv(cfg, false, h, st) {
      OutcomeKeepsEvents(cfg, false, h, st, e, expected, env);
    }
  }

  lemma CloseIsSound(cfg: M.Config, h: M.Host, st: M.Store, s: string)
    ensures Inv(cfg, h, st) ==> Inv(cfg, M.CloseSession(h, s), st)
    ensures EventsInv(cfg, false, h, st) ==> EventsInv(cfg, false, M.CloseSession(h, s), st)
  {
    hide Inv, EventsInv, M.CloseSession;
    if Inv(cfg, h, st) {
      CloseKeepsInv(cfg, h, st, s);
    }
    if EventsInv(cfg, false, h, st) {
      CloseKeepsEvents(cfg, false, h, st, s);
    }
  }

  lemma SealKeepsSessions(cfg: M.Config, h: M.Host, st: M.Store, e: Event, env: M.Env)
    ensures M.Seal(cfg, h, st, e, env).0.sessions == h.sessions
  {
  }

  /** A session read back record by record. */
  method RestoredSession(s: string, records: seq<Record>) returns (x: M.Session)
    ensures x == M.RestoredSession(s, EventsOf(records))
  {
    x := M.EMPTY_SESSION;
    var i := 0;
    while i < |records|
      invariant 0 <= i <= |records|
      invariant x == M.RestoredSession(s, EventsOf(records[..i]))
    {
      var e := records[i].event;
      EventsAfter(records[..i], records[i]);
      assert records[..i + 1] == records[..i] + [records[i]];
      if e.session == Some(s) && e.version == Some(V04) {
        if e.keyId.Some? && e.signerSeq.Some? {
          x := x.(decided := x.decided + {(e.keyId.value, e.signerSeq.value)},
                  received := M.Raise(x.received, e.keyId.value, e.signerSeq.value));
        }
        var id := M.EventId(e);
        if IsAttempt(e) {
          x := x.(accepted := x.accepted + {id});
        } else {
          x := x.(outcomes := x.outcomes[id := e]);
          if id in x.accepted {
            x := x.(resolved := x.resolved + {id});
          }
        }
      }
      i := i + 1;
    }
    assert records[..|records|] == records;
  }
}
