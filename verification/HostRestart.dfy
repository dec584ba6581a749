/** Resuming a host from its stored records rebuilds state that agrees with them. */
module HostRestart {
  import opened Events
  import opened Chain
  import opened HostModel
  import opened HostInvariant

  // ----- the indexes -----

  lemma {:induction false} RememberedAttemptsIndex(records: seq<Record>)
    requires forall e :: e in EventsOf(records) ==> e.id.Some?
    ensures forall id :: id in RememberedAttempts(records) <==> Some(id) in AttemptIds(EventsOf(records))
    ensures forall id :: id in RememberedAttempts(records) ==>
              && RememberedAttempts(records)[id] in records
              && IsAttempt(RememberedAttempts(records)[id].event)
              && RememberedAttempts(records)[id].event.id == Some(id)
  {
    if records != [] {
      var c, r := records[..|records| - 1], records[|records| - 1];
      assert records == c + [r];
      EventsAfter(c, r);
      assert r.event in EventsOf(records);
      forall e | e in EventsOf(c) ensures e in EventsOf(records) {
      }
      RememberedAttemptsIndex(c);
      SetsAfter(EventsOf(c), r.event);
    }
  }

  // ----- the sessions -----

  lemma RestoreAgrees(cfg: Config, x: Session, s: string, es: seq<Event>, e: Event)
    requires Agrees(cfg, x, s, es) && Fits(es, e, cfg.level2) && e.session == Some(s)
    ensures Agrees(cfg, Restore(x, e), s, es + [e])
  {
    SetsAfter(es, e);
  }

  /** Reading a chain back gives a session that agrees with it. */
  lemma {:induction false} RestoredAgrees(cfg: Config, s: string, es: seq<Event>)
    requires WellKept(es, cfg.level2)
    ensures Agrees(cfg, RestoredSession(s, es), s, es)
  {
    hide Agrees, Fits;
    if es == [] {
      EmptyAgrees(cfg, s);
    } else {
      var cs, e := es[..|es| - 1], es[|es| - 1];
      assert es == cs + [e];
      assert Fits(es[..|es| - 1], e, cfg.level2);
      WellKeptPrefix(es, |es| - 1, cfg.level2);
      RestoredAgrees(cfg, s, cs);
      FitsIsCurrent(cs, e, cfg.level2);
      if e.session == Some(s) {
        RestoreAgrees(cfg, RestoredSession(s, cs), s, cs, e);
      } else {
        AgreesElsewhere(cfg, RestoredSession(s, cs), s, cs, e);
      }
    }
  }

  lemma EmptyAgrees(cfg: Config, s: string)
    ensures Agrees(cfg, EMPTY_SESSION, s, [])
  {
  }

  lemma FitsIsCurrent(es: seq<Event>, e: Event, level2: bool)
    requires Fits(es, e, level2)
    ensures e.version == Some(V04)
  {
  }

  lemma WellKeptPrefix(es: seq<Event>, n: nat, level2: bool)
    requires WellKept(es, level2) && n <= |es|
    ensures WellKept(es[..n], level2)
  {
    hide Fits;
    forall i | 0 <= i < n ensures Fits(es[..n][..i], es[..n][i], level2) {
      assert es[..n][..i] == es[..i];
      assert Fits(es[..i], es[i], level2);
    }
  }

  lemma MergeAgrees(cfg: Config, x: Session, s: string, es: seq<Event>, signers: Option<SignerTracker>)
    requires Agrees(cfg, x, s, es)
    ensures Agrees(cfg, Merge(x, signers), s, es)
  {
  }

  lemma {:induction false} RestoredSessionsAgree(cfg: Config, opens: seq<OpenSession>, es: seq<Event>)
    requires WellKept(es, cfg.level2)
    ensures RestoredSessions(opens, es).Keys == OpenIds(opens)
    ensures forall s :: s in RestoredSessions(opens, es) ==> Agrees(cfg, RestoredSessions(opens, es)[s], s, es)
  {
    hide Agrees, WellKept;
    if opens != [] {
      var os, o := opens[..|opens| - 1], opens[|opens| - 1];
      assert opens == os + [o];
      assert OpenIds(opens) == OpenIds(os) + {o.sessionId};
      RestoredSessionsAgree(cfg, os, es);
      RestoredAgrees(cfg, o.sessionId, es);
      MergeAgrees(cfg, RestoredSession(o.sessionId, es), o.sessionId, es, o.signers);
    }
  }

  // ----- the whole host -----

  lemma ResumedLedger(cfg: Config, l: LedgerState, st: Store)
    requires LedgerInv(cfg, l, st)
    ensures ResumeFrom(st.records).count == |st.records|
    ensures LedgerInv(cfg, ResumeFrom(st.records), st)
    ensures Committed(ResumeFrom(st.records), st) == st.records
  {
    hide GoodChain, Extends;
    if st.records != [] {
      TailPosition(cfg, st.records);
    }
    assert st.records[..|st.records|] == st.records;
  }

  /** A host resumed from its records keeps the invariant, whichever sessions are named open. */
  lemma ResumeKeepsInv(cfg: Config, h: Host, st: Store, opens: seq<OpenSession>)
    requires Inv(cfg, h, st)
    ensures Inv(cfg, Resume(st.records, opens), st)
    ensures Resume(st.records, opens).sessions.Keys == OpenIds(opens)
  {
    ResumedLedger(cfg, h.ledger, st);
    ResumedIndexes(cfg, st.records, opens);
  }

  lemma ResumedIndexes(cfg: Config, records: seq<Record>, opens: seq<OpenSession>)
    requires GoodChain(cfg, records)
    ensures HostInv(cfg, Resume(records, opens), records)
    ensures Resume(records, opens).sessions.Keys == OpenIds(opens)
  {
    hide Agrees, LinksTo, OpenAttempts, Linked;
    var es := EventsOf(records);
    forall e | e in es ensures e.id.Some? {
      var i :| 0 <= i < |es| && es[i] == e;
      assert Fits(es[..i], es[i], cfg.level2);
    }
    RememberedAttemptsIndex(records);
    RestoredSessionsAgree(cfg, opens, es);
  }
}
