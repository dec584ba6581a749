/** What every step of the tool's end of the wire keeps. */
module RoundInvariant {
  import opened Events
  import opened HostModel
  import opened RoundModel

  // ----- the dictionaries -----

  ghost predicate CallsInv(s: Seam) {
    forall id :: id in s.calls ==>
      && s.calls[id] < |s.heap|
      && s.heap[s.calls[id]].originalId == id && !s.heap[s.calls[id]].finished && !s.heap[s.calls[id]].ended
  }

  ghost predicate WaitingInv(s: Seam) {
    && |s.waiting| <= MAX_IDLE_SESSIONS
    && (forall x :: x in s.waiting ==>
          && x.1 < |s.heap|
          && s.heap[x.1].originalId == x.0 && s.heap[x.1].final.Some? && !s.heap[x.1].ended)
  }

  /** A token in the table is that of the round its call has out; no token a retry was taken for is. */
  ghost predicate TokensInv(s: Seam) {
    && (forall t :: t in s.rounds ==>
          && s.rounds[t] < |s.heap| && t in s.issued
          && !s.heap[s.rounds[t]].ended
          && s.heap[s.rounds[t]].round.Some? && s.heap[s.rounds[t]].round.value.token == t)
    && (forall i :: 0 <= i < |s.resumed| ==> s.resumed[i] in s.issued && s.resumed[i] !in s.rounds)
    && (forall i, j :: 0 <= i < j < |s.resumed| ==> s.resumed[i] != s.resumed[j])
  }

  /** A request is answered at most once, and none still open was answered. */
  ghost predicate SerialsInv(s: Seam) {
    && (forall i :: 0 <= i < |s.answered| ==> s.answered[i] < s.received)
    && (forall i, j :: 0 <= i < j < |s.answered| ==> s.answered[i] != s.answered[j])
    && (forall r :: 0 <= r < |s.heap| && IsOpen(s.heap[r]) ==>
          s.heap[r].current.value.serial < s.received && s.heap[r].current.value.serial !in s.answered)
    && (forall q, r :: 0 <= q < r < |s.heap| && IsOpen(s.heap[q]) && IsOpen(s.heap[r]) ==>
          s.heap[q].current.value.serial != s.heap[r].current.value.serial)
  }

  predicate IsOpen(c: Call) {
    !c.ended && c.current.Some?
  }

  // ----- one call -----

  /** A live call has a round out exactly when it has no id to answer on. */
  ghost predicate StandInv(rounds: map<Token, nat>, r: nat, c: Call) {
    && (!c.ended ==> (c.round.Some? <==> c.current.None?))
    && (!c.ended && c.round.Some? ==> c.round.value.token in rounds && rounds[c.round.value.token] == r)
    && (c.final.Some? ==> c.finished && !c.ended)
    && (c.shown.Some? ==> c.finished && c.ended)
  }

  /** What was emitted is what was carried and what is still buffered. */
  ghost predicate EventsInv(c: Call) {
    && (!c.ended ==> c.finalEvents == [])
    && (!c.finished ==> c.emitted == Carried(c) + c.buffered)
    && (!c.ended ==> Outcomes(c.emitted) == Outcomes(Carried(c)) + Outcomes(c.buffered))
    && (c.shown.Some? ==> Outcomes(c.emitted) == Outcomes(Carried(c)) && Outcomes(c.finalEvents) == c.finalEvents)
    && (c.shown == Some(ErrorFrame) ==> c.finalEvents == [])
  }

  /** An attempt does not wait on an open id without a round on its way. */
  ghost predicate ScheduleInv(c: Call) {
    IsOpen(c) && !c.finished && HasAttempt(c.buffered) ==> c.roundScheduled
  }

  // ----- the attempts -----

  ghost predicate PendingInv(s: Seam, p: Pending) {
    && p.call < |s.heap|
    && (p.settledBy.Some? ==> p.carriedBy == p.settledBy && p.settledBy.value in s.resumed)
    && (p.response.Some? && p.settledBy.None? ==> p.response.value == Unavailable)
    && (p.carriedBy.Some? ==> CarriedIn(s.heap[p.call].rounds, p.carriedBy.value, p.event))
  }

  ghost predicate CarriedIn(rounds: seq<RoundSent>, token: Token, e: Event) {
    exists i :: 0 <= i < |rounds| && rounds[i].token == token && e in rounds[i].events
  }

  ghost predicate IsPendingOf(ps: seq<Pending>, r: nat, name: string, p: nat) {
    p < |ps| && ps[p].call == r && NameOf(ps[p].event) == name
  }

  /** A later attempt of the same call and id took the place of this one before any round carried it. */
  ghost predicate Displaced(ps: seq<Pending>, p: nat) {
    p < |ps| && ps[p].carriedBy.None?
    && exists q :: p < q < |ps| && ps[q].call == ps[p].call && NameOf(ps[q].event) == NameOf(ps[p].event)
  }

  /** A displaced attempt is answered by nothing but the end of its own wait. */
  ghost predicate DisplacedInv(ps: seq<Pending>, r: nat, c: Call) {
    forall p :: p in c.shadowed ==>
      && Displaced(ps, p) && ps[p].call == r && p !in c.bufferedAwaiting.Values
      && (ps[p].response.Some? <==> ps[p].timedOut)
  }

  /** Until the handler concludes, an attempt no round carried waits for the next round, or was displaced. */
  ghost predicate LatestInv(ps: seq<Pending>, r: nat, c: Call) {
    && (!c.finished && !c.ended ==> forall p :: 0 <= p < |ps| && IsUnsentOf(ps[p], r) ==>
          p in c.bufferedAwaiting.Values || p in c.shadowed)
    && (forall p: nat :: Displaced(ps, p) && ps[p].call == r ==> p in c.shadowed)
  }

  /** An attempt of the call that no round carried. */
  predicate IsUnsentOf(p: Pending, r: nat) {
    p.call == r && p.carriedBy.None?
  }

  /** The call's attempts: those not yet sent, those in the round out, and no other without an answer. */
  ghost predicate AttemptsInv(ps: seq<Pending>, r: nat, c: Call) {
    && (c.ended ==> c.bufferedAwaiting == map[])
    && (forall n :: n in c.bufferedAwaiting ==>
          && IsPendingOf(ps, r, n, c.bufferedAwaiting[n])
          && ps[c.bufferedAwaiting[n]].carriedBy.None? && ps[c.bufferedAwaiting[n]].event in c.buffered
          && (ps[c.bufferedAwaiting[n]].response.Some? <==> ps[c.bufferedAwaiting[n]].timedOut))
    && (!c.ended && c.round.Some? ==> forall n :: n in c.round.value.awaiting ==>
          && IsPendingOf(ps, r, n, c.round.value.awaiting[n])
          && ps[c.round.value.awaiting[n]].carriedBy == Some(c.round.value.token))
    && (forall p :: 0 <= p < |ps| && ps[p].call == r && ps[p].carriedBy.None? ==>
          p in c.bufferedAwaiting.Values || p in c.shadowed || ps[p].response.Some?)
    && DisplacedInv(ps, r, c) && LatestInv(ps, r, c)
  }

  ghost predicate HeapInv(s: Seam) {
    forall r :: 0 <= r < |s.heap| ==>
      StandInv(s.rounds, r, s.heap[r]) && EventsInv(s.heap[r]) && ScheduleInv(s.heap[r])
      && AttemptsInv(s.pendings, r, s.heap[r])
  }

  ghost predicate PendingsInv(s: Seam) {
    forall i :: 0 <= i < |s.pendings| ==> PendingInv(s, s.pendings[i])
  }

  ghost predicate Inv(s: Seam) {
    && CallsInv(s) && WaitingInv(s) && TokensInv(s) && SerialsInv(s) && HeapInv(s) && PendingsInv(s)
  }

  // ----- sequences -----

  lemma {:induction false} OutcomesSplit(a: seq<Event>, b: seq<Event>)
    ensures Outcomes(a + b) == Outcomes(a) + Outcomes(b)
    decreases |b|
  {
    if b == [] {
      assert a + b == a;
    } else {
      assert (a + b)[..|a + b| - 1] == a + b[..|b| - 1];
      OutcomesSplit(a, b[..|b| - 1]);
    }
  }

  lemma {:induction false} OutcomesTwice(a: seq<Event>)
    ensures Outcomes(Outcomes(a)) == Outcomes(a)
    ensures forall e :: e in Outcomes(a) <==> e in a && !IsAttempt(e)
  {
    if a != [] {
      var before, last := a[..|a| - 1], a[|a| - 1];
      assert a == before + [last];
      OutcomesTwice(before);
      OutcomesSplit(Outcomes(before), [last]);
      assert [last][..0] == [];
    }
  }

  lemma JoinedAfter(rounds: seq<RoundSent>, x: RoundSent)
    ensures Joined(rounds + [x]) == Joined(rounds) + x.events
  {
    assert (rounds + [x])[..|rounds|] == rounds;
  }

  // ----- attempts under changes of the pendings -----

  /** The same attempts, possibly with more answers. */
  ghost predicate SameCarriage(ps: seq<Pending>, qs: seq<Pending>) {
    && |ps| == |qs|
    && forall i :: 0 <= i < |ps| ==>
         qs[i].call == ps[i].call && qs[i].event == ps[i].event && qs[i].carriedBy == ps[i].carriedBy
         && (ps[i].response.Some? ==> qs[i].response.Some?)
  }

  lemma SettledCarriage(ps: seq<Pending>, which: set<nat>)
    ensures SameCarriage(ps, SettleUnavailable(ps, which))
    ensures forall i :: i in which && i < |ps| ==> SettleUnavailable(ps, which)[i].response.Some?
  {
  }

  /** An attempt of the call that no round carried is as it was, or its own wait ran out. */
  ghost predicate UnsentStay(ps: seq<Pending>, qs: seq<Pending>, r: nat) {
    |ps| == |qs| && forall p :: 0 <= p < |ps| && ps[p].call == r && ps[p].carriedBy.None? ==>
      qs[p] == ps[p] || qs[p] == RunOut(ps[p])
  }

  ghost predicate ShadowStays(ps: seq<Pending>, qs: seq<Pending>, c: Call) {
    |ps| == |qs| && forall p :: p in c.shadowed && p < |ps| ==> qs[p] == ps[p] || qs[p] == RunOut(ps[p])
  }

  lemma DisplacedUnder(ps: seq<Pending>, qs: seq<Pending>, r: nat, c: Call)
    requires DisplacedInv(ps, r, c) && SameCarriage(ps, qs) && ShadowStays(ps, qs, c)
    ensures DisplacedInv(qs, r, c)
  {
    forall p | p in c.shadowed ensures Displaced(qs, p) && (qs[p].response.Some? <==> qs[p].timedOut) {
      var q :| p < q < |ps| && ps[q].call == ps[p].call && NameOf(ps[q].event) == NameOf(ps[p].event);
      assert qs[q].call == qs[p].call && NameOf(qs[q].event) == NameOf(qs[p].event);
    }
  }

  lemma LatestUnder(ps: seq<Pending>, qs: seq<Pending>, r: nat, c: Call)
    requires LatestInv(ps, r, c) && SameCarriage(ps, qs)
    ensures LatestInv(qs, r, c)
  {
    forall p: nat | Displaced(qs, p) && qs[p].call == r ensures p in c.shadowed {
      var q :| p < q < |qs| && qs[q].call == qs[p].call && NameOf(qs[q].event) == NameOf(qs[p].event);
      assert ps[q].call == ps[p].call && NameOf(ps[q].event) == NameOf(ps[p].event);
      assert Displaced(ps, p);
    }
  }

  lemma AttemptsUnder(ps: seq<Pending>, qs: seq<Pending>, r: nat, c: Call)
    requires AttemptsInv(ps, r, c) && SameCarriage(ps, qs) && UnsentStay(ps, qs, r)
    ensures AttemptsInv(qs, r, c)
  {
    assert ShadowStays(ps, qs, c) by {
      forall p | p in c.shadowed ensures ps[p].call == r && ps[p].carriedBy.None? {
        assert Displaced(ps, p);
      }
    }
    DisplacedUnder(ps, qs, r, c);
    LatestUnder(ps, qs, r, c);
    hide DisplacedInv, LatestInv, Displaced, RunOut;
  }

  // ----- changing one call -----

  /** Only the call `ref` changes, and it stays the call it was. */
  ghost predicate Touches(s: Seam, t: Seam, ref: nat) {
    && |t.heap| == |s.heap| && ref < |s.heap|
    && (forall q :: 0 <= q < |s.heap| && q != ref ==> t.heap[q] == s.heap[q])
    && t.heap[ref].originalId == s.heap[ref].originalId
  }

  ghost predicate OwnInv(s: Seam, r: nat)
    requires r < |s.heap|
  {
    && StandInv(s.rounds, r, s.heap[r]) && EventsInv(s.heap[r]) && ScheduleInv(s.heap[r])
    && AttemptsInv(s.pendings, r, s.heap[r])
  }

  /** Rounds other than this call's stay in the table. */
  ghost predicate KeepsRounds(s: Seam, t: Seam, ref: nat) {
    forall token :: token in s.rounds && s.rounds[token] != ref ==>
      token in t.rounds && t.rounds[token] == s.rounds[token]
  }

  /** The other calls' attempts stand. */
  ghost predicate KeepsAttempts(ps: seq<Pending>, qs: seq<Pending>, ref: nat) {
    && |ps| <= |qs|
    && (forall i :: 0 <= i < |ps| ==>
          qs[i].call == ps[i].call && qs[i].event == ps[i].event
          && (ps[i].response.Some? ==> qs[i].response.Some?)
          && (ps[i].call != ref ==> qs[i] == ps[i]))
    && (forall i :: |ps| <= i < |qs| ==> qs[i].call == ref)
  }

  lemma OthersAttempts(ps: seq<Pending>, qs: seq<Pending>, ref: nat, q: nat, c: Call)
    requires AttemptsInv(ps, q, c) && KeepsAttempts(ps, qs, ref) && q != ref
    ensures AttemptsInv(qs, q, c)
  {
  }

  lemma HeapUnder(s: Seam, t: Seam, ref: nat)
    requires HeapInv(s) && Touches(s, t, ref) && KeepsRounds(s, t, ref) && KeepsAttempts(s.pendings, t.pendings, ref)
    requires OwnInv(t, ref)
    ensures HeapInv(t)
  {
    hide EventsInv, ScheduleInv, AttemptsInv, KeepsAttempts;
    forall r | 0 <= r < |t.heap|
      ensures StandInv(t.rounds, r, t.heap[r]) && EventsInv(t.heap[r]) && ScheduleInv(t.heap[r])
              && AttemptsInv(t.pendings, r, t.heap[r])
    {
      if r != ref {
        OthersAttempts(s.pendings, t.pendings, ref, r, s.heap[r]);
      }
    }
  }

  lemma OwnOf(s: Seam, ref: nat)
    requires HeapInv(s) && ref < |s.heap|
    ensures OwnInv(s, ref)
  {
  }

  // ----- new calls and refusals -----

  lemma NewKeeps(s: Seam, id: RequestId, audit: Option<string>)
    requires Inv(s)
    ensures Inv(TakeNew(s, id, audit))
  {
    NewHeap(s, id, audit);
    NewSerials(s, id, audit);
    NewPendings(s, id, audit);
    hide HeapInv, SerialsInv, PendingsInv;
  }

  lemma NewHeap(s: Seam, id: RequestId, audit: Option<string>)
    requires HeapInv(s) && PendingsInv(s)
    ensures HeapInv(TakeNew(s, id, audit))
  {
    var t := TakeNew(s, id, audit);
    var c := t.heap[|s.heap|];
    assert EventsInv(c) && ScheduleInv(c);
    hide EventsInv, ScheduleInv;
    forall i | 0 <= i < |s.pendings| ensures s.pendings[i].call != |s.heap| {
      assert PendingInv(s, s.pendings[i]);
    }
    assert AttemptsInv(s.pendings, |s.heap|, c);
    hide AttemptsInv;
  }

  lemma NewSerials(s: Seam, id: RequestId, audit: Option<string>)
    requires SerialsInv(s)
    ensures SerialsInv(TakeNew(s, id, audit))
  {
  }

  lemma NewPendings(s: Seam, id: RequestId, audit: Option<string>)
    requires PendingsInv(s)
    ensures PendingsInv(TakeNew(s, id, audit))
  {
    hide CarriedIn;
    forall i | 0 <= i < |s.pendings| ensures PendingInv(TakeNew(s, id, audit), s.pendings[i]) {
      assert PendingInv(s, s.pendings[i]);
    }
  }

  lemma RefusalKeeps(s: Seam)
    requires Inv(s)
    ensures Inv(Refuse(s))
  {
    RefusalSerials(s);
    hide SerialsInv;
  }

  lemma RefusalSerials(s: Seam)
    requires SerialsInv(s)
    ensures SerialsInv(Refuse(s))
  {
  }

  // ----- the handler's emissions -----

  lemma SameSerials(s: Seam, t: Seam, ref: nat)
    requires SerialsInv(s) && Touches(s, t, ref) && t.answered == s.answered && t.received == s.received
    requires IsOpen(t.heap[ref]) ==> IsOpen(s.heap[ref]) && t.heap[ref].current == s.heap[ref].current
    ensures SerialsInv(t)
  {
  }

  lemma SameDictionaries(s: Seam, t: Seam, ref: nat)
    requires CallsInv(s) && WaitingInv(s) && TokensInv(s) && Touches(s, t, ref)
    requires t.calls == s.calls && t.waiting == s.waiting && t.rounds == s.rounds
    requires t.issued == s.issued && t.resumed == s.resumed
    requires t.heap[ref] == s.heap[ref].(buffered := t.heap[ref].buffered, emitted := t.heap[ref].emitted,
                                         bufferedAwaiting := t.heap[ref].bufferedAwaiting,
                                         shadowed := t.heap[ref].shadowed,
                                         roundScheduled := t.heap[ref].roundScheduled)
    ensures CallsInv(t) && WaitingInv(t) && TokensInv(t)
  {
  }

  lemma PendingsUnder(s: Seam, t: Seam, ref: nat)
    requires PendingsInv(s) && Touches(s, t, ref) && t.resumed == s.resumed
    requires s.heap[ref].rounds <= t.heap[ref].rounds
    requires |s.pendings| <= |t.pendings|
    requires forall i :: 0 <= i < |t.pendings| ==>
               if i < |s.pendings| then
                 t.pendings[i] == s.pendings[i] || t.pendings[i] == Settle(s.pendings[i], Unavailable, None)
                 || t.pendings[i] == RunOut(s.pendings[i])
               else t.pendings[i] == Pending(ref, t.pendings[i].event, None, None, None, false)
    ensures PendingsInv(t)
  {
    hide CarriedIn;
    forall i | 0 <= i < |t.pendings| ensures PendingInv(t, t.pendings[i]) {
      if i < |s.pendings| {
        assert PendingInv(s, s.pendings[i]);
        var p := s.pendings[i];
        if p.carriedBy.Some? {
          CarriedStays(s.heap[p.call].rounds, t.heap[p.call].rounds, p.carriedBy.value, p.event);
        }
      }
    }
  }

  lemma CarriedStays(a: seq<RoundSent>, b: seq<RoundSent>, token: Token, e: Event)
    requires CarriedIn(a, token, e) && a <= b
    ensures CarriedIn(b, token, e)
  {
    var i :| 0 <= i < |a| && a[i].token == token && e in a[i].events;
    assert b[i] == a[i];
  }

  /** A step that only adds to one call, on the same rounds and requests. */
  ghost predicate AddsTo(s: Seam, t: Seam, ref: nat) {
    && Touches(s, t, ref)
    && t == s.(heap := t.heap, pendings := t.pendings)
    && t.heap[ref] == s.heap[ref].(buffered := t.heap[ref].buffered, emitted := t.heap[ref].emitted,
                                   bufferedAwaiting := t.heap[ref].bufferedAwaiting,
                                   shadowed := t.heap[ref].shadowed, roundScheduled := t.heap[ref].roundScheduled)
    && (t.pendings == s.pendings
        || exists e :: t.pendings == s.pendings + [Pending(ref, e, None, None, None, false)])
  }

  lemma AdditionKeeps(s: Seam, t: Seam, ref: nat)
    requires Inv(s) && AddsTo(s, t, ref) && OwnInv(t, ref)
    ensures Inv(t)
  {
    hide OwnInv, Inv, HeapInv, SerialsInv, CallsInv, WaitingInv, TokensInv, PendingsInv;
    InvParts(s);
    AdditionHeap(s, t, ref);
    SameSerials(s, t, ref);
    SameDictionaries(s, t, ref);
    PendingsUnder(s, t, ref);
    InvOf(t);
  }

  lemma AdditionHeap(s: Seam, t: Seam, ref: nat)
    requires HeapInv(s) && AddsTo(s, t, ref) && OwnInv(t, ref)
    ensures HeapInv(t)
  {
    hide OwnInv, HeapInv;
    HeapUnder(s, t, ref);
  }

  lemma InvParts(s: Seam)
    requires Inv(s)
    ensures CallsInv(s) && WaitingInv(s) && TokensInv(s) && SerialsInv(s) && HeapInv(s) && PendingsInv(s)
  {
  }

  lemma InvOf(s: Seam)
    requires CallsInv(s) && WaitingInv(s) && TokensInv(s) && SerialsInv(s) && HeapInv(s) && PendingsInv(s)
    ensures Inv(s)
  {
  }

  lemma AttemptKeeps(s: Seam, ref: nat, e: Event)
    requires Inv(s) && ref < |s.heap| && IsAttempt(e)
    ensures Inv(SendAttempt(s, ref, e))
  {
    hide OwnInv, Inv, NameOf;
    if !s.heap[ref].finished && !s.heap[ref].ended {
      InvParts(s);
      OwnOf(s, ref);
      AttemptOwn(s, ref, e);
      AdditionKeeps(s, SendAttempt(s, ref, e), ref);
    }
  }

  lemma AttemptOwn(s: Seam, ref: nat, e: Event)
    requires ref < |s.heap| && IsAttempt(e) && OwnInv(s, ref) && !s.heap[ref].finished && !s.heap[ref].ended
    ensures OwnInv(SendAttempt(s, ref, e), ref)
  {
    var d := SendAttempt(s, ref, e).heap[ref];
    EmissionEvents(s.heap[ref], d, e);
    AttemptOwnPendings(s, ref, e);
    hide AttemptsInv, EventsInv, NameOf;
  }

  /** What is emitted joins the buffer, and the balance stands. */
  lemma EmissionEvents(c: Call, d: Call, e: Event)
    requires EventsInv(c) && !c.finished && !c.ended
    requires d.emitted == c.emitted + [e] && d.buffered == c.buffered + [e]
    requires d.rounds == c.rounds && d.finalEvents == c.finalEvents && d.ended == c.ended && d.shown == c.shown
    requires c.shown.None?
    ensures EventsInv(d)
  {
    assert d.emitted == Carried(c) + (c.buffered + [e]);
    OutcomesSplit(c.buffered, [e]);
    OutcomesSplit(c.emitted, [e]);
  }

  lemma AttemptOwnPendings(s: Seam, ref: nat, e: Event)
    requires ref < |s.heap| && AttemptsInv(s.pendings, ref, s.heap[ref])
    requires !s.heap[ref].finished && !s.heap[ref].ended
    ensures var t := SendAttempt(s, ref, e); AttemptsInv(t.pendings, ref, t.heap[ref])
  {
    AttemptDisplaces(s, ref, e);
    AttemptIsLatest(s, ref, e);
    hide DisplacedInv, LatestInv;
    var c, d := s.heap[ref], SendAttempt(s, ref, e).heap[ref];
    assert d.bufferedAwaiting[NameOf(e)] == |s.pendings|;
    forall p | p in c.bufferedAwaiting.Values ensures p in d.bufferedAwaiting.Values || p in d.shadowed {
      var n :| n in c.bufferedAwaiting && c.bufferedAwaiting[n] == p;
      if n != NameOf(e) {
        assert d.bufferedAwaiting[n] == p;
      }
    }
  }

  lemma AttemptIsLatest(s: Seam, ref: nat, e: Event)
    requires ref < |s.heap| && AttemptsInv(s.pendings, ref, s.heap[ref])
    requires !s.heap[ref].finished && !s.heap[ref].ended
    ensures var t := SendAttempt(s, ref, e); LatestInv(t.pendings, ref, t.heap[ref])
  {
    var t := SendAttempt(s, ref, e);
    var c, d, ps, qs := s.heap[ref], t.heap[ref], s.pendings, t.pendings;
    forall p | 0 <= p < |qs| && IsUnsentOf(qs[p], ref) ensures p in d.bufferedAwaiting.Values || p in d.shadowed {
      if p == |ps| {
        assert d.bufferedAwaiting[NameOf(e)] == p;
      } else {
        assert qs[p] == ps[p];
        if p !in c.shadowed {
          var n :| n in c.bufferedAwaiting && c.bufferedAwaiting[n] == p;
          assert n != NameOf(e) ==> d.bufferedAwaiting[n] == p;
        }
      }
    }
    forall p: nat | Displaced(qs, p) && qs[p].call == ref ensures p in d.shadowed {
      var q :| p < q < |qs| && qs[q].call == qs[p].call && NameOf(qs[q].event) == NameOf(qs[p].event);
      assert p < |ps| && qs[p] == ps[p];
      if q < |ps| {
        assert qs[q] == ps[q] && Displaced(ps, p);
      } else if p !in c.shadowed {
        var n :| n in c.bufferedAwaiting && c.bufferedAwaiting[n] == p;
        assert n == NameOf(e);
      }
    }
  }

  /** The new attempt displaces the one of its id that waits, and no other. */
  lemma AttemptDisplaces(s: Seam, ref: nat, e: Event)
    requires ref < |s.heap| && AttemptsInv(s.pendings, ref, s.heap[ref])
    requires !s.heap[ref].finished && !s.heap[ref].ended
    ensures var t := SendAttempt(s, ref, e); DisplacedInv(t.pendings, ref, t.heap[ref])
  {
    hide LatestInv;
    var t := SendAttempt(s, ref, e);
    var c, d, ps, qs := s.heap[ref], t.heap[ref], s.pendings, t.pendings;
    assert qs == ps + [Pending(ref, e, None, None, None, false)];
    forall p | p in d.shadowed
      ensures Displaced(qs, p) && qs[p].call == ref && p !in d.bufferedAwaiting.Values
      ensures qs[p].response.Some? <==> qs[p].timedOut
    {
      if p in c.shadowed {
        DisplacedStays(ps, qs, p);
        StillNotWaiting(c, d, NameOf(e), |ps|, p);
      } else {
        assert p == c.bufferedAwaiting[NameOf(e)] && IsPendingOf(ps, ref, NameOf(e), p);
        assert qs[p] == ps[p] && qs[|ps|].call == ref && NameOf(qs[|ps|].event) == NameOf(qs[p].event);
      }
    }
    hide NameOf, Displaced;
  }

  lemma DisplacedStays(ps: seq<Pending>, qs: seq<Pending>, p: nat)
    requires Displaced(ps, p) && ps <= qs
    ensures Displaced(qs, p)
  {
    var q :| p < q < |ps| && ps[q].call == ps[p].call && NameOf(ps[q].event) == NameOf(ps[p].event);
    assert qs[q] == ps[q];
  }

  lemma StillNotWaiting(c: Call, d: Call, name: string, n: nat, p: nat)
    requires d.bufferedAwaiting == c.bufferedAwaiting[name := n] && p !in c.bufferedAwaiting.Values && p < n
    ensures p !in d.bufferedAwaiting.Values
  {
  }


  lemma OutcomeKeeps(s: Seam, ref: nat, e: Event)
    requires Inv(s) && ref < |s.heap| && !IsAttempt(e)
    ensures Inv(SendOutcome(s, ref, e))
  {
    hide OwnInv, Inv;
    if !s.heap[ref].finished && !s.heap[ref].ended {
      InvParts(s);
      OwnOf(s, ref);
      OutcomeOwn(s, ref, e);
      AdditionKeeps(s, SendOutcome(s, ref, e), ref);
    }
  }

  lemma OutcomeOwn(s: Seam, ref: nat, e: Event)
    requires ref < |s.heap| && !IsAttempt(e) && OwnInv(s, ref) && !s.heap[ref].finished && !s.heap[ref].ended
    ensures OwnInv(SendOutcome(s, ref, e), ref)
  {
    EmissionEvents(s.heap[ref], SendOutcome(s, ref, e).heap[ref], e);
    MoreBuffered(s.pendings, ref, s.heap[ref], SendOutcome(s, ref, e).heap[ref]);
    hide EventsInv, AttemptsInv;
  }

  lemma MoreBuffered(ps: seq<Pending>, ref: nat, c: Call, d: Call)
    requires AttemptsInv(ps, ref, c) && forall e :: e in c.buffered ==> e in d.buffered
    requires d == c.(buffered := d.buffered, emitted := d.emitted)
    ensures AttemptsInv(ps, ref, d)
  {
  }

  lemma TimeoutKeeps(s: Seam, p: nat)
    requires Inv(s) && p < |s.pendings|
    ensures Inv(Timeout(s, p))
  {
    hide SerialsInv, CallsInv, WaitingInv, TokensInv;
    var t := Timeout(s, p);
    assert PendingInv(s, s.pendings[p]);
    var ref := s.pendings[p].call;
    OwnOf(s, ref);
    AttemptsUnder(s.pendings, t.pendings, ref, s.heap[ref]);
    hide AttemptsInv, EventsInv, ScheduleInv;
    HeapUnder(s, t, ref);
    PendingsUnder(s, t, ref);
    assert t == s.(pendings := t.pendings);
    hide HeapInv, PendingsInv;
    ElsewhereAlike(s, t);
  }

  lemma ElsewhereAlike(s: Seam, t: Seam)
    requires CallsInv(s) && WaitingInv(s) && TokensInv(s) && SerialsInv(s) && t == s.(pendings := t.pendings)
    ensures CallsInv(t) && WaitingInv(t) && TokensInv(t) && SerialsInv(t)
  {
  }

  // ----- a round goes out -----

  lemma RoundKeeps(s: Seam, ref: nat, token: Token)
    requires Inv(s) && ref < |s.heap| && token !in s.issued
    ensures Inv(EndRound(s, ref, token))
  {
    hide OwnInv, Inv, HeapInv, SerialsInv, CallsInv, WaitingInv, TokensInv, PendingsInv, CarryAll;
    InvParts(s);
    OwnOf(s, ref);
    if GoesOut(s, ref, token) {
      OutgoingKeeps(s, ref, token);
    } else {
      UnscheduledOwn(s, ref);
      AdditionKeeps(s, EndRound(s, ref, token), ref);
    }
  }

  lemma OutgoingKeeps(s: Seam, ref: nat, token: Token)
    requires Inv(s) && GoesOut(s, ref, token)
    ensures Inv(EndRound(s, ref, token))
  {
    hide OwnInv, Inv, HeapInv, SerialsInv, CallsInv, WaitingInv, TokensInv, PendingsInv, AttemptsInv, KeepsAttempts,
         KeepsRounds;
    var t := EndRound(s, ref, token);
    InvParts(s);
    OwnOf(s, ref);
    OwnAttempts(s, ref);
    RoundOwn(s, ref, token);
    RoundOthers(s, ref, token);
    HeapUnder(s, t, ref);
    RoundTokens(s, ref, token);
    RoundSerials(s, ref, token);
    RoundPendings(s, ref, token);
    RoundDictionaries(s, ref, token);
    InvOf(t);
  }

  lemma OwnAttempts(s: Seam, ref: nat)
    requires ref < |s.heap| && OwnInv(s, ref)
    ensures AttemptsInv(s.pendings, ref, s.heap[ref])
  {
  }

  lemma UnscheduledOwn(s: Seam, ref: nat)
    requires ref < |s.heap| && OwnInv(s, ref)
    requires var c := s.heap[ref]; c.ended || c.round.Some? || c.current.None? || c.buffered == []
    ensures var t := With(s, ref, s.heap[ref].(roundScheduled := false)); OwnInv(t, ref)
  {
    hide Outcomes;
  }

  ghost predicate GoesOut(s: Seam, ref: nat, token: Token) {
    && ref < |s.heap| && token !in s.issued
    && var c := s.heap[ref]; !c.ended && c.round.None? && c.current.Some? && c.buffered != []
  }

  lemma RoundOwn(s: Seam, ref: nat, token: Token)
    requires GoesOut(s, ref, token) && OwnInv(s, ref)
    ensures OwnInv(EndRound(s, ref, token), ref)
  {
    hide EventsInv, AttemptsInv, CarryAll;
    RoundEvents(s.heap[ref], EndRound(s, ref, token).heap[ref], token);
    RoundOwnAttempts(s, ref, token);
  }

  /** A round carries everything that was buffered. */
  lemma RoundEvents(c: Call, d: Call, token: Token)
    requires EventsInv(c) && !c.ended && c.shown.None?
    requires d == c.(buffered := [], rounds := c.rounds + [RoundSent(token, c.buffered)], round := d.round,
                     bufferedAwaiting := d.bufferedAwaiting, current := d.current, roundScheduled := d.roundScheduled)
    ensures EventsInv(d)
  {
    JoinedAfter(c.rounds, RoundSent(token, c.buffered));
    assert Carried(d) == Carried(c) + c.buffered;
    assert Carried(d) + d.buffered == Carried(d);
    OutcomesSplit(Carried(c), c.buffered);
    assert Outcomes(d.buffered) == [];
    assert Outcomes(Carried(d)) + [] == Outcomes(Carried(d));
    hide Carried, Outcomes;
  }

  lemma RoundOwnAttempts(s: Seam, ref: nat, token: Token)
    requires GoesOut(s, ref, token) && AttemptsInv(s.pendings, ref, s.heap[ref])
    ensures var t := EndRound(s, ref, token); AttemptsInv(t.pendings, ref, t.heap[ref])
  {
    RoundDisplaced(s, ref, token);
    RoundLatest(s, ref, token);
    hide DisplacedInv, LatestInv;
  }

  lemma RoundDisplaced(s: Seam, ref: nat, token: Token)
    requires GoesOut(s, ref, token) && AttemptsInv(s.pendings, ref, s.heap[ref])
    ensures var t := EndRound(s, ref, token); DisplacedInv(t.pendings, ref, t.heap[ref])
  {
    var t := EndRound(s, ref, token);
    var c, ps, qs := s.heap[ref], s.pendings, t.pendings;
    forall p | p in c.shadowed ensures qs[p] == ps[p] && Displaced(qs, p) {
      assert Displaced(ps, p);
      var q :| p < q < |ps| && ps[q].call == ps[p].call && NameOf(ps[q].event) == NameOf(ps[p].event);
      assert qs[q].call == qs[p].call && NameOf(qs[q].event) == NameOf(qs[p].event);
    }
    hide Displaced, LatestInv;
  }

  lemma RoundLatest(s: Seam, ref: nat, token: Token)
    requires GoesOut(s, ref, token) && AttemptsInv(s.pendings, ref, s.heap[ref])
    ensures var t := EndRound(s, ref, token); LatestInv(t.pendings, ref, t.heap[ref])
  {
    hide DisplacedInv;
    var t := EndRound(s, ref, token);
    var c, ps, qs := s.heap[ref], s.pendings, t.pendings;
    forall p | 0 <= p < |qs| && IsUnsentOf(qs[p], ref) && !c.finished ensures p in c.shadowed {
      assert IsUnsentOf(ps[p], ref);
    }
    forall p: nat | Displaced(qs, p) && qs[p].call == ref ensures p in c.shadowed {
      var q :| p < q < |qs| && qs[q].call == qs[p].call && NameOf(qs[q].event) == NameOf(qs[p].event);
      assert ps[q].call == ps[p].call && NameOf(ps[q].event) == NameOf(ps[p].event);
      assert Displaced(ps, p);
    }
  }

  lemma RoundOthers(s: Seam, ref: nat, token: Token)
    requires GoesOut(s, ref, token) && AttemptsInv(s.pendings, ref, s.heap[ref]) && TokensInv(s)
    ensures var t := EndRound(s, ref, token); KeepsAttempts(s.pendings, t.pendings, ref) && KeepsRounds(s, t, ref)
  {
  }

  lemma RoundTokens(s: Seam, ref: nat, token: Token)
    requires GoesOut(s, ref, token) && TokensInv(s)
    ensures TokensInv(EndRound(s, ref, token))
  {
  }

  lemma RoundSerials(s: Seam, ref: nat, token: Token)
    requires GoesOut(s, ref, token) && SerialsInv(s)
    ensures SerialsInv(EndRound(s, ref, token))
  {
  }

  lemma RoundPendings(s: Seam, ref: nat, token: Token)
    requires GoesOut(s, ref, token) && PendingsInv(s) && AttemptsInv(s.pendings, ref, s.heap[ref])
    ensures PendingsInv(EndRound(s, ref, token))
  {
    hide CarriedIn;
    var t := EndRound(s, ref, token);
    var c := s.heap[ref];
    forall i | 0 <= i < |t.pendings| ensures PendingInv(t, t.pendings[i]) {
      assert PendingInv(s, s.pendings[i]);
      var p := s.pendings[i];
      if i in c.bufferedAwaiting.Values {
        var n :| n in c.bufferedAwaiting && c.bufferedAwaiting[n] == i;
        CarriedNow(c.rounds, RoundSent(token, c.buffered), p.event);
      } else if p.carriedBy.Some? {
        CarriedStays(s.heap[p.call].rounds, t.heap[p.call].rounds, p.carriedBy.value, p.event);
      }
    }
  }

  lemma CarriedNow(rounds: seq<RoundSent>, x: RoundSent, e: Event)
    requires e in x.events
    ensures CarriedIn(rounds + [x], x.token, e)
  {
    assert (rounds + [x])[|rounds|] == x;
  }

  lemma RoundDictionaries(s: Seam, ref: nat, token: Token)
    requires GoesOut(s, ref, token) && CallsInv(s) && WaitingInv(s)
    ensures CallsInv(EndRound(s, ref, token)) && WaitingInv(EndRound(s, ref, token))
  {
  }

  // ----- a call ends -----

  lemma EndKeeps(s: Seam, ref: nat)
    requires Inv(s) && ref < |s.heap| && !s.heap[ref].ended
    ensures Inv(EndCall(s, ref)) && |EndCall(s, ref).heap| == |s.heap|
  {
    var t := EndCall(s, ref);
    OwnOf(s, ref);
    EndOwn(s, ref);
    EndOthers(s, ref);
    hide OwnInv;
    HeapUnder(s, t, ref);
    EndSerials(s, ref);
    EndDictionaries(s, ref);
    EndTokens(s, ref);
    PendingsUnder(s, t, ref);
    hide HeapInv, SerialsInv, CallsInv, WaitingInv, TokensInv, PendingsInv;
  }

  lemma EndOwn(s: Seam, ref: nat)
    requires ref < |s.heap| && OwnInv(s, ref) && !s.heap[ref].ended
    ensures OwnInv(EndCall(s, ref), ref)
  {
    hide Outcomes, Joined, AttemptsInv, SettleUnavailable;
    var c := s.heap[ref];
    GivenUpAttempts(s.pendings, AwaitedBy(c) + c.bufferedAwaiting.Values, ref, c, EndCall(s, ref).heap[ref]);
  }

  /** The attempts that wait are given up - those in the round out with them, where the call is dropped. */
  lemma GivenUpAttempts(ps: seq<Pending>, which: set<nat>, r: nat, c: Call, d: Call)
    requires AttemptsInv(ps, r, c)
    requires which == c.bufferedAwaiting.Values || (!c.ended && which == AwaitedBy(c) + c.bufferedAwaiting.Values)
    requires d.bufferedAwaiting == map[] && d.shadowed == c.shadowed && d.finished && (d.ended || d.round.None?)
    ensures AttemptsInv(SettleUnavailable(ps, which), r, d)
  {
    var qs := SettleUnavailable(ps, which);
    SettledCarriage(ps, which);
    assert ShadowStays(ps, qs, c) by {
      forall p | p in c.shadowed ensures p !in which {
        assert Displaced(ps, p);
      }
    }
    DisplacedUnder(ps, qs, r, c);
    LatestUnder(ps, qs, r, c);
    hide SettleUnavailable, SameCarriage, Displaced;
    assert DisplacedInv(qs, r, d);
    assert LatestInv(qs, r, d);
    forall p | 0 <= p < |qs| && qs[p].call == r && qs[p].carriedBy.None?
      ensures p in d.shadowed || qs[p].response.Some?
    {
      SettledAt(ps, which, p);
    }
  }

  lemma SettledAt(ps: seq<Pending>, which: set<nat>, p: nat)
    requires p < |ps|
    ensures var q := SettleUnavailable(ps, which)[p];
            && q.call == ps[p].call && q.carriedBy == ps[p].carriedBy
            && (ps[p].response.Some? || p in which ==> q.response.Some?)
  {
  }


  lemma EndOthers(s: Seam, ref: nat)
    requires ref < |s.heap| && !s.heap[ref].ended && OwnInv(s, ref)
    ensures KeepsAttempts(s.pendings, EndCall(s, ref).pendings, ref) && KeepsRounds(s, EndCall(s, ref), ref)
  {
    hide EventsInv, ScheduleInv, SettleUnavailable;
    OwnValues(s.pendings, ref, s.heap[ref]);
    SettledOthers(s.pendings, AwaitedBy(s.heap[ref]) + s.heap[ref].bufferedAwaiting.Values, ref);
    hide AttemptsInv, KeepsAttempts, OwnOnly;
  }

  /** The pendings are the call's own. */
  ghost predicate OwnOnly(ps: seq<Pending>, r: nat, which: set<nat>) {
    forall i :: i in which && i < |ps| ==> ps[i].call == r
  }

  lemma OwnValues(ps: seq<Pending>, r: nat, c: Call)
    requires AttemptsInv(ps, r, c)
    ensures OwnOnly(ps, r, c.bufferedAwaiting.Values)
    ensures !c.ended ==> OwnOnly(ps, r, AwaitedBy(c)) && OwnOnly(ps, r, AwaitedBy(c) + c.bufferedAwaiting.Values)
  {
    hide DisplacedInv;
  }

  lemma SettledOthers(ps: seq<Pending>, which: set<nat>, r: nat)
    requires OwnOnly(ps, r, which)
    ensures KeepsAttempts(ps, SettleUnavailable(ps, which), r)
  {
  }

  lemma EndSerials(s: Seam, ref: nat)
    requires SerialsInv(s) && ref < |s.heap|
    ensures SerialsInv(EndCall(s, ref))
  {
    SameSerials(s, EndCall(s, ref), ref);
  }

  lemma EndDictionaries(s: Seam, ref: nat)
    requires CallsInv(s) && WaitingInv(s) && ref < |s.heap|
    ensures CallsInv(EndCall(s, ref)) && WaitingInv(EndCall(s, ref))
  {
  }

  lemma EndTokens(s: Seam, ref: nat)
    requires TokensInv(s) && ref < |s.heap|
    ensures TokensInv(EndCall(s, ref))
  {
  }

  // ----- a call waits on its retry -----

  /** A concluded call whose frame waits: alone, then with the eviction it may cause. */
  function Waits(s: Seam, ref: nat, frame: Frame): Seam
    requires ref < |s.heap|
  {
    var c := s.heap[ref];
    With(s.(waiting := Unlisted(s.waiting, c.originalId) + [(c.originalId, ref)]), ref, c.(final := Some(frame)))
  }

  /** The invariant but for the length of the waiting list. */
  ghost predicate WaitingEntries(s: Seam) {
    forall x :: x in s.waiting ==>
      && x.1 < |s.heap|
      && s.heap[x.1].originalId == x.0 && s.heap[x.1].final.Some? && !s.heap[x.1].ended
  }

  ghost predicate InvButLength(s: Seam) {
    && CallsInv(s) && WaitingEntries(s) && TokensInv(s) && SerialsInv(s) && HeapInv(s) && PendingsInv(s)
  }

  lemma WaitKeeps(s: Seam, ref: nat, frame: Frame)
    requires ref < |s.heap| && InvButLength(Waits(s, ref, frame)) && |s.waiting| <= MAX_IDLE_SESSIONS
    ensures Inv(KeepWaiting(s, ref, frame)) && |KeepWaiting(s, ref, frame).heap| == |s.heap|
  {
    var t := Waits(s, ref, frame);
    if |t.waiting| > MAX_IDLE_SESSIONS {
      var evicted := t.waiting[0].1;
      assert t.waiting[0] in t.waiting;
      OwnOf(t, evicted);
      EndOwn(t, evicted);
      EndOthers(t, evicted);
      hide OwnInv;
      HeapUnder(t, EndCall(t, evicted), evicted);
      EndSerials(t, evicted);
      EndTokens(t, evicted);
      PendingsUnder(t, EndCall(t, evicted), evicted);
      EvictionDictionaries(t, evicted);
      hide HeapInv, SerialsInv, TokensInv, PendingsInv, CallsInv, WaitingEntries;
    }
  }

  lemma EvictionDictionaries(t: Seam, evicted: nat)
    requires CallsInv(t) && WaitingEntries(t) && t.waiting != [] && t.waiting[0].1 == evicted
    requires |t.waiting| <= MAX_IDLE_SESSIONS + 1
    ensures evicted < |t.heap| && CallsInv(EndCall(t, evicted)) && WaitingInv(EndCall(t, evicted))
  {
    assert t.waiting[0] in t.waiting;
    var id := t.heap[evicted].originalId;
    assert t.waiting[0].0 == id;
    assert Unlisted(t.waiting, id) == Unlisted(t.waiting[1..], id);
  }

  // ----- a retry -----

  function Popped(s: Seam, token: Token): Seam {
    s.(rounds := s.rounds - {token}, resumed := s.resumed + [token])
  }

  lemma RetryKeeps(s: Seam, token: Token, id: RequestId, session: Option<string>, responses: map<string, Answer>)
    requires Inv(s) && token in s.rounds && s.rounds[token] < |s.heap|
    ensures Inv(AcceptRetry(Popped(s, token), s.rounds[token], id, session, responses))
  {
    hide OwnInv, Inv, HeapInv, SerialsInv, CallsInv, WaitingInv, TokensInv, PendingsInv, AttemptsInv, KeepsAttempts,
         KeepsRounds;
    var ref := s.rounds[token];
    var t := AcceptRetry(Popped(s, token), ref, id, session, responses);
    InvParts(s);
    OwnOf(s, ref);
    TokenNames(s, token);
    RetryOwn(s, token, id, session, responses);
    OwnAttempts(s, ref);
    RetryOthers(s, token, id, session, responses);
    HeapUnder(s, t, ref);
    RetryTokens(s, token, id, session, responses);
    RetrySerials(s, token, id, session, responses);
    RetryPendings(s, token, id, session, responses);
    RetryDictionaries(s, token, id, session, responses);
    InvOf(t);
  }

  lemma TokenNames(s: Seam, token: Token)
    requires TokensInv(s) && token in s.rounds
    ensures Resumable(s, token)
  {
  }

  /** The token is that of the round its call has out. */
  ghost predicate Resumable(s: Seam, token: Token) {
    && token in s.rounds && s.rounds[token] < |s.heap|
    && var c := s.heap[s.rounds[token]];
       !c.ended && c.round.Some? && c.round.value.token == token
  }

  lemma RetryOwn(s: Seam, token: Token, id: RequestId, session: Option<string>, responses: map<string, Answer>)
    requires Resumable(s, token) && OwnInv(s, s.rounds[token])
    ensures OwnInv(AcceptRetry(Popped(s, token), s.rounds[token], id, session, responses), s.rounds[token])
  {
    var ref := s.rounds[token];
    var c := s.heap[ref];
    var t := AcceptRetry(Popped(s, token), ref, id, session, responses);
    RetriedCall(s, token, id, session, responses);
    hide AcceptRetry, SameCarriage, AttemptsInv, EventsInv, ScheduleInv;
    AttemptsUnder(s.pendings, t.pendings, ref, c);
    WithoutRound(t.pendings, ref, c, t.heap[ref]);
    SameEvents(c, t.heap[ref]);
  }

  /** The call after a retry was taken to its round. */
  lemma RetriedCall(s: Seam, token: Token, id: RequestId, session: Option<string>, responses: map<string, Answer>)
    requires Resumable(s, token)
    ensures var ref := s.rounds[token];
            var c := s.heap[ref];
            var t := AcceptRetry(Popped(s, token), ref, id, session, responses);
            var d := t.heap[ref];
            && SameCarriage(s.pendings, t.pendings)
            && d == c.(round := None, current := d.current, ids := d.ids, roundScheduled := d.roundScheduled)
            && d.current.Some? && ScheduleInv(d)
  {
    hide AnswerFor;
  }

  lemma SameEvents(c: Call, d: Call)
    requires EventsInv(c)
    requires d == c.(round := d.round, current := d.current, ids := d.ids, roundScheduled := d.roundScheduled)
    ensures EventsInv(d)
  {
    hide Outcomes, Joined;
  }

  lemma WithoutRound(ps: seq<Pending>, ref: nat, c: Call, d: Call)
    requires AttemptsInv(ps, ref, c) && d.round.None? && d.ended == c.ended && d.finished == c.finished
    requires d.bufferedAwaiting == c.bufferedAwaiting && d.buffered == c.buffered && d.shadowed == c.shadowed
    ensures AttemptsInv(ps, ref, d)
  {
  }

  lemma RetryOthers(s: Seam, token: Token, id: RequestId, session: Option<string>, responses: map<string, Answer>)
    requires Resumable(s, token) && AttemptsInv(s.pendings, s.rounds[token], s.heap[s.rounds[token]])
    ensures var t := AcceptRetry(Popped(s, token), s.rounds[token], id, session, responses);
            && KeepsAttempts(s.pendings, t.pendings, s.rounds[token]) && KeepsRounds(s, t, s.rounds[token])
            && Touches(s, t, s.rounds[token])
  {
    var ref := s.rounds[token];
    OwnValues(s.pendings, ref, s.heap[ref]);
    hide AttemptsInv, AnswerFor;
  }

  lemma RetryTokens(s: Seam, token: Token, id: RequestId, session: Option<string>, responses: map<string, Answer>)
    requires Resumable(s, token) && TokensInv(s)
    ensures TokensInv(AcceptRetry(Popped(s, token), s.rounds[token], id, session, responses))
  {
    hide SettleRound;
  }

  lemma RetrySerials(s: Seam, token: Token, id: RequestId, session: Option<string>, responses: map<string, Answer>)
    requires Resumable(s, token) && SerialsInv(s)
    ensures SerialsInv(AcceptRetry(Popped(s, token), s.rounds[token], id, session, responses))
  {
    hide SettleRound;
  }

  lemma RetryDictionaries(s: Seam, token: Token, id: RequestId, session: Option<string>, responses: map<string, Answer>)
    requires Resumable(s, token) && CallsInv(s) && WaitingInv(s)
    ensures var t := AcceptRetry(Popped(s, token), s.rounds[token], id, session, responses);
            CallsInv(t) && WaitingInv(t)
  {
    hide SettleRound;
  }

  lemma RetryPendings(s: Seam, token: Token, id: RequestId, session: Option<string>, responses: map<string, Answer>)
    requires Resumable(s, token) && PendingsInv(s) && AttemptsInv(s.pendings, s.rounds[token], s.heap[s.rounds[token]])
    ensures PendingsInv(AcceptRetry(Popped(s, token), s.rounds[token], id, session, responses))
  {
    hide CarriedIn, AnswerFor;
    var ref := s.rounds[token];
    var t := AcceptRetry(Popped(s, token), ref, id, session, responses);
    forall i | 0 <= i < |t.pendings| ensures PendingInv(t, t.pendings[i]) {
      assert PendingInv(s, s.pendings[i]);
      if i in s.heap[ref].round.value.awaiting.Values {
        var n :| n in s.heap[ref].round.value.awaiting && s.heap[ref].round.value.awaiting[n] == i;
        assert t.resumed[|s.resumed|] == token;
      }
    }
  }

  // ----- a call concludes -----

  /** The call may put its final frame on the id that is open. */
  ghost predicate MayConclude(s: Seam, ref: nat) {
    && ref < |s.heap|
    && var c := s.heap[ref]; !c.ended && c.finished && c.round.None? && c.current.Some?
  }

  /** The call with its unsent attempts given up. */
  function Cleared(s: Seam, ref: nat, buffered: seq<Event>): Seam
    requires ref < |s.heap|
  {
    With(s.(pendings := SettleUnavailable(s.pendings, s.heap[ref].bufferedAwaiting.Values)), ref,
         s.heap[ref].(buffered := buffered, bufferedAwaiting := map[]))
  }

  lemma ConclusionKeeps(s: Seam, ref: nat, frame: Frame)
    requires Inv(s) && MayConclude(s, ref) && (frame == ErrorFrame ==> Outcomes(s.heap[ref].buffered) == [])
    ensures Inv(Conclude(Cleared(s, ref, []), ref, frame, Outcomes(s.heap[ref].buffered)))
  {
    hide OwnInv, Inv, HeapInv, SerialsInv, CallsInv, WaitingInv, TokensInv, PendingsInv, AttemptsInv, KeepsAttempts,
         KeepsRounds, Outcomes;
    var t := Conclude(Cleared(s, ref, []), ref, frame, Outcomes(s.heap[ref].buffered));
    InvParts(s);
    OwnOf(s, ref);
    ConclusionOwn(s, ref, frame);
    OwnAttempts(s, ref);
    ConclusionOthers(s, ref, frame);
    HeapUnder(s, t, ref);
    ConclusionTables(s, ref, frame);
    ConclusionSerials(s, ref, frame);
    PendingsUnder(s, t, ref);
    InvOf(t);
  }

  lemma ConclusionOwn(s: Seam, ref: nat, frame: Frame)
    requires MayConclude(s, ref) && OwnInv(s, ref) && (frame == ErrorFrame ==> Outcomes(s.heap[ref].buffered) == [])
    ensures OwnInv(Conclude(Cleared(s, ref, []), ref, frame, Outcomes(s.heap[ref].buffered)), ref)
  {
    hide EventsInv, AttemptsInv, SettleUnavailable, Outcomes;
    var d := Conclude(Cleared(s, ref, []), ref, frame, Outcomes(s.heap[ref].buffered)).heap[ref];
    ConclusionEvents(s.heap[ref], d);
    ClearedAttempts(s, ref, d);
  }

  /** The final result carries the outcomes left. */
  lemma ConclusionEvents(c: Call, d: Call)
    requires EventsInv(c) && !c.ended && c.finished
    requires d.emitted == c.emitted && d.rounds == c.rounds && d.finalEvents == Outcomes(c.buffered)
    requires d.ended && d.finished && (d.shown == Some(ErrorFrame) ==> d.finalEvents == [])
    ensures EventsInv(d)
  {
    hide Outcomes, Joined;
    assert Joined(c.rounds) + [] == Joined(c.rounds);
    OutcomesSplit(Joined(c.rounds), Outcomes(c.buffered));
    OutcomesTwice(c.buffered);
  }

  lemma ClearedAttempts(s: Seam, ref: nat, d: Call)
    requires ref < |s.heap| && AttemptsInv(s.pendings, ref, s.heap[ref])
    requires d.bufferedAwaiting == map[] && d.shadowed == s.heap[ref].shadowed && d.finished
    requires d.round.None?
    ensures AttemptsInv(SettleUnavailable(s.pendings, s.heap[ref].bufferedAwaiting.Values), ref, d)
  {
    hide AttemptsInv, SettleUnavailable;
    GivenUpAttempts(s.pendings, s.heap[ref].bufferedAwaiting.Values, ref, s.heap[ref], d);
  }


  lemma ConclusionOthers(s: Seam, ref: nat, frame: Frame)
    requires MayConclude(s, ref) && AttemptsInv(s.pendings, ref, s.heap[ref])
    ensures var t := Conclude(Cleared(s, ref, []), ref, frame, Outcomes(s.heap[ref].buffered));
            KeepsAttempts(s.pendings, t.pendings, ref) && KeepsRounds(s, t, ref)
  {
    hide Outcomes, SettleUnavailable;
    OwnValues(s.pendings, ref, s.heap[ref]);
    SettledOthers(s.pendings, s.heap[ref].bufferedAwaiting.Values, ref);
    hide AttemptsInv, KeepsAttempts, OwnOnly;
  }

  lemma ConclusionTables(s: Seam, ref: nat, frame: Frame)
    requires MayConclude(s, ref) && CallsInv(s) && WaitingInv(s) && TokensInv(s)
    ensures var t := Conclude(Cleared(s, ref, []), ref, frame, Outcomes(s.heap[ref].buffered));
            CallsInv(t) && WaitingInv(t) && TokensInv(t)
  {
    hide Outcomes, SettleUnavailable;
  }

  lemma ConclusionSerials(s: Seam, ref: nat, frame: Frame)
    requires MayConclude(s, ref) && SerialsInv(s)
    ensures SerialsInv(Conclude(Cleared(s, ref, []), ref, frame, Outcomes(s.heap[ref].buffered)))
  {
    hide Outcomes, SettleUnavailable;
  }

  /** A concluded call that waits: for the retry of the round that is out, or of the one that takes its outcomes. */
  ghost predicate StartsWaiting(s: Seam, t: Seam, ref: nat, frame: Frame) {
    && Touches(s, t, ref)
    && t == s.(heap := t.heap, pendings := t.pendings, waiting := t.waiting)
    && t.waiting == Unlisted(s.waiting, s.heap[ref].originalId) + [(s.heap[ref].originalId, ref)]
    && t.heap[ref] == s.heap[ref].(final := Some(frame), buffered := t.heap[ref].buffered,
                                   bufferedAwaiting := t.heap[ref].bufferedAwaiting,
                                   roundScheduled := t.heap[ref].roundScheduled)
    && !s.heap[ref].ended && s.heap[ref].finished
    && (exists which :: t.pendings == SettleUnavailable(s.pendings, which) && OwnOnly(s.pendings, ref, which))
  }

  lemma WaitingKeeps(s: Seam, t: Seam, ref: nat, frame: Frame)
    requires Inv(s) && StartsWaiting(s, t, ref, frame) && OwnInv(t, ref)
    ensures InvButLength(t)
  {
    hide OwnInv, Inv, HeapInv, SerialsInv, CallsInv, WaitingInv, TokensInv, PendingsInv;
    InvParts(s);
    StartsOthers(s, t, ref, frame);
    HeapUnder(s, t, ref);
    SameSerials(s, t, ref);
    StartsTables(s, t, ref, frame);
    PendingsUnder(s, t, ref);
  }

  lemma StartsOthers(s: Seam, t: Seam, ref: nat, frame: Frame)
    requires StartsWaiting(s, t, ref, frame)
    ensures KeepsAttempts(s.pendings, t.pendings, ref) && KeepsRounds(s, t, ref)
  {
    hide SettleUnavailable, KeepsAttempts, OwnOnly;
    var which :| t.pendings == SettleUnavailable(s.pendings, which) && OwnOnly(s.pendings, ref, which);
    SettledOthers(s.pendings, which, ref);
  }

  lemma StartsTables(s: Seam, t: Seam, ref: nat, frame: Frame)
    requires StartsWaiting(s, t, ref, frame) && CallsInv(s) && WaitingInv(s) && TokensInv(s)
    ensures CallsInv(t) && WaitingEntries(t) && TokensInv(t)
  {
    hide SettleUnavailable;
  }

  // ----- the final frame -----

  lemma FinalKeeps(s: Seam, ref: nat, frame: Frame)
    requires Inv(s) && ref < |s.heap| && !s.heap[ref].ended && s.heap[ref].finished && s.heap[ref].round.None?
    ensures Inv(FinalFrame(s, ref, frame))
  {
    hide OwnInv, Inv, Outcomes, KeepWaiting, Conclude;
    InvParts(s);
    OwnOf(s, ref);
    var c := s.heap[ref];
    OwnStand(s, ref);
    if frame == ErrorFrame && Outcomes(c.buffered) != [] {
      ErrorWaitOwn(s, ref);
      LastRoundKeeps(s, ref, frame);
    } else {
      ConclusionKeeps(s, ref, frame);
    }
  }

  lemma OwnStand(s: Seam, ref: nat)
    requires ref < |s.heap| && OwnInv(s, ref)
    ensures StandInv(s.rounds, ref, s.heap[ref])
  {
  }

  function LastRound(s: Seam, ref: nat): Seam
    requires ref < |s.heap|
  {
    var t := Cleared(s, ref, []);
    With(t, ref, t.heap[ref].(buffered := Outcomes(s.heap[ref].buffered), roundScheduled := true))
  }

  lemma ErrorWaitOwn(s: Seam, ref: nat)
    requires MayConclude(s, ref) && OwnInv(s, ref)
    ensures OwnInv(Waits(LastRound(s, ref), ref, ErrorFrame), ref)
  {
    var c := s.heap[ref];
    var d := Waits(LastRound(s, ref), ref, ErrorFrame).heap[ref];
    OutcomesTwice(c.buffered);
    ClearedAttempts(s, ref, d);
    assert Carried(d) == Carried(c);
    hide AttemptsInv, Outcomes, Carried;
  }

  lemma LastRoundKeeps(s: Seam, ref: nat, frame: Frame)
    requires Inv(s) && MayConclude(s, ref) && OwnInv(Waits(LastRound(s, ref), ref, frame), ref)
    ensures Inv(KeepWaiting(LastRound(s, ref), ref, frame))
  {
    hide OwnInv, Inv, KeepWaiting, Outcomes, InvButLength;
    var t := Waits(LastRound(s, ref), ref, frame);
    InvParts(s);
    assert t.pendings == SettleUnavailable(s.pendings, s.heap[ref].bufferedAwaiting.Values);
    WaitingKeeps(s, t, ref, frame);
    WaitKeeps(LastRound(s, ref), ref, frame);
  }

  // ----- every move -----

  lemma RetriedKeeps(s: Seam, id: RequestId, token: Token, session: Option<string>, responses: map<string, Answer>)
    requires Inv(s)
    ensures Inv(TakeRetry(s, id, token, session, responses))
  {
    hide Inv, AcceptRetry, FinalFrame, Refuse;
    RefusalKeeps(s);
    if token in s.rounds && s.rounds[token] < |s.heap| {
      RetryKeeps(s, token, id, session, responses);
      var ref := s.rounds[token];
      var t := AcceptRetry(Popped(s, token), ref, id, session, responses);
      if t.heap[ref].final.Some? {
        InvParts(t);
        OwnOf(t, ref);
        OwnStand(t, ref);
        AcceptedRound(Popped(s, token), ref, id, session, responses);
        FinalKeeps(t, ref, t.heap[ref].final.value);
      }
    }
  }

  lemma AcceptedRound(s: Seam, ref: nat, id: RequestId, session: Option<string>, responses: map<string, Answer>)
    requires ref < |s.heap|
    ensures AcceptRetry(s, ref, id, session, responses).heap[ref].round.None?
  {
  }

  /** The call whose handler concluded, before its final frame is placed. */
  function Concluding(s: Seam, id: RequestId): Seam
    requires id in s.calls && s.calls[id] < |s.heap|
  {
    With(s.(calls := s.calls - {id}), s.calls[id], s.heap[s.calls[id]].(finished := true))
  }

  lemma ConcludingKeeps(s: Seam, id: RequestId)
    requires Inv(s) && id in s.calls
    ensures s.calls[id] < |s.heap| && !s.heap[s.calls[id]].ended
    ensures Inv(Concluding(s, id))
  {
    hide OwnInv, Inv, HeapInv, SerialsInv, CallsInv, WaitingInv, TokensInv, PendingsInv;
    InvParts(s);
    CalledIsLive(s, id);
    var ref := s.calls[id];
    var t := Concluding(s, id);
    OwnOf(s, ref);
    ConcludingOwn(s, id);
    HeapUnder(s, t, ref);
    SameSerials(s, t, ref);
    ConcludingTables(s, id);
    PendingsUnder(s, t, ref);
    InvOf(t);
  }

  lemma CalledIsLive(s: Seam, id: RequestId)
    requires CallsInv(s) && id in s.calls
    ensures s.calls[id] < |s.heap|
    ensures !s.heap[s.calls[id]].finished && !s.heap[s.calls[id]].ended && s.heap[s.calls[id]].originalId == id
  {
  }

  lemma ConcludingOwn(s: Seam, id: RequestId)
    requires id in s.calls && s.calls[id] < |s.heap| && OwnInv(s, s.calls[id])
    ensures OwnInv(Concluding(s, id), s.calls[id])
  {
    hide Outcomes, Joined;
  }

  lemma ConcludingTables(s: Seam, id: RequestId)
    requires CallsInv(s) && WaitingInv(s) && TokensInv(s) && id in s.calls && s.calls[id] < |s.heap|
    ensures var t := Concluding(s, id); CallsInv(t) && WaitingInv(t) && TokensInv(t)
  {
  }

  lemma HeldBackKeeps(s: Seam, ref: nat, frame: Frame)
    requires Inv(s) && ref < |s.heap| && !s.heap[ref].ended && s.heap[ref].finished
    ensures Inv(KeepWaiting(s.(pendings := SettleUnavailable(s.pendings, AwaitedBy(s.heap[ref]))), ref, frame))
  {
    hide OwnInv, Inv, KeepWaiting, InvButLength;
    InvParts(s);
    OwnOf(s, ref);
    var s' := s.(pendings := SettleUnavailable(s.pendings, AwaitedBy(s.heap[ref])));
    var t := Waits(s', ref, frame);
    HeldBackOwn(s, ref, frame);
    assert t.pendings == SettleUnavailable(s.pendings, AwaitedBy(s.heap[ref]));
    WaitingKeeps(s, t, ref, frame);
    WaitKeeps(s', ref, frame);
  }

  lemma HeldBackOwn(s: Seam, ref: nat, frame: Frame)
    requires ref < |s.heap| && !s.heap[ref].ended && s.heap[ref].finished && OwnInv(s, ref)
    ensures var s' := s.(pendings := SettleUnavailable(s.pendings, AwaitedBy(s.heap[ref])));
            OwnInv(Waits(s', ref, frame), ref)
  {
    var c := s.heap[ref];
    var ps := SettleUnavailable(s.pendings, AwaitedBy(c));
    HeldBackAttempts(s.pendings, ref, c);
    SameAttempts(ps, ref, c, c.(final := Some(frame)));
    hide SettleUnavailable, Outcomes, Joined, AttemptsInv;
  }

  lemma HeldBackAttempts(ps: seq<Pending>, r: nat, c: Call)
    requires AttemptsInv(ps, r, c) && !c.ended
    ensures AttemptsInv(SettleUnavailable(ps, AwaitedBy(c)), r, c)
  {
    SettledCarriage(ps, AwaitedBy(c));
    assert UnsentStay(ps, SettleUnavailable(ps, AwaitedBy(c)), r);
    hide SettleUnavailable, AttemptsInv;
    AttemptsUnder(ps, SettleUnavailable(ps, AwaitedBy(c)), r, c);
  }

  lemma SameAttempts(ps: seq<Pending>, r: nat, c: Call, d: Call)
    requires AttemptsInv(ps, r, c) && d == c.(final := d.final)
    ensures AttemptsInv(ps, r, d)
  {
  }


  lemma FinishKeeps(s: Seam, id: RequestId, frame: Frame)
    requires Inv(s)
    ensures Inv(Finish(s, id, frame))
  {
    hide Inv, KeepWaiting, FinalFrame;
    if id in s.cancelled {
      CancelledIsFree(s, s.cancelled - {id});
    } else if id in s.calls {
      ConcludingKeeps(s, id);
      var ref := s.calls[id];
      var t := Concluding(s, id);
      if s.heap[ref].round.Some? {
        HeldBackKeeps(t, ref, frame);
      } else {
        FinalKeeps(t, ref, frame);
      }
    }
  }

  lemma CancelledIsFree(s: Seam, cancelled: map<RequestId, nat>)
    requires Inv(s)
    ensures Inv(s.(cancelled := cancelled))
  {
    InvParts(s);
    var t := s.(cancelled := cancelled);
    assert HeapInv(t) by {
      hide OwnInv, SerialsInv, CallsInv, WaitingInv, TokensInv, PendingsInv, EventsInv, ScheduleInv, AttemptsInv;
    }
    assert PendingsInv(t) by {
      hide HeapInv, CarriedIn;
      forall i | 0 <= i < |t.pendings| ensures PendingInv(t, t.pendings[i]) {
        assert PendingInv(s, s.pendings[i]);
      }
    }
    hide HeapInv, PendingsInv;
  }

  lemma TargetIsLive(s: Seam, ref: nat)
    requires Inv(s) && ref < |s.heap| && (ref in s.calls.Values || exists x :: x in s.waiting && x.1 == ref)
    ensures !s.heap[ref].ended
  {
    hide SerialsInv, TokensInv, HeapInv, PendingsInv;
  }

  lemma MoveKeepsInv(s: Seam, m: Move)
    requires Inv(s) && Enabled(s, m)
    ensures Inv(Next(s, m))
  {
    hide Inv, TakeNew, TakeRetry, SendAttempt, SendOutcome, Timeout, EndRound, Finish, EndCall;
    match m
    case NewCall(id, audit) => NewKeeps(s, id, audit);
    case Retry(id, token, session, responses) => RetriedKeeps(s, id, token, session, responses);
    case EmitAttempt(ref, e) => AttemptKeeps(s, ref, e);
    case EmitOutcome(ref, e) => OutcomeKeeps(s, ref, e);
    case TimesOut(p) => TimeoutKeeps(s, p);
    case RoundGoes(ref, token) => RoundKeeps(s, ref, token);
    case HandlerConcludes(id, frame) => FinishKeeps(s, id, frame);
    case CancelArrives(_, ref) =>
      TargetIsLive(s, ref);
      EndKeeps(s, ref);
      CancelledIsFree(EndCall(s, ref), EndCall(s, ref).cancelled[s.heap[ref].originalId := ref]);
    case Forgets(id) => CancelledIsFree(s, s.cancelled - {id});
    case Drops(ref) => EndKeeps(s, ref);
  }

  lemma {:induction false} PlayKeepsInv(s: Seam, ms: seq<Move>)
    requires Inv(s) && Legal(s, ms)
    ensures Inv(Play(s, ms))
    decreases |ms|
  {
    hide Inv, Enabled, Next;
    if ms != [] {
      MoveKeepsInv(s, ms[0]);
      PlayKeepsInv(Next(s, ms[0]), ms[1..]);
    }
  }

  // ----- what a run guarantees -----

  /**
   * Rounds conserve events. For a call that concluded - not cancelled, closed or evicted - every outcome its
   * handler emitted before it concluded was carried exactly once, in emission order, over its rounds and
   * final result; the final result carries no attempt, and an error nothing at all. An attempt that no round
   * carried is answered `unavailable`, with one exception: an attempt whose place a later one of the same id
   * took in the same round is answered by nothing but its own wait running out.
   */
  lemma RoundsConserveEvents(ms: seq<Move>, r: nat)
    requires Legal(NEW_SEAM, ms) && r < |Play(NEW_SEAM, ms).heap| && Play(NEW_SEAM, ms).heap[r].shown.Some?
    ensures var s := Play(NEW_SEAM, ms);
            var c := s.heap[r];
            && Outcomes(c.emitted) == Outcomes(Joined(c.rounds)) + c.finalEvents
            && (forall e :: e in c.finalEvents ==> !IsAttempt(e))
            && (c.shown == Some(ErrorFrame) ==> c.finalEvents == [])
            && (forall p :: 0 <= p < |s.pendings| && IsUnsentOf(s.pendings[p], r) ==>
                  s.pendings[p].response ==
                    if Displaced(s.pendings, p) && !s.pendings[p].timedOut then None else Some(Unavailable))
  {
    hide Play, Legal, Displaced;
    var s := Play(NEW_SEAM, ms);
    PlayKeepsInv(NEW_SEAM, ms);
    ConcludedCall(s, r);
    forall p | 0 <= p < |s.pendings| && IsUnsentOf(s.pendings[p], r)
      ensures s.pendings[p].response ==
                if Displaced(s.pendings, p) && !s.pendings[p].timedOut then None else Some(Unavailable)
    {
      ConcludedAttempt(s, r, p);
    }
  }

  lemma ConcludedCall(s: Seam, r: nat)
    requires Inv(s) && r < |s.heap| && s.heap[r].shown.Some?
    ensures var c := s.heap[r];
            && Outcomes(c.emitted) == Outcomes(Joined(c.rounds)) + c.finalEvents
            && (forall e :: e in c.finalEvents ==> !IsAttempt(e))
            && (c.shown == Some(ErrorFrame) ==> c.finalEvents == [])
  {
    hide CallsInv, WaitingInv, SerialsInv, TokensInv, PendingsInv;
    var c := s.heap[r];
    assert EventsInv(c);
    OutcomesSplit(Joined(c.rounds), c.finalEvents);
    OutcomesTwice(c.finalEvents);
  }

  lemma ConcludedAttempt(s: Seam, r: nat, p: nat)
    requires Inv(s) && r < |s.heap| && s.heap[r].shown.Some? && p < |s.pendings| && IsUnsentOf(s.pendings[p], r)
    ensures s.pendings[p].response ==
              if Displaced(s.pendings, p) && !s.pendings[p].timedOut then None else Some(Unavailable)
  {
    hide CallsInv, WaitingInv, SerialsInv, TokensInv, CarriedIn, EventsInv, ScheduleInv, Displaced;
    assert PendingInv(s, s.pendings[p]);
    assert AttemptsInv(s.pendings, r, s.heap[r]);
    if p in s.heap[r].shadowed {
      assert DisplacedInv(s.pendings, r, s.heap[r]);
    } else {
      assert LatestInv(s.pendings, r, s.heap[r]);
    }
  }

  // ----- a displaced attempt -----

  /** Two attempts of one id in one round, out under a token. */
  function RoundOfTwo(id: RequestId, e: Event): Seam {
    EndRound(SendAttempt(SendAttempt(TakeNew(NEW_SEAM, id, Some("a")), 0, e), 0, e), 0, "t")
  }

  lemma RoundOfTwoStands(id: RequestId, e: Event)
    ensures var s := RoundOfTwo(id, e);
            && |s.heap| == 1 && s.calls == map[id := 0] && s.cancelled == map[] && s.waiting == []
            && s.rounds == map["t" := 0]
            && s.pendings == [Pending(0, e, None, None, None, false), Pending(0, e, Some("t"), None, None, false)]
            && var c := s.heap[0];
            && c.round == Some(Round("t", map[NameOf(e) := 1])) && c.bufferedAwaiting == map[] && c.buffered == []
            && c.audit == Some("a") && c.current.None? && c.final.None? && !c.ended && !c.finished && c.originalId == id
  {
    var s2 := SendAttempt(TakeNew(NEW_SEAM, id, Some("a")), 0, e);
    assert s2.heap[0].bufferedAwaiting == map[NameOf(e) := 0];
    var s3 := SendAttempt(s2, 0, e);
    assert s3.heap[0].bufferedAwaiting == map[NameOf(e) := 1];
    assert s3.pendings == [Pending(0, e, None, None, None, false), Pending(0, e, None, None, None, false)];
  }

  lemma RoundOfTwoSteps(id: RequestId, e: Event)
    ensures var s1 := TakeNew(NEW_SEAM, id, Some("a"));
            && |s1.heap| == 1
            && var s2 := SendAttempt(s1, 0, e);
            && |s2.heap| == 1
            && var s3 := SendAttempt(s2, 0, e);
            && |s3.heap| == 1 && s3.heap[0].roundScheduled && s3.issued == {}
            && RoundOfTwo(id, e) == EndRound(s3, 0, "t")
  {
  }

  lemma RetryOfTwo(s: Seam, id: RequestId, e: Event, answer: Answer)
    requires s == RoundOfTwo(id, e)
    ensures var t := Finish(TakeRetry(s, id, "t", Some("a"), map[NameOf(e) := answer]), id, ResultFrame);
            && |t.heap| == 1 && t.heap[0].shown.Some? && |t.pendings| == 2
            && t.pendings[0].response == None && t.pendings[1].response == Some(answer)
  {
    RoundOfTwoStands(id, e);
    hide RoundOfTwo;
    var t := TakeRetry(s, id, "t", Some("a"), map[NameOf(e) := answer]);
    assert s.rounds["t"] == 0;
    var awaiting := s.heap[0].round.value.awaiting;
    assert NameOf(e) in awaiting && awaiting[NameOf(e)] == 1 && 1 in awaiting.Values;
    assert t.pendings[0] == s.pendings[0] && t.pendings[1].response == Some(answer);
    assert t.heap[0].bufferedAwaiting.Values == {};
  }

  /** A run in which two attempts of one id join one round, and its retry answers the later one only. */
  lemma DisplacedIsUnanswered(id: RequestId, e: Event, answer: Answer)
    requires IsAttempt(e)
    ensures var ms := [NewCall(id, Some("a")), EmitAttempt(0, e), EmitAttempt(0, e), RoundGoes(0, "t"),
                       Retry(id, "t", Some("a"), map[NameOf(e) := answer]), HandlerConcludes(id, ResultFrame)];
            && Legal(NEW_SEAM, ms)
            && var s := Play(NEW_SEAM, ms);
            && |s.heap| == 1 && s.heap[0].shown.Some? && |s.pendings| == 2
            && s.pendings[0].response == None && s.pendings[1].response == Some(answer)
  {
    var begin, emit, round := NewCall(id, Some("a")), EmitAttempt(0, e), RoundGoes(0, "t");
    var retry, last := Retry(id, "t", Some("a"), map[NameOf(e) := answer]), HandlerConcludes(id, ResultFrame);
    hide Play, Legal, RoundOfTwo, TakeNew, SendAttempt, EndRound, TakeRetry, Finish;
    RoundOfTwoSteps(id, e);
    RetryOfTwo(RoundOfTwo(id, e), id, e, answer);
    PlaySix(NEW_SEAM, begin, emit, emit, round, retry, last);
  }

  lemma PlaySix(s0: Seam, a: Move, b: Move, c: Move, d: Move, e: Move, f: Move)
    requires Enabled(s0, a)
    requires var s1 := Next(s0, a);
             Enabled(s1, b)
             && var s2 := Next(s1, b);
                Enabled(s2, c)
                && var s3 := Next(s2, c);
                   Enabled(s3, d)
                   && var s4 := Next(s3, d); Enabled(s4, e) && Enabled(Next(s4, e), f)
    ensures Legal(s0, [a, b, c, d, e, f])
    ensures Play(s0, [a, b, c, d, e, f]) == Next(Next(Next(Next(Next(Next(s0, a), b), c), d), e), f)
  {
    hide Next, Enabled;
    var s1 := Next(s0, a);
    var s2 := Next(s1, b);
    var s3 := Next(s2, c);
    var s4 := Next(s3, d);
    PlayOne(Next(s4, e), f, []);
    assert [f] + [] == [f];
    PlayOne(s4, e, [f]);
    assert [e] + [f] == [e, f];
    PlayOne(s3, d, [e, f]);
    assert [d] + [e, f] == [d, e, f];
    PlayOne(s2, c, [d, e, f]);
    assert [c] + [d, e, f] == [c, d, e, f];
    PlayOne(s1, b, [c, d, e, f]);
    assert [b] + [c, d, e, f] == [b, c, d, e, f];
    PlayOne(s0, a, [b, c, d, e, f]);
    assert [a] + [b, c, d, e, f] == [a, b, c, d, e, f];
  }

  lemma PlayOne(s: Seam, m: Move, ms: seq<Move>)
    requires Enabled(s, m)
    ensures ms == [] || Legal(Next(s, m), ms) ==> Legal(s, [m] + ms)
    ensures ms == [] ==> Play(s, [m] + ms) == Next(s, m)
    ensures ms != [] && Legal(Next(s, m), ms) ==> Play(s, [m] + ms) == Play(Next(s, m), ms)
  {
    hide Next;
    assert ([m] + ms)[1..] == ms;
  }

  /**
   * At most once on the tool's wire, over every run: a live call has a round out exactly when it has no id
   * to answer on; no token is taken for two retries; no request is answered twice; and an attempt resolves
   * `accept` only from the retry that closed the very round that carried it.
   */
  lemma AtMostOnce(ms: seq<Move>)
    requires Legal(NEW_SEAM, ms)
    ensures var s := Play(NEW_SEAM, ms);
            && (forall r :: 0 <= r < |s.heap| && !s.heap[r].ended ==>
                  (s.heap[r].round.Some? <==> s.heap[r].current.None?))
            && (forall i, j :: 0 <= i < j < |s.resumed| ==> s.resumed[i] != s.resumed[j])
            && (forall i, j :: 0 <= i < j < |s.answered| ==> s.answered[i] != s.answered[j])
            && (forall p :: 0 <= p < |s.pendings| && AnsweredAccept(s.pendings[p]) ==>
                  AcceptedByItsRound(s, s.pendings[p]))
  {
    hide Play, Legal, EventsInv, ScheduleInv, AttemptsInv;
    var s := Play(NEW_SEAM, ms);
    PlayKeepsInv(NEW_SEAM, ms);
    forall p | 0 <= p < |s.pendings| && AnsweredAccept(s.pendings[p]) ensures AcceptedByItsRound(s, s.pendings[p]) {
      assert PendingInv(s, s.pendings[p]);
    }
    forall r | 0 <= r < |s.heap| ensures StandInv(s.rounds, r, s.heap[r]) {
    }
  }

  predicate AnsweredAccept(p: Pending) {
    p.response.Some? && p.response.value.Accept?
  }

  /** One round carried the attempt, and the retry taken for that round's token settled it. */
  ghost predicate AcceptedByItsRound(s: Seam, p: Pending) {
    && p.call < |s.heap| && p.carriedBy.Some? && p.settledBy == p.carriedBy && p.carriedBy.value in s.resumed
    && CarriedIn(s.heap[p.call].rounds, p.carriedBy.value, p.event)
  }

  // ----- nothing is stuck -----

  /** A final frame held back waits on a round that is out, or on one that is on its way. */
  predicate FinalGoes(c: Call) {
    c.final.Some? && IsOpen(c) ==> c.roundScheduled && c.buffered != []
  }

  ghost predicate FinalsGo(s: Seam) {
    forall r :: 0 <= r < |s.heap| ==> FinalGoes(s.heap[r])
  }

  lemma EndedGoes(s: Seam, ref: nat)
    requires FinalsGo(s) && ref < |s.heap|
    ensures FinalsGo(EndCall(s, ref))
  {
  }

  lemma WaitingGoes(s: Seam, ref: nat, frame: Frame)
    requires ref < |s.heap| && FinalsGo(Waits(s, ref, frame))
    ensures FinalsGo(KeepWaiting(s, ref, frame))
  {
    hide FinalsGo, EndCall;
    var t := Waits(s, ref, frame);
    if t.waiting[0].1 < |t.heap| {
      EndedGoes(t, t.waiting[0].1);
    }
  }

  /** Whatever the call's own state, placing its final frame leaves it concluded or on its way. */
  lemma FinalFrameGoes(s: Seam, ref: nat, frame: Frame)
    requires ref < |s.heap| && s.heap[ref].current.Some?
    requires forall r :: 0 <= r < |s.heap| && r != ref ==> FinalGoes(s.heap[r])
    ensures FinalsGo(FinalFrame(s, ref, frame))
  {
    hide KeepWaiting, Outcomes, SettleUnavailable;
    if frame == ErrorFrame && Outcomes(s.heap[ref].buffered) != [] {
      WaitingGoes(LastRound(s, ref), ref, frame);
    }
  }

  lemma RetryGoes(s: Seam, id: RequestId, token: Token, session: Option<string>, responses: map<string, Answer>)
    requires FinalsGo(s)
    ensures FinalsGo(TakeRetry(s, id, token, session, responses))
  {
    hide FinalFrame, SettleRound;
    if token in s.rounds && s.rounds[token] < |s.heap| {
      var ref := s.rounds[token];
      FinalFrameGoes(AcceptRetry(Popped(s, token), ref, id, session, responses), ref,
                     if s.heap[ref].final.Some? then s.heap[ref].final.value else ErrorFrame);
    }
  }

  lemma FinishGoes(s: Seam, id: RequestId, frame: Frame)
    requires Inv(s) && FinalsGo(s)
    ensures FinalsGo(Finish(s, id, frame))
  {
    hide FinalFrame, KeepWaiting, SettleUnavailable, Inv;
    if id !in s.cancelled && id in s.calls {
      ConcludingKeeps(s, id);
      var ref := s.calls[id];
      var t := Concluding(s, id);
      InvParts(t);
      OwnOf(t, ref);
      OwnStand(t, ref);
      if t.heap[ref].round.Some? {
        WaitingGoes(t.(pendings := SettleUnavailable(t.pendings, AwaitedBy(t.heap[ref]))), ref, frame);
      } else {
        FinalFrameGoes(t, ref, frame);
      }
    }
  }

  lemma EmissionGoes(s: Seam, ref: nat, e: Event)
    requires FinalsGo(s) && ref < |s.heap|
    ensures FinalsGo(SendAttempt(s, ref, e)) && FinalsGo(SendOutcome(s, ref, e))
  {
    assert FinalGoes(s.heap[ref]);
    hide NameOf;
  }

  lemma RoundGoesOn(s: Seam, ref: nat, token: Token)
    requires Inv(s) && FinalsGo(s) && ref < |s.heap|
    ensures FinalsGo(EndRound(s, ref, token))
  {
    InvParts(s);
    OwnOf(s, ref);
    OwnStand(s, ref);
    assert FinalGoes(s.heap[ref]);
    hide Inv, HeapInv, OwnInv, CarryAll;
  }

  lemma MoveKeepsGoing(s: Seam, m: Move)
    requires Inv(s) && FinalsGo(s) && Enabled(s, m)
    ensures FinalsGo(Next(s, m))
  {
    hide Inv, TakeRetry, Finish, EndCall, EndRound;
    match m
    case RoundGoes(ref, token) => RoundGoesOn(s, ref, token);
    case EmitAttempt(ref, e) => EmissionGoes(s, ref, e);
    case EmitOutcome(ref, e) => EmissionGoes(s, ref, e);
    case Retry(id, token, session, responses) => RetryGoes(s, id, token, session, responses);
    case HandlerConcludes(id, frame) => FinishGoes(s, id, frame);
    case CancelArrives(_, ref) => EndedGoes(s, ref);
    case Drops(ref) => EndedGoes(s, ref);
    case _ =>
  }

  lemma {:induction false} PlayKeepsGoing(s: Seam, ms: seq<Move>)
    requires Inv(s) && FinalsGo(s) && Legal(s, ms)
    ensures FinalsGo(Play(s, ms))
    decreases |ms|
  {
    hide Inv, FinalsGo, Enabled, Next;
    if ms != [] {
      MoveKeepsInv(s, ms[0]);
      MoveKeepsGoing(s, ms[0]);
      PlayKeepsGoing(Next(s, ms[0]), ms[1..]);
    }
  }

  /** No final frame and no attempt is left without a way out: a call whose frame is held back has a round
      out, or one scheduled that will go; and an attempt on an open id has its round scheduled. */
  lemma NothingIsStuck(ms: seq<Move>, r: nat)
    requires Legal(NEW_SEAM, ms) && r < |Play(NEW_SEAM, ms).heap| && !Play(NEW_SEAM, ms).heap[r].ended
    ensures var c := Play(NEW_SEAM, ms).heap[r];
            && (c.final.Some? ==> c.round.Some? || (c.roundScheduled && c.current.Some? && c.buffered != []))
            && (!c.finished && HasAttempt(c.buffered) ==> c.round.Some? || c.roundScheduled)
  {
    hide Play, Legal, EventsInv, AttemptsInv, Next;
    PlayKeepsInv(NEW_SEAM, ms);
    PlayKeepsGoing(NEW_SEAM, ms);
    var s := Play(NEW_SEAM, ms);
    InvParts(s);
    OwnOf(s, r);
    assert FinalGoes(s.heap[r]);
  }
}
