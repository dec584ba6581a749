/** The answers attempts get on the tool's wire: the first stands, and an attempt is without one only while it can
    still get one. */
module RoundAnswers {
  import opened Events
  import opened HostModel
  import opened RoundModel
  import opened RoundInvariant
  import R = RoundReference

  // ----- the first answer stands -----

  /** Attempts are only added, and an answer given stays. */
  ghost predicate AnswersStay(ps: seq<Pending>, qs: seq<Pending>) {
    && |ps| <= |qs|
    && forall p :: 0 <= p < |ps| ==>
         && qs[p].call == ps[p].call && qs[p].event == ps[p].event
         && (ps[p].response.Some? ==> qs[p].response == ps[p].response && qs[p].settledBy == ps[p].settledBy)
         && (ps[p].timedOut ==> qs[p].timedOut)
  }

  lemma StayTwice(ps: seq<Pending>, qs: seq<Pending>, rs: seq<Pending>)
    requires AnswersStay(ps, qs) && AnswersStay(qs, rs)
    ensures AnswersStay(ps, rs)
  {
  }

  lemma SettledStay(ps: seq<Pending>, which: set<nat>)
    ensures AnswersStay(ps, SettleUnavailable(ps, which))
  {
  }

  lemma WaitStays(s: Seam, ref: nat, frame: Frame)
    requires ref < |s.heap|
    ensures AnswersStay(s.pendings, KeepWaiting(s, ref, frame).pendings)
  {
    var t := Waits(s, ref, frame);
    if |t.waiting| > MAX_IDLE_SESSIONS && t.waiting[0].1 < |t.heap| {
      var c := t.heap[t.waiting[0].1];
      SettledStay(s.pendings, AwaitedBy(c) + c.bufferedAwaiting.Values);
    }
    hide SettleUnavailable, Unlisted;
  }

  lemma FinalStays(s: Seam, ref: nat, frame: Frame)
    requires ref < |s.heap|
    ensures AnswersStay(s.pendings, FinalFrame(s, ref, frame).pendings)
  {
    var c := s.heap[ref];
    SettledStay(s.pendings, c.bufferedAwaiting.Values);
    var ps := SettleUnavailable(s.pendings, c.bufferedAwaiting.Values);
    hide SettleUnavailable, KeepWaiting, Outcomes;
    if c.current.Some? && frame == ErrorFrame && Outcomes(c.buffered) != [] {
      var t := LastRound(s, ref);
      WaitStays(t, ref, frame);
      StayTwice(s.pendings, ps, KeepWaiting(t, ref, frame).pendings);
    }
  }

  lemma RetryStays(s: Seam, m: Move)
    requires m.Retry?
    ensures AnswersStay(s.pendings, Next(s, m).pendings)
  {
    if m.token in s.rounds && s.rounds[m.token] < |s.heap| {
      var ref := s.rounds[m.token];
      var t := AcceptRetry(Popped(s, m.token), ref, m.id, m.session, m.responses);
      assert AnswersStay(s.pendings, t.pendings);
      hide AcceptRetry, FinalFrame;
      if t.heap[ref].final.Some? {
        FinalStays(t, ref, t.heap[ref].final.value);
        StayTwice(s.pendings, t.pendings, FinalFrame(t, ref, t.heap[ref].final.value).pendings);
      }
    }
  }

  lemma FinishStays(s: Seam, m: Move)
    requires m.HandlerConcludes?
    ensures AnswersStay(s.pendings, Next(s, m).pendings)
  {
    hide KeepWaiting, FinalFrame, SettleUnavailable;
    if m.id !in s.cancelled && m.id in s.calls && s.calls[m.id] < |s.heap| {
      var ref, t := s.calls[m.id], Concluding(s, m.id);
      if t.heap[ref].round.Some? {
        var u := t.(pendings := SettleUnavailable(t.pendings, AwaitedBy(t.heap[ref])));
        SettledStay(s.pendings, AwaitedBy(t.heap[ref]));
        WaitStays(u, ref, m.frame);
        StayTwice(s.pendings, u.pendings, KeepWaiting(u, ref, m.frame).pendings);
      } else {
        FinalStays(t, ref, m.frame);
      }
    }
  }

  lemma MoveStays(s: Seam, m: Move)
    requires Enabled(s, m)
    ensures AnswersStay(s.pendings, Next(s, m).pendings)
  {
    hide TakeRetry, Finish, SettleUnavailable;
    match m
    case Retry(_, _, _, _) => RetryStays(s, m);
    case HandlerConcludes(_, _) => FinishStays(s, m);
    case CancelArrives(_, ref) =>
      SettledStay(s.pendings, AwaitedBy(s.heap[ref]) + s.heap[ref].bufferedAwaiting.Values);
    case Drops(ref) =>
      SettledStay(s.pendings, AwaitedBy(s.heap[ref]) + s.heap[ref].bufferedAwaiting.Values);
    case _ =>
  }

  /** However a run goes on, an answer an attempt has had stays the one it has. */
  lemma {:induction false} AnswersStand(s: Seam, ms: seq<Move>)
    requires Legal(s, ms)
    ensures AnswersStay(s.pendings, Play(s, ms).pendings)
    decreases |ms|
  {
    hide Enabled, Next, AnswersStay;
    if ms == [] {
      StaySame(s.pendings);
    } else {
      MoveStays(s, ms[0]);
      AnswersStand(Next(s, ms[0]), ms[1..]);
      StayTwice(s.pendings, Next(s, ms[0]).pendings, Play(Next(s, ms[0]), ms[1..]).pendings);
    }
  }

  lemma StaySame(ps: seq<Pending>)
    ensures AnswersStay(ps, ps)
  {
  }

  // ----- who is without an answer -----

  /** The attempt may still get an answer: its wait has not run out, and it was displaced, or it is still to be sent,
      or the round out carried it and its call's handler is at work. */
  ghost predicate MayWait(x: Pending, p: nat, c: Call) {
    && !x.timedOut
    && (|| p in c.shadowed
        || (!c.ended && p in c.bufferedAwaiting.Values)
        || (!c.finished && c.round.Some? && p in c.round.value.awaiting.Values))
  }

  ghost predicate AnswerInv(ps: seq<Pending>, r: nat, c: Call) {
    forall p :: 0 <= p < |ps| && ps[p].call == r ==>
      && (ps[p].response.None? <==> MayWait(ps[p], p, c))
      && (c.round.Some? && ps[p].carriedBy == Some(c.round.value.token) ==> p in c.round.value.awaiting.Values)
  }

  /** What the call waits for are attempts of its own that were not displaced. */
  ghost predicate OwnWaits(ps: seq<Pending>, r: nat, c: Call) {
    && (forall p :: p in c.bufferedAwaiting.Values ==>
          p < |ps| && ps[p].call == r && p !in c.shadowed && ps[p].carriedBy.None?)
    && (c.round.Some? ==>
          forall p :: p in c.round.value.awaiting.Values ==>
            p < |ps| && ps[p].call == r && p !in c.shadowed && ps[p].carriedBy == Some(c.round.value.token))
  }

  ghost predicate WaitInv(ps: seq<Pending>, r: nat, c: Call) {
    AnswerInv(ps, r, c) && OwnWaits(ps, r, c) && (c.ended ==> c.finished)
  }

  /** Nothing waits to be sent for a handler that concluded, but while a round is out. */
  ghost predicate ClearInv(c: Call) {
    c.finished && !c.ended && c.round.None? ==> c.bufferedAwaiting == map[]
  }

  ghost predicate CarriedIssued(s: Seam) {
    forall p :: 0 <= p < |s.pendings| && s.pendings[p].carriedBy.Some? ==> s.pendings[p].carriedBy.value in s.issued
  }

  ghost predicate WaitsInv(s: Seam) {
    && (forall r :: 0 <= r < |s.heap| ==> WaitInv(s.pendings, r, s.heap[r]))
    && (forall r :: 0 <= r < |s.heap| ==> ClearInv(s.heap[r]))
    && CarriedIssued(s)
  }

  /** The same, but that `ref` may still have attempts to clear. */
  ghost predicate WaitsInvBut(s: Seam, ref: nat) {
    && (forall r :: 0 <= r < |s.heap| ==> WaitInv(s.pendings, r, s.heap[r]))
    && (forall r :: 0 <= r < |s.heap| && r != ref ==> ClearInv(s.heap[r]))
    && CarriedIssued(s)
  }

  /** The other calls, and their attempts, are as they were. */
  ghost predicate OthersStand(s: Seam, t: Seam, ref: nat) {
    && |s.heap| == |t.heap| && |s.pendings| <= |t.pendings|
    && (forall r :: 0 <= r < |s.heap| && r != ref ==> t.heap[r] == s.heap[r])
    && (forall p :: 0 <= p < |s.pendings| && s.pendings[p].call != ref ==> t.pendings[p] == s.pendings[p])
    && (forall p :: 0 <= p < |s.pendings| ==> t.pendings[p].call == s.pendings[p].call)
    && (forall p :: |s.pendings| <= p < |t.pendings| ==> t.pendings[p].call == ref)
  }

  lemma OthersWait(s: Seam, t: Seam, ref: nat)
    requires WaitsInvBut(s, ref) && OthersStand(s, t, ref) && ref < |t.heap|
    requires WaitInv(t.pendings, ref, t.heap[ref]) && ClearInv(t.heap[ref]) && CarriedIssued(t)
    ensures WaitsInv(t)
  {
    hide MayWait, CarriedIssued, ClearInv;
    forall r | 0 <= r < |t.heap| ensures WaitInv(t.pendings, r, t.heap[r]) {
      if r != ref {
        assert WaitInv(s.pendings, r, s.heap[r]);
      }
    }
    forall r | 0 <= r < |t.heap| ensures ClearInv(t.heap[r]) {
      if r != ref {
        assert ClearInv(s.heap[r]);
      }
    }
  }

  lemma SettledOwn(ps: seq<Pending>, r: nat, c: Call, which: set<nat>)
    requires forall p :: p in which ==> p < |ps| && ps[p].call == r
    ensures var qs := SettleUnavailable(ps, which);
            && |qs| == |ps|
            && (forall p :: 0 <= p < |ps| ==> qs[p].call == ps[p].call && qs[p].carriedBy == ps[p].carriedBy
                                              && qs[p].timedOut == ps[p].timedOut)
            && (forall p :: 0 <= p < |ps| && p !in which ==> qs[p] == ps[p])
            && (forall p :: 0 <= p < |ps| && p in which ==> qs[p].response.Some?)
  {
  }

  // ----- the end of a call -----

  lemma EndOwnWaits(ps: seq<Pending>, r: nat, c: Call, d: Call)
    requires WaitInv(ps, r, c)
    requires d == c.(finished := true, ended := true, final := d.final, bufferedAwaiting := map[],
                     finalEvents := d.finalEvents, shown := d.shown, buffered := d.buffered)
    ensures WaitInv(SettleUnavailable(ps, AwaitedBy(c) + c.bufferedAwaiting.Values), r, d)
  {
    SettledOwn(ps, r, c, AwaitedBy(c) + c.bufferedAwaiting.Values);
    hide SettleUnavailable;
  }

  lemma EndWaits(s: Seam, ref: nat)
    requires WaitsInvBut(s, ref) && ref < |s.heap|
    ensures WaitsInv(EndCall(s, ref)) && |EndCall(s, ref).heap| == |s.heap|
  {
    var c, t := s.heap[ref], EndCall(s, ref);
    var which := AwaitedBy(c) + c.bufferedAwaiting.Values;
    assert WaitInv(s.pendings, ref, c);
    EndOwnWaits(s.pendings, ref, c, t.heap[ref]);
    SettledOwn(s.pendings, ref, c, which);
    hide SettleUnavailable, WaitInv, Unlisted;
    OthersWait(s, t, ref);
  }

  /** A call that holds its frame: only that it holds one changes. */
  lemma HoldingWaits(s: Seam, ref: nat, frame: Frame)
    requires WaitsInv(s) && ref < |s.heap|
    ensures WaitsInv(KeepWaiting(s, ref, frame))
  {
    var t := Waits(s, ref, frame);
    assert WaitsInv(t) by {
      assert WaitInv(s.pendings, ref, s.heap[ref]);
      OthersWait(s, t, ref);
    }
    hide WaitsInv, EndCall, Unlisted;
    if |t.waiting| > MAX_IDLE_SESSIONS && t.waiting[0].1 < |t.heap| {
      WaitsBut(t, t.waiting[0].1);
      EndWaits(t, t.waiting[0].1);
    }
  }

  lemma WaitsBut(s: Seam, ref: nat)
    requires WaitsInv(s)
    ensures WaitsInvBut(s, ref)
  {
  }

  // ----- the final frame -----

  lemma ClearedWaits(ps: seq<Pending>, r: nat, c: Call, d: Call)
    requires WaitInv(ps, r, c) && c.finished && c.round.None?
    requires d.bufferedAwaiting == map[] && d.shadowed == c.shadowed && d.round == c.round && d.finished
    ensures WaitInv(SettleUnavailable(ps, c.bufferedAwaiting.Values), r, d)
  {
    SettledOwn(ps, r, c, c.bufferedAwaiting.Values);
    hide SettleUnavailable;
  }

  lemma FinalWaits(s: Seam, ref: nat, frame: Frame)
    requires WaitsInvBut(s, ref) && ref < |s.heap| && s.heap[ref].finished
    requires s.heap[ref].round.None? && s.heap[ref].current.Some?
    ensures WaitsInv(FinalFrame(s, ref, frame))
  {
    var c := s.heap[ref];
    assert WaitInv(s.pendings, ref, c);
    SettledOwn(s.pendings, ref, c, c.bufferedAwaiting.Values);
    if frame == ErrorFrame && Outcomes(c.buffered) != [] {
      var t := LastRound(s, ref);
      ClearedWaits(s.pendings, ref, c, t.heap[ref]);
      hide SettleUnavailable, WaitInv, KeepWaiting;
      OthersWait(s, t, ref);
      hide WaitsInv;
      HoldingWaits(t, ref, frame);
    } else {
      var t := FinalFrame(s, ref, frame);
      ClearedWaits(s.pendings, ref, c, t.heap[ref]);
      hide SettleUnavailable, WaitInv, Unlisted, Outcomes;
      OthersWait(s, t, ref);
    }
  }

  // ----- a retry, and a handler that concludes -----

  lemma AcceptedOwn(s: Seam, ref: nat, id: RequestId, session: Option<string>, responses: map<string, Answer>)
    requires ref < |s.heap| && WaitInv(s.pendings, ref, s.heap[ref]) && s.heap[ref].round.Some?
    ensures var t := AcceptRetry(s, ref, id, session, responses); WaitInv(t.pendings, ref, t.heap[ref])
  {
    hide HasAttempt;
  }

  lemma AcceptedWaits(s: Seam, ref: nat, id: RequestId, session: Option<string>, responses: map<string, Answer>)
    requires WaitsInv(s) && ref < |s.heap| && s.heap[ref].round.Some?
    ensures WaitsInvBut(AcceptRetry(s, ref, id, session, responses), ref)
  {
    var c, t := s.heap[ref], AcceptRetry(s, ref, id, session, responses);
    AcceptedOwn(s, ref, id, session, responses);
    assert WaitInv(s.pendings, ref, c);
    assert OthersStand(s, t, ref) && CarriedIssued(t);
    hide AcceptRetry, MayWait, ClearInv;
    forall r | 0 <= r < |t.heap| ensures WaitInv(t.pendings, r, t.heap[r]) {
      if r != ref {
        assert WaitInv(s.pendings, r, s.heap[r]);
      }
    }
  }

  lemma RetryWaits(s: Seam, m: Move)
    requires Inv(s) && R.StagesInv(s) && WaitsInv(s) && m.Retry?
    ensures WaitsInv(Next(s, m))
  {
    if m.token in s.rounds && s.rounds[m.token] < |s.heap| {
      TakenWaits(s, m);
    } else {
      assert Next(s, m) == Refuse(s);
      RefusedWaits(s);
    }
    hide *;
  }

  lemma RefusedWaits(s: Seam)
    requires WaitsInv(s)
    ensures WaitsInv(Refuse(s))
  {
    hide WaitInv, ClearInv;
  }

  lemma TakenWaits(s: Seam, m: Move)
    requires Inv(s) && R.StagesInv(s) && WaitsInv(s) && m.Retry? && m.token in s.rounds && s.rounds[m.token] < |s.heap|
    ensures WaitsInv(Next(s, m))
  {
    var ref := s.rounds[m.token];
    var p := Popped(s, m.token);
    var t := AcceptRetry(p, ref, m.id, m.session, m.responses);
    var c := s.heap[ref];
    TokenNames(s, m.token);
    R.StandOf(s, ref);
    assert R.StageInv(c);
    PoppedWaits(s, m.token);
    AcceptedShape(p, ref, m.id, m.session, m.responses);
    hide Inv, AcceptRetry, FinalFrame, WaitsInv, EventsInv;
    AcceptedWaits(p, ref, m.id, m.session, m.responses);
    if c.final.Some? {
      FinalWaits(t, ref, c.final.value);
    } else {
      NothingToClear(t, ref);
    }
  }

  lemma PoppedWaits(s: Seam, token: Token)
    requires WaitsInv(s)
    ensures WaitsInv(Popped(s, token))
  {
    hide WaitInv, ClearInv;
  }

  lemma AcceptedShape(s: Seam, ref: nat, id: RequestId, session: Option<string>, responses: map<string, Answer>)
    requires ref < |s.heap|
    ensures var t, c := AcceptRetry(s, ref, id, session, responses), s.heap[ref];
            && |t.heap| == |s.heap| && t.heap[ref].final == c.final && t.heap[ref].finished == c.finished
            && t.heap[ref].ended == c.ended && t.heap[ref].round.None? && t.heap[ref].current.Some?
  {
    hide SettleRound, HasAttempt;
  }

  lemma NothingToClear(s: Seam, ref: nat)
    requires WaitsInvBut(s, ref) && ref < |s.heap| && !s.heap[ref].finished
    ensures WaitsInv(s)
  {
    hide WaitInv;
  }

  lemma FinishWaits(s: Seam, m: Move)
    requires Inv(s) && R.StagesInv(s) && WaitsInv(s) && m.HandlerConcludes?
    ensures WaitsInv(Next(s, m))
  {
    if m.id !in s.cancelled && m.id in s.calls {
      CalledIsLive(s, m.id);
      ConcludedWaits(s, m.id, m.frame);
    } else {
      hide WaitInv, ClearInv, KeepWaiting, FinalFrame;
    }
  }

  lemma ConcludedWaits(s: Seam, id: RequestId, frame: Frame)
    requires Inv(s) && R.StagesInv(s) && WaitsInv(s)
    requires id !in s.cancelled && id in s.calls && s.calls[id] < |s.heap|
    ensures WaitsInv(Finish(s, id, frame))
  {
    hide *;
    var ref, t := s.calls[id], Concluding(s, id);
    ConcludingKeeps(s, id);
    R.ConcludingStands(s, id);
    R.FinishCases(s, id, frame);
    R.ConcludedRound(s, id);
    if t.heap[ref].round.Some? {
      HeldWaits(s, id);
      HoldingWaits(t.(pendings := SettleUnavailable(t.pendings, AwaitedBy(t.heap[ref]))), ref, frame);
    } else {
      UnheldWaits(s, id);
      FinalWaits(t, ref, frame);
    }
  }

  /** With a round out, what it carried goes unanswered; what waits to be sent waits for its retry. */
  lemma HeldWaits(s: Seam, id: RequestId)
    requires WaitsInv(s) && id in s.calls && s.calls[id] < |s.heap| && s.heap[s.calls[id]].round.Some?
    ensures var t := Concluding(s, id);
            WaitsInv(t.(pendings := SettleUnavailable(t.pendings, AwaitedBy(t.heap[s.calls[id]]))))
  {
    var ref := s.calls[id];
    var c, t := s.heap[ref], Concluding(s, id);
    var u := t.(pendings := SettleUnavailable(t.pendings, AwaitedBy(t.heap[ref])));
    assert WaitInv(s.pendings, ref, c);
    SettledOwn(s.pendings, ref, c, AwaitedBy(c));
    HeldOwn(s.pendings, ref, c);
    hide WaitInv, SettleUnavailable;
    OthersWait(s, u, ref);
  }

  lemma HeldOwn(ps: seq<Pending>, r: nat, c: Call)
    requires WaitInv(ps, r, c) && c.round.Some?
    ensures WaitInv(SettleUnavailable(ps, AwaitedBy(c)), r, c.(finished := true))
  {
    SettledOwn(ps, r, c, AwaitedBy(c));
    hide SettleUnavailable;
  }

  lemma UnheldWaits(s: Seam, id: RequestId)
    requires WaitsInv(s) && id in s.calls && s.calls[id] < |s.heap| && s.heap[s.calls[id]].round.None?
    ensures WaitsInvBut(Concluding(s, id), s.calls[id])
  {
    var ref := s.calls[id];
    var t := Concluding(s, id);
    assert WaitInv(s.pendings, ref, s.heap[ref]);
    assert WaitInv(t.pendings, ref, t.heap[ref]);
    hide WaitInv, ClearInv;
  }

  // ----- attempts, rounds and waits -----

  lemma AttemptWaits(s: Seam, ref: nat, e: Event)
    requires Inv(s) && WaitsInv(s) && ref < |s.heap|
    ensures WaitsInv(SendAttempt(s, ref, e))
  {
    hide *;
    if !s.heap[ref].finished && !s.heap[ref].ended {
      OwnInvOf(s, ref);
      WaitOf(s, ref);
      AttemptShape(s, ref, e);
      AttemptOwnWaits(s, ref, e);
      OthersWait(s, SendAttempt(s, ref, e), ref);
    } else {
      NothingSent(s, ref, e);
    }
  }

  lemma OwnInvOf(s: Seam, ref: nat)
    requires Inv(s) && ref < |s.heap|
    ensures OwnInv(s, ref)
  {
    hide CallsInv, WaitingInv, TokensInv, SerialsInv, PendingsInv, OwnInv;
    OwnOf(s, ref);
  }

  lemma WaitOf(s: Seam, ref: nat)
    requires WaitsInv(s) && ref < |s.heap|
    ensures WaitInv(s.pendings, ref, s.heap[ref]) && WaitsInvBut(s, ref)
  {
  }

  lemma NothingSent(s: Seam, ref: nat, e: Event)
    requires ref < |s.heap| && (s.heap[ref].finished || s.heap[ref].ended)
    ensures SendAttempt(s, ref, e) == s
  {
  }

  lemma AttemptShape(s: Seam, ref: nat, e: Event)
    requires WaitsInvBut(s, ref) && ref < |s.heap| && !s.heap[ref].finished && !s.heap[ref].ended
    ensures var t := SendAttempt(s, ref, e);
            OthersStand(s, t, ref) && ref < |t.heap| && ClearInv(t.heap[ref]) && CarriedIssued(t)
  {
    hide NameOf, WaitInv;
  }

  /** The attempt waits to be sent, in the place of one of its id. */
  lemma BufferedNow(ps: seq<Pending>, r: nat, c: Call, name: string, n: nat)
    requires AttemptsInv(ps, r, c) && n == |ps|
    ensures forall p :: p in c.bufferedAwaiting[name := n].Values <==>
              || p == n
              || (p in c.bufferedAwaiting.Values
                  && !(name in c.bufferedAwaiting && c.bufferedAwaiting[name] == p))
  {
    var before, after := c.bufferedAwaiting, c.bufferedAwaiting[name := n];
    assert forall k :: k in before ==> IsPendingOf(ps, r, k, before[k]);
    hide AttemptsInv;
    assert after[name] == n;
    forall p
      ensures p in after.Values <==>
                p == n || (p in before.Values && !(name in before && before[name] == p))
    {
      if p in before.Values {
        var k :| k in before && before[k] == p;
        assert k != name ==> after[k] == p;
      }
      if p in after.Values {
        var k :| k in after && after[k] == p;
        assert k != name ==> k in before && before[k] == p;
      }
    }
  }

  lemma AttemptOwnWaits(s: Seam, ref: nat, e: Event)
    requires ref < |s.heap| && WaitInv(s.pendings, ref, s.heap[ref]) && OwnInv(s, ref)
    requires !s.heap[ref].finished && !s.heap[ref].ended
    ensures var t := SendAttempt(s, ref, e); WaitInv(t.pendings, ref, t.heap[ref])
  {
    var c, t := s.heap[ref], SendAttempt(s, ref, e);
    var d := t.heap[ref];
    BufferedNow(s.pendings, ref, c, NameOf(e), |s.pendings|);
    assert t.pendings == s.pendings + [Pending(ref, e, None, None, None, false)];
    assert d == c.(buffered := d.buffered, emitted := d.emitted, shadowed := d.shadowed,
                   bufferedAwaiting := c.bufferedAwaiting[NameOf(e) := |s.pendings|], roundScheduled := true);
    assert d.shadowed == c.shadowed + if NameOf(e) in c.bufferedAwaiting then {c.bufferedAwaiting[NameOf(e)]} else {};
    assert |s.pendings| !in d.shadowed by {
      assert AttemptsInv(s.pendings, ref, c);
      hide LatestInv;
    }
    hide OwnInv, NameOf, SendAttempt;
  }

  /** What waited to be sent is what the round out carries. */
  lemma OutOwnWaits(ps: seq<Pending>, r: nat, c: Call, d: Call, token: Token)
    requires WaitInv(ps, r, c) && ClearInv(c) && !c.ended && c.round.None?
    requires forall p :: 0 <= p < |ps| ==> ps[p].carriedBy != Some(token)
    requires d == c.(roundScheduled := false, buffered := [], bufferedAwaiting := map[], current := None,
                     round := Some(Round(token, c.bufferedAwaiting)), rounds := d.rounds)
    ensures WaitInv(CarryAll(ps, c.bufferedAwaiting.Values, token), r, d) && ClearInv(d)
  {
    var qs := CarryAll(ps, c.bufferedAwaiting.Values, token);
    assert |qs| == |ps|;
    assert forall p :: 0 <= p < |ps| ==>
        qs[p] == if p in c.bufferedAwaiting.Values then ps[p].(carriedBy := Some(token)) else ps[p];
    hide CarryAll;
  }

  lemma RoundOwnWaits(s: Seam, ref: nat, token: Token)
    requires ref < |s.heap| && WaitInv(s.pendings, ref, s.heap[ref]) && ClearInv(s.heap[ref])
    requires CarriedIssued(s) && token !in s.issued && !s.heap[ref].ended
    ensures var t := EndRound(s, ref, token); WaitInv(t.pendings, ref, t.heap[ref]) && ClearInv(t.heap[ref])
  {
    var c, t := s.heap[ref], EndRound(s, ref, token);
    if c.round.None? && c.current.Some? && c.buffered != [] {
      assert t.pendings == CarryAll(s.pendings, c.bufferedAwaiting.Values, token);
      hide WaitInv, ClearInv, CarryAll;
      OutOwnWaits(s.pendings, ref, c, t.heap[ref], token);
    } else {
      assert t.heap[ref] == c.(roundScheduled := false) && t.pendings == s.pendings;
      hide CarryAll, EndRound;
    }
  }

  lemma RoundWaits(s: Seam, ref: nat, token: Token)
    requires WaitsInv(s) && ref < |s.heap| && token !in s.issued
    ensures WaitsInv(EndRound(s, ref, token))
  {
    var t := EndRound(s, ref, token);
    assert WaitInv(s.pendings, ref, s.heap[ref]) && ClearInv(s.heap[ref]);
    if s.heap[ref].ended {
      assert WaitInv(t.pendings, ref, t.heap[ref]) && ClearInv(t.heap[ref]);
    } else {
      RoundOwnWaits(s, ref, token);
    }
    assert CarriedIssued(t) && OthersStand(s, t, ref);
    hide WaitInv, EndRound, CarriedIssued, ClearInv;
    OthersWait(s, t, ref);
  }

  lemma TimeoutWaits(s: Seam, p: nat)
    requires PendingsInv(s) && WaitsInv(s) && p < |s.pendings|
    ensures WaitsInv(Timeout(s, p))
  {
    var ref, t := s.pendings[p].call, Timeout(s, p);
    assert PendingInv(s, s.pendings[p]);
    assert WaitInv(s.pendings, ref, s.heap[ref]);
    assert WaitInv(t.pendings, ref, t.heap[ref]);
    hide WaitInv, ClearInv;
    OthersWait(s, t, ref);
  }

  lemma NewWaits(s: Seam, id: RequestId, audit: Option<string>)
    requires PendingsInv(s) && WaitsInv(s)
    ensures WaitsInv(TakeNew(s, id, audit))
  {
    var t := TakeNew(s, id, audit);
    forall p | 0 <= p < |s.pendings| ensures s.pendings[p].call < |s.heap| {
      assert PendingInv(s, s.pendings[p]);
    }
    assert WaitInv(t.pendings, |s.heap|, t.heap[|s.heap|]);
    hide WaitInv;
    forall r | 0 <= r < |t.heap| ensures WaitInv(t.pendings, r, t.heap[r]) {
      assert r < |s.heap| ==> t.heap[r] == s.heap[r];
    }
  }

  lemma OutcomeWaits(s: Seam, ref: nat, e: Event)
    requires WaitsInv(s) && ref < |s.heap|
    ensures WaitsInv(SendOutcome(s, ref, e))
  {
    var t := SendOutcome(s, ref, e);
    assert WaitInv(s.pendings, ref, s.heap[ref]);
    assert WaitInv(t.pendings, ref, t.heap[ref]);
    hide WaitInv;
    OthersWait(s, t, ref);
  }

  lemma CancelledWaits(s: Seam, cancelled: map<RequestId, nat>)
    requires WaitsInv(s)
    ensures WaitsInv(s.(cancelled := cancelled))
  {
    hide WaitInv, ClearInv;
  }

  lemma MoveWaits(s: Seam, m: Move)
    requires Inv(s) && R.StagesInv(s) && WaitsInv(s) && Enabled(s, m)
    ensures WaitsInv(Next(s, m))
  {
    assert PendingsInv(s);
    hide Inv, R.StagesInv, WaitsInv, TakeNew, TakeRetry, SendAttempt, SendOutcome, Timeout, EndRound, Finish, EndCall;
    match m
    case NewCall(id, audit) => NewWaits(s, id, audit);
    case Retry(_, _, _, _) => RetryWaits(s, m);
    case EmitAttempt(ref, e) => AttemptWaits(s, ref, e);
    case EmitOutcome(ref, e) => OutcomeWaits(s, ref, e);
    case TimesOut(p) => TimeoutWaits(s, p);
    case RoundGoes(ref, token) => RoundWaits(s, ref, token);
    case HandlerConcludes(_, _) => FinishWaits(s, m);
    case CancelArrives(_, ref) =>
      WaitsBut(s, ref);
      EndWaits(s, ref);
      CancelledWaits(EndCall(s, ref), EndCall(s, ref).cancelled[s.heap[ref].originalId := ref]);
    case Forgets(id) => CancelledWaits(s, s.cancelled - {id});
    case Drops(ref) =>
      WaitsBut(s, ref);
      EndWaits(s, ref);
  }

  lemma {:induction false} PlayWaits(s: Seam, ms: seq<Move>)
    requires Inv(s) && R.StagesInv(s) && WaitsInv(s) && Legal(s, ms)
    ensures WaitsInv(Play(s, ms))
    decreases |ms|
  {
    hide Inv, R.StagesInv, WaitsInv, Enabled, Next;
    if ms != [] {
      MoveWaits(s, ms[0]);
      MoveKeepsInv(s, ms[0]);
      R.MoveFollows(s, ms[0]);
      PlayWaits(Next(s, ms[0]), ms[1..]);
    }
  }

  /**
   * Over every run, an attempt is without an answer exactly while it can still get one: its own wait has not run
   * out, and it waits for a round of a call that has not ended, or the round out carried it while its handler is
   * at work, or a later attempt of its id displaced it. So nothing waits on a call that concluded or was dropped, nor
   * on a round whose retry came, but a displaced attempt.
   */
  lemma UnansweredIff(ms: seq<Move>, p: nat)
    requires Legal(NEW_SEAM, ms) && p < |Play(NEW_SEAM, ms).pendings|
    ensures var s := Play(NEW_SEAM, ms);
            var x := s.pendings[p];
            && x.call < |s.heap|
            && var c := s.heap[x.call];
            && (x.response.None? <==>
                  && !x.timedOut
                  && (|| Displaced(s.pendings, p)
                      || (!c.ended && p in c.bufferedAwaiting.Values)
                      || (!c.finished && c.round.Some? && x.carriedBy == Some(c.round.value.token))))
            && (p in c.bufferedAwaiting.Values ==> x.carriedBy.None?)
  {
    hide Legal, Play;
    assert Inv(NEW_SEAM) && R.StagesInv(NEW_SEAM) && WaitsInv(NEW_SEAM);
    PlayWaits(NEW_SEAM, ms);
    PlayKeepsInv(NEW_SEAM, ms);
    var s := Play(NEW_SEAM, ms);
    WaitsOf(s, p);
  }

  lemma WaitsOf(s: Seam, p: nat)
    requires Inv(s) && WaitsInv(s) && p < |s.pendings|
    ensures var x := s.pendings[p];
            && x.call < |s.heap|
            && var c := s.heap[x.call];
            && (x.response.None? <==>
                  && !x.timedOut
                  && (|| Displaced(s.pendings, p)
                      || (!c.ended && p in c.bufferedAwaiting.Values)
                      || (!c.finished && c.round.Some? && x.carriedBy == Some(c.round.value.token))))
            && (p in c.bufferedAwaiting.Values ==> x.carriedBy.None?)
  {
    hide CallsInv, WaitingInv, TokensInv, SerialsInv, EventsInv, ScheduleInv, Displaced;
    var x := s.pendings[p];
    assert PendingInv(s, x);
    var c := s.heap[x.call];
    assert WaitInv(s.pendings, x.call, c);
    assert AttemptsInv(s.pendings, x.call, c);
    assert p in c.shadowed <==> Displaced(s.pendings, p);
    hide WaitsInv, HeapInv, PendingsInv;
  }

  // ----- the attempts are those emitted -----

  /** The attempts that were ever to be answered for a call, in order. */
  function AttemptsFor(ps: seq<Pending>, r: nat): seq<Event> {
    if ps == [] then
      []
    else
      var n := |ps| - 1;
      AttemptsFor(ps[..n], r) + if ps[n].call == r then [ps[n].event] else []
  }

  function AttemptsAmong(es: seq<Event>): seq<Event> {
    if es == [] then
      []
    else
      var n := |es| - 1;
      AttemptsAmong(es[..n]) + if IsAttempt(es[n]) then [es[n]] else []
  }

  lemma {:induction false} SameAttemptsFor(ps: seq<Pending>, qs: seq<Pending>, r: nat)
    requires |ps| == |qs| && AnswersStay(ps, qs)
    ensures AttemptsFor(ps, r) == AttemptsFor(qs, r)
    decreases |ps|
  {
    if ps != [] {
      SameAttemptsFor(ps[..|ps| - 1], qs[..|ps| - 1], r);
    }
  }

  lemma {:induction false} NoneFor(ps: seq<Pending>, r: nat)
    requires forall p :: 0 <= p < |ps| ==> ps[p].call != r
    ensures AttemptsFor(ps, r) == []
  {
    if ps != [] {
      NoneFor(ps[..|ps| - 1], r);
    }
  }

  /** A move that emits nothing adds no attempt, and changes nothing that was emitted. */
  lemma NothingEmitted(s: Seam, m: Move)
    requires Inv(s) && R.StagesInv(s) && Enabled(s, m) && !m.EmitAttempt? && !m.EmitOutcome?
    ensures |Next(s, m).pendings| == |s.pendings| && |s.heap| <= |Next(s, m).heap|
    ensures forall r :: 0 <= r < |s.heap| ==> Next(s, m).heap[r].emitted == s.heap[r].emitted
    ensures forall r :: |s.heap| <= r < |Next(s, m).heap| ==> Next(s, m).heap[r].emitted == []
  {
    hide FinalFrame, KeepWaiting, Unlisted, HasAttempt, Inv, Finish;
    match m
    case Retry(_, _, _, _) =>
      if m.token in s.rounds && s.rounds[m.token] < |s.heap| {
        var ref := s.rounds[m.token];
        var t := AcceptRetry(Popped(s, m.token), ref, m.id, m.session, m.responses);
        AcceptEmitsNothing(Popped(s, m.token), ref, m.id, m.session, m.responses);
        hide AcceptRetry;
        if t.heap[ref].final.Some? {
          FinalEmitsNothing(t, ref, t.heap[ref].final.value);
        }
      }
    case HandlerConcludes(_, _) => FinishEmitsNothing(s, m.id, m.frame);
    case _ =>
  }

  lemma FinishEmitsNothing(s: Seam, id: RequestId, frame: Frame)
    ensures var t := Finish(s, id, frame);
            && |t.pendings| == |s.pendings| && |t.heap| == |s.heap|
            && forall r :: 0 <= r < |s.heap| ==> t.heap[r].emitted == s.heap[r].emitted
  {
    hide FinalFrame, KeepWaiting;
    if id !in s.cancelled && id in s.calls && s.calls[id] < |s.heap| {
      var ref, t := s.calls[id], Concluding(s, id);
      FinalEmitsNothing(t, ref, frame);
      WaitEmitsNothing(t.(pendings := SettleUnavailable(t.pendings, AwaitedBy(t.heap[ref]))), ref, frame);
    }
  }

  lemma AcceptEmitsNothing(s: Seam, ref: nat, id: RequestId, session: Option<string>, responses: map<string, Answer>)
    requires ref < |s.heap|
    ensures var t := AcceptRetry(s, ref, id, session, responses);
            && |t.pendings| == |s.pendings| && |t.heap| == |s.heap|
            && forall r :: 0 <= r < |s.heap| ==> t.heap[r].emitted == s.heap[r].emitted
  {
    hide HasAttempt;
  }

  lemma WaitEmitsNothing(s: Seam, ref: nat, frame: Frame)
    requires ref < |s.heap|
    ensures var t := KeepWaiting(s, ref, frame);
            && |t.pendings| == |s.pendings| && |t.heap| == |s.heap|
            && forall r :: 0 <= r < |s.heap| ==> t.heap[r].emitted == s.heap[r].emitted
  {
    hide Unlisted;
  }

  lemma FinalEmitsNothing(s: Seam, ref: nat, frame: Frame)
    requires ref < |s.heap|
    ensures var t := FinalFrame(s, ref, frame);
            && |t.pendings| == |s.pendings| && |t.heap| == |s.heap|
            && forall r :: 0 <= r < |s.heap| ==> t.heap[r].emitted == s.heap[r].emitted
  {
    hide KeepWaiting, Unlisted, Outcomes;
    var c := s.heap[ref];
    if c.current.Some? && frame == ErrorFrame && Outcomes(c.buffered) != [] {
      WaitEmitsNothing(LastRound(s, ref), ref, frame);
    }
  }

  ghost predicate AttemptsEmitted(s: Seam) {
    forall r :: 0 <= r < |s.heap| ==> AttemptsFor(s.pendings, r) == AttemptsAmong(s.heap[r].emitted)
  }

  lemma CallsExist(s: Seam)
    requires Inv(s)
    ensures forall p :: 0 <= p < |s.pendings| ==> s.pendings[p].call < |s.heap|
  {
    hide CallsInv, WaitingInv, TokensInv, SerialsInv, HeapInv, CarriedIn;
    forall p | 0 <= p < |s.pendings| ensures s.pendings[p].call < |s.heap| {
      assert PendingInv(s, s.pendings[p]);
    }
  }

  lemma EmissionCounts(s: Seam, m: Move)
    requires AttemptsEmitted(s) && Enabled(s, m) && (m.EmitAttempt? || m.EmitOutcome?)
    ensures AttemptsEmitted(Next(s, m))
  {
    var t := Next(s, m);
    var es, ps := s.heap[m.ref].emitted, s.pendings;
    assert (es + [m.event])[..|es|] == es;
    if |t.pendings| > |ps| {
      assert t.pendings[..|ps|] == ps;
    }
    hide NameOf;
  }

  lemma MoveEmits(s: Seam, m: Move)
    requires Inv(s) && R.StagesInv(s) && AttemptsEmitted(s) && Enabled(s, m)
    ensures AttemptsEmitted(Next(s, m))
  {
    if m.EmitAttempt? || m.EmitOutcome? {
      EmissionCounts(s, m);
    } else {
      NothingEmitted(s, m);
      MoveStays(s, m);
      CallsExist(s);
      var t := Next(s, m);
      hide Next, Inv;
      forall r | 0 <= r < |t.heap| ensures AttemptsFor(t.pendings, r) == AttemptsAmong(t.heap[r].emitted) {
        SameAttemptsFor(s.pendings, t.pendings, r);
        if r >= |s.heap| {
          NoneFor(s.pendings, r);
        }
      }
    }
  }

  lemma {:induction false} PlayEmits(s: Seam, ms: seq<Move>)
    requires Inv(s) && R.StagesInv(s) && AttemptsEmitted(s) && Legal(s, ms)
    ensures AttemptsEmitted(Play(s, ms))
    decreases |ms|
  {
    hide Inv, R.StagesInv, AttemptsEmitted, Enabled, Next;
    if ms != [] {
      MoveEmits(s, ms[0]);
      MoveKeepsInv(s, ms[0]);
      R.MoveFollows(s, ms[0]);
      PlayEmits(Next(s, ms[0]), ms[1..]);
    }
  }

  /** Over every run the attempts to be answered for a call are those its handler emitted, each once and in order. */
  lemma AttemptsAreEmitted(ms: seq<Move>, r: nat)
    requires Legal(NEW_SEAM, ms) && r < |Play(NEW_SEAM, ms).heap|
    ensures var s := Play(NEW_SEAM, ms); AttemptsFor(s.pendings, r) == AttemptsAmong(s.heap[r].emitted)
  {
    hide Legal, Play;
    assert Inv(NEW_SEAM) && R.StagesInv(NEW_SEAM) && AttemptsEmitted(NEW_SEAM);
    PlayEmits(NEW_SEAM, ms);
  }
}
