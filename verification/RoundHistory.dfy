/** What goes out on the tool's wire, against the moves of the run: whose frame, and on which request. */
module RoundHistory {
  import opened Events
  import opened HostModel
  import opened RoundModel
  import opened RoundInvariant

  /** The ids of the requests received, in order. */
  function RequestIds(ms: seq<Move>): seq<RequestId> {
    if ms == [] then
      []
    else
      var rest, m := RequestIds(ms[..|ms| - 1]), ms[|ms| - 1];
      if m.NewCall? || m.Retry? then rest + [m.id] else rest
  }

  lemma RequestsAfter(ms: seq<Move>, m: Move)
    ensures RequestIds(ms + [m]) == RequestIds(ms) + if m.NewCall? || m.Retry? then [m.id] else []
  {
    assert (ms + [m])[..|ms|] == ms;
  }

  /** A final frame is the one the call's own handler concluded with, and the call answers on the id of the
      request it was last given. */
  ghost predicate CallTold(ms: seq<Move>, c: Call) {
    && (c.final.Some? ==> HandlerConcludes(c.originalId, c.final.value) in ms)
    && (c.shown.Some? ==> HandlerConcludes(c.originalId, c.shown.value) in ms)
    && (c.current.Some? ==>
          && c.current.value.serial < |RequestIds(ms)|
          && RequestIds(ms)[c.current.value.serial] == c.current.value.id)
  }

  ghost predicate Told(ms: seq<Move>, s: Seam) {
    s.received == |RequestIds(ms)| && forall r :: 0 <= r < |s.heap| ==> CallTold(ms, s.heap[r])
  }

  lemma CallToldOn(ms: seq<Move>, m: Move, c: Call)
    requires CallTold(ms, c)
    ensures CallTold(ms + [m], c)
  {
    RequestsAfter(ms, m);
  }

  /** The same call but for what its frames and requests say. */
  predicate SameWords(c: Call, d: Call) {
    && d.originalId == c.originalId
    && (d.final == c.final || d.final.None?) && d.shown == c.shown && (d.current == c.current || d.current.None?)
  }

  lemma EndedSame(s: Seam, ref: nat)
    requires ref < |s.heap|
    ensures |EndCall(s, ref).heap| == |s.heap| && EndCall(s, ref).received == s.received
    ensures forall r :: 0 <= r < |s.heap| ==> SameWords(s.heap[r], EndCall(s, ref).heap[r])
  {
  }

  lemma WaitingTold(ms: seq<Move>, s: Seam, ref: nat, frame: Frame)
    requires ref < |s.heap| && Told(ms, s) && HandlerConcludes(s.heap[ref].originalId, frame) in ms
    ensures Told(ms, KeepWaiting(s, ref, frame))
  {
    var t := With(s.(waiting := Unlisted(s.waiting, s.heap[ref].originalId) + [(s.heap[ref].originalId, ref)]), ref,
                  s.heap[ref].(final := Some(frame)));
    if t.waiting[0].1 < |t.heap| {
      EndedSame(t, t.waiting[0].1);
    }
    hide EndCall, RequestIds;
  }

  lemma FinalFrameTold(ms: seq<Move>, s: Seam, ref: nat, frame: Frame)
    requires ref < |s.heap| && Told(ms, s) && HandlerConcludes(s.heap[ref].originalId, frame) in ms
    ensures Told(ms, FinalFrame(s, ref, frame))
  {
    hide KeepWaiting, SettleUnavailable, Outcomes, RequestIds;
    if s.heap[ref].current.Some? && frame == ErrorFrame && Outcomes(s.heap[ref].buffered) != [] {
      WaitingTold(ms, LastRound(s, ref), ref, frame);
    }
  }

  lemma AcceptedTold(ms: seq<Move>, s: Seam, m: Move)
    requires Told(ms, s) && m.Retry? && m.token in s.rounds && s.rounds[m.token] < |s.heap|
    ensures Told(ms + [m], AcceptRetry(Popped(s, m.token), s.rounds[m.token], m.id, m.session, m.responses))
  {
    RequestsAfter(ms, m);
    hide RequestIds, SettleRound;
    forall r | 0 <= r < |s.heap| ensures CallTold(ms + [m], s.heap[r]) {
      CallToldOn(ms, m, s.heap[r]);
    }
  }

  lemma RetryTold(ms: seq<Move>, s: Seam, m: Move)
    requires Told(ms, s) && m.Retry?
    ensures Told(ms + [m], TakeRetry(s, m.id, m.token, m.session, m.responses))
  {
    if m.token in s.rounds && s.rounds[m.token] < |s.heap| {
      AcceptedTold(ms, s, m);
      var ref := s.rounds[m.token];
      var t := AcceptRetry(Popped(s, m.token), ref, m.id, m.session, m.responses);
      hide AcceptRetry, FinalFrame, RequestIds;
      if t.heap[ref].final.Some? {
        FinalFrameTold(ms + [m], t, ref, t.heap[ref].final.value);
      }
    } else {
      RequestsAfter(ms, m);
      hide RequestIds;
      forall r | 0 <= r < |s.heap| ensures CallTold(ms + [m], s.heap[r]) {
        CallToldOn(ms, m, s.heap[r]);
      }
    }
  }

  lemma ToldOn(ms: seq<Move>, s: Seam, m: Move)
    requires Told(ms, s) && !m.NewCall? && !m.Retry?
    ensures Told(ms + [m], s)
  {
    RequestsAfter(ms, m);
    hide RequestIds;
    forall r | 0 <= r < |s.heap| ensures CallTold(ms + [m], s.heap[r]) {
      CallToldOn(ms, m, s.heap[r]);
    }
  }

  lemma FinishTold(ms: seq<Move>, s: Seam, m: Move)
    requires Told(ms, s) && m.HandlerConcludes? && CallsInv(s)
    ensures Told(ms + [m], Finish(s, m.id, m.frame))
  {
    ToldOn(ms, s, m);
    hide KeepWaiting, FinalFrame, SettleUnavailable, RequestIds;
    if m.id !in s.cancelled && m.id in s.calls {
      var ref := s.calls[m.id];
      var c := s.heap[ref].(finished := true);
      var t := With(s.(calls := s.calls - {m.id}), ref, c);
      assert Told(ms + [m], t);
      assert m in ms + [m] && m == HandlerConcludes(c.originalId, m.frame);
      if c.round.Some? {
        WaitingTold(ms + [m], t.(pendings := SettleUnavailable(t.pendings, AwaitedBy(c))), ref, m.frame);
      } else {
        FinalFrameTold(ms + [m], t, ref, m.frame);
      }
    }
  }

  lemma NewTold(ms: seq<Move>, s: Seam, m: Move)
    requires Told(ms, s) && m.NewCall?
    ensures Told(ms + [m], TakeNew(s, m.id, m.audit))
  {
    RequestsAfter(ms, m);
    hide RequestIds;
    forall r | 0 <= r < |s.heap| ensures CallTold(ms + [m], s.heap[r]) {
      CallToldOn(ms, m, s.heap[r]);
    }
  }

  /** A move that leaves every call's words as they were. */
  lemma QuietTold(ms: seq<Move>, s: Seam, m: Move)
    requires Told(ms, s) && Enabled(s, m)
    requires m.EmitAttempt? || m.EmitOutcome? || m.TimesOut? || m.RoundGoes? || m.Forgets?
    ensures Told(ms + [m], Next(s, m))
  {
    ToldOn(ms, s, m);
    hide RequestIds, NameOf, RunOut, CarryAll, IsAttempt;
  }

  lemma EndTold(ms: seq<Move>, s: Seam, m: Move)
    requires Told(ms, s) && Enabled(s, m) && (m.CancelArrives? || m.Drops?)
    ensures Told(ms + [m], Next(s, m))
  {
    ToldOn(ms, s, m);
    EndedSame(s, m.ref);
    hide RequestIds, EndCall;
  }

  lemma MoveTold(ms: seq<Move>, s: Seam, m: Move)
    requires Told(ms, s) && Inv(s) && Enabled(s, m)
    ensures Told(ms + [m], Next(s, m))
  {
    assert CallsInv(s);
    hide Inv, Told, TakeNew, TakeRetry, Finish, EndCall, SendAttempt, SendOutcome, Timeout, EndRound;
    match m
    case NewCall(_, _) => NewTold(ms, s, m);
    case Retry(_, _, _, _) => RetryTold(ms, s, m);
    case HandlerConcludes(_, _) => FinishTold(ms, s, m);
    case CancelArrives(_, _) => EndTold(ms, s, m);
    case Drops(_) => EndTold(ms, s, m);
    case _ => QuietTold(ms, s, m);
  }

  lemma {:induction false} PlayTold(s: Seam, before: seq<Move>, ms: seq<Move>)
    requires Inv(s) && Told(before, s) && Legal(s, ms)
    ensures Told(before + ms, Play(s, ms))
    decreases |ms|
  {
    hide Inv, Told, Enabled, Next;
    if ms == [] {
      assert before + ms == before;
    } else {
      MoveKeepsInv(s, ms[0]);
      MoveTold(before, s, ms[0]);
      PlayTold(Next(s, ms[0]), before + [ms[0]], ms[1..]);
      assert before + [ms[0]] + ms[1..] == before + ms;
    }
  }

  /**
   * Over every run, a final frame held back or gone out is one the call's own handler concluded with; and the id a
   * live call answers on is that of the request it was last given, the retry of its last round included.
   */
  lemma FramesAreTheHandlers(ms: seq<Move>, r: nat)
    requires Legal(NEW_SEAM, ms) && r < |Play(NEW_SEAM, ms).heap|
    ensures var c := Play(NEW_SEAM, ms).heap[r];
            && (c.final.Some? ==> HandlerConcludes(c.originalId, c.final.value) in ms)
            && (c.shown.Some? ==> HandlerConcludes(c.originalId, c.shown.value) in ms)
            && (c.current.Some? ==>
                  && c.current.value.serial < |RequestIds(ms)|
                  && RequestIds(ms)[c.current.value.serial] == c.current.value.id)
  {
    hide Legal, Play, RequestIds, Inv;
    NewSeamTold();
    PlayTold(NEW_SEAM, [], ms);
    assert [] + ms == ms;
  }

  lemma NewSeamTold()
    ensures Inv(NEW_SEAM) && Told([], NEW_SEAM)
  {
  }

  // ----- what a retry answers -----

  /**
   * A retry settles the attempts of the round it closes, where no answer came before: in the call's own session
   * each gets the answer under its id or `unavailable`, and from a retry that names another session, or none,
   * each gets `unavailable`. Every other attempt stands.
   */
  lemma RetryAnswers(s: Seam, ref: nat, id: RequestId, session: Option<string>, responses: map<string, Answer>, p: nat)
    requires ref < |s.heap| && p < |s.pendings|
    ensures var c := s.heap[ref];
            var q := AcceptRetry(s, ref, id, session, responses).pendings;
            && |q| == |s.pendings|
            && (if c.round.Some? && p in c.round.value.awaiting.Values && s.pendings[p].response.None? then
                  var name := NameOf(s.pendings[p].event);
                  && q[p].settledBy == Some(c.round.value.token)
                  && (session != c.audit || session.None? ==> q[p].response == Some(Unavailable))
                  && (session == c.audit && session.Some? ==>
                        q[p].response == Some(if name in responses then responses[name] else Unavailable))
                else
                  q[p] == s.pendings[p])
  {
  }
}
