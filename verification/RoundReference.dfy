/**
 * What the tool's end of the wire stands for, said without its flags and tables: each call with its stage, the
 * request it has still to answer or the round it has out, and what it has not sent; the line of concluded calls
 * that wait; and which requests were answered. The transport is proved to follow this over every run.
 */
module RoundReference {
  import opened Events
  import opened HostModel
  import opened RoundModel
  import opened RoundInvariant

  /** A handler is at work; or it concluded, and its frame waits, or went out; or the call was dropped. */
  datatype Stage = Running | Holding(frame: Frame) | Concluded(frame: Frame) | Dropped

  /** `asked` is the request still to be answered, `out` the round that waits for its retry, `due` that a round is
      to go; `said` is what the handler emitted, `sent` and `last` what the rounds and the final frame carried. */
  datatype Talk = Talk(
    id: RequestId,
    audit: Option<string>,
    stage: Stage,
    asked: Option<Request>,
    out: Option<Token>,
    ids: set<RequestId>,
    due: bool,
    said: seq<Event>,
    unsent: seq<Event>,
    sent: seq<RoundSent>,
    last: seq<Event>)

  /** `named` is the call a handler's conclusion reaches by id; `line` the calls that wait, longest first. */
  datatype Wire = Wire(
    talks: seq<Talk>,
    named: map<RequestId, nat>,
    line: seq<(RequestId, nat)>,
    cancelled: set<RequestId>,
    received: nat,
    answered: seq<nat>)

  const SILENCE := Wire([], map[], [], {}, 0, [])

  predicate Live(t: Talk) {
    t.stage.Running? || t.stage.Holding?
  }

  function Without(line: seq<(RequestId, nat)>, id: RequestId): seq<(RequestId, nat)> {
    if line == [] then
      []
    else
      var n := |line| - 1;
      Without(line[..n], id) + if line[n].0 == id then [] else [line[n]]
  }

  /** A dropped call answers nothing more. */
  function Drop(w: Wire, q: nat): Wire
    requires q < |w.talks|
  {
    var t := w.talks[q];
    w.(talks := w.talks[q := t.(stage := Dropped, out := None, due := false, unsent := [])],
       named := w.named - {t.id}, line := Without(w.line, t.id))
  }

  /** The call is the last in line; beyond the bound the first is dropped. */
  function Join(w: Wire, q: nat): Wire
    requires q < |w.talks|
  {
    var id := w.talks[q].id;
    var line := Without(w.line, id) + [(id, q)];
    var v := w.(line := line);
    if |line| > MAX_IDLE_SESSIONS && line[0].1 < |v.talks| then Drop(v, line[0].1) else v
  }

  /** The call's final frame: it waits while a round is out; an error waits while outcomes are unsent, which go in
      a round of their own; otherwise it goes out, a result with the outcomes unsent. */
  function Place(w: Wire, q: nat, frame: Frame): Wire
    requires q < |w.talks|
  {
    var t := w.talks[q];
    var outcomes := Outcomes(t.unsent);
    if t.asked.None? then
      Join(w.(talks := w.talks[q := t.(stage := Holding(frame))]), q)
    else if frame == ErrorFrame && outcomes != [] then
      Join(w.(talks := w.talks[q := t.(stage := Holding(frame), unsent := outcomes, due := true)]), q)
    else
      w.(talks := w.talks[q := t.(stage := Concluded(frame), asked := None, due := false, unsent := [],
                                  last := outcomes)],
         line := Without(w.line, t.id), answered := w.answered + [t.asked.value.serial])
  }

  /** A retry is the next request of the call whose round it resumes; an attempt emitted meanwhile makes one due. */
  function Resume(w: Wire, q: nat, id: RequestId): Wire
    requires q < |w.talks|
  {
    var t := w.talks[q];
    w.(talks := w.talks[q := t.(out := None, asked := Some(Request(id, w.received)), ids := t.ids + {id},
                                due := t.due || (t.stage.Running? && HasAttempt(t.unsent)))],
       received := w.received + 1)
  }

  ghost predicate HasOut(w: Wire, q: nat, token: Token) {
    q < |w.talks| && w.talks[q].out == Some(token)
  }

  /** One more event of a handler at work. */
  function Say(w: Wire, q: nat, e: Event): Wire
    requires q < |w.talks|
  {
    var t := w.talks[q];
    if t.stage.Running? then
      w.(talks := w.talks[q := t.(said := t.said + [e], unsent := t.unsent + [e], due := t.due || IsAttempt(e))])
    else
      w
  }

  /** The round that is due goes out, with everything unsent, where a request is there to answer. */
  function SendRound(w: Wire, q: nat, token: Token): Wire
    requires q < |w.talks|
  {
    var t := w.talks[q];
    if Live(t) && t.asked.Some? && t.unsent != [] then
      w.(talks := w.talks[q := t.(due := false, asked := None, out := Some(token), unsent := [],
                                  sent := t.sent + [RoundSent(token, t.unsent)])],
         answered := w.answered + [t.asked.value.serial])
    else
      w.(talks := w.talks[q := t.(due := false)])
  }

  ghost function RefNext(before: Wire, m: Move): Wire {
    var w := before;
    match m
    case NewCall(id, audit) =>
      var t := Talk(id, audit, Running, Some(Request(id, w.received)), None, {id}, false, [], [], [], []);
      w.(talks := w.talks + [t], named := w.named[id := |w.talks|], received := w.received + 1)
    case Retry(id, token, _, _) =>
      if q: nat :| HasOut(w, q, token) then
        var v := Resume(w, q, id);
        if w.talks[q].stage.Holding? then Place(v, q, w.talks[q].stage.frame) else v
      else
        w.(received := w.received + 1, answered := w.answered + [w.received])
    case EmitAttempt(q, e) => if q < |w.talks| then Say(w, q, e) else w
    case EmitOutcome(q, e) => if q < |w.talks| then Say(w, q, e) else w
    case TimesOut(_) => w
    case RoundGoes(q, token) => if q < |w.talks| then SendRound(w, q, token) else w
    case HandlerConcludes(id, frame) =>
      if id in w.cancelled then
        w.(cancelled := w.cancelled - {id})
      else if id in w.named && w.named[id] < |w.talks| then
        Place(w.(named := w.named - {id}), w.named[id], frame)
      else
        w
    case CancelArrives(_, q) =>
      if q < |w.talks| then
        var v := Drop(w, q);
        if w.talks[q].stage.Running? then v.(cancelled := v.cancelled + {w.talks[q].id}) else v
      else
        w
    case Forgets(id) => w.(cancelled := w.cancelled - {id})
    case Drops(q) => if q < |w.talks| then Drop(w, q) else w
  }

  ghost function RefPlay(w: Wire, ms: seq<Move>): Wire
    decreases |ms|
  {
    if ms == [] then w else RefPlay(RefNext(w, ms[0]), ms[1..])
  }

  // ----- what the transport is of it -----

  function StageOf(c: Call): Stage {
    if c.shown.Some? then Concluded(c.shown.value)
    else if c.ended then Dropped
    else if c.final.Some? then Holding(c.final.value)
    else Running
  }

  function TalkOf(c: Call): Talk {
    Talk(c.originalId, c.audit, StageOf(c),
         if c.shown.Some? then None else c.current,
         if !c.ended && c.round.Some? then Some(c.round.value.token) else None,
         c.ids,
         !c.ended && c.roundScheduled,
         c.emitted,
         if c.ended then [] else c.buffered,
         c.rounds,
         c.finalEvents)
  }

  function TalksOf(heap: seq<Call>): (r: seq<Talk>)
    ensures |r| == |heap| && forall i :: 0 <= i < |heap| ==> r[i] == TalkOf(heap[i])
  {
    seq(|heap|, i requires 0 <= i < |heap| => TalkOf(heap[i]))
  }

  function WireOf(s: Seam): Wire {
    Wire(TalksOf(s.heap), s.calls, s.waiting, s.cancelled.Keys, s.received, s.answered)
  }

  /** The flags of a call agree: an ended call is finished, and a finished one that has not ended holds its frame. */
  ghost predicate StageInv(c: Call) {
    (c.ended ==> c.finished) && (c.finished && !c.ended ==> c.final.Some?)
  }

  ghost predicate StagesInv(s: Seam) {
    forall r :: 0 <= r < |s.heap| ==> StageInv(s.heap[r])
  }

  lemma {:induction false} WithoutFirst(line: seq<(RequestId, nat)>, id: RequestId)
    requires line != []
    ensures Without(line, id) == (if line[0].0 == id then [] else [line[0]]) + Without(line[1..], id)
  {
    if |line| == 1 {
      assert line[..0] == [];
    } else {
      var n := |line| - 1;
      WithoutFirst(line[..n], id);
      assert line[..n][1..] == line[1..][..n - 1];
    }
  }

  lemma {:induction false} UnlistedIsWithout(line: seq<(RequestId, nat)>, id: RequestId)
    ensures Unlisted(line, id) == Without(line, id)
    decreases |line|
  {
    if line != [] {
      WithoutFirst(line, id);
      UnlistedIsWithout(line[1..], id);
    }
  }

  /** One call of the transport changes. */
  lemma WithTalk(s: Seam, ref: nat, c: Call)
    requires ref < |s.heap|
    ensures TalksOf(With(s, ref, c).heap) == TalksOf(s.heap)[ref := TalkOf(c)]
    ensures WireOf(With(s, ref, c)) == WireOf(s).(talks := TalksOf(s.heap)[ref := TalkOf(c)])
    ensures StagesInv(s) && StageInv(c) ==> StagesInv(With(s, ref, c))
  {
    hide TalkOf, StageInv;
    assert TalksOf(With(s, ref, c).heap) == TalksOf(s.heap)[ref := TalkOf(c)];
  }

  lemma EndIsDrop(s: Seam, ref: nat)
    requires ref < |s.heap| && !s.heap[ref].ended && s.heap[ref].shown.None? && StagesInv(s)
    ensures WireOf(EndCall(s, ref)) == Drop(WireOf(s), ref) && StagesInv(EndCall(s, ref))
  {
    var c := s.heap[ref];
    var d := c.(finished := true, ended := true, final := None, bufferedAwaiting := map[]);
    UnlistedIsWithout(s.waiting, c.originalId);
    WithTalk(s, ref, d);
    assert TalkOf(d) == TalkOf(c).(stage := Dropped, out := None, due := false, unsent := []);
    hide TalkOf, Unlisted, Without, SettleUnavailable, TalksOf;
  }

  /** The calls that wait are live. */
  ghost predicate LineLives(s: Seam) {
    forall x :: x in s.waiting ==> x.1 < |s.heap| && !s.heap[x.1].ended && s.heap[x.1].shown.None?
  }

  lemma WaitIsJoin(s: Seam, ref: nat, frame: Frame)
    requires ref < |s.heap| && !s.heap[ref].ended && s.heap[ref].shown.None?
    requires LineLives(s)
    requires forall r :: 0 <= r < |s.heap| && r != ref ==> StageInv(s.heap[r])
    ensures var w := WireOf(s);
            WireOf(KeepWaiting(s, ref, frame)) ==
              Join(w.(talks := w.talks[ref := w.talks[ref].(stage := Holding(frame))]), ref)
    ensures StagesInv(KeepWaiting(s, ref, frame))
  {
    var c := s.heap[ref];
    var d := c.(final := Some(frame));
    var t := Waits(s, ref, frame);
    UnlistedIsWithout(s.waiting, c.originalId);
    WithTalk(s, ref, d);
    assert TalkOf(d) == TalkOf(c).(stage := Holding(frame));
    assert StageInv(d);
    hide TalkOf, Without, TalksOf, EndCall, Drop, StageInv;
    if |t.waiting| > MAX_IDLE_SESSIONS {
      assert t.waiting[0] in t.waiting;
      hide Unlisted;
      EndIsDrop(t, t.waiting[0].1);
    }
  }

  lemma FinalIsPlace(s: Seam, ref: nat, frame: Frame)
    requires ref < |s.heap| && !s.heap[ref].ended && s.heap[ref].shown.None? && s.heap[ref].finished
    requires s.heap[ref].round.None? && s.heap[ref].current.Some? && s.heap[ref].finalEvents == []
    requires LineLives(s)
    requires forall r :: 0 <= r < |s.heap| && r != ref ==> StageInv(s.heap[r])
    ensures WireOf(FinalFrame(s, ref, frame)) == Place(WireOf(s), ref, frame)
    ensures StagesInv(FinalFrame(s, ref, frame))
  {
    var c := s.heap[ref];
    if frame == ErrorFrame && Outcomes(c.buffered) != [] {
      LastRoundIsPlace(s, ref);
    } else {
      GoingIsPlace(s, ref, frame);
    }
  }

  lemma LastRoundIsPlace(s: Seam, ref: nat)
    requires ref < |s.heap| && !s.heap[ref].ended && s.heap[ref].shown.None?
    requires s.heap[ref].round.None? && s.heap[ref].current.Some? && Outcomes(s.heap[ref].buffered) != []
    requires LineLives(s)
    requires forall r :: 0 <= r < |s.heap| && r != ref ==> StageInv(s.heap[r])
    ensures WireOf(FinalFrame(s, ref, ErrorFrame)) == Place(WireOf(s), ref, ErrorFrame)
    ensures StagesInv(FinalFrame(s, ref, ErrorFrame))
  {
    LastRoundTalk(s, ref);
    LastRoundFrame(s, ref);
    LastRoundPlace(s, ref);
    assert LineLives(LastRound(s, ref));
    hide *;
    WaitIsJoin(LastRound(s, ref), ref, ErrorFrame);
  }

  lemma LastRoundPlace(s: Seam, ref: nat)
    requires ref < |s.heap| && s.heap[ref].shown.None? && s.heap[ref].current.Some?
    requires Outcomes(s.heap[ref].buffered) != [] && !s.heap[ref].ended
    ensures var w := WireOf(s);
            var u := w.talks[ref].(unsent := Outcomes(s.heap[ref].buffered), due := true);
            && ref < |w.talks|
            && Place(w, ref, ErrorFrame) ==
                 Join(w.(talks := w.talks[ref := u][ref := u.(stage := Holding(ErrorFrame))]), ref)
  {
    var w := WireOf(s);
    var u := w.talks[ref].(unsent := Outcomes(s.heap[ref].buffered), due := true);
    assert w.talks[ref] == TalkOf(s.heap[ref]);
    assert w.talks[ref := u][ref := u.(stage := Holding(ErrorFrame))] ==
           w.talks[ref := u.(stage := Holding(ErrorFrame))];
    hide Join, TalksOf, Outcomes;
  }

  lemma LastRoundFrame(s: Seam, ref: nat)
    requires ref < |s.heap| && s.heap[ref].current.Some? && Outcomes(s.heap[ref].buffered) != []
    ensures FinalFrame(s, ref, ErrorFrame) == KeepWaiting(LastRound(s, ref), ref, ErrorFrame)
  {
    hide KeepWaiting, SettleUnavailable, Outcomes;
  }

  lemma LastRoundTalk(s: Seam, ref: nat)
    requires ref < |s.heap| && !s.heap[ref].ended
    ensures var t, w := LastRound(s, ref), WireOf(s);
            && |t.heap| == |s.heap| && !t.heap[ref].ended && t.heap[ref].shown == s.heap[ref].shown
            && t.waiting == s.waiting && (forall r :: 0 <= r < |s.heap| && r != ref ==> t.heap[r] == s.heap[r])
            && WireOf(t) ==
                 w.(talks := w.talks[ref := w.talks[ref].(unsent := Outcomes(s.heap[ref].buffered), due := true)])
  {
    var c := s.heap[ref];
    var d := c.(buffered := Outcomes(c.buffered), bufferedAwaiting := map[], roundScheduled := true);
    var t := LastRound(s, ref);
    assert t == With(s.(pendings := t.pendings), ref, d);
    WithTalk(s.(pendings := t.pendings), ref, d);
    assert TalkOf(d) == TalkOf(c).(unsent := Outcomes(c.buffered), due := true);
    hide TalkOf, TalksOf, Outcomes, SettleUnavailable;
  }

  lemma GoingIsPlace(s: Seam, ref: nat, frame: Frame)
    requires ref < |s.heap| && !s.heap[ref].ended && s.heap[ref].shown.None? && s.heap[ref].finished
    requires s.heap[ref].round.None? && s.heap[ref].current.Some?
    requires frame == ErrorFrame ==> Outcomes(s.heap[ref].buffered) == []
    requires forall r :: 0 <= r < |s.heap| && r != ref ==> StageInv(s.heap[r])
    ensures WireOf(FinalFrame(s, ref, frame)) == Place(WireOf(s), ref, frame)
    ensures StagesInv(FinalFrame(s, ref, frame))
  {
    var c := s.heap[ref];
    var d := c.(buffered := [], bufferedAwaiting := map[], ended := true, final := None,
                finalEvents := Outcomes(c.buffered), shown := Some(frame));
    UnlistedIsWithout(s.waiting, c.originalId);
    WithTalk(s, ref, d);
    assert TalkOf(d) == TalkOf(c).(stage := Concluded(frame), asked := None, due := false, unsent := [],
                                   last := Outcomes(c.buffered));
    var t := FinalFrame(s, ref, frame);
    assert t.heap == s.heap[ref := d] && t.waiting == Unlisted(s.waiting, c.originalId);
    assert t == s.(heap := t.heap, waiting := t.waiting, pendings := t.pendings, answered := t.answered);
    assert t.answered == s.answered + [c.current.value.serial];
    hide TalkOf, TalksOf, Unlisted, Without, FinalFrame, Outcomes;
  }

  // ----- a handler concludes -----

  lemma HeldIsPlace(s: Seam, ref: nat, frame: Frame)
    requires ref < |s.heap| && !s.heap[ref].ended && s.heap[ref].shown.None? && s.heap[ref].current.None?
    requires LineLives(s)
    requires forall r :: 0 <= r < |s.heap| && r != ref ==> StageInv(s.heap[r])
    ensures WireOf(KeepWaiting(s, ref, frame)) == Place(WireOf(s), ref, frame)
    ensures StagesInv(KeepWaiting(s, ref, frame))
  {
    WaitIsJoin(s, ref, frame);
    hide KeepWaiting, Join;
  }

  lemma StandOf(s: Seam, ref: nat)
    requires Inv(s) && ref < |s.heap|
    ensures StandInv(s.rounds, ref, s.heap[ref]) && EventsInv(s.heap[ref])
  {
    hide CallsInv, WaitingInv, TokensInv, SerialsInv, PendingsInv, EventsInv, AttemptsInv, ScheduleInv;
  }

  lemma LineIsLive(s: Seam)
    requires Inv(s)
    ensures LineLives(s)
  {
    forall x | x in s.waiting ensures x.1 < |s.heap| && !s.heap[x.1].ended && s.heap[x.1].shown.None? {
      assert WaitingInv(s);
      StandOf(s, x.1);
    }
  }

  lemma ConcludingTalk(s: Seam, id: RequestId)
    requires id in s.calls && s.calls[id] < |s.heap|
    ensures WireOf(Concluding(s, id)) == WireOf(s).(named := s.calls - {id})
  {
    var ref := s.calls[id];
    WithTalk(s, ref, s.heap[ref].(finished := true));
    assert TalkOf(s.heap[ref].(finished := true)) == TalkOf(s.heap[ref]);
    hide TalkOf;
    assert TalksOf(s.heap)[ref := TalkOf(s.heap[ref])] == TalksOf(s.heap);
  }

  lemma FinishIs(s: Seam, id: RequestId, frame: Frame)
    requires Inv(s) && StagesInv(s)
    ensures WireOf(Finish(s, id, frame)) == RefNext(WireOf(s), HandlerConcludes(id, frame))
    ensures StagesInv(Finish(s, id, frame))
  {
    if id !in s.cancelled && id in s.calls {
      ConcludingKeeps(s, id);
      ConcludingTalk(s, id);
      PlacedIs(s, id, frame);
      RefPlaces(s, id, frame);
    } else {
      FinishIsNothing(s, id, frame);
    }
    hide *;
  }

  /** The frame of a cancelled call, or of none, goes nowhere. */
  lemma FinishIsNothing(s: Seam, id: RequestId, frame: Frame)
    requires id in s.cancelled || id !in s.calls
    ensures WireOf(Finish(s, id, frame)) == RefNext(WireOf(s), HandlerConcludes(id, frame))
    ensures StagesInv(s) ==> StagesInv(Finish(s, id, frame))
  {
    assert (s.cancelled - {id}).Keys == s.cancelled.Keys - {id};
    hide TalksOf, KeepWaiting, FinalFrame, Place, StageInv;
  }

  lemma RefPlaces(s: Seam, id: RequestId, frame: Frame)
    requires id !in s.cancelled && id in s.calls && s.calls[id] < |s.heap|
    ensures var w := WireOf(s).(named := s.calls - {id});
            && |w.talks| == |s.heap|
            && RefNext(WireOf(s), HandlerConcludes(id, frame)) == Place(w, s.calls[id], frame)
  {
    hide Place;
  }

  lemma PlacedIs(s: Seam, id: RequestId, frame: Frame)
    requires Inv(s) && StagesInv(s) && id !in s.cancelled && id in s.calls && s.calls[id] < |s.heap|
    requires Inv(Concluding(s, id))
    ensures WireOf(Finish(s, id, frame)) == Place(WireOf(Concluding(s, id)), s.calls[id], frame)
    ensures StagesInv(Finish(s, id, frame))
  {
    ConcludingStands(s, id);
    FinishCases(s, id, frame);
    var ref, t := s.calls[id], Concluding(s, id);
    hide *;
    if t.heap[ref].round.Some? {
      var u := t.(pendings := SettleUnavailable(t.pendings, AwaitedBy(t.heap[ref])));
      SameWire(t, u);
      HeldIsPlace(u, ref, frame);
    } else {
      FinalIsPlace(t, ref, frame);
    }
  }

  lemma ConcludingStands(s: Seam, id: RequestId)
    requires Inv(s) && StagesInv(s) && id in s.calls && s.calls[id] < |s.heap| && Inv(Concluding(s, id))
    ensures var ref, t := s.calls[id], Concluding(s, id);
            && |t.heap| == |s.heap| && LineLives(t)
            && !t.heap[ref].ended && t.heap[ref].shown.None? && t.heap[ref].finished && t.heap[ref].finalEvents == []
            && (t.heap[ref].round.Some? <==> t.heap[ref].current.None?)
            && forall r :: 0 <= r < |t.heap| && r != ref ==> StageInv(t.heap[r])
  {
    CalledIsLive(s, id);
    var ref, t := s.calls[id], Concluding(s, id);
    StandOf(t, ref);
    LineIsLive(t);
    OwnEvents(t, ref);
    hide Inv, LineLives, EventsInv;
  }

  lemma ConcludedRound(s: Seam, id: RequestId)
    requires id in s.calls && s.calls[id] < |s.heap|
    ensures var t, ref := Concluding(s, id), s.calls[id];
            |t.heap| == |s.heap| && t.heap[ref].round == s.heap[ref].round && t.heap[ref].current == s.heap[ref].current
  {
  }

  lemma FinishCases(s: Seam, id: RequestId, frame: Frame)
    requires id !in s.cancelled && id in s.calls && s.calls[id] < |s.heap|
    ensures var ref, t := s.calls[id], Concluding(s, id);
            Finish(s, id, frame) ==
              if t.heap[ref].round.Some? then
                KeepWaiting(t.(pendings := SettleUnavailable(t.pendings, AwaitedBy(t.heap[ref]))), ref, frame)
              else
                FinalFrame(t, ref, frame)
  {
    hide KeepWaiting, FinalFrame, SettleUnavailable;
  }

  lemma OwnEvents(s: Seam, ref: nat)
    requires ref < |s.heap| && EventsInv(s.heap[ref])
    ensures !s.heap[ref].ended ==> s.heap[ref].finalEvents == []
  {
  }

  lemma SameWire(s: Seam, t: Seam)
    requires t == s.(pendings := t.pendings)
    ensures WireOf(t) == WireOf(s) && (LineLives(s) <==> LineLives(t))
  {
  }

  // ----- a retry -----

  lemma OutIff(s: Seam, q: nat, token: Token)
    requires Inv(s)
    ensures HasOut(WireOf(s), q, token) <==> token in s.rounds && s.rounds[token] == q
  {
    assert TokensInv(s);
    if q < |s.heap| {
      StandOf(s, q);
    }
    hide CallsInv, WaitingInv, SerialsInv, HeapInv, PendingsInv, EventsInv;
  }

  lemma AcceptedTalk(p: Seam, q: nat, id: RequestId, session: Option<string>, responses: map<string, Answer>)
    requires q < |p.heap| && StageInv(p.heap[q]) && !p.heap[q].ended && p.heap[q].shown.None?
    requires p.heap[q].final.Some? ==> p.heap[q].finished
    ensures var t, c := AcceptRetry(p, q, id, session, responses), p.heap[q];
            && |t.heap| == |p.heap|
            && t == With(p.(pendings := t.pendings, received := p.received + 1), q, t.heap[q])
            && StageInv(t.heap[q])
            && TalkOf(t.heap[q]) ==
                 TalkOf(c).(out := None, asked := Some(Request(id, p.received)), ids := c.ids + {id},
                            due := c.roundScheduled || (StageOf(c).Running? && HasAttempt(c.buffered)))
  {
    hide SettleRound, HasAttempt;
  }

  lemma AcceptedIs(s: Seam, token: Token, id: RequestId, session: Option<string>, responses: map<string, Answer>)
    requires Inv(s) && StagesInv(s) && token in s.rounds && s.rounds[token] < |s.heap|
    ensures var q := s.rounds[token];
            var t := AcceptRetry(Popped(s, token), q, id, session, responses);
            WireOf(t) == Resume(WireOf(s), q, id) && StagesInv(t)
  {
    var q := s.rounds[token];
    var p := Popped(s, token);
    var t := AcceptRetry(p, q, id, session, responses);
    TokenNames(s, token);
    StandOf(s, q);
    AcceptedTalk(p, q, id, session, responses);
    var u := p.(pendings := t.pendings, received := s.received + 1);
    WithTalk(u, q, t.heap[q]);
    TalkParts(s, q);
    hide TalkOf, TalksOf, Inv, AcceptRetry, HasAttempt, StageInv, With, StageOf;
  }

  lemma TalkParts(s: Seam, q: nat)
    requires q < |s.heap|
    ensures |WireOf(s).talks| == |s.heap|
    ensures var t, c := WireOf(s).talks[q], s.heap[q];
            && t == TalkOf(c) && t.stage == StageOf(c) && t.ids == c.ids && t.said == c.emitted && t.sent == c.rounds
            && (!c.ended ==> t.due == c.roundScheduled && t.unsent == c.buffered)
  {
  }

  lemma RetryIs(s: Seam, m: Move)
    requires Inv(s) && StagesInv(s) && m.Retry?
    ensures WireOf(Next(s, m)) == RefNext(WireOf(s), m) && StagesInv(Next(s, m))
  {
    var w := WireOf(s);
    forall q: nat ensures HasOut(w, q, m.token) <==> m.token in s.rounds && s.rounds[m.token] == q {
      OutIff(s, q, m.token);
    }
    if m.token in s.rounds {
      TokenNames(s, m.token);
      ResumedIs(s, m);
      hide *;
      assert HasOut(w, s.rounds[m.token], m.token);
      RefResumes(w, m, s.rounds[m.token]);
    } else {
      RefRefuses(w, m);
      NoSuchRound(s, m);
      hide Inv, HasOut, RefNext, TakeRetry, TalksOf;
    }
  }

  lemma RefResumes(w: Wire, m: Move, q: nat)
    requires m.Retry? && q < |w.talks| && forall k: nat :: HasOut(w, k, m.token) <==> k == q
    ensures RefNext(w, m) ==
              if w.talks[q].stage.Holding? then Place(Resume(w, q, m.id), q, w.talks[q].stage.frame)
              else Resume(w, q, m.id)
  {
    assert HasOut(w, q, m.token);
    hide Place, Resume;
  }

  lemma RefRefuses(w: Wire, m: Move)
    requires m.Retry? && forall k: nat :: !HasOut(w, k, m.token)
    ensures RefNext(w, m) == w.(received := w.received + 1, answered := w.answered + [w.received])
  {
    hide Place, Resume, HasOut;
  }

  lemma NoSuchRound(s: Seam, m: Move)
    requires m.Retry? && m.token !in s.rounds
    ensures TakeRetry(s, m.id, m.token, m.session, m.responses) == Refuse(s)
  {
  }

  lemma ResumedIs(s: Seam, m: Move)
    requires Inv(s) && StagesInv(s) && m.Retry? && m.token in s.rounds && s.rounds[m.token] < |s.heap|
    ensures var q, w := s.rounds[m.token], WireOf(s);
            && WireOf(Next(s, m)) ==
                 (if w.talks[q].stage.Holding? then Place(Resume(w, q, m.id), q, w.talks[q].stage.frame)
                  else Resume(w, q, m.id))
            && StagesInv(Next(s, m))
  {
    var q := s.rounds[m.token];
    var t := AcceptRetry(Popped(s, m.token), q, m.id, m.session, m.responses);
    TokenNames(s, m.token);
    AcceptedIs(s, m.token, m.id, m.session, m.responses);
    RetryKeeps(s, m.token, m.id, m.session, m.responses);
    AcceptedRound(Popped(s, m.token), q, m.id, m.session, m.responses);
    StandOf(s, q);
    StandOf(t, q);
    LineIsLive(t);
    OwnEvents(t, q);
    assert t.heap[q].final == s.heap[q].final;
    hide Inv, FinalFrame, Place, Resume, AcceptRetry, StageInv, LineLives, EventsInv, WireOf;
    assert WireOf(s).talks[q].stage == StageOf(s.heap[q]) by {
      TalkStage(s, q);
    }
    if t.heap[q].final.Some? {
      FinalIsPlace(t, q, t.heap[q].final.value);
    }
  }

  lemma TalkStage(s: Seam, q: nat)
    requires q < |s.heap|
    ensures |WireOf(s).talks| == |s.heap| && WireOf(s).talks[q].stage == StageOf(s.heap[q])
  {
  }

  // ----- every run -----

  lemma SaidTalk(s: Seam, m: Move)
    requires Enabled(s, m) && (m.EmitAttempt? || m.EmitOutcome?)
    requires !s.heap[m.ref].finished && !s.heap[m.ref].ended && s.heap[m.ref].shown.None?
    requires s.heap[m.ref].final.None?
    ensures var t, c := Next(s, m), s.heap[m.ref];
            && |t.heap| == |s.heap| && StageInv(t.heap[m.ref])
            && t == With(s.(pendings := t.pendings), m.ref, t.heap[m.ref])
            && TalkOf(t.heap[m.ref]) ==
                 TalkOf(c).(said := c.emitted + [m.event], unsent := c.buffered + [m.event],
                            due := c.roundScheduled || IsAttempt(m.event))
            && StageOf(c).Running?
  {
    hide NameOf;
  }

  lemma SayIs(s: Seam, m: Move)
    requires Inv(s) && StagesInv(s) && Enabled(s, m) && (m.EmitAttempt? || m.EmitOutcome?)
    ensures WireOf(Next(s, m)) == RefNext(WireOf(s), m) && StagesInv(Next(s, m))
  {
    var t, c := Next(s, m), s.heap[m.ref];
    StandOf(s, m.ref);
    TalkParts(s, m.ref);
    if c.finished {
      assert !StageOf(c).Running?;
      hide Inv, TalksOf, TalkOf, EventsInv;
    } else {
      SaidTalk(s, m);
      WithTalk(s.(pendings := t.pendings), m.ref, t.heap[m.ref]);
      hide TalkOf, TalksOf, Inv, Next, StageOf, With, EventsInv;
    }
  }

  lemma RoundIs(s: Seam, ref: nat, token: Token)
    requires Inv(s) && StagesInv(s) && ref < |s.heap|
    ensures WireOf(EndRound(s, ref, token)) == SendRound(WireOf(s), ref, token) && StagesInv(EndRound(s, ref, token))
  {
    var t, c := EndRound(s, ref, token), s.heap[ref];
    StandOf(s, ref);
    var d := t.heap[ref];
    var u := s.(pendings := t.pendings, rounds := t.rounds, issued := t.issued, answered := t.answered);
    assert t == With(u, ref, d) && StageInv(d);
    WithTalk(u, ref, d);
    assert TalkOf(d) ==
        if !c.ended && c.round.None? && c.buffered != [] then
          TalkOf(c).(due := false, asked := None, out := Some(token), unsent := [],
                     sent := c.rounds + [RoundSent(token, c.buffered)])
        else
          TalkOf(c).(due := false);
    hide TalksOf, Inv, EndRound, EventsInv, StandInv;
  }

  lemma NewIs(s: Seam, id: RequestId, audit: Option<string>)
    requires StagesInv(s)
    ensures WireOf(TakeNew(s, id, audit)) == RefNext(WireOf(s), NewCall(id, audit)) && StagesInv(TakeNew(s, id, audit))
  {
    var t := TakeNew(s, id, audit);
    var c := t.heap[|s.heap|];
    assert TalkOf(c) == Talk(id, audit, Running, Some(Request(id, s.received)), None, {id}, false, [], [], [], []);
    hide TalkOf;
    assert TalksOf(t.heap) == TalksOf(s.heap) + [TalkOf(c)];
  }

  lemma DroppedIs(s: Seam, m: Move)
    requires Inv(s) && StagesInv(s) && Enabled(s, m) && (m.CancelArrives? || m.Drops?)
    ensures WireOf(Next(s, m)) == RefNext(WireOf(s), m) && StagesInv(Next(s, m))
  {
    if m.CancelArrives? {
      TargetIsLive(s, m.ref);
    }
    var t := EndCall(s, m.ref);
    LiveTalk(s, m.ref);
    assert s.heap[m.ref].shown.None?;
    hide *;
    EndIsDrop(s, m.ref);
    CancelledKeys(t, s.heap[m.ref].originalId, m.ref);
    if m.CancelArrives? {
      RefCancels(s, m);
    } else {
      RefDrops(s, m);
    }
  }

  lemma RefCancels(s: Seam, m: Move)
    requires m.CancelArrives? && m.ref < |s.heap| == |WireOf(s).talks|
    requires WireOf(s).talks[m.ref].id == s.heap[m.ref].originalId
    requires WireOf(s).talks[m.ref].stage.Running? <==> !s.heap[m.ref].finished
    ensures var v, id := Drop(WireOf(s), m.ref), s.heap[m.ref].originalId;
            RefNext(WireOf(s), m) ==
              if s.heap[m.ref].finished then v else v.(cancelled := v.cancelled + {id})
    ensures var t, id := EndCall(s, m.ref), s.heap[m.ref].originalId;
            Cancel(s, m.ref) == if s.heap[m.ref].finished then t else t.(cancelled := t.cancelled[id := m.ref])
    ensures Enabled(s, m) ==> Next(s, m) == Cancel(s, m.ref)
  {
    hide Drop, EndCall, TalksOf;
  }

  lemma RefDrops(s: Seam, m: Move)
    requires m.Drops? && m.ref < |s.heap| == |WireOf(s).talks|
    ensures RefNext(WireOf(s), m) == Drop(WireOf(s), m.ref)
    ensures Enabled(s, m) ==> Next(s, m) == EndCall(s, m.ref)
  {
    hide Drop, EndCall, TalksOf;
  }

  lemma LiveTalk(s: Seam, ref: nat)
    requires Inv(s) && StagesInv(s) && ref < |s.heap| && !s.heap[ref].ended
    ensures s.heap[ref].shown.None? && |WireOf(s).talks| == |s.heap|
    ensures var t, c := WireOf(s).talks[ref], s.heap[ref];
            t.id == c.originalId && (t.stage.Running? <==> !c.finished)
  {
    StandOf(s, ref);
    assert StageInv(s.heap[ref]);
    hide Inv, EventsInv;
  }

  lemma CancelledKeys(t: Seam, id: RequestId, ref: nat)
    ensures var u := t.(cancelled := t.cancelled[id := ref]);
            && WireOf(u) == WireOf(t).(cancelled := WireOf(t).cancelled + {id})
            && (StagesInv(t) ==> StagesInv(u))
  {
    assert t.cancelled[id := ref].Keys == t.cancelled.Keys + {id};
  }

  lemma MoveFollows(s: Seam, m: Move)
    requires Inv(s) && StagesInv(s) && Enabled(s, m)
    ensures WireOf(Next(s, m)) == RefNext(WireOf(s), m) && StagesInv(Next(s, m))
  {
    hide Inv, EndRound, SendRound, TakeNew, Finish;
    match m
    case NewCall(id, audit) => NewIs(s, id, audit);
    case Retry(_, _, _, _) => RetryIs(s, m);
    case EmitAttempt(_, _) => SayIs(s, m);
    case EmitOutcome(_, _) => SayIs(s, m);
    case TimesOut(_) =>
    case RoundGoes(ref, token) => RoundIs(s, ref, token);
    case HandlerConcludes(id, frame) => FinishIs(s, id, frame);
    case CancelArrives(_, _) => DroppedIs(s, m);
    case Forgets(id) => assert (s.cancelled - {id}).Keys == s.cancelled.Keys - {id};
    case Drops(_) => DroppedIs(s, m);
  }

  lemma {:induction false} PlayFollows(s: Seam, ms: seq<Move>)
    requires Inv(s) && StagesInv(s) && Legal(s, ms)
    ensures WireOf(Play(s, ms)) == RefPlay(WireOf(s), ms) && StagesInv(Play(s, ms))
    decreases |ms|
  {
    hide Inv, StagesInv, Enabled, Next, RefNext, WireOf;
    if ms != [] {
      MoveKeepsInv(s, ms[0]);
      MoveFollows(s, ms[0]);
      PlayFollows(Next(s, ms[0]), ms[1..]);
    }
  }

  /** Over every run the transport is what its moves amount to. */
  lemma TransportFollows(ms: seq<Move>)
    requires Legal(NEW_SEAM, ms)
    ensures WireOf(Play(NEW_SEAM, ms)) == RefPlay(SILENCE, ms)
  {
    hide Legal, Play, RefPlay;
    assert WireOf(NEW_SEAM) == SILENCE;
    PlayFollows(NEW_SEAM, ms);
  }

  // ----- every request is answered, or still to be -----

  predicate Asks(w: Wire, q: nat, serial: nat) {
    q < |w.talks| && w.talks[q].asked.Some? && w.talks[q].asked.value.serial == serial
  }

  /** A request received was answered, or one call has it still to answer: not both, and no other call. */
  ghost predicate AskedInv(w: Wire) {
    && (forall q: nat, k: nat :: Asks(w, q, k) ==> k < w.received)
    && (forall q: nat, r: nat, k: nat :: Asks(w, q, k) && Asks(w, r, k) ==> q == r)
    && (forall k: nat :: k in w.answered ==> k < w.received)
    && (forall k: nat :: k < w.received ==> (k in w.answered <==> forall q: nat :: !Asks(w, q, k)))
  }

  /** No call asks otherwise than before. */
  ghost predicate AsksAlike(w: Wire, v: Wire) {
    && v.received == w.received && v.answered == w.answered
    && forall q: nat, k: nat :: Asks(v, q, k) <==> Asks(w, q, k)
  }

  lemma AlikeKeepsAsked(w: Wire, v: Wire)
    requires AskedInv(w) && AsksAlike(w, v)
    ensures AskedInv(v)
  {
    hide Asks;
    forall k: nat | k < v.received ensures k in v.answered <==> forall q: nat :: !Asks(v, q, k) {
      assert k in w.answered <==> forall q: nat :: !Asks(w, q, k);
    }
  }

  lemma DropAsks(w: Wire, q: nat)
    requires q < |w.talks|
    ensures AsksAlike(w, Drop(w, q))
  {
    hide Without;
  }

  lemma JoinAsks(w: Wire, q: nat)
    requires q < |w.talks|
    ensures AsksAlike(w, Join(w, q))
  {
    var id := w.talks[q].id;
    var v := w.(line := Without(w.line, id) + [(id, q)]);
    if |v.line| > MAX_IDLE_SESSIONS && v.line[0].1 < |v.talks| {
      DropAsks(v, v.line[0].1);
    }
    hide Without, Drop;
  }

  /** The request a call had to answer is answered. */
  lemma AnsweredNow(w: Wire, v: Wire, q: nat)
    requires AskedInv(w) && q < |w.talks| == |v.talks| && w.talks[q].asked.Some?
    requires v.received == w.received && v.answered == w.answered + [w.talks[q].asked.value.serial]
    requires v.talks[q].asked.None? && forall r :: 0 <= r < |w.talks| && r != q ==> v.talks[r] == w.talks[r]
    ensures AskedInv(v)
  {
    var serial := w.talks[q].asked.value.serial;
    assert Asks(w, q, serial);
    forall r: nat, k: nat ensures Asks(v, r, k) <==> Asks(w, r, k) && r != q {
    }
    hide Asks;
    forall k: nat | k < v.received ensures k in v.answered <==> forall r: nat :: !Asks(v, r, k) {
      assert k in w.answered <==> forall r: nat :: !Asks(w, r, k);
      assert Asks(w, q, k) ==> k == serial;
    }
  }

  /** One more request, that `q` has now to answer and had none before. */
  lemma AskedNow(w: Wire, v: Wire, q: nat)
    requires AskedInv(w) && q < |v.talks| && v.received == w.received + 1 && v.answered == w.answered
    requires Asks(v, q, w.received) && forall k: nat :: !Asks(w, q, k)
    requires forall r: nat, k: nat :: r != q ==> (Asks(v, r, k) <==> Asks(w, r, k))
    requires forall k: nat :: Asks(v, q, k) ==> k == w.received
    ensures AskedInv(v)
  {
    hide Asks;
    forall k: nat | k < v.received ensures k in v.answered <==> forall r: nat :: !Asks(v, r, k) {
      if k < w.received {
        assert k in w.answered <==> forall r: nat :: !Asks(w, r, k);
      } else {
        assert k !in w.answered;
      }
    }
  }

  lemma RefusedNow(w: Wire)
    requires AskedInv(w)
    ensures AskedInv(w.(received := w.received + 1, answered := w.answered + [w.received]))
  {
    var v := w.(received := w.received + 1, answered := w.answered + [w.received]);
    forall q: nat, k: nat ensures Asks(v, q, k) <==> Asks(w, q, k) {
    }
    hide Asks;
    forall k: nat | k < v.received ensures k in v.answered <==> forall r: nat :: !Asks(v, r, k) {
      assert k < w.received ==> (k in w.answered <==> forall r: nat :: !Asks(w, r, k));
    }
  }

  lemma PlaceKeepsAsked(w: Wire, q: nat, frame: Frame)
    requires AskedInv(w) && q < |w.talks|
    ensures AskedInv(Place(w, q, frame))
  {
    var t := w.talks[q];
    if t.asked.None? {
      var u := w.(talks := w.talks[q := t.(stage := Holding(frame))]);
      JoinAsks(u, q);
      assert AsksAlike(w, u);
      AlikeKeepsAsked(w, u);
      AlikeKeepsAsked(u, Join(u, q));
    } else if frame == ErrorFrame && Outcomes(t.unsent) != [] {
      var u := w.(talks := w.talks[q := t.(stage := Holding(frame), unsent := Outcomes(t.unsent), due := true)]);
      JoinAsks(u, q);
      assert AsksAlike(w, u);
      AlikeKeepsAsked(w, u);
      AlikeKeepsAsked(u, Join(u, q));
    } else {
      AnsweredNow(w, Place(w, q, frame), q);
    }
  }

  lemma RetryKeepsAsked(s: Seam, m: Move)
    requires Inv(s) && AskedInv(WireOf(s)) && m.Retry?
    ensures AskedInv(RefNext(WireOf(s), m))
  {
    var w := WireOf(s);
    RefusedNow(w);
    forall q: nat ensures HasOut(w, q, m.token) <==> m.token in s.rounds && s.rounds[m.token] == q {
      OutIff(s, q, m.token);
    }
    if m.token in s.rounds {
      var q := s.rounds[m.token];
      TokenNames(s, m.token);
      StandOf(s, q);
      TalkParts(s, q);
      ResumeKeepsAsked(w, q, m.id);
      RefResumes(w, m, q);
      hide RefNext, WireOf, Inv, AskedInv, Resume, Place, HasOut, TalkOf;
      if w.talks[q].stage.Holding? {
        ResumedCount(w, q, m.id);
        PlaceKeepsAsked(Resume(w, q, m.id), q, w.talks[q].stage.frame);
      }
    } else {
      RefRefuses(w, m);
      hide RefNext, WireOf, Inv, AskedInv, HasOut;
    }
  }

  lemma ResumedCount(w: Wire, q: nat, id: RequestId)
    requires q < |w.talks|
    ensures |Resume(w, q, id).talks| == |w.talks|
  {
  }

  lemma ResumeKeepsAsked(w: Wire, q: nat, id: RequestId)
    requires AskedInv(w) && q < |w.talks| && w.talks[q].asked.None?
    ensures AskedInv(Resume(w, q, id))
  {
    var v := Resume(w, q, id);
    forall r: nat, k: nat ensures r != q ==> (Asks(v, r, k) <==> Asks(w, r, k)) {
    }
    AskedNow(w, v, q);
  }

  lemma SendKeepsAsked(w: Wire, q: nat, token: Token)
    requires AskedInv(w) && q < |w.talks|
    ensures AskedInv(SendRound(w, q, token))
  {
    var t, v := w.talks[q], SendRound(w, q, token);
    if Live(t) && t.asked.Some? && t.unsent != [] {
      AnsweredNow(w, v, q);
    } else {
      assert AsksAlike(w, v);
      AlikeKeepsAsked(w, v);
    }
  }

  lemma NewKeepsAsked(w: Wire, m: Move)
    requires AskedInv(w) && m.NewCall?
    ensures AskedInv(RefNext(w, m))
  {
    var v := RefNext(w, m);
    forall r: nat, k: nat ensures r != |w.talks| ==> (Asks(v, r, k) <==> Asks(w, r, k)) {
    }
    AskedNow(w, v, |w.talks|);
  }

  lemma DropKeepsAsked(w: Wire, q: nat, cancelled: set<RequestId>)
    requires AskedInv(w) && q < |w.talks|
    ensures AskedInv(Drop(w, q)) && AskedInv(Drop(w, q).(cancelled := cancelled))
  {
    DropAsks(w, q);
    AlikeKeepsAsked(w, Drop(w, q));
    var v := Drop(w, q);
    hide Drop;
    assert AsksAlike(v, v.(cancelled := cancelled));
    AlikeKeepsAsked(v, v.(cancelled := cancelled));
  }

  lemma SayKeepsAsked(w: Wire, q: nat, e: Event)
    requires AskedInv(w) && q < |w.talks|
    ensures AskedInv(Say(w, q, e))
  {
    assert AsksAlike(w, Say(w, q, e));
    AlikeKeepsAsked(w, Say(w, q, e));
  }

  lemma ConclusionKeepsAsked(w: Wire, m: Move)
    requires AskedInv(w) && (m.HandlerConcludes? || m.Forgets?)
    ensures AskedInv(RefNext(w, m))
  {
    var u := w.(cancelled := w.cancelled - {m.id});
    assert AsksAlike(w, u);
    AlikeKeepsAsked(w, u);
    var v := w.(named := w.named - {m.id});
    assert AsksAlike(w, v);
    AlikeKeepsAsked(w, v);
    hide AskedInv, Place;
    if m.HandlerConcludes? && m.id in w.named && w.named[m.id] < |w.talks| {
      PlaceKeepsAsked(v, w.named[m.id], m.frame);
    }
  }

  lemma MoveKeepsAsked(s: Seam, m: Move)
    requires Inv(s) && AskedInv(WireOf(s)) && Enabled(s, m)
    ensures AskedInv(RefNext(WireOf(s), m))
  {
    var w := WireOf(s);
    assert |w.talks| == |s.heap|;
    hide Inv, AskedInv, WireOf, Drop, Say, SendRound, Place, Resume;
    match m
    case NewCall(_, _) => NewKeepsAsked(w, m);
    case Retry(_, _, _, _) => RetryKeepsAsked(s, m);
    case HandlerConcludes(_, _) => ConclusionKeepsAsked(w, m);
    case Forgets(_) => ConclusionKeepsAsked(w, m);
    case _ => StillAsked(w, m);
  }

  lemma StillAsked(w: Wire, m: Move)
    requires AskedInv(w) && !m.NewCall? && !m.Retry? && !m.HandlerConcludes? && !m.Forgets?
    ensures AskedInv(RefNext(w, m))
  {
    hide AskedInv, Drop, Say, SendRound;
    match m
    case EmitAttempt(q, e) => if q < |w.talks| { SayKeepsAsked(w, q, e); }
    case EmitOutcome(q, e) => if q < |w.talks| { SayKeepsAsked(w, q, e); }
    case RoundGoes(q, token) => if q < |w.talks| { SendKeepsAsked(w, q, token); }
    case CancelArrives(_, q) => if q < |w.talks| { DropKeepsAsked(w, q, Drop(w, q).cancelled + {w.talks[q].id}); }
    case Drops(q) => if q < |w.talks| { DropKeepsAsked(w, q, {}); }
    case _ =>
  }

  lemma {:induction false} PlayKeepsAsked(s: Seam, ms: seq<Move>)
    requires Inv(s) && StagesInv(s) && AskedInv(WireOf(s)) && Legal(s, ms)
    ensures AskedInv(WireOf(Play(s, ms)))
    decreases |ms|
  {
    hide Inv, StagesInv, AskedInv, Enabled, Next, RefNext, WireOf;
    if ms != [] {
      MoveKeepsInv(s, ms[0]);
      MoveFollows(s, ms[0]);
      MoveKeepsAsked(s, ms[0]);
      PlayKeepsAsked(Next(s, ms[0]), ms[1..]);
    }
  }

  /** No request is lost: over every run each one received was answered once, or is the one request some call has
      still to answer - and will not, where that call was dropped. */
  lemma RequestsAreAnswered(ms: seq<Move>, k: nat)
    requires Legal(NEW_SEAM, ms) && k < Play(NEW_SEAM, ms).received
    ensures var s := Play(NEW_SEAM, ms);
            && (k in s.answered <==>
                  forall r :: 0 <= r < |s.heap| && s.heap[r].current.Some? && s.heap[r].shown.None? ==>
                    s.heap[r].current.value.serial != k)
            && (forall i, j :: 0 <= i < j < |s.answered| ==> s.answered[i] != s.answered[j])
  {
    hide Legal, Play, RefPlay;
    assert AskedInv(WireOf(NEW_SEAM));
    PlayKeepsAsked(NEW_SEAM, ms);
    AtMostOnce(ms);
    var s := Play(NEW_SEAM, ms);
    var w := WireOf(s);
    assert k in w.answered <==> forall q: nat :: !Asks(w, q, k);
    forall r: nat | r < |s.heap|
      ensures Asks(w, r, k) <==>
                s.heap[r].current.Some? && s.heap[r].shown.None? && s.heap[r].current.value.serial == k
    {
      assert w.talks[r] == TalkOf(s.heap[r]);
    }
    hide Asks, Inv, AskedInv, TalkOf;
  }

  // ----- a round goes out for an attempt -----

  ghost predicate CarryAttempts(sent: seq<RoundSent>) {
    forall i :: 0 <= i < |sent| ==> HasAttempt(sent[i].events)
  }

  predicate EndsInError(t: Talk) {
    t.stage == Holding(ErrorFrame) || t.stage == Concluded(ErrorFrame)
  }

  /** A round is due for an attempt not sent, and every round sent carried one - but for those that take an error's
      last outcomes. */
  ghost predicate NeedInv(t: Talk) {
    && (t.stage.Running? && t.due ==> HasAttempt(t.unsent))
    && (t.stage == Holding(ResultFrame) ==> t.asked.None?)
    && (CarryAttempts(t.sent) || EndsInError(t) || t.stage.Dropped?)
  }

  ghost predicate NeedsInv(w: Wire) {
    forall q :: 0 <= q < |w.talks| ==> NeedInv(w.talks[q])
  }

  lemma DropNeeds(w: Wire, q: nat)
    requires NeedsInv(w) && q < |w.talks|
    ensures NeedsInv(Drop(w, q))
  {
    hide Without;
  }

  lemma JoinNeeds(w: Wire, q: nat)
    requires NeedsInv(w) && q < |w.talks|
    ensures NeedsInv(Join(w, q))
  {
    var id := w.talks[q].id;
    var v := w.(line := Without(w.line, id) + [(id, q)]);
    hide NeedInv;
    if |v.line| > MAX_IDLE_SESSIONS && v.line[0].1 < |v.talks| {
      DropNeeds(v, v.line[0].1);
    }
    hide Without, Drop;
  }

  /** The frame is placed for a handler at work, or again for one that holds this frame. */
  lemma PlaceNeeds(w: Wire, q: nat, frame: Frame)
    requires q < |w.talks| && (forall r :: 0 <= r < |w.talks| && r != q ==> NeedInv(w.talks[r]))
    requires CarryAttempts(w.talks[q].sent) || (frame == ErrorFrame && EndsInError(w.talks[q]))
    ensures NeedsInv(Place(w, q, frame))
  {
    var t := w.talks[q];
    hide CarryAttempts, HasAttempt;
    if t.asked.None? {
      var u := w.(talks := w.talks[q := t.(stage := Holding(frame))]);
      assert NeedInv(u.talks[q]);
      hide NeedInv;
      JoinNeeds(u, q);
    } else if frame == ErrorFrame && Outcomes(t.unsent) != [] {
      var u := w.(talks := w.talks[q := t.(stage := Holding(frame), unsent := Outcomes(t.unsent), due := true)]);
      assert NeedInv(u.talks[q]);
      hide NeedInv;
      JoinNeeds(u, q);
    }
  }

  lemma ResumeNeeds(w: Wire, q: nat, id: RequestId)
    requires NeedsInv(w) && q < |w.talks| && Live(w.talks[q])
    ensures var v := Resume(w, q, id);
            if w.talks[q].stage.Holding? then NeedsInv(Place(v, q, w.talks[q].stage.frame)) else NeedsInv(v)
  {
    var v := Resume(w, q, id);
    assert NeedInv(w.talks[q]);
    hide HasAttempt, CarryAttempts;
    if w.talks[q].stage.Holding? {
      assert v.talks[q].sent == w.talks[q].sent && v.talks[q].stage == w.talks[q].stage;
      assert forall r :: 0 <= r < |w.talks| && r != q ==> v.talks[r] == w.talks[r];
      hide Place;
      PlaceNeeds(v, q, w.talks[q].stage.frame);
    }
  }

  lemma SendNeeds(w: Wire, q: nat, token: Token)
    requires NeedsInv(w) && q < |w.talks| && w.talks[q].due
    ensures NeedsInv(SendRound(w, q, token))
  {
    var t, v := w.talks[q], SendRound(w, q, token);
    assert NeedInv(t);
    var u := v.talks[q];
    if Live(t) && t.asked.Some? && t.unsent != [] {
      var x := RoundSent(token, t.unsent);
      assert u.sent == t.sent + [x] && u.stage == t.stage;
      if t.stage.Running? {
        assert HasAttempt(x.events);
        hide HasAttempt;
        assert CarryAttempts(t.sent + [x]);
      } else {
        assert t.stage != Holding(ResultFrame);
        assert t.stage == Holding(t.stage.frame) && t.stage.frame.ErrorFrame?;
      }
    } else {
      assert u == t.(due := false);
    }
    assert forall r :: 0 <= r < |w.talks| && r != q ==> v.talks[r] == w.talks[r];
    hide HasAttempt, SendRound;
  }

  lemma SayNeeds(w: Wire, q: nat, e: Event)
    requires NeedsInv(w) && q < |w.talks|
    ensures NeedsInv(Say(w, q, e))
  {
    assert NeedInv(w.talks[q]);
    var t := w.talks[q];
    if IsAttempt(e) {
      assert e in t.unsent + [e];
    } else if HasAttempt(t.unsent) {
      var x :| x in t.unsent && IsAttempt(x);
      assert x in t.unsent + [e];
    }
  }

  lemma RetryNeeds(s: Seam, m: Move)
    requires Inv(s) && NeedsInv(WireOf(s)) && m.Retry?
    ensures NeedsInv(RefNext(WireOf(s), m))
  {
    var w := WireOf(s);
    forall q: nat ensures HasOut(w, q, m.token) <==> m.token in s.rounds && s.rounds[m.token] == q {
      OutIff(s, q, m.token);
    }
    if m.token in s.rounds {
      var q := s.rounds[m.token];
      TokenNames(s, m.token);
      StandOf(s, q);
      TalkParts(s, q);
      assert Live(w.talks[q]);
      hide NeedsInv, RefNext, WireOf, Inv, Resume, Place, HasOut, TalkOf;
      ResumeNeeds(w, q, m.id);
      RefResumes(w, m, q);
    } else {
      RefRefuses(w, m);
      hide RefNext, NeedInv, WireOf, Inv, HasOut;
    }
  }

  lemma ConclusionNeeds(s: Seam, m: Move)
    requires Inv(s) && NeedsInv(WireOf(s)) && m.HandlerConcludes?
    ensures NeedsInv(RefNext(WireOf(s), m))
  {
    var w := WireOf(s);
    if m.id !in s.cancelled && m.id in s.calls {
      CalledIsLive(s, m.id);
      var q := s.calls[m.id];
      CalledTalk(s, m.id);
      NeedOf(w, q);
      RefPlaces(s, m.id, m.frame);
      var v := w.(named := s.calls - {m.id});
      hide *;
      PlaceNeeds(v, q, m.frame);
    } else {
      NothingConcludes(s, m);
      hide Inv, RefNext, WireOf;
      SameNeeds(w, RefNext(w, m));
    }
  }

  lemma CalledTalk(s: Seam, id: RequestId)
    requires Inv(s) && id in s.calls && s.calls[id] < |s.heap|
    ensures |WireOf(s).talks| == |s.heap| && WireOf(s).talks[s.calls[id]].stage.Running?
  {
    CalledIsLive(s, id);
    StandOf(s, s.calls[id]);
    TalkParts(s, s.calls[id]);
    hide Inv, WireOf, EventsInv;
  }

  lemma NeedOf(w: Wire, q: nat)
    requires NeedsInv(w) && q < |w.talks|
    ensures forall r :: 0 <= r < |w.talks| ==> NeedInv(w.talks[r])
    ensures w.talks[q].stage.Running? ==> CarryAttempts(w.talks[q].sent)
  {
    hide HasAttempt;
    assert NeedInv(w.talks[q]);
  }

  lemma NothingConcludes(s: Seam, m: Move)
    requires m.HandlerConcludes? && (m.id in s.cancelled || m.id !in s.calls)
    ensures RefNext(WireOf(s), m).talks == WireOf(s).talks
  {
    hide TalksOf, Place;
  }

  lemma SameNeeds(w: Wire, v: Wire)
    requires NeedsInv(w) && v.talks == w.talks
    ensures NeedsInv(v)
  {
  }

  lemma MoveKeepsNeeds(s: Seam, m: Move)
    requires Inv(s) && NeedsInv(WireOf(s)) && Enabled(s, m)
    ensures NeedsInv(RefNext(WireOf(s), m))
  {
    var w := WireOf(s);
    assert |w.talks| == |s.heap|;
    hide Inv, NeedsInv, WireOf, Drop, Say, SendRound, Place, Resume;
    match m
    case NewCall(_, _) => NewNeeds(w, m);
    case Retry(_, _, _, _) => RetryNeeds(s, m);
    case EmitAttempt(q, e) => SayNeeds(w, q, e);
    case EmitOutcome(q, e) => SayNeeds(w, q, e);
    case TimesOut(_) =>
    case RoundGoes(q, token) => RoundNeeds(s, q, token);
    case HandlerConcludes(_, _) => ConclusionNeeds(s, m);
    case CancelArrives(_, q) =>
      DropNeeds(w, q);
      SameNeeds(Drop(w, q), RefNext(w, m));
    case Forgets(_) => SameNeeds(w, RefNext(w, m));
    case Drops(q) => DropNeeds(w, q);
  }

  lemma NewNeeds(w: Wire, m: Move)
    requires NeedsInv(w) && m.NewCall?
    ensures NeedsInv(RefNext(w, m))
  {
    hide HasAttempt;
  }

  lemma RoundNeeds(s: Seam, q: nat, token: Token)
    requires NeedsInv(WireOf(s)) && q < |s.heap| && s.heap[q].roundScheduled
    ensures |WireOf(s).talks| == |s.heap| && NeedsInv(SendRound(WireOf(s), q, token))
  {
    var w := WireOf(s);
    TalkParts(s, q);
    if w.talks[q].due {
      SendNeeds(w, q, token);
    } else {
      assert !Live(w.talks[q]);
      assert w.talks[q := w.talks[q].(due := false)] == w.talks;
    }
  }

  lemma {:induction false} PlayKeepsNeeds(s: Seam, ms: seq<Move>)
    requires Inv(s) && StagesInv(s) && NeedsInv(WireOf(s)) && Legal(s, ms)
    ensures NeedsInv(WireOf(Play(s, ms)))
    decreases |ms|
  {
    hide Inv, StagesInv, NeedsInv, Enabled, Next, RefNext, WireOf;
    if ms != [] {
      MoveKeepsInv(s, ms[0]);
      MoveFollows(s, ms[0]);
      MoveKeepsNeeds(s, ms[0]);
      PlayKeepsNeeds(Next(s, ms[0]), ms[1..]);
    }
  }

  /** A round costs its client a round trip: over every run each round of a call that is at work, or answered with
      a result, carried an attempt. */
  lemma RoundsAreNeeded(ms: seq<Move>, r: nat)
    requires Legal(NEW_SEAM, ms) && r < |Play(NEW_SEAM, ms).heap|
    ensures var c := Play(NEW_SEAM, ms).heap[r];
            !c.finished || c.shown == Some(ResultFrame) ==>
              forall i :: 0 <= i < |c.rounds| ==> HasAttempt(c.rounds[i].events)
  {
    hide Legal, Play, RefPlay, HasAttempt;
    PlayKeepsNeeds(NEW_SEAM, ms);
    PlayFollows(NEW_SEAM, ms);
    PlayKeepsInv(NEW_SEAM, ms);
    var s := Play(NEW_SEAM, ms);
    StandOf(s, r);
    TalkParts(s, r);
    assert NeedInv(WireOf(s).talks[r]);
    hide Inv, EventsInv, WireOf, NeedsInv;
    assert StageInv(s.heap[r]);
  }
}
