/** The tool's end of the wire, updated in place; each operation is proved to compute its specification. */
module ToolTransports {
  import opened Events
  import opened RoundModel
  import H = HostModel
  import opened RoundInvariant

  class McpAuditTransport {
    var heap: seq<Call>
    var pendings: seq<Pending>
    var calls: map<RequestId, nat>
    var waiting: seq<(RequestId, nat)>
    var cancelled: map<RequestId, nat>
    var rounds: map<Token, nat>
    var issued: set<Token>
    var resumed: seq<Token>
    var received: nat
    var answered: seq<nat>

    function State(): Seam
      reads this
    {
      Seam(heap, pendings, calls, waiting, cancelled, rounds, issued, resumed, received, answered)
    }

    ghost predicate Valid()
      reads this
    {
      Inv(State())
    }

    constructor ()
      ensures State() == NEW_SEAM && Valid()
    {
      heap, pendings, calls, waiting, cancelled := [], [], map[], [], map[];
      rounds, issued, resumed, received, answered := map[], {}, [], 0, [];
    }

    // ----- requests -----

    /** A new request is taken in. */
    method TakeNew(id: RequestId, audit: Option<string>) returns (ref: nat)
      modifies this
      ensures State() == RoundModel.TakeNew(old(State()), id, audit) && ref == old(|heap|)
      ensures old(Valid()) ==> Valid()
    {
      if Inv(State()) {
        NewKeeps(State(), id, audit);
      }
      hide Inv;
      ref := |heap|;
      heap := heap + [Call(id, audit, Some(Request(id, received)), {id}, [], map[], None, false, None, false, false,
                           [], [], [], {}, None)];
      calls := calls[id := ref];
      received := received + 1;
    }

    /** A retry: consumed with its round, answered with the call's final frame where that waits, and refused
        where no round of its token is out. */
    method TakeRetry(id: RequestId, token: Token, session: Option<string>, responses: map<string, H.Answer>)
      modifies this
      ensures State() == RoundModel.TakeRetry(old(State()), id, token, session, responses)
      ensures old(Valid()) ==> Valid()
    {
      RetryIsSound(State(), id, token, session, responses);
      hide Inv, RoundModel.FinalFrame, RoundModel.AcceptRetry;
      if token !in rounds || rounds[token] >= |heap| {
        answered := answered + [received];
        received := received + 1;
        return;
      }
      var ref := rounds[token];
      rounds := rounds - {token};
      resumed := resumed + [token];
      AcceptRetry(ref, id, session, responses);
      if heap[ref].final.Some? {
        FinalFrame(ref, heap[ref].final.value);
      }
    }

    method AcceptRetry(ref: nat, id: RequestId, session: Option<string>, responses: map<string, H.Answer>)
      requires ref < |heap|
      modifies this
      ensures State() == RoundModel.AcceptRetry(old(State()), ref, id, session, responses)
    {
      hide RoundModel.SettleRound, HasAttempt;
      var c := heap[ref];
      var named := session.Some? && session == c.audit;
      if c.round.Some? {
        SettleRound(c.round.value, if named then responses else map[]);
      }
      var needsRound := !c.finished && !c.ended && HasAttempt(c.buffered);
      c := c.(round := None, current := Some(Request(id, received)), ids := c.ids + {id});
      if needsRound {
        c := c.(roundScheduled := true);
      }
      heap := heap[ref := c];
      received := received + 1;
    }

    /** Hands each attempt of the round its answer, or `unavailable`. */
    method SettleRound(out: Round, responses: map<string, H.Answer>)
      modifies this`pendings
      ensures pendings == RoundModel.SettleRound(old(pendings), out, responses)
    {
      var i := 0;
      while i < |pendings|
        invariant 0 <= i <= |pendings| == |old(pendings)|
        invariant pendings[..i] == RoundModel.SettleRound(old(pendings), out, responses)[..i]
        invariant pendings[i..] == old(pendings)[i..]
      {
        if i in out.awaiting.Values {
          var p := pendings[i];
          var name := NameOf(p.event);
          var answer := if name in responses then responses[name] else H.Unavailable;
          pendings := pendings[i := Settle(p, answer, Some(out.token))];
        }
        i := i + 1;
      }
    }

    method SettleUnavailable(which: set<nat>)
      modifies this`pendings
      ensures pendings == RoundModel.SettleUnavailable(old(pendings), which)
    {
      var i := 0;
      while i < |pendings|
        invariant 0 <= i <= |pendings| == |old(pendings)|
        invariant pendings[..i] == RoundModel.SettleUnavailable(old(pendings), which)[..i]
        invariant pendings[i..] == old(pendings)[i..]
      {
        if i in which {
          pendings := pendings[i := Settle(pendings[i], H.Unavailable, None)];
        }
        i := i + 1;
      }
    }

    // ----- the handler -----

    /** The attempt joins the round to come; None where nothing can answer it any more. */
    method SendAttempt(ref: nat, e: Event) returns (pending: Option<nat>)
      requires ref < |heap|
      modifies this
      ensures State() == RoundModel.SendAttempt(old(State()), ref, e)
      ensures pending.None? <==> old(heap[ref].finished || heap[ref].ended)
      ensures old(Valid()) && IsAttempt(e) ==> Valid()
    {
      if Inv(State()) && IsAttempt(e) {
        AttemptKeeps(State(), ref, e);
      }
      hide Inv;
      var c := heap[ref];
      if c.finished || c.ended {
        return None;
      }
      var p, name := |pendings|, NameOf(e);
      pendings := pendings + [Pending(ref, e, None, None, None, false)];
      if name in c.bufferedAwaiting {
        c := c.(shadowed := c.shadowed + {c.bufferedAwaiting[name]});
      }
      c := c.(buffered := c.buffered + [e], emitted := c.emitted + [e],
              bufferedAwaiting := c.bufferedAwaiting[name := p]);
      heap := heap[ref := c.(roundScheduled := true)];
      return Some(p);
    }

    method SendOutcome(ref: nat, e: Event) returns (kept: bool)
      requires ref < |heap|
      modifies this
      ensures State() == RoundModel.SendOutcome(old(State()), ref, e)
      ensures kept <==> !old(heap[ref].finished || heap[ref].ended)
      ensures old(Valid()) && !IsAttempt(e) ==> Valid()
    {
      if Inv(State()) && !IsAttempt(e) {
        OutcomeKeeps(State(), ref, e);
      }
      hide Inv;
      var c := heap[ref];
      if c.finished || c.ended {
        return false;
      }
      heap := heap[ref := c.(buffered := c.buffered + [e], emitted := c.emitted + [e])];
      return true;
    }

    /** Ends the round: everything emitted since the last goes out on the id that is open. */
    method EndRound(ref: nat, token: Token)
      requires ref < |heap|
      modifies this
      ensures State() == RoundModel.EndRound(old(State()), ref, token)
      ensures old(Valid()) && token !in old(issued) ==> Valid()
    {
      if Inv(State()) && token !in issued {
        RoundKeeps(State(), ref, token);
      }
      hide Inv, CarryAll;
      ghost var before := heap;
      var c := heap[ref].(roundScheduled := false);
      heap := heap[ref := c];
      if c.ended || c.round.Some? || c.current.None? || c.buffered == [] {
        return;
      }
      pendings := CarryAll(pendings, c.bufferedAwaiting.Values, token);
      rounds := rounds[token := ref];
      issued := issued + {token};
      answered := answered + [c.current.value.serial];
      heap := heap[ref := c.(buffered := [], bufferedAwaiting := map[], round := Some(Round(token, c.bufferedAwaiting)),
                             current := None, rounds := c.rounds + [RoundSent(token, c.buffered)])];
      assert heap == before[ref := heap[ref]];
    }

    // ----- the end of a call -----

    method EndCall(ref: nat)
      requires ref < |heap|
      modifies this
      ensures State() == RoundModel.EndCall(old(State()), ref)
    {
      var c := heap[ref];
      calls := calls - {c.originalId};
      waiting := Unlisted(waiting, c.originalId);
      if c.round.Some? {
        rounds := rounds - {c.round.value.token};
      }
      SettleUnavailable(AwaitedBy(c) + c.bufferedAwaiting.Values);
      heap := heap[ref := c.(finished := true, ended := true, final := None, bufferedAwaiting := map[])];
    }

    /** A cancellation names a call by any id it was served under. */
    method Cancel(target: RequestId, ref: nat)
      requires ref < |heap| && target in heap[ref].ids
      requires ref in calls.Values || exists x :: x in waiting && x.1 == ref
      modifies this
      ensures State() == RoundModel.Cancel(old(State()), ref)
      ensures old(Valid()) ==> Valid()
    {
      CancelIsSound(State(), target, ref);
      hide Inv, RoundModel.EndCall;
      var concluded, original := heap[ref].finished, heap[ref].originalId;
      EndCall(ref);
      if !concluded {
        cancelled := cancelled[original := ref];
      }
    }

    /** Keeps the final frame for the retry to come, and evicts the call that has waited longest. */
    method KeepWaiting(ref: nat, frame: Frame)
      requires ref < |heap|
      modifies this
      ensures State() == RoundModel.KeepWaiting(old(State()), ref, frame)
    {
      hide RoundModel.EndCall;
      var c := heap[ref];
      heap := heap[ref := c.(final := Some(frame))];
      waiting := Unlisted(waiting, c.originalId) + [(c.originalId, ref)];
      if |waiting| > MAX_IDLE_SESSIONS && waiting[0].1 < |heap| {
        EndCall(waiting[0].1);
      }
    }

    method FinalFrame(ref: nat, frame: Frame)
      requires ref < |heap|
      modifies this
      ensures State() == RoundModel.FinalFrame(old(State()), ref, frame)
    {
      hide RoundModel.KeepWaiting, RoundModel.SettleUnavailable, Outcomes;
      var c := heap[ref];
      if c.current.None? {
        return;
      }
      var outcomes := Outcomes(c.buffered);
      SettleUnavailable(c.bufferedAwaiting.Values);
      c := c.(buffered := [], bufferedAwaiting := map[]);
      heap := heap[ref := c];
      if frame == ErrorFrame && outcomes != [] {
        heap := heap[ref := c.(buffered := outcomes, roundScheduled := true)];
        KeepWaiting(ref, frame);
      } else {
        Conclude(ref, frame, if frame == ErrorFrame then [] else outcomes);
      }
    }

    method Conclude(ref: nat, frame: Frame, finalEvents: seq<Event>)
      requires ref < |heap| && heap[ref].current.Some?
      modifies this
      ensures State() == RoundModel.Conclude(old(State()), ref, frame, finalEvents)
    {
      var c := heap[ref];
      waiting := Unlisted(waiting, c.originalId);
      answered := answered + [c.current.value.serial];
      heap := heap[ref := c.(ended := true, final := None, finalEvents := finalEvents, shown := Some(frame))];
    }

    /** The handler's final frame: not written for a cancelled call, held back while a round is out. */
    method Finish(id: RequestId, frame: Frame)
      modifies this
      ensures State() == RoundModel.Finish(old(State()), id, frame)
      ensures old(Valid()) ==> Valid()
    {
      FinishIsSound(State(), id, frame);
      hide Inv, RoundModel.KeepWaiting, RoundModel.SettleUnavailable, RoundModel.FinalFrame;
      if id in cancelled {
        cancelled := cancelled - {id};
      } else if id in calls && calls[id] < |heap| {
        var ref := calls[id];
        calls := calls - {id};
        heap := heap[ref := heap[ref].(finished := true)];
        if heap[ref].round.Some? {
          SettleUnavailable(AwaitedBy(heap[ref]));
          KeepWaiting(ref, frame);
        } else {
          FinalFrame(ref, frame);
        }
      }
    }
  }

  lemma RetryIsSound(s: Seam, id: RequestId, token: Token, session: Option<string>, responses: map<string, H.Answer>)
    ensures Inv(s) ==> Inv(RoundModel.TakeRetry(s, id, token, session, responses))
  {
    hide Inv, RoundModel.TakeRetry;
    if Inv(s) {
      RetriedKeeps(s, id, token, session, responses);
    }
  }

  lemma CancelIsSound(s: Seam, target: RequestId, ref: nat)
    requires Enabled(s, CancelArrives(target, ref))
    ensures Inv(s) ==> Inv(RoundModel.Cancel(s, ref))
  {
    hide Inv, RoundModel.Cancel;
    if Inv(s) {
      MoveKeepsInv(s, CancelArrives(target, ref));
    }
  }

  lemma FinishIsSound(s: Seam, id: RequestId, frame: Frame)
    ensures Inv(s) ==> Inv(RoundModel.Finish(s, id, frame))
  {
    hide Inv, RoundModel.Finish;
    if Inv(s) {
      FinishKeeps(s, id, frame);
    }
  }
}
