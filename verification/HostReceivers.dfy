/** The host's end of one call, updated in place; each operation is proved to compute its specification. */
module HostReceivers {
  import opened Events
  import opened HostRounds
  import H = HostModel
  import RoundModel

  class RoundWork {
    const events: seq<Event>
    const decide: bool
    var next: nat
    var inHand: Option<nat>
    var responses: map<string, H.Answer>
    var cutoff: bool
    ghost var log: seq<Decision>
    ghost var cut: Option<Cut>

    ghost function State(): Work
      reads this
    {
      Work(events, decide, next, inHand, responses, cutoff, log, cut)
    }

    constructor (events: seq<Event>, decide: bool)
      ensures State() == NewWork(events, decide)
    {
      this.events, this.decide := events, decide;
      next, inHand, responses, cutoff := 0, None, map[], false;
      log, cut := [], None;
    }

    /** Whether the worker goes on: items are left, and it was not told to stop. */
    predicate GoesOn()
      reads this
    {
      next < |events| && !cutoff && inHand.None?
    }

    /** The item taken up, for the endpoint; None where it is an attempt no retry would answer. */
    method TakeNext() returns (item: Option<Event>)
      requires GoesOn()
      modifies this
      ensures MayTake(old(State())) && State() == Take(old(State()))
      ensures item == if IsAttempt(events[old(next)]) && !decide then None else Some(events[old(next)])
    {
      var e := events[next];
      next := next + 1;
      if IsAttempt(e) && !decide {
        return None;
      }
      inHand := Some(next - 1);
      return Some(e);
    }

    /** A decision reached after the cut-off is not one the retry carries. */
    method Finish(answer: H.Answer)
      requires inHand.Some? && inHand.value < |events|
      modifies this
      ensures State() == Done(old(State()), answer)
    {
      var e := events[inHand.value];
      if IsAttempt(e) {
        log := log + [Decision(inHand.value, answer, cutoff)];
        if e.id.Some? && !cutoff {
          responses := responses[e.id.value := answer];
        }
      }
      inHand := None;
    }

    method CutOff()
      modifies this
      ensures State() == CutShort(old(State()))
    {
      cut := Some(Cut(next, inHand));
      cutoff := true;
    }

    /** The outcomes among the items not taken up, in order. */
    method LeftoverOutcomes() returns (left: seq<Event>)
      ensures left == Leftover(State())
    {
      left := [];
      if next > |events| {
        return;
      }
      var i := next;
      while i < |events|
        invariant next <= i <= |events|
        invariant left == RoundModel.Outcomes(events[next..i])
      {
        assert events[next..i + 1] == events[next..i] + [events[i]];
        assert events[next..i + 1][..i - next] == events[next..i];
        if !IsAttempt(events[i]) {
          left := left + [events[i]];
        }
        i := i + 1;
      }
      assert events[next..|events|] == events[next..];
    }

    /** The answers of the retry: for each attempt with an id, the decision reached in time or `unavailable`. */
    method CollectAnswers() returns (answers: map<string, H.Answer>)
      ensures answers == Answers(events, responses)
    {
      answers := map[];
      var i := 0;
      while i < |events|
        invariant 0 <= i <= |events|
        invariant answers == Answers(events[..i], responses)
      {
        var e := events[i];
        assert events[..i + 1] == events[..i] + [e];
        if IsAttempt(e) && e.id.Some? {
          answers := answers[e.id.value := if e.id.value in responses then responses[e.id.value] else H.Unavailable];
        }
        i := i + 1;
      }
      assert events[..|events|] == events;
    }
  }

  /** What the works of a call stand for. */
  ghost function StatesOf(works: seq<RoundWork>): (r: seq<Work>)
    reads works
    ensures |r| == |works|
  {
    if works == [] then [] else StatesOf(works[..|works| - 1]) + [works[|works| - 1].State()]
  }

  lemma {:induction false} StatesAre(works: seq<RoundWork>)
    ensures forall i :: 0 <= i < |works| ==> StatesOf(works)[i] == works[i].State()
    decreases |works|
  {
    if works != [] {
      StatesAre(works[..|works| - 1]);
    }
  }

  /** One call as the receiver follows it: its queue of audit work, and the work of each round, which its worker
      goes on with for as long as it runs. */
  class ReceiverCall {
    var ended: bool
    var closed: bool
    var rounds: nat
    var lane: seq<Job>
    var stage: Stage
    var works: seq<RoundWork>
    var toolOwes: bool
    var heldUp: bool
    var retries: seq<RetrySent>
    ghost var arrived: seq<Event>
    ghost var handed: seq<Event>
    ghost var dropped: seq<Event>
    ghost var attempts: set<(nat, nat)>

    ghost function State(): HostCall
      reads this, works
    {
      HostCall(ended, closed, rounds, lane, stage, StatesOf(works), toolOwes, heldUp, arrived, handed, dropped,
               attempts, retries)
    }

    /** No two rounds share their work. */
    ghost predicate Distinct()
      reads this
    {
      forall i, j :: 0 <= i < j < |works| ==> works[i] != works[j]
    }

    ghost predicate Valid()
      reads this, works
    {
      Inv(State())
    }

    constructor ()
      ensures State() == NEW_CALL && Distinct() && Valid()
    {
      ended, closed, rounds, lane, stage, works := false, false, 0, [], Idle, [];
      toolOwes, heldUp, retries := true, false, [];
      arrived, handed, dropped, attempts := [], [], [], {};
      new;
      NewCallInv();
    }

    /** A round is queued to be followed; a final answer ends the call and queues what it carries. */
    method Arrive(events: seq<Event>, kind: Answered)
      requires !ended && Distinct()
      modifies this
      ensures State() == HostRounds.Arrive(old(State()), events, kind) && Distinct()
      ensures old(Valid()) ==> Valid()
    {
      hide Inv, HostRounds.Arrive, StatesOf;
      ArriveIsSound(State(), events, kind);
      Queue(events, kind);
    }

    method Queue(events: seq<Event>, kind: Answered)
      requires Distinct()
      modifies this
      ensures State() == HostRounds.Arrive(old(State()), events, kind) && Distinct()
    {
      hide RoundModel.Outcomes, StatesOf;
      toolOwes := false;
      if kind.FinalAnswer? {
        ended := true;
        lane := lane + [ConcludeJob(events)];
        arrived := arrived + events;
      } else {
        lane := lane + [FollowJob(events, kind.hasState, kind.asksInput)];
        arrived := arrived + RoundModel.Outcomes(events);
      }
    }

    /** The call is taken out of the calls in flight; its close is queued behind its work. */
    method Evict()
      requires !ended && Distinct()
      modifies this
      ensures State() == old(State()).(ended := true, lane := old(lane) + [CloseJob]) && Distinct()
      ensures old(Valid()) ==> Valid()
    {
      EvictIsSound(State());
      hide Inv, StatesOf;
      ended := true;
      lane := lane + [CloseJob];
    }

    /** The queue's worker takes up its next job; a round's worker starts on a work of its own. */
    method TakeJob()
      requires stage == Idle && lane != [] && Distinct()
      modifies this
      ensures State() == HostRounds.TakeJob(old(State())) && Distinct()
      ensures forall i :: 0 <= i < |works| ==> works[i] in old(works) || fresh(works[i])
      ensures old(Valid()) ==> Valid()
    {
      hide Inv, HostRounds.TakeJob, StatesOf;
      TakeIsSound(State());
      StartJob();
    }

    method StartJob()
      requires stage == Idle && lane != [] && Distinct()
      modifies this
      ensures State() == HostRounds.TakeJob(old(State())) && Distinct()
      ensures forall i :: 0 <= i < |works| ==> works[i] in old(works) || fresh(works[i])
    {
      hide RoundModel.Outcomes, StatesOf;
      var job := lane[0];
      lane := lane[1..];
      if job.FollowJob? && !ended {
        BeginRound(job.events, job.hasState, job.asksInput);
        return;
      }
      match job {
        case FollowJob(events, _, _) => dropped := dropped + RoundModel.Outcomes(events);
        case SealJob(outcomes) => stage := Sealing(outcomes, false);
        case ConcludeJob(events) => stage := Sealing(events, true);
        case CloseJob => closed := true;
      }
    }

    /** A round is followed - or abandoned, past the limit or where there is no state to retry it with. */
    method BeginRound(events: seq<Event>, hasState: bool, asksInput: bool)
      requires !ended && Distinct()
      modifies this
      ensures var c, n, decide := old(State()), |old(works)|, old(rounds) + 1 <= MAX_ROUNDS_PER_CALL && hasState;
              State() == c.(rounds := c.rounds + 1, ended := !decide, works := c.works + [NewWork(events, decide)],
                            stage := if decide then Following(n, asksInput) else Abandoning(n))
      ensures |works| == |old(works)| + 1 && Distinct()
      ensures forall i :: 0 <= i < |works| ==> works[i] in old(works) || fresh(works[i])
    {
      hide StatesOf, NewWork;
      rounds := rounds + 1;
      var decide := rounds <= MAX_ROUNDS_PER_CALL && hasState;
      var work := new RoundWork(events, decide);
      OneMoreWork(works, work);
      stage := if decide then Following(|works|, asksInput) else Abandoning(|works|);
      ended := !decide;
      works := works + [work];
    }

    /** One turn of a round's worker: it takes its next item up, or stops where it was told to or is done. */
    method WorkerTurn(at: nat) returns (item: Option<Event>)
      requires at < |works| && Distinct()
      modifies this, works[at]
      ensures works == old(works) && Distinct()
      ensures !MayTake(old(StatesOf(works))[at]) ==> item == None && State() == old(State())
      ensures MayTake(old(StatesOf(works))[at]) ==> State() == WorkerTake(old(State()), at)
      ensures old(Valid()) ==> Valid()
    {
      hide Inv, StatesOf, WorkerTake;
      StatesAre(works);
      if !works[at].GoesOn() {
        return None;
      }
      WorkerIsSound(State(), at);
      item := TakeUp(at);
    }

    method TakeUp(at: nat) returns (item: Option<Event>)
      requires at < |works| && Distinct() && MayTake(StatesOf(works)[at])
      modifies this, works[at]
      ensures works == old(works) && Distinct()
      ensures State() == WorkerTake(old(State()), at)
    {
      hide Take, StatesOf;
      ghost var before := StatesOf(works);
      StatesAre(works);
      var w := works[at];
      var e, n := w.events[w.next], w.next;
      item := w.TakeNext();
      StatesAre(works);
      OneDiffers(before, StatesOf(works), at);
      if !IsAttempt(e) {
        handed := handed + [e];
      } else if w.decide {
        attempts := attempts + {(at, n)};
      }
    }

    /** The endpoint is done with the item a worker has in hand, before or after its round was left. */
    method WorkerDone(at: nat, answer: H.Answer)
      requires at < |works| && Distinct() && InProgress(works[at].State())
      modifies works[at]
      ensures works == old(works) && Distinct()
      ensures State() == old(State()).(works := old(State()).works[at := Done(old(works[at].State()), answer)])
      ensures old(Valid()) ==> Valid()
    {
      ghost var before := State();
      StatesAre(works);
      DoneIsSound(before, at, answer);
      hide Inv, Done, StatesOf;
      works[at].Finish(answer);
      StatesAre(works);
      OneDiffers(before.works, StatesOf(works), at);
    }

    /** The round's deadline passed, or its work is done: its worker is told to stop. */
    method CutOff()
      requires StageAt(stage).Some? && StageAt(stage).value < |works| && Distinct()
      requires !StatesOf(works)[StageAt(stage).value].cutoff
      modifies works[StageAt(stage).value]
      ensures works == old(works) && Distinct()
      ensures State() == HostRounds.CutOff(old(State()))
      ensures old(Valid()) ==> Valid()
    {
      ghost var before := State();
      StatesAre(works);
      CutIsSound(before);
      hide Inv, CutShort, StatesOf;
      var at := StageAt(stage).value;
      works[at].CutOff();
      StatesAre(works);
      OneDiffers(before.works, StatesOf(works), at);
    }

    /** The round is left: what its worker did not take up is sealed here where the call ended meanwhile, and
        otherwise queued before the retry that carries the answers. */
    method LeaveRound(sent: bool)
      requires StageAt(stage).Some? && StageAt(stage).value < |works| && Distinct()
      requires StatesOf(works)[StageAt(stage).value].cutoff
      modifies this
      ensures works == old(works) && Distinct()
      ensures State() == HostRounds.Leave(old(State()), sent)
      ensures old(Valid()) ==> Valid()
    {
      hide Inv, HostRounds.Leave, StatesOf;
      StatesAre(works);
      LeaveIsSound(State(), sent);
      PlaceLeftover(sent);
    }

    method PlaceLeftover(sent: bool)
      requires StageAt(stage).Some? && StageAt(stage).value < |works| && Distinct()
      modifies this
      ensures works == old(works) && Distinct()
      ensures State() == HostRounds.Leave(old(State()), sent)
    {
      hide Leftover, Answers, StatesOf;
      StatesAre(works);
      var at := StageAt(stage).value;
      var left := works[at].LeftoverOutcomes();
      if stage.Abandoning? {
        PlaceLast(left);
      } else if ended {
        stage := Sealing(left, false);
      } else {
        var answers := works[at].CollectAnswers();
        PlaceRetry(left, answers, sent);
      }
    }

    method PlaceLast(left: seq<Event>)
      requires Distinct()
      modifies this
      ensures works == old(works) && Distinct()
      ensures State() == old(State()).(stage := Idle, lane := Queued(old(lane), left) + [CloseJob])
    {
      hide StatesOf;
      if left != [] {
        lane := lane + [SealJob(left)];
      }
      lane := lane + [CloseJob];
      stage := Idle;
    }

    method PlaceRetry(left: seq<Event>, answers: map<string, H.Answer>, sent: bool)
      requires stage.Following? && Distinct()
      modifies this
      ensures works == old(works) && Distinct()
      ensures var c := old(State());
              var queued := Queued(c.lane, left);
              var d := c.(stage := Idle, lane := queued, retries := c.retries + [RetrySent(c.stage.at, answers)]);
              State() == (if c.stage.asksInput then d.(heldUp := true)
                          else if sent then d.(toolOwes := true)
                          else d.(ended := true, lane := queued + [CloseJob]))
    {
      hide StatesOf;
      if left != [] {
        lane := lane + [SealJob(left)];
      }
      retries := retries + [RetrySent(stage.at, answers)];
      if stage.asksInput {
        heldUp := true;
      } else if sent {
        toolOwes := true;
      } else {
        ended := true;
        lane := lane + [CloseJob];
      }
      stage := Idle;
    }

    /** Hands over the next outcome of the job, or finishes it. */
    method SealNext() returns (item: Option<Event>)
      requires stage.Sealing? && Distinct()
      modifies this
      ensures works == old(works) && Distinct()
      ensures State() == HostRounds.SealNext(old(State()))
      ensures item == if old(stage.rest) == [] then None else Some(old(stage.rest[0]))
      ensures old(Valid()) ==> Valid()
    {
      hide Inv, HostRounds.SealNext, StatesOf;
      SealIsSound(State());
      item := HandNext();
    }

    method HandNext() returns (item: Option<Event>)
      requires stage.Sealing? && Distinct()
      modifies this
      ensures works == old(works) && Distinct()
      ensures State() == HostRounds.SealNext(old(State()))
      ensures item == if old(stage.rest) == [] then None else Some(old(stage.rest[0]))
    {
      hide StatesOf;
      if stage.rest == [] {
        closed := closed || stage.closes;
        stage := Idle;
        item := None;
      } else {
        item := Some(stage.rest[0]);
        handed := handed + [stage.rest[0]];
        stage := Sealing(stage.rest[1..], stage.closes);
      }
    }

    /** The client retries a round it was asked for input by: the tool is asked again. */
    method ClientRetry()
      requires heldUp && !ended && Distinct()
      modifies this
      ensures State() == old(State()).(heldUp := false, toolOwes := true) && Distinct()
      ensures old(Valid()) ==> Valid()
    {
      RetryIsSound(State());
      hide Inv, StatesOf;
      heldUp := false;
      toolOwes := true;
    }
  }

  lemma OneMoreWork(works: seq<RoundWork>, work: RoundWork)
    ensures StatesOf(works + [work]) == StatesOf(works) + [work.State()]
  {
    assert (works + [work])[..|works|] == works;
  }

  /** Two lists that differ in one place. */
  lemma OneDiffers(a: seq<Work>, b: seq<Work>, at: nat)
    requires at < |a| == |b| && forall i :: 0 <= i < |a| && i != at ==> b[i] == a[i]
    ensures b == a[at := b[at]]
  {
  }

  lemma MoveIsSound(c: HostCall, m: Move)
    requires Enabled(c, m, false)
    ensures Inv(c) ==> Inv(Next(c, m))
  {
    if Inv(c) {
      hide Balanced, RoundsInv, EndInv, Next, Enabled;
      MoveKeepsBalance(c, m);
      MoveKeepsRounds(c, m);
      MoveKeepsEnd(c, m);
    }
  }

  lemma ArriveIsSound(c: HostCall, events: seq<Event>, kind: Answered)
    requires !c.ended
    ensures Inv(c) ==> Inv(HostRounds.Arrive(c, events, kind))
  {
    hide Inv, HostRounds.Arrive;
    MoveIsSound(c, Arrives(events, kind));
  }

  lemma EvictIsSound(c: HostCall)
    requires !c.ended
    ensures Inv(c) ==> Inv(c.(ended := true, lane := c.lane + [CloseJob]))
  {
    hide Inv;
    MoveIsSound(c, Evicted);
  }

  lemma TakeIsSound(c: HostCall)
    requires c.stage == Idle && c.lane != []
    ensures Inv(c) ==> Inv(HostRounds.TakeJob(c))
  {
    hide Inv, HostRounds.TakeJob;
    MoveIsSound(c, TakesJob);
  }

  lemma WorkerIsSound(c: HostCall, at: nat)
    requires at < |c.works| && MayTake(c.works[at])
    ensures Inv(c) ==> Inv(WorkerTake(c, at))
  {
    hide Inv, WorkerTake;
    MoveIsSound(c, WorkerTakes(at));
  }

  lemma DoneIsSound(c: HostCall, at: nat, answer: H.Answer)
    requires at < |c.works| && InProgress(c.works[at])
    ensures Inv(c) ==> Inv(c.(works := c.works[at := Done(c.works[at], answer)]))
  {
    hide Inv, Done;
    MoveIsSound(c, WorkerDone(at, answer));
  }

  lemma CutIsSound(c: HostCall)
    requires WorkOf(c).Some? && !WorkOf(c).value.cutoff
    ensures Inv(c) ==> Inv(HostRounds.CutOff(c))
  {
    hide Inv, HostRounds.CutOff;
    MoveIsSound(c, CutsOff);
  }

  lemma LeaveIsSound(c: HostCall, sent: bool)
    requires WorkOf(c).Some? && WorkOf(c).value.cutoff
    ensures Inv(c) ==> Inv(HostRounds.Leave(c, sent))
  {
    hide Inv, HostRounds.Leave;
    MoveIsSound(c, Leaves(sent));
  }

  lemma SealIsSound(c: HostCall)
    requires c.stage.Sealing?
    ensures Inv(c) ==> Inv(HostRounds.SealNext(c))
  {
    hide Inv, HostRounds.SealNext;
    MoveIsSound(c, SealsNext);
  }

  lemma RetryIsSound(c: HostCall)
    requires c.heldUp && !c.ended
    ensures Inv(c) ==> Inv(c.(heldUp := false, toolOwes := true))
  {
    hide Inv;
    MoveIsSound(c, ClientRetries);
  }
}
