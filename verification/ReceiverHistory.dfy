/** What the host's end of a call makes of the rounds the tool sends, against the moves of the run. */
module ReceiverHistory {
  import opened Events
  import opened HostModel
  import opened HostRounds
  import RoundModel

  /** A round as it arrives. */
  datatype Round = Round(events: seq<Event>, hasState: bool, asksInput: bool)

  /** The rounds received, in order. */
  function RoundsIn(ms: seq<Move>): seq<Round> {
    if ms == [] then
      []
    else
      var rest, m := RoundsIn(ms[..|ms| - 1]), ms[|ms| - 1];
      if m.Arrives? && m.kind.RoundAnswer? then
        rest + [Round(m.events, m.kind.hasState, m.kind.asksInput)]
      else
        rest
  }

  /** What arrived for the endpoint: the outcomes of each round, and everything a final answer carries. */
  function ArrivedIn(ms: seq<Move>): seq<Event> {
    if ms == [] then
      []
    else
      var rest, m := ArrivedIn(ms[..|ms| - 1]), ms[|ms| - 1];
      if !m.Arrives? then rest
      else if m.kind.RoundAnswer? then rest + RoundModel.Outcomes(m.events)
      else rest + m.events
  }

  /** How many answers the tool sent. */
  function AnswersIn(ms: seq<Move>): nat {
    if ms == [] then 0 else AnswersIn(ms[..|ms| - 1]) + if ms[|ms| - 1].Arrives? then 1 else 0
  }

  /** How many rounds the client retried itself. */
  function ClientRetriesIn(ms: seq<Move>): nat {
    if ms == [] then 0 else ClientRetriesIn(ms[..|ms| - 1]) + if ms[|ms| - 1].ClientRetries? then 1 else 0
  }

  lemma ArrivedOneMore(ms: seq<Move>, m: Move)
    ensures ArrivedIn(ms + [m]) ==
              if !m.Arrives? then ArrivedIn(ms)
              else if m.kind.RoundAnswer? then ArrivedIn(ms) + RoundModel.Outcomes(m.events)
              else ArrivedIn(ms) + m.events
  {
    assert (ms + [m])[..|ms|] == ms;
  }

  lemma OneMore(ms: seq<Move>, m: Move)
    ensures RoundsIn(ms + [m]) ==
              if m.Arrives? && m.kind.RoundAnswer? then
                RoundsIn(ms) + [Round(m.events, m.kind.hasState, m.kind.asksInput)]
              else
                RoundsIn(ms)
    ensures AnswersIn(ms + [m]) == AnswersIn(ms) + if m.Arrives? then 1 else 0
    ensures ClientRetriesIn(ms + [m]) == ClientRetriesIn(ms) + if m.ClientRetries? then 1 else 0
  {
    assert (ms + [m])[..|ms|] == ms;
  }

  /** The rounds queued, in order. */
  function QueuedRounds(lane: seq<Job>): seq<Round> {
    if lane == [] then
      []
    else
      var rest, j := QueuedRounds(lane[..|lane| - 1]), lane[|lane| - 1];
      if j.FollowJob? then rest + [Round(j.events, j.hasState, j.asksInput)] else rest
  }

  lemma QueuedOneMore(lane: seq<Job>, j: Job)
    ensures QueuedRounds(lane + [j]) ==
              QueuedRounds(lane) + if j.FollowJob? then [Round(j.events, j.hasState, j.asksInput)] else []
  {
    assert (lane + [j])[..|lane|] == lane;
  }

  lemma {:induction false} QueuedFirst(lane: seq<Job>)
    requires lane != []
    ensures var j := lane[0];
            QueuedRounds(lane) ==
              (if j.FollowJob? then [Round(j.events, j.hasState, j.asksInput)] else []) + QueuedRounds(lane[1..])
  {
    if |lane| == 1 {
      assert lane[..0] == [];
    } else {
      QueuedFirst(lane[..|lane| - 1]);
      assert lane[..|lane| - 1][1..] == lane[1..][..|lane| - 2];
    }
  }

  /** How many of the first `n` rounds ask for the client's input. */
  function Asking(rounds: seq<Round>, n: nat): nat
    requires n <= |rounds|
  {
    if n == 0 then 0 else Asking(rounds, n - 1) + if rounds[n - 1].asksInput then 1 else 0
  }

  lemma {:induction false} AskingIsOfThese(rounds: seq<Round>, more: seq<Round>, n: nat)
    requires n <= |rounds|
    ensures Asking(rounds + more, n) == Asking(rounds, n)
  {
    if n > 0 {
      AskingIsOfThese(rounds, more, n - 1);
    }
  }

  /** The rounds are taken up in the order they came, each decided where it carries state and is within the
      bound; one that is not ends the call, and none is taken up after it. */
  ghost predicate TakenUp(c: HostCall, rounds: seq<Round>) {
    && |c.works| <= |rounds|
    && (forall k :: 0 <= k < |c.works| ==> c.works[k].events == rounds[k].events)
    && (forall k :: 0 <= k < |c.works| ==> (c.works[k].decide <==> rounds[k].hasState && k < MAX_ROUNDS_PER_CALL))
    && (forall k :: 0 <= k < |c.works| && !c.works[k].decide ==> c.ended && k == |c.works| - 1)
    && (c.stage.Following? ==> c.stage.at < |c.works| && c.stage.asksInput == rounds[c.stage.at].asksInput)
    && (!c.ended ==> c.rounds == |c.works| && QueuedRounds(c.lane) == rounds[|c.works|..])
  }

  /** Each round followed is retried once its work is left, unless the call ended. */
  ghost predicate Retried(c: HostCall) {
    && (c.stage.Abandoning? ==> c.ended)
    && |c.retries| <= |c.works|
    && (forall k :: 0 <= k < |c.retries| ==> c.retries[k].at == k)
    && (!c.ended ==> |c.retries| + (if StageAt(c.stage).Some? then 1 else 0) == |c.works|)
    && (StageAt(c.stage).Some? ==> |c.retries| + 1 == |c.works| && StageAt(c.stage).value + 1 == |c.works|)
  }

  ghost predicate Told(c: HostCall, ms: seq<Move>) {
    TakenUp(c, RoundsIn(ms)) && Retried(c)
  }

  /** A step that touches neither the works taken up nor the rounds queued. */
  lemma StillTold(c: HostCall, d: HostCall, rounds: seq<Round>)
    requires TakenUp(c, rounds) && Retried(c)
    requires |d.works| == |c.works| && d.rounds == c.rounds && d.retries == c.retries && (c.ended ==> d.ended)
    requires forall k :: 0 <= k < |c.works| ==>
               d.works[k].events == c.works[k].events && d.works[k].decide == c.works[k].decide
    requires !d.ended ==> QueuedRounds(d.lane) == QueuedRounds(c.lane)
    requires d.stage == c.stage || (StageAt(c.stage).None? && StageAt(d.stage).None?)
    ensures TakenUp(d, rounds) && Retried(d)
  {
    hide QueuedRounds;
  }

  lemma ArrivalTold(c: HostCall, events: seq<Event>, kind: Answered, rounds: seq<Round>)
    requires TakenUp(c, rounds) && Retried(c) && !c.ended
    ensures var more :=
              if kind.RoundAnswer? then rounds + [Round(events, kind.hasState, kind.asksInput)] else rounds;
            TakenUp(Arrive(c, events, kind), more) && Retried(Arrive(c, events, kind))
  {
    hide QueuedRounds, RoundModel.Outcomes;
    if kind.RoundAnswer? {
      var r := Round(events, kind.hasState, kind.asksInput);
      QueuedOneMore(c.lane, FollowJob(events, kind.hasState, kind.asksInput));
      assert (rounds + [r])[|c.works|..] == rounds[|c.works|..] + [r];
    }
  }

  lemma TakingTold(c: HostCall, rounds: seq<Round>)
    requires TakenUp(c, rounds) && Retried(c) && c.stage == Idle && c.lane != []
    ensures TakenUp(TakeJob(c), rounds) && Retried(TakeJob(c))
  {
    if c.lane[0].FollowJob? && !c.ended {
      FollowingTold(c, rounds);
    } else {
      PassedOver(c);
      hide *;
      StillTold(c, TakeJob(c), rounds);
    }
  }

  /** A job that is no round, or one of a call that ended, takes no round up. */
  lemma PassedOver(c: HostCall)
    requires c.stage == Idle && c.lane != [] && (c.lane[0].FollowJob? ==> c.ended)
    ensures var d := TakeJob(c);
            && d.works == c.works && d.rounds == c.rounds && d.retries == c.retries && (c.ended ==> d.ended)
            && (!d.ended ==> QueuedRounds(d.lane) == QueuedRounds(c.lane))
            && StageAt(c.stage).None? && StageAt(d.stage).None?
  {
    QueuedFirst(c.lane);
    assert [] + QueuedRounds(c.lane[1..]) == QueuedRounds(c.lane[1..]);
    hide QueuedRounds, RoundModel.Outcomes;
  }

  lemma FollowingTold(c: HostCall, rounds: seq<Round>)
    requires TakenUp(c, rounds) && Retried(c) && c.stage == Idle && c.lane != []
    requires c.lane[0].FollowJob? && !c.ended
    ensures TakenUp(TakeJob(c), rounds) && Retried(TakeJob(c))
  {
    QueuedFirst(c.lane);
    hide QueuedRounds, RoundModel.Outcomes;
    var j, d := c.lane[0], TakeJob(c);
    var r := Round(j.events, j.hasState, j.asksInput);
    assert rounds[|c.works|..] == [r] + QueuedRounds(c.lane[1..]);
    assert rounds[|c.works|] == r;
    assert rounds[|c.works| + 1..] == QueuedRounds(c.lane[1..]);
    assert d.works == c.works + [NewWork(j.events, j.hasState && |c.works| < MAX_ROUNDS_PER_CALL)];
    assert d.rounds == |d.works| && d.lane == c.lane[1..] && d.retries == c.retries;
    assert d.ended <==> !(j.hasState && |c.works| < MAX_ROUNDS_PER_CALL);
    assert d.stage == if d.ended then Abandoning(|c.works|) else Following(|c.works|, j.asksInput);
    hide TakeJob;
  }

  lemma LeavingTold(c: HostCall, sent: bool, rounds: seq<Round>)
    requires TakenUp(c, rounds) && Retried(c) && WorkOf(c).Some?
    ensures TakenUp(Leave(c, sent), rounds) && Retried(Leave(c, sent))
  {
    LeaveShape(c, sent);
    LeaveAnswers(c, sent);
    LeaveQueues(c, sent);
    hide QueuedRounds, Leftover, Answers, Queued, Leave;
  }

  /** Leaving a round queues none, and counts none. */
  lemma LeaveQueues(c: HostCall, sent: bool)
    requires WorkOf(c).Some?
    ensures QueuedRounds(Leave(c, sent).lane) == QueuedRounds(c.lane) && Leave(c, sent).rounds == c.rounds
  {
    LeaveShape(c, sent);
    LeaveCounts(c, sent);
    var left := Leftover(WorkOf(c).value);
    hide QueuedRounds, Leftover, Leave;
    QueuedOneMore(c.lane, SealJob(left));
    QueuedOneMore(Queued(c.lane, left), CloseJob);
  }

  lemma LeaveCounts(c: HostCall, sent: bool)
    requires WorkOf(c).Some?
    ensures Leave(c, sent).rounds == c.rounds
  {
    hide Queued, Leftover, Answers;
  }

  lemma MoveTold(c: HostCall, done: seq<Move>, m: Move)
    requires Told(c, done) && Enabled(c, m, false)
    ensures Told(Next(c, m), done + [m])
  {
    OneMore(done, m);
    hide RoundsIn, TakenUp, Retried, AnswersIn, ClientRetriesIn;
    match m
    case Arrives(events, kind) => ArrivalTold(c, events, kind, RoundsIn(done));
    case TakesJob => TakingTold(c, RoundsIn(done));
    case Leaves(sent) => LeavingTold(c, sent, RoundsIn(done));
    case _ => StillMoves(c, m, RoundsIn(done));
  }

  lemma StillMoves(c: HostCall, m: Move, rounds: seq<Round>)
    requires TakenUp(c, rounds) && Retried(c) && Enabled(c, m, false)
    requires !m.Arrives? && !m.TakesJob? && !m.Leaves?
    ensures TakenUp(Next(c, m), rounds) && Retried(Next(c, m))
  {
    var d := Next(c, m);
    if m.WorkerTakes? || m.WorkerDone? || m.CutsOff? {
      OneWorkMoves(c, m);
    } else {
      QueuedOneMore(c.lane, CloseJob);
    }
    hide TakenUp, Retried, QueuedRounds, WorkerTake, Done, CutOff;
    StillTold(c, d, rounds);
  }

  /** The worker of a round changes neither what its round holds nor whether it decides. */
  lemma OneWorkMoves(c: HostCall, m: Move)
    requires Enabled(c, m, false) && (m.WorkerTakes? || m.WorkerDone? || m.CutsOff?)
    ensures var d := Next(c, m);
            && |d.works| == |c.works| && d.rounds == c.rounds && d.retries == c.retries && d.ended == c.ended
            && d.lane == c.lane && d.stage == c.stage && d.toolOwes == c.toolOwes && d.heldUp == c.heldUp
            && forall k :: 0 <= k < |c.works| ==>
                 d.works[k].events == c.works[k].events && d.works[k].decide == c.works[k].decide
  {
    var at := if m.CutsOff? then StageAt(c.stage).value else m.at;
    if m.WorkerTakes? {
      WorkerStill(c, at);
    }
    SameRound(c.works[at]);
    hide Take, Done, CutShort;
  }

  lemma SameRound(w: Work)
    ensures MayTake(w) ==> Take(w).events == w.events && Take(w).decide == w.decide
    ensures InProgress(w) ==>
              forall answer :: Done(w, answer).events == w.events && Done(w, answer).decide == w.decide
    ensures CutShort(w).events == w.events && CutShort(w).decide == w.decide
  {
  }

  lemma {:induction false} PlayTold(c: HostCall, done: seq<Move>, ms: seq<Move>, honest: bool)
    requires Told(c, done) && Legal(c, ms, honest)
    ensures Told(Play(c, ms, honest), done + ms)
    decreases |ms|
  {
    hide Told, Next, Enabled;
    if ms == [] {
      assert done + ms == done;
    } else {
      MoveTold(c, done, ms[0]);
      PlayTold(Next(c, ms[0]), done + [ms[0]], ms[1..], honest);
      assert done + [ms[0]] + ms[1..] == done + ms;
    }
  }

  /**
   * Over every run, the rounds of a call are taken up in the order they came. Each is followed, its attempts
   * decided, exactly where it carried the state to retry it with and no more than MAX_ROUNDS_PER_CALL were
   * taken up with it; a round that is not followed ends the call, and none is taken up after it. While the call
   * has not ended, every round that came is taken up or still queued, and each one followed was retried, the one
   * the queue is at excepted.
   */
  lemma RoundsAreFollowed(ms: seq<Move>, honest: bool)
    requires Legal(NEW_CALL, ms, honest)
    ensures var c, rounds := Play(NEW_CALL, ms, honest), RoundsIn(ms);
            && |c.retries| <= |c.works| <= |rounds|
            && (forall k :: 0 <= k < |c.works| ==>
                  && c.works[k].events == rounds[k].events
                  && (c.works[k].decide <==> rounds[k].hasState && k < MAX_ROUNDS_PER_CALL)
                  && (!c.works[k].decide ==> c.ended && k == |c.works| - 1))
            && (forall k :: 0 <= k < |c.retries| ==> c.retries[k].at == k)
            && (!c.ended ==>
                  && QueuedRounds(c.lane) == rounds[|c.works|..]
                  && |c.retries| == |c.works| - if StageAt(c.stage).Some? then 1 else 0)
  {
    hide RoundsIn, Legal, Play;
    assert Told(NEW_CALL, []) by {
      NothingTold();
    }
    PlayTold(NEW_CALL, [], ms, honest);
    assert [] + ms == ms;
  }

  lemma NothingTold()
    ensures Told(NEW_CALL, []) && RoundsIn([]) == []
  {
  }

  // ----- whose turn it is -----

  /** The tool holds one request for each it was given and has not answered, and a round that asked for the
      client's input waits until the client retried it. */
  ghost predicate TurnsAddUp(c: HostCall, ms: seq<Move>) {
    && |c.retries| <= |RoundsIn(ms)|
    && (!c.ended ==>
          && AnswersIn(ms) + (if c.toolOwes then 1 else 0) + (if c.heldUp then 1 else 0) == 1 + |c.retries|
          && ClientRetriesIn(ms) + (if c.heldUp then 1 else 0) == Asking(RoundsIn(ms), |c.retries|))
  }

  lemma MoveTurns(c: HostCall, done: seq<Move>, m: Move)
    requires Told(c, done) && TurnsInv(c) && TurnsAddUp(c, done)
    requires Enabled(c, m, false) && Enabled(c, m, true)
    ensures TurnsAddUp(Next(c, m), done + [m])
  {
    OneMore(done, m);
    if m.Arrives? {
      ArrivalTurns(c, done, m);
    } else if m.Leaves? {
      LeavingTurns(c, done, m.sent);
    } else {
      hide RoundsIn, AnswersIn, ClientRetriesIn, Asking;
      TurnStays(c, m);
    }
  }

  lemma TurnStays(c: HostCall, m: Move)
    requires Enabled(c, m, false) && !m.Arrives? && !m.Leaves?
    ensures var d := Next(c, m);
            && d.retries == c.retries && d.toolOwes == (c.toolOwes || m.ClientRetries?)
            && d.heldUp == (c.heldUp && !m.ClientRetries?) && (c.ended ==> d.ended)
  {
    if m.WorkerTakes? || m.WorkerDone? || m.CutsOff? {
      OneWorkMoves(c, m);
      hide WorkerTake, Done, CutOff;
    } else if m.TakesJob? {
      TakenJob(c);
      TakenEnd(c);
      hide TakeJob, StageDue, JobDue;
    }
  }

  lemma ArrivalTurns(c: HostCall, done: seq<Move>, m: Move)
    requires TurnsInv(c) && TurnsAddUp(c, done) && m.Arrives? && !c.ended && c.toolOwes
    ensures TurnsAddUp(Next(c, m), done + [m])
  {
    OneMore(done, m);
    hide TurnsInv, RoundsIn, AnswersIn, ClientRetriesIn, Asking, RoundModel.Outcomes;
    if m.kind.RoundAnswer? {
      AskingIsOfThese(RoundsIn(done), [Round(m.events, m.kind.hasState, m.kind.asksInput)], |c.retries|);
    }
  }

  lemma LeavingTurns(c: HostCall, done: seq<Move>, sent: bool)
    requires Told(c, done) && TurnsInv(c) && TurnsAddUp(c, done) && WorkOf(c).Some?
    ensures TurnsAddUp(Leave(c, sent), done + [Leaves(sent)])
  {
    OneMore(done, Leaves(sent));
    LeaveAnswers(c, sent);
    assert !c.toolOwes && !c.heldUp;
    assert |c.retries| < |RoundsIn(done)|;
    assert c.stage.Following? ==> c.stage.at == |c.retries|;
    assert c.stage.Following? ==> c.stage.asksInput == RoundsIn(done)[|c.retries|].asksInput;
    assert c.stage.Abandoning? ==> c.ended;
    hide Told, TurnsInv, RoundsIn, AnswersIn, ClientRetriesIn, Leftover, Answers, Queued;
  }

  lemma {:induction false} PlayTurns(c: HostCall, done: seq<Move>, ms: seq<Move>)
    requires Told(c, done) && TurnsAddUp(c, done) && Inv(c) && TurnsInv(c) && InOrder(c) && Legal(c, ms, true)
    ensures TurnsAddUp(Play(c, ms, true), done + ms)
    decreases |ms|
  {
    hide Told, TurnsAddUp, Balanced, RoundsInv, EndInv, TurnsInv, InOrder, Next, Enabled;
    if ms == [] {
      assert done + ms == done;
    } else {
      MoveTold(c, done, ms[0]);
      MoveTurns(c, done, ms[0]);
      MoveKeepsBalance(c, ms[0]);
      MoveKeepsRounds(c, ms[0]);
      MoveKeepsEnd(c, ms[0]);
      MoveKeepsOrder(c, ms[0]);
      PlayTurns(Next(c, ms[0]), done + [ms[0]], ms[1..]);
      assert done + [ms[0]] + ms[1..] == done + ms;
    }
  }

  /** Over every run with a tool that answers each request once, while the call has not ended: the requests the
      tool was given - the first and each retry but one that waits on the client - are those it answered and at
      most one more; and of the rounds that asked for the client's input, all retried but at most the last were
      retried by the client. */
  lemma EachRequestIsAnswered(ms: seq<Move>)
    requires Legal(NEW_CALL, ms, true)
    ensures TurnsAddUp(Play(NEW_CALL, ms, true), ms)
  {
    hide Legal, Play, RoundsInv, Balanced, EndInv, InOrder;
    NothingTold();
    NewCallInv();
    NewCallTurns();
    PlayTurns(NEW_CALL, [], ms);
    assert [] + ms == ms;
  }

  // ----- what arrived -----

  lemma MoveArrives(c: HostCall, done: seq<Move>, m: Move)
    requires c.arrived == ArrivedIn(done) && Enabled(c, m, false)
    ensures Next(c, m).arrived == ArrivedIn(done + [m])
  {
    ArrivedOneMore(done, m);
    if m.Leaves? {
      LeaveShape(c, m.sent);
      hide Leave, ArrivedIn, Leftover;
    } else if m.TakesJob? {
      TakenJob(c);
      hide TakeJob, ArrivedIn, StageDue;
    } else {
      hide ArrivedIn, RoundModel.Outcomes, Take, Done, CutShort;
    }
  }

  lemma {:induction false} PlayArrives(c: HostCall, done: seq<Move>, ms: seq<Move>, honest: bool)
    requires c.arrived == ArrivedIn(done) && Legal(c, ms, honest)
    ensures Play(c, ms, honest).arrived == ArrivedIn(done + ms)
    decreases |ms|
  {
    hide Next, Enabled, ArrivedIn;
    if ms == [] {
      assert done + ms == done;
    } else {
      MoveArrives(c, done, ms[0]);
      PlayArrives(Next(c, ms[0]), done + [ms[0]], ms[1..], honest);
      assert done + [ms[0]] + ms[1..] == done + ms;
    }
  }

  /** What is due at the endpoint is what the tool's answers carried: no more, no less, in their order. */
  lemma ArrivedIsSent(ms: seq<Move>, honest: bool)
    requires Legal(NEW_CALL, ms, honest)
    ensures Play(NEW_CALL, ms, honest).arrived == ArrivedIn(ms)
  {
    PlayArrives(NEW_CALL, [], ms, honest);
    assert [] + ms == ms;
  }
}
