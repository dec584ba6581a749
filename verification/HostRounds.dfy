/**
 * The host's end of one audited call: a queue of audit work done in order, the rounds worked through under
 * a deadline, and the close that ends the session. Each move is one uninterrupted stretch of a task. The
 * worker of a round is a task of its own, which outlives the round: it may act at any time, cut off or not.
 */
module HostRounds {
  import opened Events
  import opened HostModel
  import RoundModel

  const MAX_ROUNDS_PER_CALL := 256

  // ----- one round's work -----

  /** A decision the endpoint reached, and whether it came after the cut-off. */
  datatype Decision = Decision(item: nat, answer: Answer, late: bool)

  /** How far the work had come when it was cut off. */
  datatype Cut = Cut(next: nat, inHand: Option<nat>)

  /** `inHand` is the item in progress. `log` and `cut` are history: every decision reached, in order, and
      where the work stood at the cut-off. */
  datatype Work = Work(
    events: seq<Event>,
    decide: bool,
    next: nat,
    inHand: Option<nat>,
    responses: map<string, Answer>,
    cutoff: bool,
    log: seq<Decision>,
    cut: Option<Cut>)

  function NewWork(events: seq<Event>, decide: bool): Work {
    Work(events, decide, 0, None, map[], false, [], None)
  }

  predicate MayTake(w: Work) {
    w.next < |w.events| && !w.cutoff && w.inHand.None?
  }

  /** Takes up the next item. An attempt of a round that no retry follows is passed over. */
  function Take(w: Work): Work
    requires MayTake(w)
  {
    if IsAttempt(w.events[w.next]) && !w.decide then
      w.(next := w.next + 1)
    else
      w.(next := w.next + 1, inHand := Some(w.next))
  }

  predicate InProgress(w: Work) {
    w.inHand.Some? && w.inHand.value < |w.events|
  }

  /** The item in hand is done. An attempt's answer counts where it came before the cut-off. */
  function Done(w: Work, answer: Answer): Work
    requires InProgress(w)
  {
    var e := w.events[w.inHand.value];
    if !IsAttempt(e) then
      w.(inHand := None)
    else
      w.(inHand := None, log := w.log + [Decision(w.inHand.value, answer, w.cutoff)],
         responses := if e.id.Some? && !w.cutoff then w.responses[e.id.value := answer] else w.responses)
  }

  /** The deadline: nothing more is taken up, and what is decided from now on does not count. */
  function CutShort(w: Work): Work {
    w.(cutoff := true, cut := Some(Cut(w.next, w.inHand)))
  }

  /** The items not taken up that are not attempts. */
  function Leftover(w: Work): seq<Event> {
    if w.next <= |w.events| then RoundModel.Outcomes(w.events[w.next..]) else []
  }

  /** The answers the retry carries: one for each attempt that has an id. */
  function Answers(events: seq<Event>, responses: map<string, Answer>): map<string, Answer> {
    map e | e in events && IsAttempt(e) && e.id.Some? ::
      e.id.value := if e.id.value in responses then responses[e.id.value] else Unavailable
  }

  // ----- the call -----

  datatype Job =
    | FollowJob(events: seq<Event>, hasState: bool, asksInput: bool)
    | SealJob(outcomes: seq<Event>)
    | ConcludeJob(events: seq<Event>)
    | CloseJob

  /** What the queue's worker is at; a round's work is named by its place in `works`. */
  datatype Stage =
    | Idle
    | Following(at: nat, asksInput: bool)
    | Abandoning(at: nat)
    | Sealing(rest: seq<Event>, closes: bool)

  datatype RetrySent = RetrySent(at: nat, responses: map<string, Answer>)

  /**
   * `works` holds the work of every round taken up, left behind or not. `toolOwes`: the tool holds a request
   * it has not answered; `heldUp`: a round waits on the client's own retry. The last members are history: the
   * items received that are due at the endpoint, those handed to it, those of rounds not taken up because the
   * call had ended, the attempts handed to it, by work and place, and the answers given.
   */
  datatype HostCall = HostCall(
    ended: bool,
    closed: bool,
    rounds: nat,
    lane: seq<Job>,
    stage: Stage,
    works: seq<Work>,
    toolOwes: bool,
    heldUp: bool,
    arrived: seq<Event>,
    handed: seq<Event>,
    dropped: seq<Event>,
    attempts: set<(nat, nat)>,
    retries: seq<RetrySent>)

  const NEW_CALL := HostCall(false, false, 0, [], Idle, [], true, false, [], [], [], {}, [])

  datatype Answered = RoundAnswer(hasState: bool, asksInput: bool) | FinalAnswer

  datatype Move =
    | Arrives(events: seq<Event>, kind: Answered)
    | Evicted
    | TakesJob
    | WorkerTakes(at: nat)
    | WorkerDone(at: nat, answer: Answer)
    | CutsOff
    | Leaves(sent: bool)
    | SealsNext
    | ClientRetries

  function StageAt(s: Stage): Option<nat> {
    match s
    case Following(at, _) => Some(at)
    case Abandoning(at) => Some(at)
    case _ => None
  }

  /** The work of the round the queue is at. */
  function WorkOf(c: HostCall): Option<Work> {
    var at := StageAt(c.stage);
    if at.Some? && at.value < |c.works| then Some(c.works[at.value]) else None
  }

  /** An honest tool answers each request it holds once. */
  predicate Enabled(c: HostCall, m: Move, honest: bool) {
    match m
    case Arrives(_, _) => !c.ended && (honest ==> c.toolOwes)
    case Evicted => !c.ended
    case TakesJob => c.stage == Idle && c.lane != []
    case WorkerTakes(at) => at < |c.works| && MayTake(c.works[at])
    case WorkerDone(at, _) => at < |c.works| && InProgress(c.works[at])
    case CutsOff => WorkOf(c).Some? && !WorkOf(c).value.cutoff
    case Leaves(_) => WorkOf(c).Some? && WorkOf(c).value.cutoff
    case SealsNext => c.stage.Sealing?
    case ClientRetries => c.heldUp && !c.ended
  }

  function Next(c: HostCall, m: Move): HostCall
    requires Enabled(c, m, false)
  {
    match m
    case Arrives(events, kind) => Arrive(c, events, kind)
    case Evicted => c.(ended := true, lane := c.lane + [CloseJob])
    case TakesJob => TakeJob(c)
    case WorkerTakes(at) => WorkerTake(c, at)
    case WorkerDone(at, answer) => c.(works := c.works[at := Done(c.works[at], answer)])
    case CutsOff => CutOff(c)
    case Leaves(sent) => Leave(c, sent)
    case SealsNext => SealNext(c)
    case ClientRetries => c.(heldUp := false, toolOwes := true)
  }

  /** A round is queued to be followed. A final answer goes to the client at once, and its audit is queued. */
  function Arrive(c: HostCall, events: seq<Event>, kind: Answered): HostCall {
    match kind
    case RoundAnswer(hasState, asksInput) =>
      c.(lane := c.lane + [FollowJob(events, hasState, asksInput)],
         arrived := c.arrived + RoundModel.Outcomes(events), toolOwes := false)
    case FinalAnswer =>
      c.(ended := true, lane := c.lane + [ConcludeJob(events)], arrived := c.arrived + events, toolOwes := false)
  }

  function TakeJob(c: HostCall): HostCall
    requires c.lane != []
  {
    var d := c.(lane := c.lane[1..]);
    match c.lane[0]
    case FollowJob(events, hasState, asksInput) =>
      if c.ended then
        d.(dropped := c.dropped + RoundModel.Outcomes(events))
      else if c.rounds + 1 > MAX_ROUNDS_PER_CALL || !hasState then
        d.(rounds := c.rounds + 1, ended := true, stage := Abandoning(|c.works|),
           works := c.works + [NewWork(events, false)])
      else
        d.(rounds := c.rounds + 1, stage := Following(|c.works|, asksInput), works := c.works + [NewWork(events, true)])
    case SealJob(outcomes) => d.(stage := Sealing(outcomes, false))
    case ConcludeJob(events) => d.(stage := Sealing(events, true))
    case CloseJob => d.(closed := true)
  }

  /** The worker of a round takes its next item up: an outcome is handed over, an attempt handed for decision. */
  function WorkerTake(c: HostCall, at: nat): HostCall
    requires at < |c.works| && MayTake(c.works[at])
  {
    var w := c.works[at];
    var e := w.events[w.next];
    var d := c.(works := c.works[at := Take(w)]);
    if !IsAttempt(e) then
      d.(handed := c.handed + [e])
    else if w.decide then
      d.(attempts := c.attempts + {(at, w.next)})
    else
      d
  }

  /** The round's work is done, or its deadline passed: the worker is told to stop, and goes on its own way. */
  function CutOff(c: HostCall): HostCall
    requires WorkOf(c).Some?
  {
    c.(works := c.works[StageAt(c.stage).value := CutShort(WorkOf(c).value)])
  }

  function Queued(lane: seq<Job>, left: seq<Event>): seq<Job> {
    if left == [] then lane else lane + [SealJob(left)]
  }

  /**
   * The round is left. What its worker did not take up is sealed here where the call ended meanwhile, and
   * queued before the retry otherwise; `sent` says whether the retry could leave.
   */
  function Leave(c: HostCall, sent: bool): HostCall
    requires WorkOf(c).Some?
  {
    var w := WorkOf(c).value;
    var left := Leftover(w);
    var queued := Queued(c.lane, left);
    match c.stage
    case Abandoning(_) => c.(stage := Idle, lane := queued + [CloseJob])
    case Following(at, asksInput) =>
      if c.ended then
        c.(stage := Sealing(left, false))
      else
        var d := c.(stage := Idle, lane := queued,
                    retries := c.retries + [RetrySent(at, Answers(w.events, w.responses))]);
        if asksInput then
          d.(heldUp := true)
        else if sent then
          d.(toolOwes := true)
        else
          d.(ended := true, lane := queued + [CloseJob])
    case _ => c
  }

  function SealNext(c: HostCall): HostCall
    requires c.stage.Sealing?
  {
    if c.stage.rest == [] then
      c.(stage := Idle, closed := c.closed || c.stage.closes)
    else
      c.(stage := c.stage.(rest := c.stage.rest[1..]), handed := c.handed + [c.stage.rest[0]])
  }

  ghost predicate Legal(c: HostCall, ms: seq<Move>, honest: bool)
    decreases |ms|
  {
    ms != [] ==>
      Enabled(c, ms[0], honest) && Enabled(c, ms[0], false) && Legal(Next(c, ms[0]), ms[1..], honest)
  }

  ghost function Play(c: HostCall, ms: seq<Move>, honest: bool): HostCall
    requires Legal(c, ms, honest)
    decreases |ms|
  {
    if ms == [] then c else Play(Next(c, ms[0]), ms[1..], honest)
  }

  // ----- what is due -----

  /** What the stage has still to hand over. */
  function StageDue(c: HostCall): seq<Event> {
    if c.stage.Sealing? then
      c.stage.rest
    else if WorkOf(c).Some? then
      Leftover(WorkOf(c).value)
    else
      []
  }

  function JobDue(j: Job): seq<Event> {
    match j
    case FollowJob(events, _, _) => RoundModel.Outcomes(events)
    case SealJob(outcomes) => outcomes
    case ConcludeJob(events) => events
    case CloseJob => []
  }

  function LaneDue(lane: seq<Job>): seq<Event> {
    if lane == [] then [] else JobDue(lane[0]) + LaneDue(lane[1..])
  }

  lemma {:induction false} LaneDueSplit(a: seq<Job>, b: seq<Job>)
    ensures LaneDue(a + b) == LaneDue(a) + LaneDue(b)
  {
    if a == [] {
      assert a + b == b;
    } else {
      assert (a + b)[0] == a[0] && (a + b)[1..] == a[1..] + b;
      LaneDueSplit(a[1..], b);
    }
  }

  lemma LaneDueOne(j: Job)
    ensures LaneDue([j]) == JobDue(j)
  {
    assert [j][1..] == [];
  }

  function Count(es: seq<Event>, e: Event): nat {
    multiset(es)[e]
  }

  /** Exactly once: what arrived was handed over, or dropped with its round, or is still due. */
  ghost predicate Adds(arrived: seq<Event>, handed: seq<Event>, dropped: seq<Event>, stage: seq<Event>,
                       lane: seq<Event>)
  {
    forall e :: Count(arrived, e) == Count(handed, e) + Count(dropped, e) + Count(stage, e) + Count(lane, e)
  }

  ghost predicate Balanced(c: HostCall) {
    Adds(c.arrived, c.handed, c.dropped, StageDue(c), LaneDue(c.lane))
  }

  lemma Counts(a: seq<Event>, b: seq<Event>)
    ensures forall e :: Count(a + b, e) == Count(a, e) + Count(b, e)
    ensures forall e :: Count([], e) == 0
  {
  }

  lemma AddsAsMoved(a: seq<Event>, h: seq<Event>, d: seq<Event>, s: seq<Event>, l: seq<Event>, x: seq<Event>)
    ensures Adds(a, h, d, s, l) ==> Adds(a + x, h, d, s, l + x)
    ensures Adds(a, h, d, x + s, l) ==> Adds(a, h + x, d, s, l)
    ensures Adds(a, h, d, [], x + l) ==> Adds(a, h, d, x, l) && Adds(a, h, d + x, [], l)
    ensures Adds(a, h, d, x, l) ==> Adds(a, h, d, [], l + x)
  {
    Counts(a, x);
    Counts(h, x);
    Counts(d, x);
    Counts(l, x);
    Counts(x, l);
    Counts(x, s);
    hide Count;
  }

  // ----- what a round's work knows -----

  /** The last decision reached in time for an attempt of this id. */
  function LastInTime(log: seq<Decision>, events: seq<Event>, id: string): Option<Answer> {
    if log == [] then
      None
    else
      var d := log[|log| - 1];
      if !d.late && d.item < |events| && events[d.item].id == Some(id) then
        Some(d.answer)
      else
        LastInTime(log[..|log| - 1], events, id)
  }

  /** A decision on the item was reached in time. */
  ghost predicate DecidedInTime(w: Work, item: nat) {
    exists k :: 0 <= k < |w.log| && w.log[k].item == item && !w.log[k].late
  }

  /** What counts is, for each id, the last decision reached in time for an attempt of it. */
  ghost predicate CountsInTime(w: Work) {
    && (forall id :: id in w.responses <==> LastInTime(w.log, w.events, id).Some?)
    && (forall id :: id in w.responses ==> LastInTime(w.log, w.events, id) == Some(w.responses[id]))
  }

  /** Every attempt taken up was decided in time, or is in hand, or was in hand at the cut-off. */
  ghost predicate AllAccounted(w: Work) {
    w.decide ==> forall i :: 0 <= i < w.next <= |w.events| && IsAttempt(w.events[i]) ==>
      DecidedInTime(w, i) || (if w.cut.Some? then w.cut.value.inHand else w.inHand) == Some(i)
  }

  /** After the cut-off nothing is taken up, and the one late decision is that of the item then in hand. */
  ghost predicate StoppedAtCut(w: Work) {
    && (w.cutoff <==> w.cut.Some?)
    && (w.cutoff ==> w.cut.value.next == w.next && (w.inHand.Some? ==> w.cut.value.inHand == w.inHand))
    && (forall k :: 0 <= k < |w.log| && w.log[k].late ==> w.cutoff && w.cut.value.inHand == Some(w.log[k].item))
  }

  ghost predicate WorkInv(w: Work) {
    && w.next <= |w.events|
    && (w.inHand.Some? ==> w.inHand.value < w.next)
    && (forall k :: 0 <= k < |w.log| ==> w.log[k].item < w.next && IsAttempt(w.events[w.log[k].item]))
    && CountsInTime(w) && AllAccounted(w) && StoppedAtCut(w)
  }

  /** The attempts handed over are exactly those the works took up to decide. */
  ghost predicate AttemptsInv(c: HostCall) {
    forall a :: a in c.attempts <==> a.0 < |c.works| && TookUp(c.works[a.0], a.1)
  }

  /** The work took the item up, and it is an attempt to decide. */
  predicate TookUp(w: Work, item: nat) {
    w.decide && item < w.next && item < |w.events| && IsAttempt(w.events[item])
  }

  /** A retry carries what its round's work had counted, and still has. */
  ghost predicate RetryStands(c: HostCall, x: RetrySent) {
    && x.at < |c.works| && c.works[x.at].cutoff && c.works[x.at].decide && StageAt(c.stage) != Some(x.at)
    && x.responses == Answers(c.works[x.at].events, c.works[x.at].responses)
  }

  /** The round the queue is at is the last one taken up, and every other was cut off. */
  ghost predicate WorksInv(c: HostCall) {
    && (StageAt(c.stage).Some? ==> StageAt(c.stage).value + 1 == |c.works|)
    && (c.stage.Following? ==> c.works[|c.works| - 1].decide)
    && (forall k :: 0 <= k < |c.works| ==> WorkInv(c.works[k]))
    && (forall k :: 0 <= k < |c.works| && StageAt(c.stage) != Some(k) ==> c.works[k].cutoff)
  }

  ghost predicate RetriesInv(c: HostCall) {
    && (forall i :: 0 <= i < |c.retries| ==> RetryStands(c, c.retries[i]))
    && (forall i, j :: 0 <= i < j < |c.retries| ==> c.retries[i].at < c.retries[j].at)
  }

  ghost predicate RoundsInv(c: HostCall) {
    WorksInv(c) && AttemptsInv(c) && RetriesInv(c)
  }

  /** A job that ends the call's work. */
  predicate Closes(j: Job) {
    j.CloseJob? || j.ConcludeJob?
  }

  ghost predicate NoneCloses(lane: seq<Job>) {
    forall i :: 0 <= i < |lane| ==> !Closes(lane[i])
  }

  /** An ended call's session is closed once, after everything its queue holds. */
  ghost predicate EndInv(c: HostCall) {
    if !c.ended then
      !c.closed && NoneCloses(c.lane) && !c.stage.Abandoning? && !(c.stage.Sealing? && c.stage.closes)
    else if c.closed then
      c.lane == [] && c.stage == Idle
    else if c.stage.Abandoning? then
      NoneCloses(c.lane)
    else if c.stage.Sealing? && c.stage.closes then
      c.lane == []
    else
      c.lane != [] && Closes(c.lane[|c.lane| - 1]) && NoneCloses(c.lane[..|c.lane| - 1])
  }

  ghost predicate Inv(c: HostCall) {
    Balanced(c) && RoundsInv(c) && EndInv(c)
  }

  lemma {:induction false} OutcomesFirst(e: Event, es: seq<Event>)
    ensures RoundModel.Outcomes([e] + es) == (if IsAttempt(e) then [] else [e]) + RoundModel.Outcomes(es)
  {
    if es == [] {
      assert [e] + es == [e];
      assert [e][..0] == [];
    } else {
      OutcomesFirst(e, es[..|es| - 1]);
      assert ([e] + es)[..|es|] == [e] + es[..|es| - 1];
    }
  }

  /** Taking an item up leaves the rest due. */
  lemma TakeLeaves(w: Work)
    requires MayTake(w)
    ensures Leftover(w) == (if IsAttempt(w.events[w.next]) then [] else [w.events[w.next]]) + Leftover(Take(w))
  {
    assert w.events[w.next..] == [w.events[w.next]] + w.events[w.next + 1..];
    OutcomesFirst(w.events[w.next], w.events[w.next + 1..]);
  }

  lemma DoneLeaves(w: Work, answer: Answer)
    requires InProgress(w)
    ensures Leftover(Done(w, answer)) == Leftover(w)
  {
  }

  lemma CutLeaves(w: Work)
    ensures Leftover(CutShort(w)) == Leftover(w)
  {
  }

  lemma NewLeaves(events: seq<Event>, decide: bool)
    ensures Leftover(NewWork(events, decide)) == RoundModel.Outcomes(events)
  {
    assert events[0..] == events;
  }

  // ----- the balance -----

  lemma ArrivalBalances(c: HostCall, events: seq<Event>, kind: Answered)
    requires Balanced(c)
    ensures Balanced(Arrive(c, events, kind))
  {
    hide Adds, LaneDue, Leftover, RoundModel.Outcomes;
    var j := Arrive(c, events, kind).lane[|c.lane|];
    LaneDueSplit(c.lane, [j]);
    LaneDueOne(j);
    AddsAsMoved(c.arrived, c.handed, c.dropped, StageDue(c), LaneDue(c.lane), JobDue(j));
  }

  /** What taking a job makes due at the stage, and what it leaves alone. */
  lemma TakenJob(c: HostCall)
    requires c.stage == Idle && c.lane != []
    ensures var d, j := TakeJob(c), c.lane[0];
            && d.lane == c.lane[1..] && d.arrived == c.arrived && d.handed == c.handed
            && d.attempts == c.attempts && d.retries == c.retries
            && (if j.FollowJob? && c.ended then
                  StageDue(d) == [] && d.dropped == c.dropped + JobDue(j)
                else
                  StageDue(d) == JobDue(j) && d.dropped == c.dropped)
            && (if j.FollowJob? && !c.ended then
                  StageAt(d.stage) == Some(|c.works|)
                  && exists decide ::
                       d.works == c.works + [NewWork(j.events, decide)] && (d.stage.Following? ==> decide)
                else
                  StageAt(d.stage) == None && d.works == c.works)
  {
    hide Leftover, RoundModel.Outcomes, NewWork;
    var j := c.lane[0];
    if j.FollowJob? {
      NewLeaves(j.events, false);
      NewLeaves(j.events, true);
    }
  }

  lemma TakingBalances(c: HostCall)
    requires Balanced(c) && c.stage == Idle && c.lane != []
    ensures Balanced(TakeJob(c))
  {
    TakenJob(c);
    assert LaneDue(c.lane) == JobDue(c.lane[0]) + LaneDue(c.lane[1..]);
    hide Adds, LaneDue, JobDue, TakeJob, Leftover;
    AddsAsMoved(c.arrived, c.handed, c.dropped, [], LaneDue(c.lane[1..]), JobDue(c.lane[0]));
  }

  /** Only the worker of the round the queue is at may take anything up: every other was told to stop. */
  lemma OnlyCurrentTakes(c: HostCall, at: nat)
    requires WorksInv(c) && at < |c.works| && MayTake(c.works[at])
    ensures StageAt(c.stage) == Some(at) && WorkOf(c) == Some(c.works[at])
  {
    hide WorkInv;
  }

  lemma WorkerTaken(c: HostCall, at: nat)
    requires at < |c.works| && MayTake(c.works[at]) && StageAt(c.stage) == Some(at)
    ensures var d, w := WorkerTake(c, at), c.works[at];
            && d.arrived == c.arrived && d.dropped == c.dropped && d.lane == c.lane
            && StageDue(c) == Leftover(w) && StageDue(d) == Leftover(Take(w))
            && d.handed == c.handed + if IsAttempt(w.events[w.next]) then [] else [w.events[w.next]]
  {
    hide Leftover, Take;
    assert c.handed + [] == c.handed;
  }

  lemma WorkerBalances(c: HostCall, at: nat)
    requires Balanced(c) && WorksInv(c) && at < |c.works| && MayTake(c.works[at])
    ensures Balanced(WorkerTake(c, at))
  {
    OnlyCurrentTakes(c, at);
    WorkerTaken(c, at);
    hide Adds, Leftover, LaneDue, Take, WorksInv, WorkerTake, StageDue;
    var w := c.works[at];
    TakeLeaves(w);
    AddsAsMoved(c.arrived, c.handed, c.dropped, Leftover(Take(w)), LaneDue(c.lane),
                if IsAttempt(w.events[w.next]) then [] else [w.events[w.next]]);
  }

  /** A change of one work that leaves its rest as it was leaves the stage's. */
  lemma SameDue(c: HostCall, at: nat, v: Work)
    requires at < |c.works| && Leftover(v) == Leftover(c.works[at])
    ensures StageDue(c.(works := c.works[at := v])) == StageDue(c)
  {
    hide Leftover;
  }

  lemma DoneBalances(c: HostCall, at: nat, answer: Answer)
    requires Balanced(c) && at < |c.works| && InProgress(c.works[at])
    ensures Balanced(Next(c, WorkerDone(at, answer)))
  {
    DoneLeaves(c.works[at], answer);
    SameDue(c, at, Done(c.works[at], answer));
    hide Adds, LaneDue, StageDue, Done;
  }

  lemma CutOffBalances(c: HostCall)
    requires Balanced(c) && WorkOf(c).Some?
    ensures Balanced(CutOff(c))
  {
    CutLeaves(WorkOf(c).value);
    SameDue(c, StageAt(c.stage).value, CutShort(WorkOf(c).value));
    hide Adds, LaneDue, StageDue, CutShort;
  }

  /** What leaving a round does: what is left is sealed at once, or queued, before the close where there is one. */
  lemma LeaveShape(c: HostCall, sent: bool)
    requires WorkOf(c).Some?
    ensures var d := Leave(c, sent);
            var left := Leftover(WorkOf(c).value);
            var queued := Queued(c.lane, left);
            && d.arrived == c.arrived && d.handed == c.handed && d.dropped == c.dropped
            && d.works == c.works && d.attempts == c.attempts && StageAt(d.stage).None? && (c.ended ==> d.ended)
            && (|| (c.ended && d.stage == Sealing(left, false) && d.lane == c.lane)
                || (d.stage == Idle && (d.lane == queued || d.lane == queued + [CloseJob])
                    && (!c.ended || c.stage.Abandoning?)))
  {
    hide Leftover, Answers, Queued;
  }

  lemma QueuedDue(lane: seq<Job>, left: seq<Event>)
    ensures LaneDue(Queued(lane, left)) == LaneDue(lane) + left
  {
    LaneDueSplit(lane, [SealJob(left)]);
    LaneDueOne(SealJob(left));
    assert LaneDue(lane) + [] == LaneDue(lane);
  }

  lemma LeaveMoves(c: HostCall, sent: bool)
    requires WorkOf(c).Some?
    ensures var d := Leave(c, sent);
            var left := Leftover(WorkOf(c).value);
            && (|| (StageDue(d) == left && d.lane == c.lane)
                || (StageDue(d) == [] && LaneDue(d.lane) == LaneDue(c.lane) + left))
  {
    LeaveShape(c, sent);
    var left := Leftover(WorkOf(c).value);
    hide Leftover, LaneDue, Leave, Queued;
    var queued := Queued(c.lane, left);
    QueuedDue(c.lane, left);
    LaneDueSplit(queued, [CloseJob]);
    LaneDueOne(CloseJob);
    assert LaneDue(queued) + [] == LaneDue(queued);
  }

  lemma StageIsWork(c: HostCall)
    requires WorkOf(c).Some?
    ensures StageDue(c) == Leftover(WorkOf(c).value)
  {
  }

  lemma LeaveBalances(c: HostCall, sent: bool)
    requires Balanced(c) && WorkOf(c).Some?
    ensures Balanced(Leave(c, sent))
  {
    hide Adds, Leftover, LaneDue, Leave, StageDue;
    LeaveShape(c, sent);
    LeaveMoves(c, sent);
    StageIsWork(c);
    AddsAsMoved(c.arrived, c.handed, c.dropped, [], LaneDue(c.lane), Leftover(WorkOf(c).value));
  }

  lemma SealingBalances(c: HostCall)
    requires Balanced(c) && c.stage.Sealing?
    ensures Balanced(SealNext(c))
  {
    hide Adds, LaneDue;
    if c.stage.rest != [] {
      assert c.stage.rest == [c.stage.rest[0]] + c.stage.rest[1..];
      AddsAsMoved(c.arrived, c.handed, c.dropped, c.stage.rest[1..], LaneDue(c.lane), [c.stage.rest[0]]);
    }
  }

  lemma EvictionBalances(c: HostCall)
    requires Balanced(c)
    ensures Balanced(c.(ended := true, lane := c.lane + [CloseJob]))
  {
    hide Adds, Leftover;
    LaneDueSplit(c.lane, [CloseJob]);
    LaneDueOne(CloseJob);
    assert LaneDue(c.lane) + [] == LaneDue(c.lane);
  }

  lemma MoveKeepsBalance(c: HostCall, m: Move)
    requires Balanced(c) && RoundsInv(c) && Enabled(c, m, false)
    ensures Balanced(Next(c, m))
  {
    match m
    case Arrives(events, kind) => ArrivalBalances(c, events, kind);
    case Evicted => EvictionBalances(c);
    case TakesJob => TakingBalances(c);
    case WorkerTakes(at) => WorkerBalances(c, at);
    case WorkerDone(at, answer) => DoneBalances(c, at, answer);
    case CutsOff => CutOffBalances(c);
    case Leaves(sent) => LeaveBalances(c, sent);
    case SealsNext => SealingBalances(c);
    case ClientRetries => hide Adds, LaneDue, Leftover;
  }

  // ----- the rounds -----

  lemma TakeKeepsWork(w: Work)
    requires WorkInv(w) && MayTake(w)
    ensures WorkInv(Take(w)) && Take(w) == w.(next := w.next + 1, inHand := Take(w).inHand)
  {
    hide LastInTime;
    forall i | 0 <= i < w.next && IsAttempt(w.events[i]) && DecidedInTime(w, i) ensures DecidedInTime(Take(w), i) {
      var k :| 0 <= k < |w.log| && w.log[k].item == i && !w.log[k].late;
      assert Take(w).log[k] == w.log[k];
    }
  }

  /** A decision in time is the last in time for its id; a late one changes no id's. */
  lemma DecisionCounts(w: Work, d: Decision, id: string)
    requires d.item < |w.events|
    ensures LastInTime(w.log + [d], w.events, id) ==
              if !d.late && w.events[d.item].id == Some(id) then Some(d.answer) else LastInTime(w.log, w.events, id)
  {
    assert (w.log + [d])[..|w.log|] == w.log;
  }

  lemma DoneCounts(w: Work, answer: Answer)
    requires CountsInTime(w) && InProgress(w)
    ensures CountsInTime(Done(w, answer)) && (w.cutoff ==> Done(w, answer).responses == w.responses)
  {
    var v := Done(w, answer);
    var item := w.inHand.value;
    if IsAttempt(w.events[item]) {
      var d := Decision(item, answer, w.cutoff);
      forall id ensures LastInTime(v.log, v.events, id) ==
          if !d.late && w.events[item].id == Some(id) then Some(answer) else LastInTime(w.log, w.events, id)
      {
        DecisionCounts(w, d, id);
      }
    }
    hide LastInTime;
  }

  lemma DoneAccounts(w: Work, answer: Answer)
    requires AllAccounted(w) && StoppedAtCut(w) && InProgress(w)
    ensures AllAccounted(Done(w, answer)) && StoppedAtCut(Done(w, answer))
  {
    var v := Done(w, answer);
    var item := w.inHand.value;
    if IsAttempt(w.events[item]) {
      assert v.log[|w.log|] == Decision(item, answer, w.cutoff);
    }
    forall i | 0 <= i < w.next && DecidedInTime(w, i) ensures DecidedInTime(v, i) {
      var k :| 0 <= k < |w.log| && w.log[k].item == i && !w.log[k].late;
      assert v.log[k] == w.log[k];
    }
  }

  lemma DoneKeepsWork(w: Work, answer: Answer)
    requires WorkInv(w) && InProgress(w)
    ensures var v := Done(w, answer);
            && WorkInv(v)
            && v == w.(inHand := None, log := v.log, responses := v.responses)
            && (w.cutoff ==> v.responses == w.responses)
  {
    DoneCounts(w, answer);
    DoneAccounts(w, answer);
    hide CountsInTime, AllAccounted, StoppedAtCut;
  }

  lemma CutKeepsWork(w: Work)
    requires WorkInv(w) && !w.cutoff
    ensures WorkInv(CutShort(w))
  {
    var v := CutShort(w);
    forall i | 0 <= i < w.next && DecidedInTime(w, i) ensures DecidedInTime(v, i) {
      var k :| 0 <= k < |w.log| && w.log[k].item == i && !w.log[k].late;
      assert v.log[k] == w.log[k];
    }
  }

  lemma NewIsWork(events: seq<Event>, decide: bool)
    ensures WorkInv(NewWork(events, decide))
  {
  }

  /** One work moves on; a work that was cut off keeps how far it had come and what it counted. */
  ghost predicate MovesOn(c: HostCall, d: HostCall, at: nat) {
    && at < |c.works| && |d.works| == |c.works| && d.stage == c.stage && d.retries == c.retries
    && (forall k :: 0 <= k < |c.works| && k != at ==> d.works[k] == c.works[k])
    && var w, v := c.works[at], d.works[at];
       && WorkInv(v) && v.events == w.events && v.decide == w.decide && (w.cutoff ==> v.cutoff)
       && (w.cutoff ==> v.next == w.next && v.responses == w.responses)
  }

  lemma MovingKeepsRetries(c: HostCall, d: HostCall, at: nat)
    requires MovesOn(c, d, at) && RetriesInv(c)
    ensures RetriesInv(d)
  {
    hide WorkInv, Answers;
    forall i | 0 <= i < |d.retries| ensures RetryStands(d, d.retries[i]) {
      assert RetryStands(c, c.retries[i]);
    }
  }

  lemma MovingKeepsWorks(c: HostCall, d: HostCall, at: nat)
    requires MovesOn(c, d, at) && WorksInv(c)
    ensures WorksInv(d)
  {
    hide WorkInv;
  }

  lemma WorkerRounds(c: HostCall, at: nat)
    requires RoundsInv(c) && at < |c.works| && MayTake(c.works[at])
    ensures RoundsInv(WorkerTake(c, at))
  {
    var d := WorkerTake(c, at);
    assert WorkInv(c.works[at]);
    TakeKeepsWork(c.works[at]);
    hide WorkInv, Take;
    MovingKeepsRetries(c, d, at);
    MovingKeepsWorks(c, d, at);
    hide WorksInv, RetriesInv;
    TakingAttempts(c, at);
    hide AttemptsInv, WorkerTake, MovesOn;
  }

  /** The attempt taken up, where the work decides, joins those handed over. */
  lemma TakingAttempts(c: HostCall, at: nat)
    requires AttemptsInv(c) && at < |c.works| && MayTake(c.works[at])
    ensures AttemptsInv(WorkerTake(c, at))
  {
    var d, w := WorkerTake(c, at), c.works[at];
    TakesUp(w);
    forall a ensures a in d.attempts <==> a.0 < |d.works| && TookUp(d.works[a.0], a.1) {
      assert a in c.attempts <==> a.0 < |c.works| && TookUp(c.works[a.0], a.1);
      hide AttemptsInv, TookUp, Take;
    }
  }

  lemma TakesUp(w: Work)
    requires MayTake(w)
    ensures forall i :: TookUp(Take(w), i) <==>
              TookUp(w, i) || (i == w.next && w.decide && IsAttempt(w.events[w.next]))
  {
  }

  lemma DoneRounds(c: HostCall, at: nat, answer: Answer)
    requires RoundsInv(c) && at < |c.works| && InProgress(c.works[at])
    ensures RoundsInv(Next(c, WorkerDone(at, answer)))
  {
    var d := Next(c, WorkerDone(at, answer));
    assert WorkInv(c.works[at]);
    DoneKeepsWork(c.works[at], answer);
    hide WorkInv, Done;
    MovingKeepsRetries(c, d, at);
    MovingKeepsWorks(c, d, at);
    hide WorksInv, RetriesInv;
  }

  lemma CutOffRounds(c: HostCall)
    requires RoundsInv(c) && WorkOf(c).Some? && !WorkOf(c).value.cutoff
    ensures RoundsInv(CutOff(c))
  {
    var at := StageAt(c.stage).value;
    assert WorkInv(c.works[at]);
    CutKeepsWork(c.works[at]);
    hide WorkInv;
    MovingKeepsRetries(c, CutOff(c), at);
    MovingKeepsWorks(c, CutOff(c), at);
    hide WorksInv, RetriesInv;
  }

  lemma TakingRounds(c: HostCall)
    requires RoundsInv(c) && c.stage == Idle && c.lane != []
    ensures RoundsInv(TakeJob(c))
  {
    TakenJob(c);
    if c.lane[0].FollowJob? {
      NewIsWork(c.lane[0].events, true);
      NewIsWork(c.lane[0].events, false);
    }
    hide TakeJob, WorkInv, Answers, StageDue;
  }

  lemma LeaveRounds(c: HostCall, sent: bool)
    requires RoundsInv(c) && WorkOf(c).Some? && WorkOf(c).value.cutoff
    ensures RoundsInv(Leave(c, sent))
  {
    LeaveShape(c, sent);
    LeaveAnswers(c, sent);
    hide WorkInv, Answers, Leftover, Leave, Queued;
    var d := Leave(c, sent);
    forall i | 0 <= i < |d.retries| ensures RetryStands(d, d.retries[i]) {
      if i < |c.retries| {
        assert RetryStands(c, c.retries[i]);
      }
    }
    forall i | 0 <= i < |c.retries| ensures c.retries[i].at < StageAt(c.stage).value {
      assert RetryStands(c, c.retries[i]);
    }
  }

  /** The answer that leaving a round may send. */
  lemma LeaveAnswers(c: HostCall, sent: bool)
    requires WorkOf(c).Some?
    ensures var d := Leave(c, sent);
            var w := WorkOf(c).value;
            if c.stage.Following? && !c.ended then
              d.retries == c.retries + [RetrySent(c.stage.at, Answers(w.events, w.responses))]
            else
              d.retries == c.retries
  {
    hide Leftover, Answers, Queued;
  }

  lemma MoveKeepsRounds(c: HostCall, m: Move)
    requires RoundsInv(c) && Enabled(c, m, false)
    ensures RoundsInv(Next(c, m))
  {
    hide RoundsInv, RoundModel.Outcomes, TakeJob, WorkerTake, Done, CutOff, Leave;
    match m
    case Arrives(events, kind) => StillRounds(c, Next(c, m));
    case Evicted => StillRounds(c, Next(c, m));
    case TakesJob => TakingRounds(c);
    case WorkerTakes(at) => WorkerRounds(c, at);
    case WorkerDone(at, answer) => DoneRounds(c, at, answer);
    case CutsOff => CutOffRounds(c);
    case Leaves(sent) => LeaveRounds(c, sent);
    case SealsNext => StillRounds(c, Next(c, m));
    case ClientRetries => StillRounds(c, Next(c, m));
  }

  /** A step that touches no round's work. */
  lemma StillRounds(c: HostCall, d: HostCall)
    requires RoundsInv(c) && d.works == c.works && d.attempts == c.attempts && d.retries == c.retries
    requires d.stage == c.stage || (StageAt(c.stage).None? && StageAt(d.stage).None?)
    ensures RoundsInv(d)
  {
    hide WorkInv, Answers, TookUp;
    forall i | 0 <= i < |d.retries| ensures RetryStands(d, d.retries[i]) {
      assert RetryStands(c, c.retries[i]);
    }
  }

  // ----- the end -----

  lemma MoveKeepsEnd(c: HostCall, m: Move)
    requires EndInv(c) && Enabled(c, m, false)
    ensures EndInv(Next(c, m))
  {
    hide RoundModel.Outcomes, Answers, Leftover, Take, Done, CutShort;
    match m
    case Arrives(_, _) =>
    case Evicted =>
    case TakesJob => TakingEnds(c);
    case WorkerTakes(_) =>
    case WorkerDone(_, _) =>
    case CutsOff =>
    case Leaves(sent) => LeaveEnds(c, sent);
    case SealsNext =>
    case ClientRetries =>
  }

  lemma TakingEnds(c: HostCall)
    requires EndInv(c) && c.stage == Idle && c.lane != []
    ensures EndInv(TakeJob(c))
  {
    hide RoundModel.Outcomes, NewWork;
  }

  lemma LeaveEnds(c: HostCall, sent: bool)
    requires EndInv(c) && WorkOf(c).Some?
    ensures EndInv(Leave(c, sent))
  {
    hide Leftover, Answers;
  }

  lemma {:induction false} PlayKeepsInv(c: HostCall, ms: seq<Move>, honest: bool)
    requires Inv(c) && Legal(c, ms, honest)
    ensures Inv(Play(c, ms, honest))
    decreases |ms|
  {
    hide Balanced, RoundsInv, EndInv, Next, Enabled;
    if ms != [] {
      MoveKeepsBalance(c, ms[0]);
      MoveKeepsRounds(c, ms[0]);
      MoveKeepsEnd(c, ms[0]);
      PlayKeepsInv(Next(c, ms[0]), ms[1..], honest);
    }
  }

  lemma NewCallInv()
    ensures Inv(NEW_CALL)
  {
  }

  // ----- what a run guarantees -----

  lemma AddsUp(c: HostCall)
    requires Balanced(c)
    ensures multiset(c.arrived) ==
              multiset(c.handed) + multiset(c.dropped) + multiset(StageDue(c)) + multiset(LaneDue(c.lane))
  {
    hide StageDue, LaneDue;
    forall e
      ensures multiset(c.arrived)[e] ==
                (multiset(c.handed) + multiset(c.dropped) + multiset(StageDue(c)) + multiset(LaneDue(c.lane)))[e]
    {
      assert Count(c.arrived, e) ==
        Count(c.handed, e) + Count(c.dropped, e) + Count(StageDue(c), e) + Count(LaneDue(c.lane), e);
    }
  }

  /**
   * Deadline cut-off loses nothing. Over every run of a call - whatever the tool sends, wherever the cut-off
   * falls between the worker's steps, whatever a worker left behind still does, and whether or not the call is
   * cancelled - each item due at the endpoint was handed to it exactly once, or is still queued, or came in a
   * round that was taken up only after the call had ended; and once the session is closed nothing is queued.
   */
  lemma OutcomesHandedOnce(ms: seq<Move>)
    requires Legal(NEW_CALL, ms, false)
    ensures var c := Play(NEW_CALL, ms, false);
            && multiset(c.arrived) ==
                 multiset(c.handed) + multiset(c.dropped) + multiset(StageDue(c)) + multiset(LaneDue(c.lane))
            && (c.closed ==> multiset(c.arrived) == multiset(c.handed) + multiset(c.dropped))
  {
    hide Play, Legal, RoundsInv;
    NewCallInv();
    PlayKeepsInv(NEW_CALL, ms, false);
    var c := Play(NEW_CALL, ms, false);
    AddsUp(c);
    if c.closed {
      assert StageDue(c) == [] && LaneDue(c.lane) == [];
    }
  }

  /** What the tool is told of an attempt: the last decision in time for its id, or that none was reached. */
  function ToldOf(w: Work, id: string): Answer {
    var last := LastInTime(w.log, w.events, id);
    if last.Some? then last.value else Unavailable
  }

  /**
   * Each answer sent covers exactly the attempts of its round that have a string id, each with the last
   * decision reached before the cut-off for that id, or `unavailable` where none was; whatever the worker left
   * behind decides afterwards, what counted stays as it was. An attempt taken up before the cut-off was decided
   * in time, or is the one then in hand; and the attempts ever handed over are exactly those taken up by then.
   */
  lemma AnswersWereInTime(ms: seq<Move>, i: nat)
    requires Legal(NEW_CALL, ms, false) && i < |Play(NEW_CALL, ms, false).retries|
    ensures var c := Play(NEW_CALL, ms, false);
            var x := c.retries[i];
            && x.at < |c.works| && c.works[x.at].cut.Some?
            && var w := c.works[x.at];
               var cut := w.cut.value;
               && (forall id :: id in x.responses <==>
                     exists e :: e in w.events && IsAttempt(e) && e.id == Some(id))
               && (forall id :: id in x.responses ==> x.responses[id] == ToldOf(w, id))
               && w.next == cut.next <= |w.events|
               && (forall k :: 0 <= k < cut.next && IsAttempt(w.events[k]) ==>
                     DecidedInTime(w, k) || cut.inHand == Some(k))
               && (forall k :: 0 <= k < |w.log| && w.log[k].late ==> cut.inHand == Some(w.log[k].item))
               && (forall k: nat :: (x.at, k) in c.attempts <==> k < cut.next && IsAttempt(w.events[k]))
  {
    hide Play, Legal, Balanced, EndInv, LastInTime;
    NewCallInv();
    PlayKeepsInv(NEW_CALL, ms, false);
    var c := Play(NEW_CALL, ms, false);
    var x := c.retries[i];
    assert RetryStands(c, x);
    assert WorkInv(c.works[x.at]);
    var w := c.works[x.at];
    forall k: nat ensures (x.at, k) in c.attempts <==> TookUp(w, k) {
      var a := (x.at, k);
      assert a in c.attempts <==> a.0 < |c.works| && TookUp(c.works[a.0], a.1);
    }
    hide WorksInv, RetriesInv, DecidedInTime, AttemptsInv;
  }

  lemma {:induction false} LastInTimeIs(log: seq<Decision>, events: seq<Event>, id: string)
    requires forall k :: 0 <= k < |log| ==> log[k].item < |events|
    ensures LastInTime(log, events, id) == None <==>
              forall k :: 0 <= k < |log| && !log[k].late ==> events[log[k].item].id != Some(id)
    ensures LastInTime(log, events, id).Some? ==>
              exists k :: 0 <= k < |log| && !log[k].late && events[log[k].item].id == Some(id)
                          && log[k].answer == LastInTime(log, events, id).value
                          && forall j :: k < j < |log| && !log[j].late ==> events[log[j].item].id != Some(id)
  {
    if log != [] {
      var rest, d := log[..|log| - 1], log[|log| - 1];
      assert log == rest + [d];
      LastInTimeIs(rest, events, id);
      if !d.late && events[d.item].id == Some(id) {
        assert log[|log| - 1] == d;
      }
    }
  }

  /** A retry says `unavailable` of an id without a decision only where each attempt of that id was not taken up
      by the cut-off, or was the one then in hand. */
  lemma UndecidedWasUntaken(ms: seq<Move>, i: nat, id: string, k: nat)
    requires Legal(NEW_CALL, ms, false) && i < |Play(NEW_CALL, ms, false).retries|
    requires var c := Play(NEW_CALL, ms, false);
             var x := c.retries[i];
             && x.at < |c.works| && id in x.responses && k < |c.works[x.at].events|
             && IsAttempt(c.works[x.at].events[k]) && c.works[x.at].events[k].id == Some(id)
             && (forall j :: 0 <= j < |c.works[x.at].log| && !c.works[x.at].log[j].late ==>
                   c.works[x.at].log[j].answer != x.responses[id])
    ensures var c := Play(NEW_CALL, ms, false);
            var x := c.retries[i];
            && x.responses[id] == Unavailable && c.works[x.at].cut.Some?
            && (k >= c.works[x.at].cut.value.next || c.works[x.at].cut.value.inHand == Some(k))
  {
    hide Play, Legal, LastInTime, Balanced, EndInv;
    AnswersWereInTime(ms, i);
    NewCallInv();
    PlayKeepsInv(NEW_CALL, ms, false);
    var c := Play(NEW_CALL, ms, false);
    var w := c.works[c.retries[i].at];
    assert WorkInv(w);
    LastInTimeIs(w.log, w.events, id);
    DecisionIsLast(w, k, id);
  }

  lemma DecisionIsLast(w: Work, k: nat, id: string)
    requires WorkInv(w) && k < |w.events| && w.events[k].id == Some(id)
    ensures DecidedInTime(w, k) ==> LastInTime(w.log, w.events, id).Some?
  {
    LastInTimeIs(w.log, w.events, id);
  }

  /** A round whose call was cancelled before the queue came to it hands over nothing: what it carried is lost
      to the ledger, though the session closes in order. A round taken up before that loses nothing. */
  lemma CancelledBeforeTaken(e: Event)
    requires !IsAttempt(e)
    ensures var ms := [Arrives([e], RoundAnswer(true, false)), Evicted, TakesJob, TakesJob];
            && Legal(NEW_CALL, ms, true)
            && var c := Play(NEW_CALL, ms, true); c.closed && c.arrived == [e] && c.handed == [] && c.dropped == [e]
  {
    var a, b := Arrives([e], RoundAnswer(true, false)), Evicted;
    assert [e][..0] == [];
    assert RoundModel.Outcomes([e]) == [e];
    var c1 := Next(NEW_CALL, a);
    var c2 := Next(c1, b);
    assert c2.lane == [FollowJob([e], true, false), CloseJob];
    var c3 := Next(c2, TakesJob);
    assert c3.lane == [CloseJob] && c3.dropped == [e];
    var c4 := Next(c3, TakesJob);
    PlayOne(NEW_CALL, [a, b, TakesJob, TakesJob]);
    PlayOne(c1, [b, TakesJob, TakesJob]);
    PlayOne(c2, [TakesJob, TakesJob]);
    PlayOne(c3, [TakesJob]);
    assert Legal(c4, [], true);
    assert [a, b, TakesJob, TakesJob][1..] == [b, TakesJob, TakesJob];
    assert [b, TakesJob, TakesJob][1..] == [TakesJob, TakesJob];
    assert [TakesJob, TakesJob][1..] == [TakesJob];
    assert [TakesJob][1..] == [];
  }

  lemma PlayOne(c: HostCall, ms: seq<Move>)
    requires ms != [] && Enabled(c, ms[0], true)
    ensures Legal(c, ms, true) <==> Legal(Next(c, ms[0]), ms[1..], true)
    ensures Legal(c, ms, true) ==> Play(c, ms, true) == Play(Next(c, ms[0]), ms[1..], true)
  {
  }

  // ----- in order -----

  ghost predicate AllClose(lane: seq<Job>) {
    forall i :: 0 <= i < |lane| ==> lane[i] == CloseJob
  }

  ghost predicate NoFollow(lane: seq<Job>) {
    forall i :: 0 <= i < |lane| ==> !lane[i].FollowJob?
  }

  /** With a tool that answers each request once, nothing is queued behind the round it answered but the close. */
  ghost predicate TurnsInv(c: HostCall) {
    && !(c.toolOwes && c.heldUp)
    && (c.toolOwes || c.heldUp ==> NoFollow(c.lane) && StageAt(c.stage).None?)
    && (StageAt(c.stage).Some? ==> AllClose(c.lane))
    && (forall i :: 0 <= i < |c.lane| && c.lane[i].FollowJob? ==> AllClose(c.lane[i + 1..]))
    && (c.dropped != [] ==> c.ended && StageDue(c) == [] && LaneDue(c.lane) == [])
  }

  ghost predicate Follows(arrived: seq<Event>, handed: seq<Event>, stage: seq<Event>, lane: seq<Event>,
                          dropped: seq<Event>)
  {
    arrived == handed + stage + lane + dropped
  }

  ghost predicate InOrder(c: HostCall) {
    Follows(c.arrived, c.handed, StageDue(c), LaneDue(c.lane), c.dropped)
  }

  lemma FollowsAsMoved(a: seq<Event>, h: seq<Event>, s: seq<Event>, l: seq<Event>, d: seq<Event>, x: seq<Event>)
    ensures Follows(a, h, x + s, l, d) ==> Follows(a, h + x, s, l, d)
    ensures Follows(a, h, [], x + l, d) ==> Follows(a, h, x, l, d)
    ensures Follows(a, h, [], x, d) && (d == [] || x == []) ==> Follows(a, h, [], [], d + x)
    ensures Follows(a, h, x, [], d) ==> Follows(a, h, [], x, d)
    ensures Follows(a, h, s, l, []) ==> Follows(a + x, h, s, l + x, [])
  {
    assert h + (x + s) == (h + x) + s;
    assert h + [] + x + [] == h + [] + [] + ([] + x);
    assert h + s + (l + x) + [] == (h + s + l + []) + x;
  }

  lemma {:induction false} AllCloseOwesNothing(lane: seq<Job>)
    requires AllClose(lane)
    ensures LaneDue(lane) == [] && NoFollow(lane)
  {
    if lane != [] {
      AllCloseOwesNothing(lane[1..]);
    }
  }

  lemma OrderedArrival(c: HostCall, events: seq<Event>, kind: Answered)
    requires TurnsInv(c) && InOrder(c) && c.toolOwes && !c.ended
    ensures TurnsInv(Arrive(c, events, kind)) && InOrder(Arrive(c, events, kind))
  {
    var d := Arrive(c, events, kind);
    var j := d.lane[|c.lane|];
    LaneDueSplit(c.lane, [j]);
    LaneDueOne(j);
    FollowsAsMoved(c.arrived, c.handed, StageDue(c), LaneDue(c.lane), c.dropped, JobDue(j));
    assert StageDue(d) == StageDue(c);
    hide LaneDue, StageDue, RoundModel.Outcomes, Follows;
    assert d.lane[|c.lane| + 1..] == [];
    assert c.dropped == [];
  }

  lemma OrderedTaking(c: HostCall)
    requires TurnsInv(c) && InOrder(c) && c.stage == Idle && c.lane != []
    ensures TurnsInv(TakeJob(c)) && InOrder(TakeJob(c))
  {
    RestTurns(c.lane);
    TakenTurns(c.lane);
    TakenJob(c);
    TakenEnd(c);
    var x, l := JobDue(c.lane[0]), LaneDue(c.lane[1..]);
    assert LaneDue(c.lane) == x + l;
    FollowsAsMoved(c.arrived, c.handed, [], l, c.dropped, x);
    assert [] + l == l && x + [] == x;
    if c.lane[0].FollowJob? {
      AllCloseOwesNothing(c.lane[1..]);
      assert !NoFollow(c.lane);
    }
    assert x + l == [] ==> x == [] && l == [];
    hide TakeJob, StageDue, LaneDue, JobDue, AllClose, NoFollow, Follows;
  }

  lemma TakenEnd(c: HostCall)
    requires c.stage == Idle && c.lane != []
    ensures var d := TakeJob(c);
            && d.toolOwes == c.toolOwes && d.heldUp == c.heldUp && (c.ended ==> d.ended)
            && (c.lane[0].FollowJob? && d.ended && !c.ended ==> d.stage.Abandoning?)
            && (!c.lane[0].FollowJob? ==> d.ended == c.ended)
  {
    hide RoundModel.Outcomes, NewWork;
  }

  lemma RestTurns(lane: seq<Job>)
    requires lane != [] && forall i :: 0 <= i < |lane| && lane[i].FollowJob? ==> AllClose(lane[i + 1..])
    ensures forall i :: 0 <= i < |lane[1..]| && lane[1..][i].FollowJob? ==> AllClose(lane[1..][i + 1..])
    ensures lane[0].FollowJob? ==> AllClose(lane[1..])
  {
    forall i | 0 <= i < |lane[1..]| && lane[1..][i].FollowJob? ensures AllClose(lane[1..][i + 1..]) {
      assert lane[i + 1] == lane[1..][i] && lane[i + 2..] == lane[1..][i + 1..];
    }
    assert lane[0 + 1..] == lane[1..];
  }

  lemma TakenTurns(lane: seq<Job>)
    requires lane != []
    ensures NoFollow(lane) ==> NoFollow(lane[1..])
    ensures AllClose(lane) ==> AllClose(lane[1..])
  {
  }

  lemma OrderedEviction(c: HostCall)
    requires TurnsInv(c) && InOrder(c) && !c.ended
    ensures var d := c.(ended := true, lane := c.lane + [CloseJob]); TurnsInv(d) && InOrder(d)
  {
    LaneDueSplit(c.lane, [CloseJob]);
    LaneDueOne(CloseJob);
    var lane := c.lane + [CloseJob];
    forall i | 0 <= i < |lane| && lane[i].FollowJob? ensures AllClose(lane[i + 1..]) {
      assert lane[i + 1..] == c.lane[i + 1..] + [CloseJob];
    }
    assert LaneDue(c.lane) + [] == LaneDue(c.lane);
    assert StageDue(c.(ended := true, lane := lane)) == StageDue(c);
    hide LaneDue, StageDue, Follows;
  }

  lemma OrderedWork(c: HostCall, at: nat)
    requires TurnsInv(c) && InOrder(c) && WorksInv(c) && at < |c.works| && MayTake(c.works[at])
    ensures TurnsInv(WorkerTake(c, at)) && InOrder(WorkerTake(c, at))
  {
    OnlyCurrentTakes(c, at);
    WorkerTaken(c, at);
    WorkerStill(c, at);
    hide Leftover, LaneDue, Take, Follows, WorksInv, AllClose, NoFollow, WorkerTake, StageDue;
    var w := c.works[at];
    TakeLeaves(w);
    FollowsAsMoved(c.arrived, c.handed, Leftover(Take(w)), LaneDue(c.lane), c.dropped,
                   if IsAttempt(w.events[w.next]) then [] else [w.events[w.next]]);
  }

  lemma WorkerStill(c: HostCall, at: nat)
    requires at < |c.works| && MayTake(c.works[at])
    ensures var d := WorkerTake(c, at);
            d == c.(works := d.works, handed := d.handed, attempts := d.attempts)
  {
    hide Take;
  }

  /** A step of a worker that leaves what is due as it was. */
  lemma OrderedStill(c: HostCall, works: seq<Work>)
    requires TurnsInv(c) && InOrder(c) && StageDue(c.(works := works)) == StageDue(c)
    ensures TurnsInv(c.(works := works)) && InOrder(c.(works := works))
  {
    hide LaneDue, StageDue, Follows, AllClose, NoFollow;
  }

  lemma OrderedLeaving(c: HostCall, sent: bool)
    requires TurnsInv(c) && InOrder(c) && EndInv(c) && WorkOf(c).Some?
    ensures TurnsInv(Leave(c, sent)) && InOrder(Leave(c, sent))
  {
    hide TurnsInv, InOrder, EndInv, Leave;
    LeaveInOrder(c, sent);
    LeaveTurns(c, sent);
  }

  lemma LeaveInOrder(c: HostCall, sent: bool)
    requires TurnsInv(c) && InOrder(c) && WorkOf(c).Some?
    ensures InOrder(Leave(c, sent))
  {
    hide Leftover, LaneDue, StageDue, Follows, Leave, AllClose, NoFollow, Queued;
    LeaveShape(c, sent);
    LeaveMoves(c, sent);
    StageIsWork(c);
    var left := Leftover(WorkOf(c).value);
    AllCloseOwesNothing(c.lane);
    FollowsAsMoved(c.arrived, c.handed, [], LaneDue(c.lane), c.dropped, left);
    assert [] + left == left;
  }

  /** With nothing queued, what leaving a round queues is the leftover alone, or before the close. */
  lemma LeaveTurns(c: HostCall, sent: bool)
    requires TurnsInv(c) && EndInv(c) && WorkOf(c).Some?
    ensures TurnsInv(Leave(c, sent))
  {
    var left := Leftover(WorkOf(c).value);
    LeaveShape(c, sent);
    LeaveMoves(c, sent);
    LeaveOwes(c, sent);
    StageIsWork(c);
    AllCloseOwesNothing(c.lane);
    if !c.ended || c.stage.Abandoning? {
      NothingQueued(c);
      QueuedTurns(left);
    }
    hide Leftover, Leave, EndInv, AllClose, NoFollow, LaneDue, StageDue, Queued;
  }

  lemma QueuedTurns(left: seq<Event>)
    ensures NoFollow(Queued([], left)) && NoFollow(Queued([], left) + [CloseJob])
  {
  }

  lemma LeaveOwes(c: HostCall, sent: bool)
    requires WorkOf(c).Some?
    ensures var d := Leave(c, sent);
            && (d.toolOwes ==> c.toolOwes || (!c.ended && c.stage.Following? && !c.stage.asksInput))
            && (d.heldUp ==> c.heldUp || (!c.ended && c.stage.Following? && c.stage.asksInput))
  {
    hide Leftover, Answers, Queued;
  }

  lemma FirstCloses(lane: seq<Job>)
    requires AllClose(lane) && lane != []
    ensures !NoneCloses(lane)
  {
    assert Closes(lane[0]);
  }

  /** While a live call's round is worked through, nothing is queued. */
  lemma NothingQueued(c: HostCall)
    requires TurnsInv(c) && EndInv(c) && StageAt(c.stage).Some? && (!c.ended || c.stage.Abandoning?)
    ensures c.lane == []
  {
    if c.lane != [] {
      FirstCloses(c.lane);
    }
  }

  lemma OrderedSealing(c: HostCall)
    requires TurnsInv(c) && InOrder(c) && c.stage.Sealing?
    ensures TurnsInv(SealNext(c)) && InOrder(SealNext(c))
  {
    if c.stage.rest != [] {
      var e, rest := c.stage.rest[0], c.stage.rest[1..];
      assert c.stage.rest == [e] + rest;
      FollowsAsMoved(c.arrived, c.handed, rest, LaneDue(c.lane), c.dropped, [e]);
    }
    hide LaneDue, Follows, AllClose, NoFollow;
  }

  lemma MoveKeepsOrder(c: HostCall, m: Move)
    requires TurnsInv(c) && InOrder(c) && EndInv(c) && RoundsInv(c) && Enabled(c, m, true) && Enabled(c, m, false)
    ensures TurnsInv(Next(c, m)) && InOrder(Next(c, m))
  {
    match m
    case Arrives(events, kind) => OrderedArrival(c, events, kind);
    case Evicted => OrderedEviction(c);
    case TakesJob => OrderedTaking(c);
    case WorkerTakes(at) => OrderedWork(c, at);
    case WorkerDone(at, answer) =>
      DoneLeaves(c.works[at], answer);
      SameDue(c, at, Done(c.works[at], answer));
      OrderedStill(c, Next(c, m).works);
    case CutsOff =>
      CutLeaves(WorkOf(c).value);
      SameDue(c, StageAt(c.stage).value, CutShort(WorkOf(c).value));
      OrderedStill(c, CutOff(c).works);
    case Leaves(sent) => OrderedLeaving(c, sent);
    case SealsNext => OrderedSealing(c);
    case ClientRetries => hide LaneDue, Leftover;
  }

  lemma {:induction false} PlayKeepsOrder(c: HostCall, ms: seq<Move>)
    requires Inv(c) && TurnsInv(c) && InOrder(c) && Legal(c, ms, true)
    ensures Inv(Play(c, ms, true)) && TurnsInv(Play(c, ms, true)) && InOrder(Play(c, ms, true))
    decreases |ms|
  {
    hide Balanced, RoundsInv, EndInv, TurnsInv, InOrder, Next, Enabled;
    if ms != [] {
      MoveKeepsOrder(c, ms[0]);
      MoveKeepsBalance(c, ms[0]);
      MoveKeepsRounds(c, ms[0]);
      MoveKeepsEnd(c, ms[0]);
      PlayKeepsOrder(Next(c, ms[0]), ms[1..]);
    }
  }

  /** With a tool that answers each request it holds once, the endpoint is handed what arrived in the order it
      arrived, over rounds, cut-offs and final answer; what is dropped with a round comes last. */
  lemma OutcomesHandedInOrder(ms: seq<Move>)
    requires Legal(NEW_CALL, ms, true)
    ensures var c := Play(NEW_CALL, ms, true);
            && c.handed <= c.arrived
            && (c.closed ==> c.arrived == c.handed + c.dropped)
  {
    hide Play, Legal, RoundsInv, Balanced, TurnsInv;
    NewCallInv();
    assert TurnsInv(NEW_CALL) && InOrder(NEW_CALL) by {
      NewCallTurns();
    }
    PlayKeepsOrder(NEW_CALL, ms);
    var c := Play(NEW_CALL, ms, true);
    assert c.arrived == c.handed + (StageDue(c) + LaneDue(c.lane) + c.dropped);
    if c.closed {
      assert c.stage == Idle && c.lane == [];
    }
  }

  lemma NewCallTurns()
    ensures TurnsInv(NEW_CALL) && InOrder(NEW_CALL)
  {
  }

  // ----- when a round is lost -----

  /** A round that carries an outcome waits in the queue. */
  ghost predicate OutcomeWaits(lane: seq<Job>) {
    exists i :: 0 <= i < |lane| && lane[i].FollowJob? && JobDue(lane[i]) != []
  }

  /** The step ends the call - cancelled, evicted, answered, past the limit on rounds, without a state, or with a
      retry that could not be sent - while a round that carries an outcome waits behind it. */
  ghost predicate EndsWaiting(c: HostCall, m: Move)
    requires Enabled(c, m, false)
  {
    !c.ended && Next(c, m).ended && OutcomeWaits(Next(c, m).lane)
  }

  /** Something is dropped, or bound to be. */
  ghost predicate Lost(c: HostCall) {
    c.dropped != [] || (c.ended && OutcomeWaits(c.lane))
  }

  ghost predicate RunLoses(c: HostCall, ms: seq<Move>, honest: bool)
    requires Legal(c, ms, honest)
    decreases |ms|
  {
    ms != [] && (EndsWaiting(c, ms[0]) || RunLoses(Next(c, ms[0]), ms[1..], honest))
  }

  lemma NothingWaits(lane: seq<Job>)
    requires NoFollow(lane)
    ensures !OutcomeWaits(lane)
  {
  }

  lemma WaitsInTail(lane: seq<Job>)
    requires lane != []
    ensures OutcomeWaits(lane) <==> (lane[0].FollowJob? && JobDue(lane[0]) != []) || OutcomeWaits(lane[1..])
  {
    hide JobDue;
    if OutcomeWaits(lane) {
      var i :| 0 <= i < |lane| && lane[i].FollowJob? && JobDue(lane[i]) != [];
      assert i > 0 ==> lane[1..][i - 1] == lane[i];
    }
    if OutcomeWaits(lane[1..]) {
      var i :| 0 <= i < |lane[1..]| && lane[1..][i].FollowJob? && JobDue(lane[1..][i]) != [];
      assert lane[i + 1] == lane[1..][i];
    }
  }

  lemma WaitsBefore(lane: seq<Job>, j: Job)
    requires !j.FollowJob?
    ensures OutcomeWaits(lane + [j]) <==> OutcomeWaits(lane)
  {
    hide JobDue;
    if OutcomeWaits(lane) {
      var i :| 0 <= i < |lane| && lane[i].FollowJob? && JobDue(lane[i]) != [];
      assert (lane + [j])[i] == lane[i];
    }
    if OutcomeWaits(lane + [j]) {
      var i :| 0 <= i < |lane + [j]| && (lane + [j])[i].FollowJob? && JobDue((lane + [j])[i]) != [];
      assert lane[i] == (lane + [j])[i];
    }
  }

  lemma TakingLoses(c: HostCall)
    requires c.stage == Idle && c.lane != []
    ensures Lost(TakeJob(c)) <==> Lost(c) || (!c.ended && TakeJob(c).ended && OutcomeWaits(TakeJob(c).lane))
  {
    TakenJob(c);
    TakenEnd(c);
    WaitsInTail(c.lane);
    hide TakeJob, OutcomeWaits, JobDue, StageDue;
  }

  lemma LeavingLoses(c: HostCall, sent: bool)
    requires WorkOf(c).Some?
    ensures Lost(Leave(c, sent)) <==> Lost(c) || (!c.ended && Leave(c, sent).ended && OutcomeWaits(Leave(c, sent).lane))
  {
    LeaveShape(c, sent);
    var left := Leftover(WorkOf(c).value);
    QueueWaits(c.lane, left);
    hide Leave, OutcomeWaits, Leftover, Queued, StageDue;
  }

  lemma QueueWaits(lane: seq<Job>, left: seq<Event>)
    ensures OutcomeWaits(Queued(lane, left)) <==> OutcomeWaits(lane)
    ensures OutcomeWaits(Queued(lane, left) + [CloseJob]) <==> OutcomeWaits(lane)
  {
    hide OutcomeWaits;
    WaitsBefore(lane, SealJob(left));
    WaitsBefore(Queued(lane, left), CloseJob);
  }

  /** One step: something is lost exactly when it was, or when this step loses it. */
  lemma StepLoses(c: HostCall, m: Move)
    requires Enabled(c, m, false)
    ensures Lost(Next(c, m)) <==> Lost(c) || EndsWaiting(c, m)
  {
    match m
    case Arrives(events, kind) => hide OutcomeWaits;
    case Evicted => hide OutcomeWaits;
    case TakesJob => TakingLoses(c);
    case WorkerTakes(_) => hide OutcomeWaits, Take;
    case WorkerDone(_, _) => hide OutcomeWaits, Done;
    case CutsOff => hide OutcomeWaits, CutShort;
    case Leaves(sent) => LeavingLoses(c, sent);
    case SealsNext => hide OutcomeWaits;
    case ClientRetries => hide OutcomeWaits;
  }

  lemma {:induction false} PlayLosesIff(c: HostCall, ms: seq<Move>, honest: bool)
    requires Legal(c, ms, honest)
    ensures Lost(Play(c, ms, honest)) <==> Lost(c) || RunLoses(c, ms, honest)
    decreases |ms|
  {
    hide Lost, EndsWaiting, Next, Enabled;
    if ms != [] {
      StepLoses(c, ms[0]);
      PlayLosesIff(Next(c, ms[0]), ms[1..], honest);
    }
  }

  lemma ClosedHasNoQueue(c: HostCall)
    requires EndInv(c) && c.closed
    ensures c.lane == [] && !OutcomeWaits(c.lane)
  {
    NothingWaits(c.lane);
    hide NoneCloses;
  }

  /**
   * Whatever the tool sends, a call whose session has closed lost something it was due - if and only if some step
   * ended it while a round that carries an outcome waited behind that step in the queue.
   */
  lemma OutcomeIsLostIff(ms: seq<Move>)
    requires Legal(NEW_CALL, ms, false) && Play(NEW_CALL, ms, false).closed
    ensures var c := Play(NEW_CALL, ms, false);
            multiset(c.handed) != multiset(c.arrived) <==> RunLoses(NEW_CALL, ms, false)
  {
    hide Play, Legal, RoundsInv, Balanced, EndInv, RunLoses, OutcomeWaits;
    NewCallInv();
    NothingWaits([]);
    PlayLosesIff(NEW_CALL, ms, false);
    PlayKeepsInv(NEW_CALL, ms, false);
    OutcomesHandedOnce(ms);
    var c := Play(NEW_CALL, ms, false);
    ClosedHasNoQueue(c);
    if c.dropped != [] {
      assert multiset(c.dropped)[c.dropped[0]] > 0;
      assert multiset(c.arrived)[c.dropped[0]] > multiset(c.handed)[c.dropped[0]];
    }
  }

  // ----- with an honest tool -----

  /** The call is cancelled or evicted at some point while a round that carries an outcome waits. */
  ghost predicate RunEvicts(c: HostCall, ms: seq<Move>)
    requires Legal(c, ms, true)
    decreases |ms|
  {
    ms != [] && ((ms[0].Evicted? && OutcomeWaits(c.lane)) || RunEvicts(Next(c, ms[0]), ms[1..]))
  }

  /** With a tool that answers each request once, no other step ends the call in front of a round. */
  lemma HonestEnds(c: HostCall, m: Move)
    requires TurnsInv(c) && EndInv(c) && Enabled(c, m, true) && Enabled(c, m, false)
    ensures EndsWaiting(c, m) <==> m.Evicted? && OutcomeWaits(c.lane)
  {
    match m
    case Arrives(events, kind) =>
      NothingWaits(c.lane);
      WaitsBefore(c.lane, ConcludeJob(events));
    case Evicted => WaitsBefore(c.lane, CloseJob);
    case TakesJob =>
      RestTurns(c.lane);
      TakenJob(c);
      TakenEnd(c);
      if c.lane[0].FollowJob? {
        AllCloseOwesNothing(c.lane[1..]);
        NothingWaits(c.lane[1..]);
      }
      hide TakeJob, OutcomeWaits, JobDue, StageDue, LaneDue, AllClose, NoFollow, NoneCloses;
    case WorkerTakes(_) => hide OutcomeWaits, Take;
    case WorkerDone(_, _) => hide OutcomeWaits, Done;
    case CutsOff => hide OutcomeWaits, CutShort;
    case Leaves(sent) =>
      LeaveShape(c, sent);
      AllCloseOwesNothing(c.lane);
      NothingWaits(c.lane);
      QueueWaits(c.lane, Leftover(WorkOf(c).value));
      hide Leave, OutcomeWaits, Leftover, Queued, StageDue, LaneDue, AllClose, NoFollow, EndInv;
    case SealsNext => hide OutcomeWaits;
    case ClientRetries => hide OutcomeWaits;
  }

  lemma {:induction false} HonestRunEnds(c: HostCall, ms: seq<Move>)
    requires Inv(c) && TurnsInv(c) && InOrder(c) && Legal(c, ms, true)
    ensures RunLoses(c, ms, true) <==> RunEvicts(c, ms)
    decreases |ms|
  {
    hide Balanced, RoundsInv, EndInv, TurnsInv, InOrder, EndsWaiting, OutcomeWaits, Next, Enabled;
    if ms != [] {
      HonestEnds(c, ms[0]);
      MoveKeepsOrder(c, ms[0]);
      MoveKeepsBalance(c, ms[0]);
      MoveKeepsRounds(c, ms[0]);
      MoveKeepsEnd(c, ms[0]);
      HonestRunEnds(Next(c, ms[0]), ms[1..]);
    }
  }

  /**
   * With a tool that answers each request once, that is - if and only if the call was cancelled or evicted while a
   * round that carries an outcome waited in the queue. The limit on rounds, a round with no state to retry with
   * and a retry that could not be sent lose nothing.
   */
  lemma RoundIsLostIff(ms: seq<Move>)
    requires Legal(NEW_CALL, ms, true) && Play(NEW_CALL, ms, true).closed
    ensures Play(NEW_CALL, ms, true).handed != Play(NEW_CALL, ms, true).arrived <==> RunEvicts(NEW_CALL, ms)
  {
    hide Play, Legal, RoundsInv, Balanced, EndInv, TurnsInv, InOrder, RunLoses, RunEvicts, OutcomeWaits;
    NewCallInv();
    NewCallTurns();
    NothingWaits([]);
    PlayLosesIff(NEW_CALL, ms, true);
    HonestRunEnds(NEW_CALL, ms);
    PlayKeepsInv(NEW_CALL, ms, true);
    OutcomesHandedInOrder(ms);
    ClosedHasNoQueue(Play(NEW_CALL, ms, true));
  }

  lemma {:induction false} NoEvictionNoLoss(c: HostCall, ms: seq<Move>)
    requires Legal(c, ms, true) && forall i :: 0 <= i < |ms| ==> !ms[i].Evicted?
    ensures !RunEvicts(c, ms)
    decreases |ms|
  {
    hide Next, Enabled;
    if ms != [] {
      NoEvictionNoLoss(Next(c, ms[0]), ms[1..]);
    }
  }

  /** So a call that is neither cancelled nor evicted loses nothing: once its session is closed, the endpoint
      was handed exactly what arrived, in order. */
  lemma UncancelledLosesNothing(ms: seq<Move>)
    requires Legal(NEW_CALL, ms, true) && forall i :: 0 <= i < |ms| ==> !ms[i].Evicted?
    requires Play(NEW_CALL, ms, true).closed
    ensures Play(NEW_CALL, ms, true).handed == Play(NEW_CALL, ms, true).arrived
  {
    hide Play, Legal, RunEvicts;
    NoEvictionNoLoss(NEW_CALL, ms);
    RoundIsLostIff(ms);
  }
}
