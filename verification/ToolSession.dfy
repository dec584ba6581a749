/**
 * The tool's side of one audit session: audit-before-act over concurrent actions, and the one section in
 * which an event is numbered and emitted. Each move is one uninterrupted stretch between two awaits.
 */
module ToolSession {
  import opened Events
  import opened Chain
  import opened HostModel

  /** One `AmcpSession` object; several may serve the same audit session and share its numbering. */
  datatype Amcp = Amcp(
    signer: Option<string>,
    pollutedStop: bool,
    requireCountersign: bool,
    checksCountersignature: bool)

  /** The combinations the constructor admits. */
  predicate Admissible(m: Amcp) {
    && (m.signer.Some? || m.requireCountersign ==> m.pollutedStop)
    && (m.requireCountersign ==> m.checksCountersignature)
  }

  /** What an action is to emit next. */
  datatype Kind = TheAttempt | TheRefusal(reason: AbortReason) | TheTerminal(outcome: Outcome)

  datatype Phase =
    | Due(kind: Kind)
    | Held(kind: Kind, number: Option<int>, event: Option<Event>)
    | Performing
    | Ended

  /**
   * One action. `attempt` is what it emitted and `answered` what came back; `accept` is what cleared its
   * body to run; `owes` is the reason it declined to act, and `refusal` the event that says so, once emitted.
   */
  datatype Action = Action(
    amcp: Amcp,
    phase: Phase,
    attempt: Option<Event>,
    answered: Option<Answer>,
    accept: Option<Answer>,
    owes: Option<AbortReason>,
    refusal: Option<Event>)

  /** A numbered emission. `completed` once its section ended without raising. */
  datatype Sent = Sent(event: Event, completed: bool)

  /** `holder` is the action inside the numbering section. `plain` holds the unnumbered emissions of Level 1. */
  datatype Tool = Tool(
    session: string,
    start: nat,
    next: int,
    holder: Option<string>,
    actions: map<string, Action>,
    log: seq<Sent>,
    plain: set<Event>)

  function NewTool(session: string, start: nat): Tool {
    Tool(session, start, start, None, map[], [], {})
  }

  // ----- the answer -----

  /** What the countersignature verifier says of an accept. */
  datatype Verified = Holds | DoesNotHold | CouldNotCheck

  datatype Judgement = Cleared | Abort(reason: AbortReason)

  /** In order: the status, the countersignature, and the hash computed over the host's fields. */
  function Judge(m: Amcp, attempt: Event, answer: Answer, verified: Verified): (j: Judgement)
    ensures j.Cleared? ==> answer.Accept?
    ensures j.Cleared? && m.requireCountersign ==> answer.hostSignature.Some?
    ensures j.Cleared? && m.checksCountersignature && answer.hostSignature.Some? ==>
              verified.Holds? && answer.hostKeyId.Some? && answer.logId.Some?
    ensures j.Cleared? && m.pollutedStop ==>
              answer.recordHash == HashOf(attempt, answer.position, answer.hostTs, answer.previousHash)
    ensures j.Abort? && (j.reason == HostRejected || j.reason == HostUnavailable) && answer.Accept? ==>
              verified.CouldNotCheck?
  {
    if !answer.Accept? then
      Abort(if answer.Reject? then HostRejected else HostUnavailable)
    else if m.requireCountersign && answer.hostSignature.None? then
      Abort(HostUncountersigned)
    else if answer.hostSignature.Some? && m.checksCountersignature
            && !(answer.hostKeyId.Some? && answer.logId.Some? && verified.Holds?) then
      Abort(if answer.hostKeyId.Some? && answer.logId.Some? && verified.CouldNotCheck?
            then HostUnavailable else HostSignatureInvalid)
    else if m.pollutedStop
            && HashOf(attempt, answer.position, answer.hostTs, answer.previousHash) != answer.recordHash then
      Abort(HashMismatch)
    else
      Cleared
  }

  // ----- the moves -----

  /**
   * `Faults`: the transport raised, which the section swallows. `SectionRaises`: a usage error, a failing
   * `send_outcome` or a cancellation inside the section. `Unjudged`: checking an accept raised.
   */
  datatype Move =
    | Creates(id: string, amcp: Amcp)
    | Takes(id: string)
    | Emits(id: string, body: nat, signature: string)
    | BuildRaises(id: string)
    | Returns(id: string, answer: Answer, verified: Verified)
    | Unjudged(id: string, answer: Answer)
    | Faults(id: string)
    | OutcomeSent(id: string)
    | SectionRaises(id: string)
    | Cancelled(id: string)
    | BodyEnds(id: string, failed: bool)

  function OutcomeOf(k: Kind): Outcome {
    match k
    case TheAttempt => Attempted
    case TheRefusal(_) => Aborted
    case TheTerminal(o) => o
  }

  function Build(t: Tool, id: string, k: Kind, m: Amcp, number: Option<int>, body: nat, signature: string): Event {
    Event(Some(id), Some(V04), Some(t.session), Some(OutcomeOf(k)), if k.TheRefusal? then Some(k.reason) else None,
          m.signer, number, if m.signer.Some? then Some(signature) else None, body, true, true)
  }

  function PhaseOf(t: Tool, id: string): Phase {
    if id in t.actions then t.actions[id].phase else Ended
  }

  predicate Enabled(t: Tool, move: Move) {
    match move
    case Creates(id, m) => id !in t.actions && Admissible(m)
    case Takes(id) => PhaseOf(t, id).Due? && (t.actions[id].amcp.signer.Some? ==> t.holder.None?)
    case Emits(id, _, _) => PhaseOf(t, id).Held? && PhaseOf(t, id).event.None?
    case BuildRaises(id) => PhaseOf(t, id).Held? && PhaseOf(t, id).event.None?
    case Returns(id, _, _) => PhaseOf(t, id).Held? && PhaseOf(t, id).event.Some? && PhaseOf(t, id).kind.TheAttempt?
    case Unjudged(id, answer) =>
      PhaseOf(t, id).Held? && PhaseOf(t, id).event.Some? && PhaseOf(t, id).kind.TheAttempt? && answer.Accept?
    case Faults(id) => PhaseOf(t, id).Held? && PhaseOf(t, id).event.Some? && PhaseOf(t, id).kind.TheAttempt?
    case OutcomeSent(id) => PhaseOf(t, id).Held? && PhaseOf(t, id).event.Some? && !PhaseOf(t, id).kind.TheAttempt?
    case SectionRaises(id) => PhaseOf(t, id).Held? && PhaseOf(t, id).event.Some?
    case Cancelled(id) => PhaseOf(t, id).Due?
    case BodyEnds(id, _) => PhaseOf(t, id).Performing?
  }

  function With(t: Tool, id: string, a: Action): Tool {
    t.(actions := t.actions[id := a])
  }

  /** The section is left: the number advances only where it ended normally. */
  function Leave(t: Tool, id: string, completed: bool): Tool {
    if t.holder != Some(id) then
      t
    else
      t.(holder := None,
         next := if completed then t.next + 1 else t.next,
         log := if completed && t.log != [] then
                  t.log[|t.log| - 1 := Sent(t.log[|t.log| - 1].event, true)]
                else
                  t.log)
  }

  function Next(t: Tool, move: Move): Tool
    requires Enabled(t, move)
  {
    match move
    case Creates(id, m) => With(t, id, Action(m, Due(TheAttempt), None, None, None, None, None))
    case Takes(id) =>
      var a := t.actions[id];
      var numbered := a.amcp.signer.Some?;
      With(t.(holder := if numbered then Some(id) else t.holder), id,
           a.(phase := Held(a.phase.kind, if numbered then Some(t.next) else None, None)))
    case Emits(id, body, signature) =>
      var a := t.actions[id];
      var e := Build(t, id, a.phase.kind, a.amcp, a.phase.number, body, signature);
      With(if a.amcp.signer.Some? then t.(log := t.log + [Sent(e, false)]) else t.(plain := t.plain + {e}), id,
           a.(phase := a.phase.(event := Some(e)), attempt := if a.phase.kind.TheAttempt? then Some(e) else a.attempt))
    case BuildRaises(id) => With(Leave(t, id, false), id, t.actions[id].(phase := Ended))
    case SectionRaises(id) => With(Leave(t, id, false), id, t.actions[id].(phase := Ended))
    case Cancelled(id) => With(t, id, t.actions[id].(phase := Ended))
    case Faults(id) => With(Leave(t, id, true), id, Declining(t.actions[id], HostUnavailable))
    case Returns(id, answer, verified) =>
      var a := t.actions[id];
      With(Leave(t, id, true), id,
           match Judge(a.amcp, a.phase.event.value, answer, verified)
           case Cleared => a.(phase := Performing, answered := Some(answer), accept := Some(answer))
           case Abort(reason) => Declining(a.(answered := Some(answer)), reason))
    case Unjudged(id, answer) =>
      With(Leave(t, id, true), id, t.actions[id].(phase := Ended, answered := Some(answer)))
    case OutcomeSent(id) =>
      var a := t.actions[id];
      With(Leave(t, id, true), id,
           a.(phase := Ended, refusal := if a.phase.kind.TheRefusal? then a.phase.event else a.refusal))
    case BodyEnds(id, failed) =>
      With(t, id, t.actions[id].(phase := Due(TheTerminal(if failed then Failed else Success))))
  }

  function Declining(a: Action, reason: AbortReason): Action {
    a.(phase := Due(TheRefusal(reason)), owes := Some(reason))
  }

  // ----- the numbering -----

  /** The events whose section completed, in emission order. */
  function Completed(log: seq<Sent>): seq<Event> {
    if log == [] then
      []
    else
      var rest := Completed(log[..|log| - 1]);
      if log[|log| - 1].completed then rest + [log[|log| - 1].event] else rest
  }

  ghost predicate Consecutive(es: seq<Event>, start: int) {
    forall i :: 0 <= i < |es| ==> es[i].signerSeq == Some(start + i)
  }

  /** The action in the section holds the next number, and what it emitted is the last of the log. */
  ghost predicate SectionInv(t: Tool) {
    && (t.holder.Some? ==>
          && t.holder.value in t.actions
          && PhaseOf(t, t.holder.value).Held?
          && PhaseOf(t, t.holder.value).number == Some(t.next)
          && t.actions[t.holder.value].amcp.signer.Some?
          && (PhaseOf(t, t.holder.value).event.Some? ==>
                t.log != [] && t.log[|t.log| - 1] == Sent(PhaseOf(t, t.holder.value).event.value, false)))
    && (forall id :: id in t.actions && t.actions[id].phase.Held? && t.actions[id].amcp.signer.Some? ==>
          t.holder == Some(id))
    && (forall id :: id in t.actions && t.actions[id].phase.Held? && t.actions[id].phase.event.Some? ==>
          t.actions[id].phase.event.value.signerSeq == t.actions[id].phase.number)
  }

  /** Every number in the log is one already used or the one in use. */
  ghost predicate NumberingInv(t: Tool) {
    && SectionInv(t)
    && t.next == t.start + |Completed(t.log)|
    && Consecutive(Completed(t.log), t.start)
    && (forall x :: x in t.log ==> x.event.signerSeq.Some? && t.start <= x.event.signerSeq.value <= t.next)
  }

  lemma CompletedAfter(log: seq<Sent>, x: Sent)
    ensures Completed(log + [x]) == if x.completed then Completed(log) + [x.event] else Completed(log)
  {
    assert (log + [x])[..|log|] == log;
  }

  /** Leaving the section normally completes the last emission and moves the number on by one. */
  lemma LeavingCompletes(t: Tool, id: string)
    requires NumberingInv(t) && t.holder == Some(id) && PhaseOf(t, id).event.Some?
    ensures var u := Leave(t, id, true);
            && Completed(u.log) == Completed(t.log) + [PhaseOf(t, id).event.value]
            && u.next == u.start + |Completed(u.log)|
            && Consecutive(Completed(u.log), u.start)
            && (forall x :: x in u.log ==> x.event.signerSeq.Some? && u.start <= x.event.signerSeq.value <= u.next)
  {
    var before, x := t.log[..|t.log| - 1], t.log[|t.log| - 1];
    assert t.log == before + [x];
    CompletedAfter(before, x);
    assert Leave(t, id, true).log == before + [Sent(x.event, true)];
    CompletedAfter(before, Sent(x.event, true));
  }

  lemma EmissionKeepsNumbering(t: Tool, move: Move)
    requires NumberingInv(t) && Enabled(t, move) && move.Emits?
    ensures NumberingInv(Next(t, move))
  {
    hide Consecutive, Judge, Completed;
    var a := t.actions[move.id];
    var e := Build(t, move.id, a.phase.kind, a.amcp, a.phase.number, move.body, move.signature);
    CompletedAfter(t.log, Sent(e, false));
  }

  lemma MoveKeepsNumbering(t: Tool, move: Move)
    requires NumberingInv(t) && Enabled(t, move)
    ensures NumberingInv(Next(t, move))
  {
    hide Consecutive, Judge, Completed, Build;
    if move.Emits? {
      EmissionKeepsNumbering(t, move);
    } else if (move.Returns? || move.Unjudged? || move.Faults? || move.OutcomeSent?) && t.holder == Some(move.id) {
      LeavingCompletes(t, move.id);
    }
  }

  ghost predicate Legal(t: Tool, moves: seq<Move>)
    decreases |moves|
  {
    moves != [] ==> Enabled(t, moves[0]) && Legal(Next(t, moves[0]), moves[1..])
  }

  function Play(t: Tool, moves: seq<Move>): Tool
    requires Legal(t, moves)
    decreases |moves|
  {
    if moves == [] then t else Play(Next(t, moves[0]), moves[1..])
  }

  lemma {:induction false} PlayKeepsNumbering(t: Tool, moves: seq<Move>)
    requires NumberingInv(t) && Legal(t, moves)
    ensures NumberingInv(Play(t, moves)) && Play(t, moves).start == t.start
    decreases |moves|
  {
    hide NumberingInv, Enabled;
    if moves != [] {
      MoveKeepsNumbering(t, moves[0]);
      StartStands(t, moves[0]);
      PlayKeepsNumbering(Next(t, moves[0]), moves[1..]);
    }
  }

  lemma StartStands(t: Tool, move: Move)
    requires Enabled(t, move)
    ensures Next(t, move).start == t.start && Next(t, move).session == t.session
  {
    hide Judge, Build;
  }

  /**
   * Numbering under concurrency: over every interleaving of concurrent actions, on one or several sessions
   * sharing the numbering, the emissions whose section completed carry start, start + 1, ... in emission
   * order, and the next number is the one after them - one a section that raised did not use up.
   */
  lemma NumberedInEmissionOrder(session: string, start: nat, moves: seq<Move>)
    requires Legal(NewTool(session, start), moves)
    ensures var t := Play(NewTool(session, start), moves);
            && (forall i :: 0 <= i < |Completed(t.log)| ==> Completed(t.log)[i].signerSeq == Some(start + i))
            && t.next == start + |Completed(t.log)|
            && (forall x :: x in t.log && !x.completed ==> x.event.signerSeq.Some? && x.event.signerSeq.value <= t.next)
  {
    hide Play;
    var t0 := NewTool(session, start);
    assert NumberingInv(t0);
    PlayKeepsNumbering(t0, moves);
  }

  // ----- what an action has done -----

  predicate IsRefusalReason(r: AbortReason) {
    r == HostRejected || r == HostUnavailable
  }

  /** The action agrees with its phase, and with what it emitted. */
  ghost predicate ActionInv(session: string, next: int, id: string, a: Action) {
    && Admissible(a.amcp)
    && (a.attempt.Some? ==>
          && IsAttempt(a.attempt.value) && a.attempt.value.id == Some(id) && a.attempt.value.session == Some(session)
          && a.attempt.value.keyId == a.amcp.signer
          && (a.amcp.signer.Some? ==> a.attempt.value.signerSeq.Some?))
    && (a.phase.Held? && a.phase.event.Some? ==>
          a.phase.event.value.id == Some(id) && a.phase.event.value.outcome == Some(OutcomeOf(a.phase.kind)))
    && (a.phase.Held? && a.phase.event.Some? && a.phase.kind.TheAttempt? ==> a.attempt == a.phase.event)
    && ((a.phase == Due(TheAttempt) || (a.phase.Held? && a.phase.kind.TheAttempt?)) ==>
          a.answered.None? && a.owes.None? && a.accept.None?
          && (a.attempt.Some? ==> a.phase.Held? && a.phase.event.Some?))
    && ((a.phase.Due? || a.phase.Held?) && a.phase.kind.TheRefusal? ==>
          a.owes == Some(a.phase.kind.reason) && a.refusal.None?)
    && ((a.phase.Due? || a.phase.Held?) && a.phase.kind.TheTerminal? ==>
          a.accept.Some? && (a.phase.kind.outcome == Success || a.phase.kind.outcome == Failed))
    && (a.phase == Performing ==> a.accept.Some?)
    && (a.owes.Some? || a.accept.Some? || a.answered.Some? ==>
          a.attempt.Some? && (a.amcp.signer.Some? ==> a.attempt.value.signerSeq.value < next))
    && (a.owes.Some? && !IsRefusalReason(a.owes.value) ==> a.answered.Some? && a.answered.value.Accept?)
    && (a.accept.Some? ==>
          && a.answered == a.accept && a.accept.value.Accept?
          && (a.amcp.pollutedStop ==>
                a.accept.value.recordHash == HashOf(a.attempt.value, a.accept.value.position, a.accept.value.hostTs,
                                                    a.accept.value.previousHash)))
    && (a.refusal.Some? ==>
          && a.owes.Some?
          && IsRefusalOf(a.refusal.value, session, id, a)
          && (a.amcp.signer.Some? ==>
                a.refusal.value.signerSeq.Some? && a.attempt.value.signerSeq.value < a.refusal.value.signerSeq.value))
    && (a.phase.Held? && a.phase.event.Some? && a.phase.kind.TheRefusal? ==>
          IsRefusalOf(a.phase.event.value, session, id, a))
  }

  predicate IsRefusalOf(e: Event, session: string, id: string, a: Action) {
    && e.id == Some(id) && e.session == Some(session) && e.outcome == Some(Aborted) && e.reason == a.owes
    && e.keyId == a.amcp.signer
  }

  /** An emission is of an action that knows it; the attempt of a completed section was answered, and a refusal
      is the action's own. */
  ghost predicate SentInv(t: Tool, x: Sent) {
    && x.event.session == Some(t.session)
    && x.event.id.Some? && x.event.id.value in t.actions
    && var a := t.actions[x.event.id.value];
    && a.amcp.signer.Some? && x.event.keyId == a.amcp.signer
    && (IsAttempt(x.event) ==> a.attempt == Some(x.event))
    && (IsAttempt(x.event) && x.completed ==> a.owes.Some? || (a.answered.Some? && a.answered.value.Accept?))
    && (x.event.outcome == Some(Aborted) && x.completed ==> a.refusal == Some(x.event))
  }

  ghost predicate PlainInv(t: Tool, e: Event) {
    && e.session == Some(t.session) && e.id.Some? && e.id.value in t.actions && e.keyId.None?
    && (IsAttempt(e) ==> t.actions[e.id.value].attempt == Some(e))
  }

  ghost predicate ToolInv(t: Tool) {
    && NumberingInv(t)
    && (forall id :: id in t.actions ==> ActionInv(t.session, t.next, id, t.actions[id]))
    && (forall x :: x in t.log ==> SentInv(t, x))
    && (forall e :: e in t.plain ==> PlainInv(t, e))
    && (forall id :: id in t.actions ==> RefusalSent(t, t.actions[id]) && AttemptSent(t, t.actions[id]))
  }

  /** A numbered refusal an action has to show for is one whose section completed. */
  ghost predicate RefusalSent(t: Tool, a: Action) {
    a.refusal.Some? && a.amcp.signer.Some? ==> Sent(a.refusal.value, true) in t.log
  }

  /** A numbered attempt is in the log. */
  ghost predicate AttemptSent(t: Tool, a: Action) {
    a.attempt.Some? && a.amcp.signer.Some? ==>
      Sent(a.attempt.value, true) in t.log || Sent(a.attempt.value, false) in t.log
  }

  lemma NextNeverFalls(t: Tool, move: Move)
    requires Enabled(t, move)
    ensures t.next <= Next(t, move).next <= t.next + 1
    ensures move.id in Next(t, move).actions
    ensures forall id :: id != move.id ==> (id in t.actions <==> id in Next(t, move).actions)
    ensures forall id :: id != move.id && id in t.actions ==> Next(t, move).actions[id] == t.actions[id]
  {
    hide Judge, Build, Declining;
  }

  lemma ActionInvGrows(session: string, m: int, n: int, id: string, a: Action)
    requires ActionInv(session, m, id, a) && m <= n
    ensures ActionInv(session, n, id, a)
  {
  }

  lemma AdvanceOf(t: Tool, id: string)
    requires SectionInv(t) && PhaseOf(t, id).Held? && id in t.actions
    ensures t.actions[id].amcp.signer.Some? ==>
              && Leave(t, id, true).next == t.next + 1 && Leave(t, id, true).actions == t.actions
              && PhaseOf(t, id).number == Some(t.next)
    ensures PhaseOf(t, id).event.Some? ==> PhaseOf(t, id).event.value.signerSeq == PhaseOf(t, id).number
    ensures Leave(t, id, true).next >= t.next
  {
  }

  /** An answered attempt: cleared to run, or owing a refusal. */
  lemma AnsweredAction(t: Tool, move: Move)
    requires SectionInv(t) && Enabled(t, move) && move.id in t.actions
    requires move.Returns? || move.Unjudged? || move.Faults?
    requires ActionInv(t.session, t.next, move.id, t.actions[move.id])
    ensures ActionInv(t.session, Next(t, move).next, move.id, Next(t, move).actions[move.id])
  {
    AdvanceOf(t, move.id);
    hide SectionInv, Leave, IsRefusalOf;
  }

  lemma ConcludedAction(t: Tool, move: Move)
    requires SectionInv(t) && Enabled(t, move) && move.id in t.actions && move.OutcomeSent?
    requires ActionInv(t.session, t.next, move.id, t.actions[move.id])
    ensures ActionInv(t.session, Next(t, move).next, move.id, Next(t, move).actions[move.id])
  {
    AdvanceOf(t, move.id);
    hide SectionInv, Leave;
  }

  lemma EmittingAction(t: Tool, move: Move)
    requires SectionInv(t) && Enabled(t, move) && move.id in t.actions && move.Emits?
    requires ActionInv(t.session, t.next, move.id, t.actions[move.id])
    ensures ActionInv(t.session, Next(t, move).next, move.id, Next(t, move).actions[move.id])
  {
    assert t.actions[move.id].amcp.signer.Some? ==> PhaseOf(t, move.id).number == Some(t.next);
    hide SectionInv, Leave;
  }

  lemma OtherwiseMovedAction(t: Tool, move: Move)
    requires Enabled(t, move) && move.id in t.actions
    requires move.Takes? || move.BuildRaises? || move.SectionRaises? || move.Cancelled? || move.BodyEnds?
    requires ActionInv(t.session, t.next, move.id, t.actions[move.id])
    ensures ActionInv(t.session, Next(t, move).next, move.id, Next(t, move).actions[move.id])
  {
  }

  lemma MoveKeepsActions(t: Tool, move: Move)
    requires SectionInv(t) && Enabled(t, move)
    requires forall id :: id in t.actions ==> ActionInv(t.session, t.next, id, t.actions[id])
    ensures forall id :: id in Next(t, move).actions ==>
              ActionInv(t.session, Next(t, move).next, id, Next(t, move).actions[id])
  {
    hide SectionInv, ActionInv;
    var u := Next(t, move);
    NextNeverFalls(t, move);
    forall id | id in u.actions ensures ActionInv(t.session, u.next, id, u.actions[id]) {
      if id != move.id {
        ActionInvGrows(t.session, t.next, u.next, id, t.actions[id]);
      } else if move.Creates? {
        NewAction(t.session, move.id, move.amcp, u.next);
      } else if move.Emits? {
        EmittingAction(t, move);
      } else if move.OutcomeSent? {
        ConcludedAction(t, move);
      } else if move.Returns? || move.Unjudged? || move.Faults? {
        AnsweredAction(t, move);
      } else {
        OtherwiseMovedAction(t, move);
      }
    }
  }

  lemma NewAction(session: string, id: string, m: Amcp, next: int)
    requires Admissible(m)
    ensures ActionInv(session, next, id, Action(m, Due(TheAttempt), None, None, None, None, None))
  {
  }

  // ----- what the log says of the actions -----

  /** An action keeps what it emitted and what it was answered. */
  ghost predicate Remembers(a: Action, b: Action) {
    && b.amcp == a.amcp
    && (a.attempt.Some? ==> b.attempt == a.attempt)
    && (a.answered.Some? ==> b.answered == a.answered)
    && (a.accept.Some? ==> b.accept == a.accept)
    && (a.owes.Some? ==> b.owes == a.owes)
    && (a.refusal.Some? ==> b.refusal == a.refusal)
  }

  lemma ActionsRemember(t: Tool, move: Move)
    requires Enabled(t, move) && forall id :: id in t.actions ==> ActionInv(t.session, t.next, id, t.actions[id])
    ensures forall id :: id in t.actions ==>
              id in Next(t, move).actions && Remembers(t.actions[id], Next(t, move).actions[id])
  {
    NextNeverFalls(t, move);
    if move.id in t.actions {
      assert ActionInv(t.session, t.next, move.id, t.actions[move.id]);
    }
    hide ActionInv, Leave, Build;
    if move.id in t.actions {
      MovedRemembers(t, move);
    }
  }

  lemma MovedRemembers(t: Tool, move: Move)
    requires Enabled(t, move) && move.id in t.actions && ActionInv(t.session, t.next, move.id, t.actions[move.id])
    ensures move.id in Next(t, move).actions && Remembers(t.actions[move.id], Next(t, move).actions[move.id])
  {
    hide Leave, Build, Judge, IsRefusalOf;
  }

  lemma SentInvGrows(t: Tool, u: Tool, x: Sent)
    requires SentInv(t, x) && u.session == t.session
    requires x.event.id.Some? && x.event.id.value in u.actions
    requires Remembers(t.actions[x.event.id.value], u.actions[x.event.id.value])
    ensures SentInv(u, x)
  {
  }

  lemma MoveKeepsLog(t: Tool, move: Move)
    requires ToolInv(t) && Enabled(t, move)
    ensures forall x :: x in Next(t, move).log ==> SentInv(Next(t, move), x)
  {
    ActionsRemember(t, move);
    StartStands(t, move);
    var u := Next(t, move);
    forall x | x in u.log ensures SentInv(u, x) {
      if x in t.log {
        assert SentInv(t, x);
        hide ToolInv, Remembers, Enabled, Next;
        SentInvGrows(t, u, x);
      } else {
        NewSent(t, move, x);
      }
    }
  }

  /** The log gains the event just emitted, or the completion of the one in the section. */
  lemma NewSent(t: Tool, move: Move, x: Sent)
    requires ToolInv(t) && Enabled(t, move) && x in Next(t, move).log && x !in t.log
    ensures SentInv(Next(t, move), x)
  {
    hide ToolInv, Next, SentInv, Enabled;
    if move.Emits? {
      NewlyEmitted(t, move, x);
    } else {
      NewlyCompleted(t, move, x);
    }
  }

  lemma NewlyEmitted(t: Tool, move: Move, x: Sent)
    requires ToolInv(t) && Enabled(t, move) && x in Next(t, move).log && x !in t.log && move.Emits?
    ensures SentInv(Next(t, move), x)
  {
    assert ActionInv(t.session, t.next, move.id, t.actions[move.id]);
    hide ToolInv, Judge, IsRefusalOf;
  }

  lemma NewlyCompleted(t: Tool, move: Move, x: Sent)
    requires ToolInv(t) && Enabled(t, move) && x in Next(t, move).log && x !in t.log && !move.Emits?
    ensures SentInv(Next(t, move), x)
  {
    var last := t.log[|t.log| - 1];
    assert SentInv(t, last);
    assert ActionInv(t.session, t.next, move.id, t.actions[move.id]);
    NumberingSection(t);
    hide ToolInv, NumberingInv, Judge, IsRefusalOf, Build;
  }

  lemma MoveKeepsPlain(t: Tool, move: Move)
    requires ToolInv(t) && Enabled(t, move)
    ensures forall e :: e in Next(t, move).plain ==> PlainInv(Next(t, move), e)
  {
    ActionsRemember(t, move);
    StartStands(t, move);
    hide Leave, Judge, NumberingInv, SentInv;
  }

  /** A completed section stays in the log. */
  lemma CompletedStays(t: Tool, move: Move)
    requires SectionInv(t) && Enabled(t, move)
    ensures forall x :: x in t.log && x.completed ==> x in Next(t, move).log
  {
    hide Judge, Build, Declining;
    var u := Next(t, move);
    forall x | x in t.log && x.completed ensures x in u.log {
      var i :| 0 <= i < |t.log| && t.log[i] == x;
      assert u.log[i] == x;
    }
  }

  lemma SentOutcomeIsLogged(t: Tool, id: string)
    requires SectionInv(t) && Enabled(t, OutcomeSent(id)) && t.actions[id].amcp.signer.Some?
    ensures Sent(PhaseOf(t, id).event.value, true) in Next(t, OutcomeSent(id)).log
  {
    var log := Next(t, OutcomeSent(id)).log;
    assert log[|log| - 1] == Sent(PhaseOf(t, id).event.value, true);
  }

  lemma MoveKeepsRefusals(t: Tool, move: Move)
    requires ToolInv(t) && Enabled(t, move)
    ensures forall id :: id in Next(t, move).actions ==> RefusalSent(Next(t, move), Next(t, move).actions[id])
  {
    NumberingSection(t);
    CompletedStays(t, move);
    NextNeverFalls(t, move);
    hide ToolInv, NumberingInv, ActionInv, SentInv, PlainInv, AttemptSent, Judge, Build, Completed;
    var u := Next(t, move);
    forall id | id in u.actions ensures RefusalSent(u, u.actions[id]) {
      if id == move.id && move.OutcomeSent? && t.actions[id].amcp.signer.Some? {
        SentOutcomeIsLogged(t, id);
      }
      if id in t.actions {
        assert RefusalSent(t, t.actions[id]);
      }
    }
  }

  /** What was emitted stays in the log, completed or not. */
  lemma EmittedStays(t: Tool, move: Move)
    requires SectionInv(t) && Enabled(t, move)
    ensures forall x :: x in t.log ==> x in Next(t, move).log || Sent(x.event, true) in Next(t, move).log
  {
    hide Judge, Build, Declining;
    var u := Next(t, move);
    forall x | x in t.log ensures x in u.log || Sent(x.event, true) in u.log {
      var i :| 0 <= i < |t.log| && t.log[i] == x;
      assert u.log[i] == x || u.log[i] == Sent(x.event, true);
    }
  }

  lemma MoveKeepsAttempts(t: Tool, move: Move)
    requires ToolInv(t) && Enabled(t, move)
    ensures forall id :: id in Next(t, move).actions ==> AttemptSent(Next(t, move), Next(t, move).actions[id])
  {
    NumberingSection(t);
    EmittedStays(t, move);
    NextNeverFalls(t, move);
    hide ToolInv, NumberingInv, SectionInv, ActionInv, SentInv, PlainInv, RefusalSent, Judge, Build, Completed;
    var u := Next(t, move);
    forall id | id in u.actions ensures AttemptSent(u, u.actions[id]) {
      if id == move.id && move.Emits? && t.actions[id].amcp.signer.Some? {
        assert u.log[|t.log|] in u.log;
      }
      if id in t.actions {
        assert AttemptSent(t, t.actions[id]);
      }
    }
  }

  lemma MoveKeepsToolInv(t: Tool, move: Move)
    requires ToolInv(t) && Enabled(t, move)
    ensures ToolInv(Next(t, move))
  {
    StartStands(t, move);
    hide ActionInv, SentInv, PlainInv, NumberingInv, RefusalSent, AttemptSent, Next, Enabled;
    MoveKeepsRefusals(t, move);
    MoveKeepsAttempts(t, move);
    assert NumberingInv(t) ==> SectionInv(t) by {
      NumberingSection(t);
    }
    MoveKeepsNumbering(t, move);
    MoveKeepsActions(t, move);
    MoveKeepsLog(t, move);
    MoveKeepsPlain(t, move);
  }

  lemma NumberingSection(t: Tool)
    ensures NumberingInv(t) ==> SectionInv(t)
  {
  }
}
