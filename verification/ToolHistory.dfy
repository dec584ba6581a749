/** What a tool's events say, against the moves of the run that emitted them. */
module ToolHistory {
  import opened Events
  import opened Chain
  import opened HostModel
  import opened ToolSession

  // ----- what an answer is judged -----

  /** The countersignature rules an accept passes. */
  predicate CountersignaturePasses(m: Amcp, answer: Answer, verified: Verified)
    requires answer.Accept?
  {
    && (m.requireCountersign ==> answer.hostSignature.Some?)
    && (m.checksCountersignature && answer.hostSignature.Some? ==>
          answer.hostKeyId.Some? && answer.logId.Some? && verified.Holds?)
  }

  /** An answer clears the action exactly when it is an accept, countersigned as asked for, whose hash is that of
      this attempt where Polluted Stop is on. */
  lemma JudgedClearIff(m: Amcp, attempt: Event, answer: Answer, verified: Verified)
    ensures Judge(m, attempt, answer, verified).Cleared? <==>
              && answer.Accept? && CountersignaturePasses(m, answer, verified)
              && (m.pollutedStop ==>
                    answer.recordHash == HashOf(attempt, answer.position, answer.hostTs, answer.previousHash))
  {
  }

  /** The reason of a refusal, from the answer alone. */
  ghost predicate RefusedFor(m: Amcp, attempt: Event, answer: Answer, verified: Verified, reason: AbortReason) {
    match reason
    case HostRejected => answer.Reject?
    case HostUncountersigned => answer.Accept? && m.requireCountersign && answer.hostSignature.None?
    case HashMismatch =>
      && answer.Accept? && CountersignaturePasses(m, answer, verified) && m.pollutedStop
      && answer.recordHash != HashOf(attempt, answer.position, answer.hostTs, answer.previousHash)
    case HostSignatureInvalid =>
      && answer.Accept? && m.checksCountersignature && answer.hostSignature.Some?
      && (answer.hostKeyId.None? || answer.logId.None? || verified.DoesNotHold?)
    case HostUnavailable =>
      || answer.Unavailable? || answer.Raised?
      || (answer.Accept? && m.checksCountersignature && answer.hostSignature.Some?
          && answer.hostKeyId.Some? && answer.logId.Some? && verified.CouldNotCheck?)
  }

  lemma JudgedForIff(m: Amcp, attempt: Event, answer: Answer, verified: Verified, reason: AbortReason)
    ensures Judge(m, attempt, answer, verified) == Abort(reason) <==> RefusedFor(m, attempt, answer, verified, reason)
  {
  }

  // ----- the history of a run -----

  function EventsIn(log: seq<Sent>): set<Event> {
    set x | x in log :: x.event
  }

  function Emitted(t: Tool): set<Event> {
    t.plain + EventsIn(t.log)
  }

  predicate IsTerminal(e: Event) {
    e.outcome == Some(Success) || e.outcome == Some(Failed)
  }

  /** The move `BodyEnds(id, failed)` is in the run for one value of `failed` at most, and `e` tells which. */
  ghost predicate TellsTheEnd(moves: seq<Move>, id: string, o: Outcome) {
    && (o == Failed || o == Success)
    && BodyEnds(id, o == Failed) in moves && BodyEnds(id, o == Success) !in moves
  }

  ghost predicate NotEnded(moves: seq<Move>, id: string) {
    BodyEnds(id, true) !in moves && BodyEnds(id, false) !in moves
  }

  /** The reason of the action's refusal is that of the answer it had, or of the fault. */
  ghost predicate Explains(moves: seq<Move>, id: string, a: Action, reason: AbortReason) {
    || (Faults(id) in moves && reason == HostUnavailable)
    || (a.attempt.Some? && exists answer, verified ::
          Returns(id, answer, verified) in moves && RefusedFor(a.amcp, a.attempt.value, answer, verified, reason))
  }

  /** What an action owes, given the moves so far. */
  ghost predicate ActionTells(moves: seq<Move>, id: string, a: Action) {
    && ((a.phase.Due? || a.phase.Held?) && a.phase.kind.TheTerminal? ==> TellsTheEnd(moves, id, a.phase.kind.outcome))
    && ((a.phase.Due? || a.phase.Held?) && !a.phase.kind.TheTerminal? ==> NotEnded(moves, id))
    && (a.phase.Performing? ==> NotEnded(moves, id))
    && (a.owes.Some? ==> Explains(moves, id, a, a.owes.value))
    && ((a.phase.Due? || a.phase.Held?) && a.phase.kind.TheRefusal? ==> a.owes == Some(a.phase.kind.reason))
    && ((a.phase.Due? || a.phase.Held?) && a.phase.kind.TheAttempt? ==> a.owes.None?)
    && (a.phase.Performing? ==> a.owes.None?)
  }

  /** What an event says, given the moves so far. */
  ghost predicate EventTells(moves: seq<Move>, t: Tool, e: Event) {
    && e.id.Some? && e.id.value in t.actions
    && (IsTerminal(e) ==> TellsTheEnd(moves, e.id.value, e.outcome.value))
    && (e.outcome == Some(Aborted) ==> e.reason.Some? && e.reason == t.actions[e.id.value].owes)
  }

  /** What was emitted is there, and an end that went out has its event. */
  ghost predicate ActionShows(moves: seq<Move>, t: Tool, id: string, a: Action) {
    && (a.phase.Held? && a.phase.event.Some? ==> a.phase.event.value in Emitted(t))
    && (OutcomeSent(id) in moves ==> a.phase.Ended?)
    && (OutcomeSent(id) in moves && !NotEnded(moves, id) ==> HasTerminal(t, id))
  }

  ghost predicate HasTerminal(t: Tool, id: string) {
    exists e :: e in Emitted(t) && e.id == Some(id) && IsTerminal(e)
  }

  ghost predicate Tells(moves: seq<Move>, t: Tool) {
    && (forall id :: id in t.actions ==>
          ActionTells(moves, id, t.actions[id]) && ActionShows(moves, t, id, t.actions[id]))
    && (forall m :: m in moves ==> m.id in t.actions)
    && (forall e :: e in Emitted(t) ==> EventTells(moves, t, e))
  }

  // ----- every move -----

  lemma LeaveKeepsEvents(t: Tool, id: string, completed: bool)
    ensures Emitted(Leave(t, id, completed)) == Emitted(t)
  {
    var u := Leave(t, id, completed);
    forall i | 0 <= i < |t.log| ensures u.log[i].event == t.log[i].event && u.log[i] in u.log {
    }
    forall e ensures e in EventsIn(u.log) <==> e in EventsIn(t.log) {
      if e in EventsIn(t.log) {
        var x :| x in t.log && x.event == e;
        var i :| 0 <= i < |t.log| && t.log[i] == x;
        assert u.log[i].event == e;
      }
      if e in EventsIn(u.log) {
        var x :| x in u.log && x.event == e;
        var i :| 0 <= i < |u.log| && u.log[i] == x;
        assert t.log[i].event == e;
      }
    }
  }

  lemma LoggedAfter(log: seq<Sent>, x: Sent)
    ensures EventsIn(log + [x]) == EventsIn(log) + {x.event}
  {
    assert forall y :: y in log + [x] <==> y in log || y == x;
  }

  lemma EmittedGrows(t: Tool, m: Move)
    requires Enabled(t, m)
    ensures m.Emits? ==> Next(t, m).actions[m.id].phase.Held? && Next(t, m).actions[m.id].phase.event.Some?
    ensures Emitted(Next(t, m)) ==
              Emitted(t) + if m.Emits? then {Next(t, m).actions[m.id].phase.event.value} else {}
  {
    if m.Emits? {
      var a := t.actions[m.id];
      LoggedAfter(t.log, Sent(Build(t, m.id, a.phase.kind, a.amcp, a.phase.number, m.body, m.signature), false));
    } else {
      LeaveKeepsEvents(t, m.id, true);
      LeaveKeepsEvents(t, m.id, false);
    }
    hide EventsIn, Leave, Build, Judge, Declining;
  }

  lemma MembersAfter(moves: seq<Move>, m: Move)
    ensures forall x :: x in moves + [m] <==> x in moves || x == m
  {
  }

  /** An action the move is not of says what it said. */
  lemma OthersTell(moves: seq<Move>, m: Move, id: string, a: Action)
    requires ActionTells(moves, id, a) && m.id != id
    ensures ActionTells(moves + [m], id, a)
  {
    MembersAfter(moves, m);
    assert BodyEnds(id, true) in moves + [m] <==> BodyEnds(id, true) in moves;
    assert BodyEnds(id, false) in moves + [m] <==> BodyEnds(id, false) in moves;
    if a.owes.Some? {
      ExplainsOn(moves, m, id, a, a, a.owes.value);
    }
    hide Explains;
  }

  lemma ExplainsOn(moves: seq<Move>, m: Move, id: string, a: Action, b: Action, reason: AbortReason)
    requires Explains(moves, id, a, reason) && b.amcp == a.amcp && (a.attempt.Some? ==> b.attempt == a.attempt)
    ensures Explains(moves + [m], id, b, reason)
  {
    hide RefusedFor;
    if !(Faults(id) in moves && reason == HostUnavailable) {
      var answer, verified :| Returns(id, answer, verified) in moves
                              && RefusedFor(a.amcp, a.attempt.value, answer, verified, reason);
      assert Returns(id, answer, verified) in moves + [m];
    } else {
      assert Faults(id) in moves + [m];
    }
  }

  lemma MovedTells(moves: seq<Move>, t: Tool, m: Move)
    requires ToolInv(t) && Enabled(t, m) && Tells(moves, t)
    ensures m.id in Next(t, m).actions && ActionTells(moves + [m], m.id, Next(t, m).actions[m.id])
  {
    NextNeverFalls(t, m);
    if m.id in t.actions {
      assert ActionTells(moves, m.id, t.actions[m.id]);
      assert ActionInv(t.session, t.next, m.id, t.actions[m.id]);
      hide ToolInv, Tells, ActionInv, ActionTells;
      MovedReason(moves, t, m);
      MovedEnd(moves, t, m);
    } else {
      MembersAfter(moves, m);
      assert BodyEnds(m.id, true) !in moves && BodyEnds(m.id, false) !in moves;
      hide ToolInv, Emitted;
    }
  }

  lemma MovedEnd(moves: seq<Move>, t: Tool, m: Move)
    requires Enabled(t, m) && m.id in t.actions && ActionTells(moves, m.id, t.actions[m.id])
    requires m.id in Next(t, m).actions
    requires var b := Next(t, m).actions[m.id]; b.owes.Some? ==> Explains(moves + [m], m.id, b, b.owes.value)
    ensures ActionTells(moves + [m], m.id, Next(t, m).actions[m.id])
  {
    hide Explains, Leave, Build, Judge;
    MembersAfter(moves, m);
    assert forall failed ::
        BodyEnds(m.id, failed) in moves + [m] <==> BodyEnds(m.id, failed) in moves || m == BodyEnds(m.id, failed);
  }

  lemma MovedReason(moves: seq<Move>, t: Tool, m: Move)
    requires Enabled(t, m) && m.id in t.actions && ActionInv(t.session, t.next, m.id, t.actions[m.id])
    requires ActionTells(moves, m.id, t.actions[m.id])
    ensures m.id in Next(t, m).actions
    ensures var b := Next(t, m).actions[m.id]; b.owes.Some? ==> Explains(moves + [m], m.id, b, b.owes.value)
  {
    NextNeverFalls(t, m);
    MembersAfter(moves, m);
    MovedRemembers(t, m);
    var a, b := t.actions[m.id], Next(t, m).actions[m.id];
    if a.owes.Some? {
      ExplainsOn(moves, m, m.id, a, b, a.owes.value);
    } else if m.Returns? && b.owes.Some? {
      JudgedForIff(a.amcp, a.attempt.value, m.answer, m.verified, b.owes.value);
      assert Returns(m.id, m.answer, m.verified) in moves + [m];
    }
    hide ActionInv, Leave, Build, RefusedFor, Judge;
  }

  lemma TerminalTellsOn(moves: seq<Move>, t: Tool, m: Move, id: string, o: Outcome)
    requires Enabled(t, m) && TellsTheEnd(moves, id, o)
    requires id in t.actions && ActionTells(moves, id, t.actions[id])
    ensures TellsTheEnd(moves + [m], id, o)
  {
    hide Explains;
    MembersAfter(moves, m);
    assert BodyEnds(id, o == Failed) in moves + [m];
  }

  lemma EventTellsOn(moves: seq<Move>, t: Tool, m: Move, e: Event)
    requires ToolInv(t) && Enabled(t, m) && Tells(moves, t) && e in Emitted(t)
    ensures EventTells(moves + [m], Next(t, m), e)
  {
    assert EventTells(moves, t, e);
    ActionsRemember(t, m);
    assert ActionTells(moves, e.id.value, t.actions[e.id.value]);
    hide ToolInv, Tells, Next, ActionTells, TellsTheEnd, Emitted;
    if IsTerminal(e) {
      TerminalTellsOn(moves, t, m, e.id.value, e.outcome.value);
    }
    assert Remembers(t.actions[e.id.value], Next(t, m).actions[e.id.value]);
  }

  lemma NewEventTells(moves: seq<Move>, t: Tool, m: Move)
    requires ToolInv(t) && Enabled(t, m) && Tells(moves, t) && m.Emits?
    ensures Next(t, m).actions[m.id].phase.Held? && Next(t, m).actions[m.id].phase.event.Some?
    ensures EventTells(moves + [m], Next(t, m), Next(t, m).actions[m.id].phase.event.value)
  {
    var a := t.actions[m.id];
    assert ActionTells(moves, m.id, a);
    hide ToolInv, Tells, Emitted, Explains, TellsTheEnd;
    if a.phase.kind.TheTerminal? {
      TerminalTellsOn(moves, t, m, m.id, a.phase.kind.outcome);
    }
  }

  lemma TerminalStays(t: Tool, u: Tool, id: string)
    requires HasTerminal(t, id) && Emitted(t) <= Emitted(u)
    ensures HasTerminal(u, id)
  {
    hide Emitted;
    var e :| e in Emitted(t) && e.id == Some(id) && IsTerminal(e);
    assert e in Emitted(u);
  }

  lemma ShowsOn(moves: seq<Move>, t: Tool, m: Move, id: string)
    requires ToolInv(t) && Enabled(t, m) && Tells(moves, t) && id in Next(t, m).actions
    ensures ActionShows(moves + [m], Next(t, m), id, Next(t, m).actions[id])
  {
    NextNeverFalls(t, m);
    EmittedGrows(t, m);
    MembersAfter(moves, m);
    if id in t.actions {
      assert ActionShows(moves, t, id, t.actions[id]) && ActionTells(moves, id, t.actions[id]);
      assert ActionInv(t.session, t.next, id, t.actions[id]);
    }
    hide ToolInv, Tells, ActionInv, Emitted, Explains, HasTerminal, Judge, Leave, Build;
    if id in t.actions {
      ShownOn(moves, t, m, id);
    } else {
      assert OutcomeSent(id) !in moves;
    }
  }

  lemma ShownOn(moves: seq<Move>, t: Tool, m: Move, id: string)
    requires Enabled(t, m) && id in t.actions && id in Next(t, m).actions
    requires id != m.id ==> Next(t, m).actions[id] == t.actions[id]
    requires ActionShows(moves, t, id, t.actions[id]) && ActionTells(moves, id, t.actions[id])
    requires ActionInv(t.session, t.next, id, t.actions[id])
    requires Emitted(Next(t, m)) ==
               Emitted(t) + if m.Emits? then {Next(t, m).actions[m.id].phase.event.value} else {}
    ensures ActionShows(moves + [m], Next(t, m), id, Next(t, m).actions[id])
  {
    hide Emitted, Explains, HasTerminal, Judge, Leave, Build;
    MembersAfter(moves, m);
    var u := Next(t, m);
    if HasTerminal(t, id) {
      TerminalStays(t, u, id);
    }
    if m == OutcomeSent(id) && !NotEnded(moves, id) {
      var e := t.actions[id].phase.event.value;
      assert e in Emitted(u) && e.id == Some(id) && IsTerminal(e);
      FoundTerminal(u, id, e);
    }
  }

  lemma FoundTerminal(t: Tool, id: string, e: Event)
    requires e in Emitted(t) && e.id == Some(id) && IsTerminal(e)
    ensures HasTerminal(t, id)
  {
    hide Emitted;
  }

  lemma ActionTellsOn(moves: seq<Move>, t: Tool, m: Move, id: string)
    requires ToolInv(t) && Enabled(t, m) && Tells(moves, t) && id in Next(t, m).actions
    ensures ActionTells(moves + [m], id, Next(t, m).actions[id])
  {
    NextNeverFalls(t, m);
    hide ToolInv, ActionTells, ActionShows, EventTells, Emitted, Next, Enabled;
    if id == m.id {
      MovedTells(moves, t, m);
    } else {
      OthersTell(moves, m, id, t.actions[id]);
    }
  }

  lemma AnEventTellsOn(moves: seq<Move>, t: Tool, m: Move, e: Event)
    requires ToolInv(t) && Enabled(t, m) && Tells(moves, t) && e in Emitted(Next(t, m))
    ensures EventTells(moves + [m], Next(t, m), e)
  {
    EmittedGrows(t, m);
    hide ToolInv, Tells, EventTells, Emitted, Next, Enabled;
    if e in Emitted(t) {
      EventTellsOn(moves, t, m, e);
    } else {
      NewEventTells(moves, t, m);
    }
  }

  lemma MovesAreOf(moves: seq<Move>, t: Tool, m: Move)
    requires Enabled(t, m) && forall f :: f in moves ==> f.id in t.actions
    ensures forall f :: f in moves + [m] ==> f.id in Next(t, m).actions
  {
    NextNeverFalls(t, m);
    MembersAfter(moves, m);
    hide Next, Enabled;
  }

  lemma MoveKeepsTells(moves: seq<Move>, t: Tool, m: Move)
    requires ToolInv(t) && Enabled(t, m) && Tells(moves, t)
    ensures Tells(moves + [m], Next(t, m))
  {
    hide ToolInv, ActionTells, ActionShows, EventTells, Emitted, Next, Enabled;
    MovesAreOf(moves, t, m);
    var u := Next(t, m);
    forall id | id in u.actions
      ensures ActionTells(moves + [m], id, u.actions[id]) && ActionShows(moves + [m], u, id, u.actions[id])
    {
      ActionTellsOn(moves, t, m, id);
      ShowsOn(moves, t, m, id);
    }
    forall e | e in Emitted(u) ensures EventTells(moves + [m], u, e) {
      AnEventTellsOn(moves, t, m, e);
    }
  }

  lemma {:induction false} PlayTells(t: Tool, before: seq<Move>, moves: seq<Move>)
    requires ToolInv(t) && Tells(before, t) && Legal(t, moves)
    ensures Tells(before + moves, Play(t, moves)) && ToolInv(Play(t, moves))
    decreases |moves|
  {
    hide ToolInv, Tells, Enabled, Next;
    if moves == [] {
      assert before + moves == before;
    } else {
      MoveKeepsToolInv(t, moves[0]);
      MoveKeepsTells(before, t, moves[0]);
      PlayTells(Next(t, moves[0]), before + [moves[0]], moves[1..]);
      assert before + [moves[0]] + moves[1..] == before + moves;
    }
  }

  lemma NewTells(session: string, start: nat)
    ensures Tells([], NewTool(session, start)) && ToolInv(NewTool(session, start))
  {
  }

  // ----- over every run -----

  /**
   * A terminal event says how its body ended: over every interleaving, `success` is emitted only of an action
   * whose body completed and `failed` only of one whose body raised; and once the emission of an ended body went
   * out, one of the two was emitted.
   */
  lemma TerminalTellsTheEnd(session: string, start: nat, moves: seq<Move>, e: Event)
    requires Legal(NewTool(session, start), moves) && e in Emitted(Play(NewTool(session, start), moves))
    ensures e.id.Some?
    ensures e.outcome == Some(Success) ==> BodyEnds(e.id.value, false) in moves && BodyEnds(e.id.value, true) !in moves
    ensures e.outcome == Some(Failed) ==> BodyEnds(e.id.value, true) in moves && BodyEnds(e.id.value, false) !in moves
  {
    hide ToolInv, Legal, Play, Emitted, ActionTells, ActionShows;
    NewTells(session, start);
    PlayTells(NewTool(session, start), [], moves);
    assert [] + moves == moves;
    assert EventTells(moves, Play(NewTool(session, start), moves), e);
  }

  lemma EndIsTold(session: string, start: nat, moves: seq<Move>, id: string, failed: bool)
    requires Legal(NewTool(session, start), moves) && BodyEnds(id, failed) in moves && OutcomeSent(id) in moves
    ensures exists e :: e in Emitted(Play(NewTool(session, start), moves)) && e.id == Some(id)
                        && e.outcome == Some(if failed then Failed else Success)
  {
    hide ToolInv, Legal, Play, Emitted, ActionTells;
    NewTells(session, start);
    PlayTells(NewTool(session, start), [], moves);
    assert [] + moves == moves;
    var t := Play(NewTool(session, start), moves);
    assert BodyEnds(id, failed).id in t.actions;
    assert ActionShows(moves, t, id, t.actions[id]);
    var e :| e in Emitted(t) && e.id == Some(id) && IsTerminal(e);
    TerminalTellsTheEnd(session, start, moves, e);
  }

  /** And a refusal says why: the reason of the answer that turned the action down, or of the transport's fault. */
  lemma RefusalTellsWhy(session: string, start: nat, moves: seq<Move>, e: Event)
    requires Legal(NewTool(session, start), moves) && e in Emitted(Play(NewTool(session, start), moves))
    requires e.outcome == Some(Aborted)
    ensures var t := Play(NewTool(session, start), moves);
            && e.id.Some? && e.id.value in t.actions && e.reason.Some?
            && Explains(moves, e.id.value, t.actions[e.id.value], e.reason.value)
  {
    hide ToolInv, Legal, Play, Emitted, ActionShows, Explains;
    NewTells(session, start);
    PlayTells(NewTool(session, start), [], moves);
    assert [] + moves == moves;
    var t := Play(NewTool(session, start), moves);
    assert EventTells(moves, t, e);
    assert ActionTells(moves, e.id.value, t.actions[e.id.value]);
  }
}
