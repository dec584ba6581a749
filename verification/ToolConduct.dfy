/** How a tool's actions go, against the moves of the run: when one is over, which numbers are used up, and what the
    events emitted hold. */
module ToolConduct {
  import opened Events
  import opened HostModel
  import opened ToolSession
  import opened ToolHistory

  /** Nothing is emitted of the action after the move. */
  predicate Ends(m: Move) {
    m.OutcomeSent? || m.BuildRaises? || m.SectionRaises? || m.Cancelled? || m.Unjudged?
  }

  ghost predicate IsOver(moves: seq<Move>, id: string) {
    exists m :: m in moves && m.id == id && Ends(m)
  }

  /** The move ends a numbering section without raising. */
  predicate Completes(m: Move) {
    m.Returns? || m.Unjudged? || m.Faults? || m.OutcomeSent?
  }

  ghost predicate Signs(moves: seq<Move>, id: string) {
    exists amcp :: Creates(id, amcp) in moves && amcp.signer.Some?
  }

  /** The numbers used up: one for each section of a signing action that did not raise. */
  ghost function UsedUp(moves: seq<Move>): nat {
    if moves == [] then
      0
    else
      var front, last := moves[..|moves| - 1], moves[|moves| - 1];
      UsedUp(front) + if Completes(last) && Signs(front, last.id) then 1 else 0
  }

  /** The event is as its action emits it: under the session and the action's id and key, with the body and the
      signature it was given, a reason where it is a refusal, and a number and signature where the action signs. */
  ghost predicate AsEmitted(moves: seq<Move>, t: Tool, e: Event) {
    && e.version == Some(V04) && e.session == Some(t.session) && e.wellFormed && e.canonical
    && e.id.Some? && e.id.value in t.actions
    && (exists signature :: Emits(e.id.value, e.body, signature) in moves
                            && e.signature == if e.keyId.Some? then Some(signature) else None)
    && e.keyId == t.actions[e.id.value].amcp.signer
    && (e.signerSeq.Some? <==> e.keyId.Some?)
    && e.outcome.Some? && (e.reason.Some? <==> e.outcome == Some(Aborted))
  }

  ghost predicate ActionGoes(moves: seq<Move>, id: string, a: Action) {
    && (a.phase.Ended? <==> IsOver(moves, id))
    && (forall amcp :: Creates(id, amcp) in moves <==> amcp == a.amcp)
    && (a.phase.Held? ==> (a.phase.number.Some? <==> a.amcp.signer.Some?))
  }

  ghost predicate Goes(moves: seq<Move>, t: Tool) {
    && (forall id :: id in t.actions ==> ActionGoes(moves, id, t.actions[id]))
    && (forall m :: m in moves ==> m.id in t.actions)
    && t.next == t.start + UsedUp(moves)
    && (forall e :: e in Emitted(t) ==> AsEmitted(moves, t, e))
  }

  lemma UsedAfter(moves: seq<Move>, m: Move)
    ensures UsedUp(moves + [m]) == UsedUp(moves) + if Completes(m) && Signs(moves, m.id) then 1 else 0
  {
    assert (moves + [m])[..|moves|] == moves;
  }

  lemma OverAfter(moves: seq<Move>, m: Move, id: string)
    ensures IsOver(moves + [m], id) <==> IsOver(moves, id) || (m.id == id && Ends(m))
  {
    MembersAfter(moves, m);
    if IsOver(moves, id) {
      var x :| x in moves && x.id == id && Ends(x);
      assert x in moves + [m];
    }
    if m.id == id && Ends(m) {
      assert m in moves + [m];
    }
  }

  lemma ActionGoesOn(moves: seq<Move>, t: Tool, m: Move, id: string)
    requires Enabled(t, m) && Goes(moves, t) && id in Next(t, m).actions
    ensures ActionGoes(moves + [m], id, Next(t, m).actions[id])
  {
    NextNeverFalls(t, m);
    MembersAfter(moves, m);
    OverAfter(moves, m, id);
    if id in t.actions {
      assert ActionGoes(moves, id, t.actions[id]);
    }
    hide Goes, IsOver, Build, Judge, Leave;
    if id in t.actions {
      assert forall amcp :: Creates(id, amcp) in moves + [m] <==> Creates(id, amcp) in moves;
    } else {
      BornNow(moves, t, m, id);
    }
  }

  lemma BornNow(moves: seq<Move>, t: Tool, m: Move, id: string)
    requires Enabled(t, m) && Goes(moves, t) && id !in t.actions && m.id == id
    ensures m.Creates? && !IsOver(moves, id) && forall amcp :: Creates(id, amcp) !in moves
  {
    forall amcp ensures Creates(id, amcp) !in moves {
      assert Creates(id, amcp) in moves ==> Creates(id, amcp).id in t.actions;
    }
  }

  /** The number moves on with each section a signing action ends without raising. */
  lemma NumberMovesOn(moves: seq<Move>, t: Tool, m: Move)
    requires ToolInv(t) && Enabled(t, m) && Goes(moves, t)
    ensures Next(t, m).next == t.next + if Completes(m) && Signs(moves, m.id) then 1 else 0
  {
    NumberingSection(t);
    if Completes(m) {
      var a := t.actions[m.id];
      assert ActionGoes(moves, m.id, a);
      assert Signs(moves, m.id) <==> a.amcp.signer.Some?;
    }
    hide Goes, ActionGoes, Signs, ToolInv, NumberingInv, Judge, Build;
  }

  lemma EmittedAsBuilt(moves: seq<Move>, t: Tool, m: Move)
    requires ToolInv(t) && Enabled(t, m) && Goes(moves, t) && m.Emits?
    ensures var u := Next(t, m);
            && u.actions[m.id].phase.Held? && u.actions[m.id].phase.event.Some?
            && AsEmitted(moves + [m], u, u.actions[m.id].phase.event.value)
  {
    var a := t.actions[m.id];
    assert ActionGoes(moves, m.id, a) && ActionInv(t.session, t.next, m.id, a);
    hide ToolInv;
    var u := Next(t, m);
    var e := u.actions[m.id].phase.event.value;
    assert e == Build(t, m.id, a.phase.kind, a.amcp, a.phase.number, m.body, m.signature);
    assert Emits(e.id.value, e.body, m.signature) in moves + [m] by {
      assert m in moves + [m] && m == Emits(m.id, m.body, m.signature);
    }
    assert e.signature == if e.keyId.Some? then Some(m.signature) else None;
    assert u.session == t.session && u.actions[m.id].amcp == a.amcp;
    hide Goes, ActionGoes, Emitted;
  }

  lemma AsEmittedOn(moves: seq<Move>, t: Tool, m: Move, e: Event)
    requires ToolInv(t) && Enabled(t, m) && AsEmitted(moves, t, e)
    ensures AsEmitted(moves + [m], Next(t, m), e)
  {
    ActionsRemember(t, m);
    StartStands(t, m);
    var signature :| Emits(e.id.value, e.body, signature) in moves
                     && e.signature == if e.keyId.Some? then Some(signature) else None;
    assert Emits(e.id.value, e.body, signature) in moves + [m];
    hide ToolInv, Next, Enabled;
  }

  lemma EventsGo(moves: seq<Move>, t: Tool, m: Move)
    requires ToolInv(t) && Enabled(t, m) && Goes(moves, t)
    ensures forall e :: e in Emitted(Next(t, m)) ==> AsEmitted(moves + [m], Next(t, m), e)
  {
    EmittedGrows(t, m);
    hide ToolInv, Next, Enabled, ActionGoes, AsEmitted, Emitted, UsedUp;
    forall e | e in Emitted(Next(t, m)) ensures AsEmitted(moves + [m], Next(t, m), e) {
      if e in Emitted(t) {
        AsEmittedOn(moves, t, m, e);
      } else {
        EmittedAsBuilt(moves, t, m);
      }
    }
  }

  lemma ActionsGo(moves: seq<Move>, t: Tool, m: Move)
    requires Enabled(t, m) && Goes(moves, t)
    ensures forall id :: id in Next(t, m).actions ==> ActionGoes(moves + [m], id, Next(t, m).actions[id])
    ensures forall f :: f in moves + [m] ==> f.id in Next(t, m).actions
  {
    assert forall f :: f in moves ==> f.id in t.actions;
    hide Goes, ActionGoes, Next, Enabled;
    MovesAreOf(moves, t, m);
    forall id | id in Next(t, m).actions ensures ActionGoes(moves + [m], id, Next(t, m).actions[id]) {
      ActionGoesOn(moves, t, m, id);
    }
  }

  lemma MoveGoes(moves: seq<Move>, t: Tool, m: Move)
    requires ToolInv(t) && Enabled(t, m) && Goes(moves, t)
    ensures Goes(moves + [m], Next(t, m))
  {
    assert t.next == t.start + UsedUp(moves);
    UsedAfter(moves, m);
    NumberMovesOn(moves, t, m);
    StartStands(t, m);
    EventsGo(moves, t, m);
    ActionsGo(moves, t, m);
    hide ToolInv, Next, Enabled, ActionGoes, AsEmitted, Emitted, UsedUp, Completes, Signs;
  }

  lemma {:induction false} PlayGoes(t: Tool, before: seq<Move>, moves: seq<Move>)
    requires ToolInv(t) && Goes(before, t) && Legal(t, moves)
    ensures Goes(before + moves, Play(t, moves)) && Play(t, moves).start == t.start
            && Play(t, moves).session == t.session
    decreases |moves|
  {
    hide ToolInv, Goes, Enabled, Next;
    if moves == [] {
      assert before + moves == before;
    } else {
      MoveKeepsToolInv(t, moves[0]);
      MoveGoes(before, t, moves[0]);
      StartStands(t, moves[0]);
      PlayGoes(Next(t, moves[0]), before + [moves[0]], moves[1..]);
      assert before + [moves[0]] + moves[1..] == before + moves;
    }
  }

  // ----- over every run -----

  lemma RunGoes(session: string, start: nat, moves: seq<Move>)
    requires Legal(NewTool(session, start), moves)
    ensures var t := Play(NewTool(session, start), moves);
            Goes(moves, t) && t.start == start && t.session == session
  {
    hide Legal, Play, Goes;
    NewTells(session, start);
    assert Goes([], NewTool(session, start)) by {
      NothingGoes(session, start);
    }
    PlayGoes(NewTool(session, start), [], moves);
    assert [] + moves == moves;
  }

  lemma NothingGoes(session: string, start: nat)
    ensures Goes([], NewTool(session, start))
  {
  }

  /** Over every interleaving the next number is the first and one for each section of a signing action that ended
      without raising - a fault of the transport, which the section swallows, included. */
  lemma NumbersUsedUp(session: string, start: nat, moves: seq<Move>)
    requires Legal(NewTool(session, start), moves)
    ensures Play(NewTool(session, start), moves).next == start + UsedUp(moves)
  {
    RunGoes(session, start, moves);
  }

  /** An action is over exactly where an emission of its own went out as its last, or it was broken off: in its
      section, while it waited for one, or in checking an accept. */
  lemma OverIff(session: string, start: nat, moves: seq<Move>, id: string)
    requires Legal(NewTool(session, start), moves) && id in Play(NewTool(session, start), moves).actions
    ensures Play(NewTool(session, start), moves).actions[id].phase.Ended? <==> IsOver(moves, id)
  {
    hide Legal, Play;
    RunGoes(session, start, moves);
  }

  /** Every event emitted is one its action emits: of this session, under its own id and key, numbered and signed
      where the action signs, with a reason where it refuses. */
  lemma EventsAreBuilt(session: string, start: nat, moves: seq<Move>, e: Event)
    requires Legal(NewTool(session, start), moves) && e in Emitted(Play(NewTool(session, start), moves))
    ensures var t := Play(NewTool(session, start), moves); t.session == session && AsEmitted(moves, t, e)
  {
    hide Legal, Play, Emitted, AsEmitted;
    RunGoes(session, start, moves);
  }
}
