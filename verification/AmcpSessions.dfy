/**
 * The tool's audit session, updated in place: the numbering section and the audited action, each method one
 * uninterrupted stretch between two awaits, proved to compute the move it is.
 */
module AmcpSessions {
  import opened Events
  import opened Chain
  import H = HostModel
  import opened ToolSession

  class AuditSession {
    const session: string
    const start: nat
    var nextSignerSeq: int
    var holder: Option<string>
    var actions: map<string, Action>
    var log: seq<Sent>
    var plain: set<Event>

    function State(): Tool
      reads this
    {
      Tool(session, start, nextSignerSeq, holder, actions, log, plain)
    }

    ghost predicate Valid()
      reads this
    {
      ToolInv(State())
    }

    constructor (session: string, start: nat)
      ensures State() == NewTool(session, start) && Valid()
    {
      this.session, this.start := session, start;
      nextSignerSeq, holder, actions, log, plain := start, None, map[], [], {};
    }

    method CreateAction(id: string, amcp: Amcp)
      requires id !in actions && Admissible(amcp)
      modifies this
      ensures State() == Next(old(State()), Creates(id, amcp))
      ensures old(Valid()) ==> Valid()
    {
      IsSound(State(), Creates(id, amcp));
      hide ToolInv;
      actions := actions[id := Action(amcp, Due(TheAttempt), None, None, None, None, None)];
    }

    /** Enters the section, where the session signs: the number it holds is the next one. */
    method TakeNumber(id: string) returns (number: Option<int>)
      requires Enabled(State(), Takes(id)) && id in actions
      modifies this
      ensures State() == Next(old(State()), Takes(id))
      ensures number == if old(actions[id].amcp.signer.Some?) then Some(old(nextSignerSeq)) else None
      ensures old(Valid()) ==> Valid()
    {
      IsSound(State(), Takes(id));
      hide ToolInv;
      var a := actions[id];
      number := None;
      if a.amcp.signer.Some? {
        holder := Some(id);
        number := Some(nextSignerSeq);
      }
      actions := actions[id := a.(phase := Held(a.phase.kind, number, None))];
    }

    /** Builds, stamps and sends the event of the section. */
    method Emit(id: string, body: nat, signature: string) returns (e: Event)
      requires Enabled(State(), Emits(id, body, signature)) && id in actions
      modifies this
      ensures State() == Next(old(State()), Emits(id, body, signature))
      ensures e.id == Some(id) && e.session == Some(session) && e.signerSeq == old(actions[id].phase.number)
      ensures old(Valid()) ==> Valid()
    {
      IsSound(State(), Emits(id, body, signature));
      hide ToolInv;
      var a := actions[id];
      e := Build(State(), id, a.phase.kind, a.amcp, a.phase.number, body, signature);
      if a.amcp.signer.Some? {
        log := log + [Sent(e, false)];
      } else {
        plain := plain + {e};
      }
      if a.phase.kind.TheAttempt? {
        a := a.(attempt := Some(e));
      }
      actions := actions[id := a.(phase := a.phase.(event := Some(e)))];
    }

    /** Leaves the section: the number advances only where the emission ended normally. */
    method LeaveSection(id: string, completed: bool)
      modifies this
      ensures State() == Leave(old(State()), id, completed)
    {
      if holder == Some(id) {
        holder := None;
        if completed {
          nextSignerSeq := nextSignerSeq + 1;
          if log != [] {
            log := log[|log| - 1 := Sent(log[|log| - 1].event, true)];
          }
        }
      }
    }

    /** The attempt's answer: the body is cleared to run, or the action owes a refusal. */
    method Answered(id: string, answer: H.Answer, verified: Verified) returns (cleared: bool)
      requires Enabled(State(), Returns(id, answer, verified)) && id in actions
      modifies this
      ensures State() == Next(old(State()), Returns(id, answer, verified))
      ensures cleared <==> Judge(old(actions[id].amcp), old(actions[id].phase.event.value), answer, verified) == Cleared
      ensures old(Valid()) ==> Valid()
    {
      IsSound(State(), Returns(id, answer, verified));
      hide ToolInv, Judge, Leave;
      var a := actions[id];
      LeaveKeepsActions(State(), id, true);
      LeaveSection(id, true);
      match Judge(a.amcp, a.phase.event.value, answer, verified)
      case Cleared =>
        actions := actions[id := a.(phase := Performing, answered := Some(answer), accept := Some(answer))];
        return true;
      case Abort(reason) =>
        actions := actions[id := Declining(a.(answered := Some(answer)), reason)];
        return false;
    }

    /** The transport raised: the section swallows it, so the number is used, and a refusal is owed. */
    method Fault(id: string)
      requires Enabled(State(), Faults(id)) && id in actions
      modifies this
      ensures State() == Next(old(State()), Faults(id))
      ensures old(Valid()) ==> Valid()
    {
      IsSound(State(), Faults(id));
      hide ToolInv, Leave;
      LeaveKeepsActions(State(), id, true);
      LeaveSection(id, true);
      actions := actions[id := Declining(actions[id], HostUnavailable)];
    }

    /** A usage error, a failing emission or a cancellation leaves the section raising: the number stays unused. */
    method RaiseInSection(id: string)
      requires Enabled(State(), SectionRaises(id)) && id in actions
      modifies this
      ensures State() == Next(old(State()), SectionRaises(id))
      ensures old(Valid()) ==> Valid()
    {
      IsSound(State(), SectionRaises(id));
      hide ToolInv, Leave;
      LeaveKeepsActions(State(), id, false);
      LeaveSection(id, false);
      actions := actions[id := actions[id].(phase := Ended)];
    }

    /** A refusal or a terminal outcome was emitted, which ends the action. */
    method FinishOutcome(id: string)
      requires Enabled(State(), OutcomeSent(id)) && id in actions
      modifies this
      ensures State() == Next(old(State()), OutcomeSent(id))
      ensures old(Valid()) ==> Valid()
    {
      IsSound(State(), OutcomeSent(id));
      hide ToolInv, Leave;
      LeaveKeepsActions(State(), id, true);
      LeaveSection(id, true);
      var a := actions[id];
      if a.phase.kind.TheRefusal? {
        a := a.(refusal := a.phase.event);
      }
      actions := actions[id := a.(phase := Ended)];
    }

    /** The body completed or raised: its outcome is due. */
    method EndBody(id: string, failed: bool)
      requires Enabled(State(), BodyEnds(id, failed)) && id in actions
      modifies this
      ensures State() == Next(old(State()), BodyEnds(id, failed))
      ensures old(Valid()) ==> Valid()
    {
      IsSound(State(), BodyEnds(id, failed));
      hide ToolInv;
      actions := actions[id := actions[id].(phase := Due(TheTerminal(if failed then Failed else Success)))];
    }
  }

  lemma IsSound(t: Tool, m: Move)
    requires Enabled(t, m)
    ensures ToolInv(t) ==> ToolInv(Next(t, m))
  {
    hide ToolInv, Next;
    if ToolInv(t) {
      MoveKeepsToolInv(t, m);
    }
  }

  lemma LeaveKeepsActions(t: Tool, id: string, completed: bool)
    ensures Leave(t, id, completed).actions == t.actions && Leave(t, id, completed).plain == t.plain
    ensures Leave(t, id, completed).session == t.session && Leave(t, id, completed).start == t.start
  {
  }
}
