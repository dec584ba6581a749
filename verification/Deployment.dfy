/** A tool, a transport and a host together: what the tool may rely on, and what its session leaves behind. */
module Deployment {
  import opened Events
  import opened Chain
  import opened Reasons
  import opened HostModel
  import opened HostInvariant
  import opened HostRestart
  import opened HostRuns
  import opened HostChain
  import opened HostEvents
  import opened HostAnswers
  import opened HostAccounts
  import opened HostRepeats
  import opened Sorting
  import opened GapAccounting
  import opened ToolHistory
  import T = ToolSession

  /** `answers` are the attempts the host was handed, each with an answer it gave. */
  datatype World = World(tool: T.Tool, sys: System, answers: set<(Event, Answer)>)

  datatype Deed = ToolDoes(move: T.Move) | HostTakes(input: Input)

  function Carried(input: Input): Option<Event> {
    match input
    case AttemptArrives(e, _, _) => Some(e)
    case OutcomeArrives(e, _, _) => Some(e)
    case _ => None
  }

  /** The accept a tool is handed is one the host gave - to this attempt, where the transport is faithful. */
  ghost predicate Given(w: World, faithful: bool, attempt: Option<Event>, answer: Answer) {
    if faithful then
      attempt.Some? && (attempt.value, answer) in w.answers
    else
      exists p :: p in w.answers && p.1 == answer
  }

  /**
   * The transport may lose, delay, repeat and reorder; it hands the host no event of the session that the
   * tool did not emit, and makes up no accept.
   */
  ghost predicate Allowed(w: World, d: Deed, faithful: bool) {
    match d
    case ToolDoes(m) =>
      && T.Enabled(w.tool, m)
      && (m.Returns? && m.answer.Accept? ==> Given(w, faithful, w.tool.actions[m.id].attempt, m.answer))
      && (m.Unjudged? ==> Given(w, faithful, w.tool.actions[m.id].attempt, m.answer))
    case HostTakes(input) =>
      Carried(input).Some? && Carried(input).value.session == Some(w.tool.session) ==>
        Carried(input).value in Emitted(w.tool)
  }

  ghost function After(cfg: Config, w: World, d: Deed): World
    requires d.ToolDoes? ==> T.Enabled(w.tool, d.move)
  {
    match d
    case ToolDoes(m) => w.(tool := T.Next(w.tool, m))
    case HostTakes(input) =>
      var (next, reply) := Step(cfg, w.sys, input);
      w.(sys := next,
         answers := w.answers + if reply.AttemptReply? then {(input.attempt, reply.answer)} else {})
  }

  ghost predicate AllAllowed(cfg: Config, w: World, ds: seq<Deed>, faithful: bool)
    decreases |ds|
  {
    ds != [] ==> Allowed(w, ds[0], faithful) && AllAllowed(cfg, After(cfg, w, ds[0]), ds[1..], faithful)
  }

  /** No session is opened under an id that a committed record carries. */
  ghost predicate AllFresh(cfg: Config, w: World, ds: seq<Deed>, faithful: bool)
    requires AllAllowed(cfg, w, ds, faithful)
    decreases |ds|
  {
    ds != [] ==>
      && (ds[0].HostTakes? ==> FreshIfNew(w.sys, ds[0].input))
      && AllFresh(cfg, After(cfg, w, ds[0]), ds[1..], faithful)
  }

  ghost function AfterAll(cfg: Config, w: World, ds: seq<Deed>, faithful: bool): World
    requires AllAllowed(cfg, w, ds, faithful)
    decreases |ds|
  {
    if ds == [] then w else AfterAll(cfg, After(cfg, w, ds[0]), ds[1..], faithful)
  }

  function Begin(session: string, start: nat): World {
    World(T.NewTool(session, start), START, {})
  }

  // ----- the invariant -----

  ghost predicate AnswerStands(sys: System, p: (Event, Answer)) {
    p.1.Accept? ==> CommittedAs(sys.host.ledger, sys.store, p.0, p.1) && AccountedFor(sys, KeyOf(p.0))
  }

  ghost predicate AnswersStand(w: World) {
    forall p :: p in w.answers ==> AnswerStands(w.sys, p)
  }

  /** Every stored or delayed record of the session is of an event the tool emitted. */
  ghost predicate OwnRecords(w: World) {
    forall r :: (r in w.sys.store.records || r in w.sys.store.delayed) && r.event.session == Some(w.tool.session) ==>
      r.event in Emitted(w.tool)
  }

  ghost predicate ActionsGiven(w: World, faithful: bool) {
    forall id :: id in w.tool.actions && w.tool.actions[id].answered.Some? && w.tool.actions[id].answered.value.Accept?
      ==> Given(w, faithful, w.tool.actions[id].attempt, w.tool.actions[id].answered.value)
  }

  ghost predicate WorldInv(cfg: Config, w: World, faithful: bool) {
    && T.ToolInv(w.tool) && Standing(cfg, w.sys)
    && AnswersStand(w) && OwnRecords(w) && ActionsGiven(w, faithful)
  }

  lemma BeginInv(cfg: Config, session: string, start: nat, faithful: bool)
    ensures WorldInv(cfg, Begin(session, start), faithful)
  {
    StartStanding(cfg);
    hide Standing;
  }

  lemma ToolKeepsGiven(w: World, m: T.Move, faithful: bool)
    requires T.ToolInv(w.tool) && ActionsGiven(w, faithful) && Allowed(w, ToolDoes(m), faithful)
    ensures ActionsGiven(w.(tool := T.Next(w.tool, m)), faithful)
  {
    T.ActionsRemember(w.tool, m);
    T.NextNeverFalls(w.tool, m);
    MovedAnswer(w.tool, m);
    hide T.ToolInv, T.Next, T.Enabled;
    forall id | id in w.tool.actions ensures T.Remembers(w.tool.actions[id], T.Next(w.tool, m).actions[id]) {
    }
  }

  /** Only an answer changes what an action was answered. */
  lemma MovedAnswer(t: T.Tool, m: T.Move)
    requires T.ToolInv(t) && T.Enabled(t, m)
    ensures m.id in T.Next(t, m).actions
    ensures var b := T.Next(t, m).actions[m.id];
            b.answered.Some? ==>
              if m.Returns? || m.Unjudged? then b.answered.value == m.answer && b.attempt == t.actions[m.id].attempt
              else m.id in t.actions && b.answered == t.actions[m.id].answered
                   && b.attempt == t.actions[m.id].attempt
  {
    if m.id in t.actions {
      assert T.ActionInv(t.session, t.next, m.id, t.actions[m.id]);
    }
    hide T.ToolInv, T.Judge, T.Leave, T.Build, T.IsRefusalOf;
  }

  lemma ToolKeepsInv(cfg: Config, w: World, m: T.Move, faithful: bool)
    requires WorldInv(cfg, w, faithful) && Allowed(w, ToolDoes(m), faithful)
    ensures WorldInv(cfg, After(cfg, w, ToolDoes(m)), faithful)
  {
    hide Standing, T.ToolInv, ActionsGiven, Emitted, T.Next;
    T.MoveKeepsToolInv(w.tool, m);
    T.StartStands(w.tool, m);
    EmittedGrows(w.tool, m);
    ToolKeepsGiven(w, m, faithful);
  }

  lemma StoredEvents(cfg: Config, sys: System, input: Input)
    ensures var next := Step(cfg, sys, input).0;
            forall r :: r in next.store.records || r in next.store.delayed ==>
              r in sys.store.records || r in sys.store.delayed || Carried(input) == Some(r.event)
  {
    hide HandleAttempt, RecordOutcome, Resume;
    match input
    case AttemptArrives(e, expected, env) => AttemptStores(cfg, sys.host, sys.store, e, expected, env);
    case OutcomeArrives(e, expected, env) => OutcomeStores(cfg, sys.host, sys.store, e, expected, env);
    case _ =>
  }

  lemma AnswerStandsOn(cfg: Config, sys: System, input: Input, p: (Event, Answer))
    requires Standing(cfg, sys) && AnswerStands(sys, p)
    ensures AnswerStands(Step(cfg, sys, input).0, p)
  {
    EventsParts(cfg, false, sys.host, sys.store);
    hide Standing, ChainInv, Step, CommittedAs, AccountedFor;
    StepKeepsChain(cfg, sys, input);
    var next := Step(cfg, sys, input).0;
    if p.1.Accept? {
      CommittedStays(sys.host, sys.store, next.host, next.store, p.0, p.1);
      StepKeepsAccount(cfg, sys, input, KeyOf(p.0));
    }
  }

  lemma NewAnswerStands(cfg: Config, sys: System, input: Input)
    requires Standing(cfg, sys) && input.AttemptArrives?
    ensures Step(cfg, sys, input).1.AttemptReply?
    ensures AnswerStands(Step(cfg, sys, input).0, (input.attempt, Step(cfg, sys, input).1.answer))
  {
    hide HandleAttempt, CommittedAs, AccountedFor, EventsInv;
    AcceptIsCommitted(cfg, sys.host, sys.store, input.attempt, input.expected, input.env);
    if Step(cfg, sys, input).1.answer.Accept? {
      AcceptIsAccountedFor(cfg, sys, input);
    }
  }

  lemma HostKeepsAnswers(cfg: Config, w: World, input: Input)
    requires Standing(cfg, w.sys) && AnswersStand(w)
    ensures AnswersStand(After(cfg, w, HostTakes(input)))
  {
    hide Standing, AnswerStands, Step;
    var next := After(cfg, w, HostTakes(input));
    RepliesMatchInputs(cfg, w.sys, input);
    forall p | p in next.answers ensures AnswerStands(next.sys, p) {
      if p in w.answers {
        AnswerStandsOn(cfg, w.sys, input, p);
      } else {
        NewAnswerStands(cfg, w.sys, input);
      }
    }
  }

  lemma HostKeepsInv(cfg: Config, w: World, input: Input, faithful: bool)
    requires WorldInv(cfg, w, faithful) && Allowed(w, HostTakes(input), faithful)
    ensures WorldInv(cfg, After(cfg, w, HostTakes(input)), faithful)
  {
    hide Standing, T.ToolInv, Emitted, Step, AnswersStand;
    StepKeepsStanding(cfg, w.sys, input);
    HostKeepsAnswers(cfg, w, input);
    StoredEvents(cfg, w.sys, input);
    var next := After(cfg, w, HostTakes(input));
    forall id | id in next.tool.actions && next.tool.actions[id].answered.Some?
                && next.tool.actions[id].answered.value.Accept?
      ensures Given(next, faithful, next.tool.actions[id].attempt, next.tool.actions[id].answered.value)
    {
      assert Given(w, faithful, w.tool.actions[id].attempt, w.tool.actions[id].answered.value);
    }
  }

  lemma AllowedIsEnabled(w: World, d: Deed, faithful: bool)
    requires Allowed(w, d, faithful)
    ensures d.ToolDoes? ==> T.Enabled(w.tool, d.move)
  {
  }

  lemma {:induction false} AllKeepInv(cfg: Config, w: World, ds: seq<Deed>, faithful: bool)
    requires WorldInv(cfg, w, faithful) && AllAllowed(cfg, w, ds, faithful)
    ensures WorldInv(cfg, AfterAll(cfg, w, ds, faithful), faithful)
    decreases |ds|
  {
    hide WorldInv, Allowed;
    if ds != [] {
      assert Allowed(w, ds[0], faithful);
      AllowedIsEnabled(w, ds[0], faithful);
      match ds[0] {
        case ToolDoes(m) => ToolKeepsInv(cfg, w, m, faithful);
        case HostTakes(input) => HostKeepsInv(cfg, w, input, faithful);
      }
      AllKeepInv(cfg, After(cfg, w, ds[0]), ds[1..], faithful);
    }
  }

  // ----- audit before act -----

  /** With Polluted Stop, an accept of any attempt that clears this one is an accept of this one. */
  lemma AcceptBindsAttempt(l: LedgerState, st: Store, e: Event, attempt: Event, a: Answer)
    requires ChainInv(l, st) && CommittedAs(l, st, e, a)
    requires a.recordHash == HashOf(attempt, a.position, a.hostTs, a.previousHash)
    ensures CommittedAs(l, st, attempt, a) && e == attempt
  {
    assert LinksTo(st.records[..a.position], st.records[a.position]);
    hide Linked;
  }

  lemma ClearedIsCommitted(cfg: Config, w: World, id: string, faithful: bool)
    requires WorldInv(cfg, w, faithful) && id in w.tool.actions && w.tool.actions[id].accept.Some?
    requires w.tool.actions[id].amcp.pollutedStop || faithful
    ensures var a := w.tool.actions[id];
            && a.attempt.Some? && a.accept.value.Accept?
            && KeyOf(a.attempt.value) == OpKey(Some(w.tool.session), Some(id))
            && CommittedAs(w.sys.host.ledger, w.sys.store, a.attempt.value, a.accept.value)
            && AccountedFor(w.sys, KeyOf(a.attempt.value))
  {
    var a := w.tool.actions[id];
    assert T.ActionInv(w.tool.session, w.tool.next, id, a);
    var attempt, accept := a.attempt.value, a.accept.value;
    assert a.answered == a.accept && accept.Accept?;
    assert a.amcp.pollutedStop ==>
        accept.recordHash == HashOf(attempt, accept.position, accept.hostTs, accept.previousHash);
    assert Given(w, faithful, a.attempt, accept);
    EventsParts(cfg, false, w.sys.host, w.sys.store);
    hide T.ToolInv, T.ActionInv, CommittedAs, AccountedFor, Standing, ChainInv, OwnRecords, ActionsGiven;
    if faithful {
      assert AnswerStands(w.sys, (attempt, accept));
    } else {
      var p :| p in w.answers && p.1 == accept;
      assert AnswerStands(w.sys, p);
      AcceptBindsAttempt(w.sys.host.ledger, w.sys.store, p.0, attempt, accept);
      assert p == (attempt, accept);
    }
  }

  /**
   * Audit before act: however the transport mixes up the host's answers, and whichever ids are opened again, an
   * action whose Polluted Stop is on runs its body only after its own attempt is committed at the accepted
   * position - and it stays there.
   */
  lemma BodyRunsOnlyOnRecord(cfg: Config, session: string, start: nat, ds: seq<Deed>, id: string, faithful: bool)
    requires AllAllowed(cfg, Begin(session, start), ds, faithful)
    requires var w := AfterAll(cfg, Begin(session, start), ds, faithful);
             && id in w.tool.actions && w.tool.actions[id].accept.Some?
             && (w.tool.actions[id].amcp.pollutedStop || faithful)
    ensures var w := AfterAll(cfg, Begin(session, start), ds, faithful);
            var a := w.tool.actions[id];
            && a.attempt.Some?
            && KeyOf(a.attempt.value) == OpKey(Some(session), Some(id))
            && CommittedAs(w.sys.host.ledger, w.sys.store, a.attempt.value, a.accept.value)
  {
    hide AllAllowed, AfterAll, WorldInv, CommittedAs;
    BeginInv(cfg, session, start, faithful);
    AllKeepInv(cfg, Begin(session, start), ds, faithful);
    SessionStands(cfg, Begin(session, start), ds, faithful);
    ClearedIsCommitted(cfg, AfterAll(cfg, Begin(session, start), ds, faithful), id, faithful);
  }

  /**
   * And once its session is not open, an operation whose body was cleared to run has a terminal record after its
   * attempt, or is flagged `unresolved-attempt`.
   */
  lemma BodyIsConcluded(cfg: Config, session: string, start: nat, ds: seq<Deed>, id: string, faithful: bool)
    requires AllAllowed(cfg, Begin(session, start), ds, faithful)
    requires var w := AfterAll(cfg, Begin(session, start), ds, faithful);
             && id in w.tool.actions && w.tool.actions[id].accept.Some?
             && (w.tool.actions[id].amcp.pollutedStop || faithful)
             && session !in w.sys.host.sessions
    ensures var w := AfterAll(cfg, Begin(session, start), ds, faithful);
            || Ended(EventsOf(Committed(w.sys.host.ledger, w.sys.store)), OpKey(Some(session), Some(id)))
            || Anomaly(id, UnresolvedAttempt) in w.sys.host.anomalies
  {
    hide AllAllowed, AfterAll, WorldInv, CommittedAs, Ended, Attempts;
    BeginInv(cfg, session, start, faithful);
    AllKeepInv(cfg, Begin(session, start), ds, faithful);
    SessionStands(cfg, Begin(session, start), ds, faithful);
    ClearedIsCommitted(cfg, AfterAll(cfg, Begin(session, start), ds, faithful), id, faithful);
  }

  // ----- every operation ends once -----

  lemma {:induction false} AllKeepSystem(cfg: Config, w: World, ds: seq<Deed>, faithful: bool)
    requires SystemInv(cfg, w.sys) && AllAllowed(cfg, w, ds, faithful) && AllFresh(cfg, w, ds, faithful)
    ensures SystemInv(cfg, AfterAll(cfg, w, ds, faithful).sys)
    decreases |ds|
  {
    hide SystemInv, Allowed, FreshIfNew, Step, T.Next;
    if ds != [] {
      AllowedIsEnabled(w, ds[0], faithful);
      if ds[0].HostTakes? {
        StepKeepsInv(cfg, w.sys, ds[0].input);
      }
      AllKeepSystem(cfg, After(cfg, w, ds[0]), ds[1..], faithful);
    }
  }

  /** Where no id that a committed record carries is opened again, that terminal record is the only one. */
  lemma BodyIsConcludedOnce(cfg: Config, session: string, start: nat, ds: seq<Deed>, id: string, faithful: bool)
    requires AllAllowed(cfg, Begin(session, start), ds, faithful) && AllFresh(cfg, Begin(session, start), ds, faithful)
    requires var w := AfterAll(cfg, Begin(session, start), ds, faithful);
             && id in w.tool.actions && w.tool.actions[id].accept.Some?
             && (w.tool.actions[id].amcp.pollutedStop || faithful)
             && session !in w.sys.host.sessions
    ensures var w := AfterAll(cfg, Begin(session, start), ds, faithful);
            || ConcludedOnce(EventsOf(Committed(w.sys.host.ledger, w.sys.store)), OpKey(Some(session), Some(id)))
            || Anomaly(id, UnresolvedAttempt) in w.sys.host.anomalies
  {
    hide AllAllowed, AllFresh, AfterAll, Ended, ConcludedOnce, LedgerInv, HostInv;
    BodyIsConcluded(cfg, session, start, ds, id, faithful);
    StartInv(cfg);
    AllKeepSystem(cfg, Begin(session, start), ds, faithful);
    var sys := AfterAll(cfg, Begin(session, start), ds, faithful).sys;
    var k := OpKey(Some(session), Some(id));
    if Ended(EventsOf(Committed(sys.host.ledger, sys.store)), k) {
      EndedIsConcluded(cfg, sys.host.ledger, sys.store, k);
    }
  }

  lemma {:induction false} SessionStands(cfg: Config, w: World, ds: seq<Deed>, faithful: bool)
    requires AllAllowed(cfg, w, ds, faithful)
    ensures var v := AfterAll(cfg, w, ds, faithful); v.tool.session == w.tool.session && v.tool.start == w.tool.start
    decreases |ds|
  {
    hide T.Next, Step, T.Enabled;
    if ds != [] {
      if ds[0].ToolDoes? {
        T.StartStands(w.tool, ds[0].move);
      }
      SessionStands(cfg, After(cfg, w, ds[0]), ds[1..], faithful);
    }
  }
}
