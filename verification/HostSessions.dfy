/** Which session ids a host has given out and which are open, from what happened to it alone. */
module HostSessions {
  import opened Events
  import opened Chain
  import opened HostModel
  import opened HostRuns
  import opened HostChain

  function SessionsIn(records: seq<Record>): set<string> {
    set r | r in records && r.event.session.Some? :: r.event.session.value
  }

  /** The ids given out: those opened, and at a restart those some stored record carries and those reopened. */
  ghost function Given(cfg: Config, inputs: seq<Input>): set<string> {
    if inputs == [] then
      {}
    else
      var front, last := inputs[..|inputs| - 1], inputs[|inputs| - 1];
      match last
      case SessionOpens(s) => Given(cfg, front) + {s}
      case HostRestarts(opens) => SessionsIn(Run(cfg, START, front).store.records) + OpenIds(opens)
      case _ => Given(cfg, front)
  }

  /** The sessions open: each one opened under a new id, or reopened, and not closed since. */
  ghost function Open(cfg: Config, inputs: seq<Input>): set<string> {
    if inputs == [] then
      {}
    else
      var front, last := inputs[..|inputs| - 1], inputs[|inputs| - 1];
      match last
      case SessionOpens(s) => if s in Given(cfg, front) then Open(cfg, front) else Open(cfg, front) + {s}
      case SessionCloses(s) => Open(cfg, front) - {s}
      case HostRestarts(opens) => OpenIds(opens)
      case _ => Open(cfg, front)
  }

  lemma ResumedGiven(records: seq<Record>, opens: seq<OpenSession>)
    ensures Resume(records, opens).issued == SessionsIn(records) + OpenIds(opens)
    ensures Resume(records, opens).sessions.Keys == OpenIds(opens)
  {
    hide RestoredSessions, RememberedAttempts, OpenAttempts;
    var es := EventsOf(records);
    forall s ensures s in SessionsIn(records) <==> exists e :: e in es && e.session == Some(s) {
      if s in SessionsIn(records) {
        var r :| r in records && r.event.session == Some(s);
        var i :| 0 <= i < |records| && records[i] == r;
        assert es[i] == r.event;
      }
      if e :| e in es && e.session == Some(s) {
        var i :| 0 <= i < |es| && es[i] == e;
        assert records[i] in records;
      }
    }
    RestoredKeys(opens, es);
  }

  lemma {:induction false} RestoredKeys(opens: seq<OpenSession>, es: seq<Event>)
    ensures RestoredSessions(opens, es).Keys == OpenIds(opens)
  {
    hide RestoredSession, Merge;
    if opens != [] {
      var front, last := opens[..|opens| - 1], opens[|opens| - 1];
      assert opens == front + [last];
      RestoredKeys(front, es);
    }
  }

  lemma StepGives(cfg: Config, sys: System, input: Input)
    ensures var next := Step(cfg, sys, input).0;
            match input
            case SessionOpens(s) =>
              && next.host.issued == sys.host.issued + {s}
              && next.host.sessions.Keys ==
                   sys.host.sessions.Keys + if s in sys.host.issued then {} else {s}
            case SessionCloses(s) =>
              next.host.issued == sys.host.issued && next.host.sessions.Keys == sys.host.sessions.Keys - {s}
            case HostRestarts(opens) =>
              && next.host.issued == SessionsIn(sys.store.records) + OpenIds(opens)
              && next.host.sessions.Keys == OpenIds(opens)
            case _ => next.host.issued == sys.host.issued && next.host.sessions.Keys == sys.host.sessions.Keys
  {
    hide HandleAttempt, RecordOutcome, Resume;
    var h, st := sys.host, sys.store;
    match input
    case AttemptArrives(e, expected, env) => AttemptStores(cfg, h, st, e, expected, env);
    case OutcomeArrives(e, expected, env) => OutcomeStores(cfg, h, st, e, expected, env);
    case HostRestarts(opens) => ResumedGiven(st.records, opens);
    case _ =>
  }

  /** Over every run, the ids a host takes for given and the sessions it holds open are those of its inputs. */
  lemma {:induction false} SessionsFollow(cfg: Config, inputs: seq<Input>)
    ensures var h := Run(cfg, START, inputs).host;
            h.issued == Given(cfg, inputs) && h.sessions.Keys == Open(cfg, inputs)
    decreases |inputs|
  {
    hide Step;
    if inputs != [] {
      var front, last := inputs[..|inputs| - 1], inputs[|inputs| - 1];
      assert inputs == front + [last];
      SessionsFollow(cfg, front);
      RunSplits(cfg, START, front, [last]);
      StepGives(cfg, Run(cfg, START, front), last);
      OneStep(cfg, Run(cfg, START, front), last);
    }
  }

  lemma OneStep(cfg: Config, sys: System, input: Input)
    ensures Run(cfg, sys, [input]) == Step(cfg, sys, input).0
  {
    hide Step;
    assert [input][1..] == [];
  }

  /** An id is refused exactly where it was given out, and one that is not opens an empty session. */
  lemma OpeningIsRefusedIff(cfg: Config, inputs: seq<Input>, s: string)
    ensures var (next, reply) := Step(cfg, Run(cfg, START, inputs), SessionOpens(s));
            && (reply == AlreadyIssued <==> s in Given(cfg, inputs))
            && (reply != AlreadyIssued ==> s in next.host.sessions && next.host.sessions[s] == EMPTY_SESSION)
  {
    SessionsFollow(cfg, inputs);
    hide Given, Run;
  }
}
