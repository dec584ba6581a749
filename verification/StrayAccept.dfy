/** A run in which the transport hands a tool another attempt's accept, and a gap is left that nothing explains. */
module StrayAccept {
  import opened Events
  import opened Chain
  import opened HostModel
  import opened HostRuns
  import opened HostResumption
  import opened HostReuse
  import opened HostAccounts
  import opened Deployment
  import opened ToolGaps
  import opened Sorting
  import opened GapAccounting
  import opened ToolHistory
  import T = ToolSession

  const KEYED := T.Amcp(Some("k"), true, false, false)

  const STRAY_ATTEMPT := Event(Some("b"), Some(V04), Some("s"), Some(Attempted), None, Some("k"), Some(0), Some("g"), 0,
                               true, true)

  const STRAY_REFUSAL := Event(Some("b"), Some(V04), Some("s"), Some(Aborted), Some(HashMismatch), Some("k"), Some(1),
                               Some("g"), 0, true, true)

  /** Some run of deeds over a transport that may mix up answers leads from `w` to `v`. */
  ghost predicate Leads(cfg: Config, w: World, v: World) {
    exists ds :: AllAllowed(cfg, w, ds, false) && AfterAll(cfg, w, ds, false) == v
  }

  lemma LeadsNowhere(cfg: Config, w: World)
    ensures Leads(cfg, w, w)
  {
    assert AllAllowed(cfg, w, [], false) && AfterAll(cfg, w, [], false) == w;
  }

  lemma LeadsOn(cfg: Config, w: World, v: World, d: Deed)
    requires Leads(cfg, w, v) && Allowed(v, d, false)
    ensures d.ToolDoes? ==> T.Enabled(v.tool, d.move)
    ensures Leads(cfg, w, After(cfg, v, d))
  {
    hide AllAllowed, AfterAll;
    AllowedIsEnabled(v, d, false);
    var ds :| AllAllowed(cfg, w, ds, false) && AfterAll(cfg, w, ds, false) == v;
    OneMoreDeed(cfg, w, ds, d);
    assert AllAllowed(cfg, w, ds + [d], false);
  }

  lemma {:induction false} OneMoreDeed(cfg: Config, w: World, ds: seq<Deed>, d: Deed)
    requires AllAllowed(cfg, w, ds, false) && Allowed(AfterAll(cfg, w, ds, false), d, false)
    ensures d.ToolDoes? ==> T.Enabled(AfterAll(cfg, w, ds, false).tool, d.move)
    ensures AllAllowed(cfg, w, ds + [d], false)
    ensures AfterAll(cfg, w, ds + [d], false) == After(cfg, AfterAll(cfg, w, ds, false), d)
    decreases |ds|
  {
    hide Allowed, After;
    if ds == [] {
      AllowedIsEnabled(w, d, false);
      assert [] + [d] == [d] && [d][1..] == [];
    } else {
      assert (ds + [d])[0] == ds[0] && (ds + [d])[1..] == ds[1..] + [d];
      AllowedIsEnabled(w, ds[0], false);
      OneMoreDeed(cfg, After(cfg, w, ds[0]), ds[1..], d);
    }
  }

  // ----- the tool -----

  /** The tool once the stray accept came back: it declines, for the hash does not fit. */
  function Declined(a: Answer): T.Tool {
    T.Tool("s", 0, 1, None,
           map["b" := T.Action(KEYED, T.Due(T.TheRefusal(HashMismatch)), Some(STRAY_ATTEMPT), Some(a), None,
                               Some(HashMismatch), None)],
           [T.Sent(STRAY_ATTEMPT, true)], {})
  }

  function Refusing(a: Answer): T.Tool {
    T.Tool("s", 0, 1, Some("b"),
           map["b" := T.Action(KEYED, T.Held(T.TheRefusal(HashMismatch), Some(1), Some(STRAY_REFUSAL)),
                               Some(STRAY_ATTEMPT), Some(a), None, Some(HashMismatch), None)],
           [T.Sent(STRAY_ATTEMPT, true), T.Sent(STRAY_REFUSAL, false)], {})
  }

  function Refused(a: Answer): T.Tool {
    T.Tool("s", 0, 2, None,
           map["b" := T.Action(KEYED, T.Ended, Some(STRAY_ATTEMPT), Some(a), None, Some(HashMismatch),
                               Some(STRAY_REFUSAL))],
           [T.Sent(STRAY_ATTEMPT, true), T.Sent(STRAY_REFUSAL, true)], {})
  }

  lemma ToolDeclines(cfg: Config, w: World, v: World, a: Answer)
    requires Leads(cfg, w, v) && v.tool == T.NewTool("s", 0)
    requires a.Accept? && (exists p :: p in v.answers && p.1 == a)
    requires a.recordHash != HashOf(STRAY_ATTEMPT, a.position, a.hostTs, a.previousHash)
    ensures Leads(cfg, w, v.(tool := Declined(a)))
  {
    hide Leads;
    var d1, d2 := ToolDoes(T.Creates("b", KEYED)), ToolDoes(T.Takes("b"));
    var d3, d4 := ToolDoes(T.Emits("b", 0, "g")), ToolDoes(T.Returns("b", a, T.Holds));
    LeadsOn(cfg, w, v, d1);
    var v1 := After(cfg, v, d1);
    LeadsOn(cfg, w, v1, d2);
    var v2 := After(cfg, v1, d2);
    LeadsOn(cfg, w, v2, d3);
    var v3 := After(cfg, v2, d3);
    assert v3.tool.log == [T.Sent(STRAY_ATTEMPT, false)];
    LeadsOn(cfg, w, v3, d4);
    assert After(cfg, v3, d4).tool == Declined(a);
  }

  /** The refusal goes out under the next number. */
  lemma ToolRefuses(cfg: Config, w: World, v: World, a: Answer)
    requires Leads(cfg, w, v) && v.tool == Declined(a)
    ensures Leads(cfg, w, v.(tool := Refusing(a)))
  {
    hide Leads;
    var d1, d2 := ToolDoes(T.Takes("b")), ToolDoes(T.Emits("b", 0, "g"));
    LeadsOn(cfg, w, v, d1);
    var v1 := After(cfg, v, d1);
    LeadsOn(cfg, w, v1, d2);
    assert After(cfg, v1, d2).tool == Refusing(a);
  }

  lemma RefusalCompletes(a: Answer)
    ensures T.Enabled(Refusing(a), T.OutcomeSent("b")) && T.Next(Refusing(a), T.OutcomeSent("b")) == Refused(a)
    ensures STRAY_REFUSAL in Emitted(Refusing(a))
  {
    var u := Refusing(a);
    assert T.Next(u, T.OutcomeSent("b")).log == Refused(a).log;
    assert T.Sent(STRAY_REFUSAL, false) in u.log;
  }

  /** The host seals it, and the tool is done. */
  lemma RefusalGoesOut(cfg: Config, w: World, v: World, a: Answer)
    requires Leads(cfg, w, v) && v.tool == Refusing(a)
    ensures Leads(cfg, w, v.(tool := Refused(a), sys := Step(cfg, v.sys, Sent(STRAY_REFUSAL)).0))
  {
    hide Leads, Emitted, Refusing, Refused, Step, T.Next, T.Enabled;
    RefusalCompletes(a);
    var d := HostTakes(Sent(STRAY_REFUSAL));
    LeadsOn(cfg, w, v, d);
    RepliesMatchInputs(cfg, v.sys, Sent(STRAY_REFUSAL));
    var v1 := After(cfg, v, d);
    assert v1.answers == v.answers && v1.tool == v.tool;
    LeadsOn(cfg, w, v1, ToolDoes(T.OutcomeSent("b")));
  }

  // ----- the host -----

  function BothOpen(cfg: Config): System {
    Step(cfg, Step(cfg, START, SessionOpens("o")).0, SessionOpens("s")).0
  }

  /** An attempt of another session. */
  function OtherArrives(): Input {
    AttemptArrives(NewAttempt("o"), None, CalmEnv(ReadTail))
  }

  lemma OtherAccepted(cfg: Config)
    ensures var (next, reply) := Step(cfg, BothOpen(cfg), OtherArrives());
            && |next.store.records| == 1 && next.store.records[0].event == NewAttempt("o")
            && reply.AttemptReply? && reply.answer.Accept?
            && reply.answer.recordHash == HashOf(NewAttempt("o"), 0, 0, Genesis)
            && !InDoubt(next) && FreeFor(cfg, next.host, "s", STRAY_REFUSAL)
  {
    var sys := BothOpen(cfg);
    var e, env := NewAttempt("o"), CalmEnv(ReadTail);
    assert SchemaValid(e);
    var (h1, check) := VerifySignature(cfg, sys.host, e, "o", Verifies);
    assert check == Passed && h1.sessions["o"].decided == {} && h1.sessions["o"].outcomes == map[];
    assert h1.sessions["s"] == EMPTY_SESSION && h1.ledger == sys.host.ledger && h1.sealedAttempts == map[];
    hide VerifySignature, SchemaValid;
    var r := Countersigned(cfg, NextRecord(e, 0, 0, Genesis), env.signing);
    assert ConcludeAttempt(cfg, h1, sys.store, e, "o", env).1.records == [r];
  }

  /** The host has accepted the other attempt; the tool has done nothing yet. */
  function OtherWorld(cfg: Config): World {
    var (next, reply) := Step(cfg, BothOpen(cfg), OtherArrives());
    World(T.NewTool("s", 0), next, if reply.AttemptReply? then {(NewAttempt("o"), reply.answer)} else {})
  }

  lemma HostAccepts(cfg: Config)
    ensures Leads(cfg, Begin("s", 0), OtherWorld(cfg))
  {
    hide Leads, HandleAttempt;
    var w0 := Begin("s", 0);
    LeadsNowhere(cfg, w0);
    LeadsOn(cfg, w0, w0, HostTakes(SessionOpens("o")));
    var w1 := After(cfg, w0, HostTakes(SessionOpens("o")));
    LeadsOn(cfg, w0, w1, HostTakes(SessionOpens("s")));
    var w2 := After(cfg, w1, HostTakes(SessionOpens("s")));
    LeadsOn(cfg, w0, w2, HostTakes(OtherArrives()));
    assert w2.sys == BothOpen(cfg) && w2.answers == {};
    assert After(cfg, w2, HostTakes(OtherArrives())) == OtherWorld(cfg);
  }

  lemma LeftOver(es: seq<Event>)
    requires es == [NewAttempt("o"), STRAY_REFUSAL]
    ensures Unaccounted(es, ("k", "s")) == {0}
  {
    var g: Group := ("k", "s");
    assert es[..1] == [NewAttempt("o")] && es[..1][..0] == [];
    assert GroupOf(STRAY_REFUSAL) == Some(g) && GroupOf(NewAttempt("o")) == Some(("k", "o"));
    assert Entries(es[..1], g) == Entries([], g) == [];
    var x := Entry(1, STRAY_REFUSAL, KeyOf(STRAY_REFUSAL) in Attempts(es[..1]));
    assert Entries(es, g) == [x];
    assert [x][..0] == [] && Refusals([x]) == [];
    assert Values([x]) == {1};
    OnlyOne();
  }

  lemma OnlyOne()
    ensures Missing({1}) == {0}
  {
    var q := Ascending({1});
    assert 1 in q;
    assert forall i :: 0 <= i < |q| ==> q[i] in {1};
    assert Top({1}) == 1;
  }

  /** From a world with another attempt's accept at hand to the gap. */
  lemma StrayRun(cfg: Config, w: World, v: World, a: Answer)
    requires Leads(cfg, w, v) && v.tool == T.NewTool("s", 0) && (NewAttempt("o"), a) in v.answers
    requires a.Accept? && a.recordHash == HashOf(NewAttempt("o"), 0, 0, Genesis)
    requires |v.sys.store.records| == 1 && v.sys.store.records[0].event == NewAttempt("o")
    requires !InDoubt(v.sys) && FreeFor(cfg, v.sys.host, "s", STRAY_REFUSAL)
    ensures exists ds :: AllAllowed(cfg, w, ds, false) && GapLeft(AfterAll(cfg, w, ds, false))
  {
    hide Leads, AllAllowed, AfterAll, Step, InDoubt, FreeFor, Declined, Refusing, Refused, GapLeft;
    ToolDeclines(cfg, w, v, a);
    ToolRefuses(cfg, w, v.(tool := Declined(a)), a);
    RefusalGoesOut(cfg, w, v.(tool := Refusing(a)), a);
    RefusalIsSealed(cfg, v.sys);
    var last := v.(tool := Refused(a), sys := Step(cfg, v.sys, Sent(STRAY_REFUSAL)).0);
    LeavesGap(last, a);
    LeadsSomewhere(cfg, w, last);
  }

  /**
   * The conditions of `HonestToolLeavesNoGap` are needed where the transport may mix up answers: a run in which
   * a tool that signs under one key turns down another attempt's accept, every outcome it emitted is sealed, and
   * the number of its own attempt is left unaccounted.
   */
  lemma StrayAcceptLeavesGap(cfg: Config)
    ensures exists ds :: AllAllowed(cfg, Begin("s", 0), ds, false) && GapLeft(AfterAll(cfg, Begin("s", 0), ds, false))
  {
    hide Leads, AllAllowed, AfterAll, BothOpen, Step, InDoubt, FreeFor, GapLeft;
    OtherAccepted(cfg);
    HostAccepts(cfg);
    StrayRun(cfg, Begin("s", 0), OtherWorld(cfg), Step(cfg, BothOpen(cfg), OtherArrives()).1.answer);
  }

  lemma RefusalIsSealed(cfg: Config, sys: System)
    requires |sys.store.records| == 1 && !InDoubt(sys) && FreeFor(cfg, sys.host, "s", STRAY_REFUSAL)
    ensures var next := Step(cfg, sys, Sent(STRAY_REFUSAL)).0;
            && |next.store.records| == 2 && next.store.records[0] == sys.store.records[0]
            && next.store.records[1].event == STRAY_REFUSAL
  {
    hide Step, InDoubt, FreeFor;
    EndsAgain(cfg, sys, "s", STRAY_REFUSAL);
    var c := Step(cfg, sys, Sent(STRAY_REFUSAL)).0.store.records;
    assert c[..1][0] == c[0];
  }

  ghost predicate GapLeft(w: World) {
    && OneKey(w.tool, "k") && OutcomesSealed(w.tool, EventsOf(w.sys.store.records))
    && Unaccounted(EventsOf(w.sys.store.records), ("k", "s")) == {0}
  }

  lemma LeavesGap(w: World, a: Answer)
    requires w.tool == Refused(a)
    requires EventsOf(w.sys.store.records) == [NewAttempt("o"), STRAY_REFUSAL]
    ensures GapLeft(w)
  {
    var es := EventsOf(w.sys.store.records);
    LeftOver(es);
    var log := w.tool.log;
    assert log[..1] == [T.Sent(STRAY_ATTEMPT, true)] && log[..1][..0] == [];
    assert T.Completed(log[..1]) == [STRAY_ATTEMPT];
    assert T.Completed(log) == [STRAY_ATTEMPT, STRAY_REFUSAL];
    assert es[1] == STRAY_REFUSAL;
    hide Unaccounted;
  }

  lemma LeadsSomewhere(cfg: Config, w: World, v: World)
    requires Leads(cfg, w, v) && GapLeft(v)
    ensures exists ds :: AllAllowed(cfg, w, ds, false) && GapLeft(AfterAll(cfg, w, ds, false))
  {
    hide GapLeft, AllAllowed, AfterAll;
  }
}
