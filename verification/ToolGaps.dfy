/** What the accounting leaves of a tool's session: no more than its refusals do not answer for. */
module ToolGaps {
  import opened Events
  import opened Chain
  import opened Reasons
  import opened HostModel
  import opened HostInvariant
  import opened HostRestart
  import opened HostRuns
  import opened HostChain
  import opened HostEvents
  import opened HostAnswers
  import opened HostAccounts
  import opened HostRepeats
  import opened Sorting
  import opened GapAccounting
  import opened ToolHistory
  import T = ToolSession
  import opened Deployment

  /** Every action that numbers its events does so under one key. */
  ghost predicate OneKey(t: T.Tool, key: string) {
    forall id :: id in t.actions && t.actions[id].amcp.signer.Some? ==> t.actions[id].amcp.signer == Some(key)
  }

  /** Every outcome the tool emitted is sealed, and every refusal it owes was emitted. */
  ghost predicate OutcomesSealed(t: T.Tool, es: seq<Event>) {
    && (forall e :: e in T.Completed(t.log) && !IsAttempt(e) ==> e in es)
    && (forall id :: id in t.actions && t.actions[id].owes.Some? ==>
          t.actions[id].refusal.Some? && t.actions[id].refusal.value in es)
  }

  /** Every accept the tool was handed for an attempt under `key` was taken, or checking it failed in a way the
      tool reports as `unavailable`. */
  ghost predicate NoStrayAccept(t: T.Tool, key: string) {
    forall id :: id in t.actions && t.actions[id].amcp.signer == Some(key) && t.actions[id].answered.Some?
                 && t.actions[id].answered.value.Accept? ==>
      t.actions[id].accept.Some? || (t.actions[id].owes.Some? && T.IsRefusalReason(t.actions[id].owes.value))
  }

  /** What the accounting needs of a ledger `es` and the tool whose session it is. */
  ghost predicate Kept(t: T.Tool, es: seq<Event>) {
    && T.ToolInv(t) && t.start == 0
    && (forall e :: e in es ==> NumberOf(e).Some?)
    && (forall e :: e in es && e.session == Some(t.session) ==> e in Emitted(t))
    && OutcomesSealed(t, es)
  }

  /** The numbers missing under one key of the tool's session. */
  ghost function MissingUnder(t: T.Tool, es: seq<Event>, key: string): set<int> {
    Missing(Values(Entries(es, (key, t.session))))
  }

  /** `v` is the number of an attempt under `key` that the tool refused as rejected or unavailable. */
  predicate RefusedAt(t: T.Tool, key: string, v: int) {
    && 0 <= v < |T.Completed(t.log)|
    && var e := T.Completed(t.log)[v];
    && IsAttempt(e) && e.id.Some? && e.id.value in t.actions
    && var a := t.actions[e.id.value];
    && a.attempt == Some(e) && a.amcp.signer == Some(key) && a.owes.Some? && T.IsRefusalReason(a.owes.value)
  }

  function Refused(t: T.Tool, key: string): set<int> {
    set v | 0 <= v < |T.Completed(t.log)| && RefusedAt(t, key, v)
  }

  /** The numbers the session used under another key. */
  function Foreign(t: T.Tool, key: string): set<int> {
    set v | 0 <= v < |T.Completed(t.log)| && T.Completed(t.log)[v].keyId != Some(key)
  }

  lemma {:induction false} EntriesAre(es: seq<Event>, g: Group, v: int)
    ensures v in Values(Entries(es, g)) <==>
              exists e :: e in es && GroupOf(e) == Some(g) && NumberOf(e).value.signerSeq == v
  {
    if es == [] {
      assert Entries(es, g) == [];
    } else {
      var before, last := es[..|es| - 1], es[|es| - 1];
      EntriesAre(before, g, v);
      assert forall e :: e in es <==> e in before || e == last;
      var entries := Entries(before, g);
      if GroupOf(last) == Some(g) {
        var x := Entry(NumberOf(last).value.signerSeq, last, KeyOf(last) in Attempts(before));
        assert Entries(es, g) == entries + [x];
        ValuesAfter(entries, x);
      }
    }
  }

  lemma ValuesAfter(entries: seq<Entry>, x: Entry)
    ensures Values(entries + [x]) == Values(entries) + {x.signerSeq}
  {
    assert forall y :: y in entries + [x] <==> y in entries || y == x;
  }

  /** A sealed refusal whose attempt is not sealed is among the refusals of the accounting. */
  lemma {:induction false} RefusalCounts(es: seq<Event>, g: Group, f: Event)
    requires f in es && GroupOf(f) == Some(g) && IsRefusal(f) && KeyOf(f) !in Attempts(es)
    ensures NumberOf(f).value.signerSeq in Refusals(Entries(es, g))
  {
    var before, last := es[..|es| - 1], es[|es| - 1];
    assert es == before + [last];
    SetsAfter(before, last);
    var entries := Entries(before, g);
    if f in before {
      RefusalCounts(before, g, f);
    }
    if GroupOf(last) == Some(g) {
      var x := Entry(NumberOf(last).value.signerSeq, last, KeyOf(last) in Attempts(before));
      assert Entries(es, g) == entries + [x];
      assert (entries + [x])[..|entries|] == entries;
    }
  }

  /** A number below the tool's next one is that of a completed emission. */
  lemma UsedNumber(t: T.Tool, v: int)
    requires T.NumberingInv(t) && t.start == 0 && 0 <= v < t.next
    ensures v < |T.Completed(t.log)| && T.Completed(t.log)[v].signerSeq == Some(v)
  {
  }

  lemma {:induction false} CompletedIsSent(log: seq<T.Sent>, e: Event)
    requires e in T.Completed(log)
    ensures T.Sent(e, true) in log
  {
    if log[|log| - 1].completed && e == log[|log| - 1].event {
      assert log[|log| - 1] == T.Sent(e, true);
    } else {
      CompletedIsSent(log[..|log| - 1], e);
    }
  }

  /** The sealed refusal of an attempt that was not sealed. */
  ghost predicate Answered(t: T.Tool, es: seq<Event>, key: string, v: int) {
    && RefusedAt(t, key, v) && t.actions[T.Completed(t.log)[v].id.value].refusal.Some?
    && var f := t.actions[T.Completed(t.log)[v].id.value].refusal.value;
    && f in es && GroupOf(f) == Some((key, t.session)) && IsRefusal(f) && KeyOf(f) !in Attempts(es)
    && f.id == T.Completed(t.log)[v].id
    && T.Sent(f, true) in t.log
    && NumberOf(f).value.signerSeq > v
  }

  function RefusalFor(t: T.Tool, v: int): Event
    requires 0 <= v < |T.Completed(t.log)| && T.Completed(t.log)[v].id.Some?
    requires T.Completed(t.log)[v].id.value in t.actions && t.actions[T.Completed(t.log)[v].id.value].refusal.Some?
  {
    t.actions[T.Completed(t.log)[v].id.value].refusal.value
  }

  /** The attempt of an action is the only attempt it emits. */
  lemma OnlyAttempt(t: T.Tool, e: Event, id: string)
    requires T.ToolInv(t) && e in Emitted(t) && IsAttempt(e) && e.id == Some(id)
    ensures id in t.actions && t.actions[id].attempt == Some(e)
  {
    hide T.NumberingInv, T.ActionInv;
    if e in t.plain {
      assert T.PlainInv(t, e);
    } else {
      var x :| x in t.log && x.event == e;
      assert T.SentInv(t, x);
    }
  }

  /** A missing number of a refused attempt is answered for by its sealed refusal. */
  lemma MissingIsAnswered(t: T.Tool, es: seq<Event>, key: string, v: int)
    requires Kept(t, es) && v in Refused(t, key) && v <= MAX_SAFE_INTEGER
    requires forall e :: e in es && GroupOf(e) == Some((key, t.session)) ==> NumberOf(e).value.signerSeq != v
    ensures Answered(t, es, key, v)
  {
    var e := T.Completed(t.log)[v];
    var id := e.id.value;
    UsedNumber(t, v);
    assert T.ActionInv(t.session, t.next, id, t.actions[id]);
    hide T.NumberingInv, T.ActionInv, T.SentInv, T.PlainInv, T.RefusalSent, T.AttemptSent, Attempts, Emitted, NumberOf;
    var f := t.actions[id].refusal.value;
    RefusalFits(t, es, key, id);
    if KeyOf(f) in Attempts(es) {
      var d := AttemptOfKey(es, KeyOf(f));
      OnlyAttempt(t, d, id);
      NumberedUnder(e, key, t.session, v);
    }
  }

  lemma NumberedUnder(e: Event, key: string, session: string, v: int)
    requires e.keyId == Some(key) && e.session == Some(session) && e.signerSeq == Some(v) && 0 <= v <= MAX_SAFE_INTEGER
    ensures GroupOf(e) == Some((key, session)) && NumberOf(e).value.signerSeq == v
  {
  }

  lemma AttemptOfKey(es: seq<Event>, k: OpKey) returns (d: Event)
    requires k in Attempts(es)
    ensures d in es && IsAttempt(d) && KeyOf(d) == k
  {
    d :| d in es && IsAttempt(d) && KeyOf(d) == k;
  }

  lemma RefusalFits(t: T.Tool, es: seq<Event>, key: string, id: string)
    requires Kept(t, es) && id in t.actions && t.actions[id].refusal.Some?
    requires t.actions[id].amcp.signer == Some(key) && t.actions[id].attempt.Some?
    requires t.actions[id].refusal.value in es
    requires T.IsRefusalReason(t.actions[id].owes.value)
    ensures var f := t.actions[id].refusal.value;
            && GroupOf(f) == Some((key, t.session)) && IsRefusal(f)
            && KeyOf(f) == OpKey(Some(t.session), Some(id))
            && t.actions[id].attempt.value.signerSeq.Some?
            && NumberOf(f).value.signerSeq > t.actions[id].attempt.value.signerSeq.value
            && T.Sent(f, true) in t.log
  {
    assert T.ActionInv(t.session, t.next, id, t.actions[id]);
    assert T.RefusalSent(t, t.actions[id]);
    assert NumberOf(t.actions[id].refusal.value).Some?;
    hide T.NumberingInv, T.PlainInv, T.SentInv, T.AttemptSent, Attempts, Emitted;
  }

  // ----- the assignment -----

  lemma {:induction false} SentIsCompleted(log: seq<T.Sent>, e: Event)
    requires T.Sent(e, true) in log
    ensures e in T.Completed(log)
  {
    var before, last := log[..|log| - 1], log[|log| - 1];
    assert log == before + [last];
    if T.Sent(e, true) in before {
      SentIsCompleted(before, e);
    }
  }

  /** No two completed emissions share a number. */
  lemma OneCompletedPerNumber(t: T.Tool, d: Event, e: Event)
    requires T.NumberingInv(t) && T.Sent(d, true) in t.log && T.Sent(e, true) in t.log && d.signerSeq == e.signerSeq
    ensures d == e
  {
    SentIsCompleted(t.log, d);
    SentIsCompleted(t.log, e);
    var i :| 0 <= i < |T.Completed(t.log)| && T.Completed(t.log)[i] == d;
    var j :| 0 <= j < |T.Completed(t.log)| && T.Completed(t.log)[j] == e;
    assert T.Completed(t.log)[i].signerSeq == Some(t.start + i) && T.Completed(t.log)[j].signerSeq == Some(t.start + j);
  }

  /** Two missing numbers whose refusals share a number are one. */
  lemma OneRefusalEach(t: T.Tool, es: seq<Event>, key: string, v: int, u: int)
    requires T.ToolInv(t) && t.start == 0 && Answered(t, es, key, v) && Answered(t, es, key, u)
    requires NumberOf(RefusalFor(t, v)).value.signerSeq == NumberOf(RefusalFor(t, u)).value.signerSeq
    ensures v == u
  {
    hide T.ActionInv, T.SentInv, T.PlainInv, T.RefusalSent, Attempts, T.SectionInv;
    var d, e := RefusalFor(t, v), RefusalFor(t, u);
    assert d.signerSeq == e.signerSeq;
    OneCompletedPerNumber(t, d, e);
    assert T.Completed(t.log)[v] == T.Completed(t.log)[u];
  }

  /** The numbers missing under the tool's key and session were all used by the tool. */
  lemma MissingIsUsed(t: T.Tool, es: seq<Event>, key: string, v: int)
    requires Kept(t, es) && v in MissingUnder(t, es, key)
    ensures 0 <= v < t.next && v <= MAX_SAFE_INTEGER
    ensures forall e :: e in es && GroupOf(e) == Some((key, t.session)) ==> NumberOf(e).value.signerSeq != v
  {
    hide OutcomesSealed, Entries, Values, T.ActionInv, T.SentInv, T.PlainInv, T.SectionInv;
    var g := (key, t.session);
    var present := Values(Entries(es, g));
    EntriesAre(es, g, v);
    var q := Ascending(present);
    assert Top(present) in q;
    EntriesAre(es, g, Top(present));
    var e :| e in es && GroupOf(e) == Some(g) && NumberOf(e).value.signerSeq == Top(present);
    assert e in Emitted(t);
    NumberInLog(t, e);
  }

  lemma NumberInLog(t: T.Tool, e: Event)
    requires T.ToolInv(t) && e in Emitted(t) && e.keyId.Some? && e.signerSeq.Some?
    ensures e.signerSeq.value <= t.next
  {
    hide T.ActionInv, T.SentInv, T.PlainInv;
    PlainIsUnkeyed(t);
    var x :| x in t.log && x.event == e;
  }

  lemma PlainIsUnkeyed(t: T.Tool)
    requires T.ToolInv(t)
    ensures forall e :: e in t.plain ==> e.keyId.None?
  {
    forall e | e in t.plain ensures e.keyId.None? {
      assert T.PlainInv(t, e);
    }
  }

  ghost function IndexIn(q: seq<int>, x: int): (i: nat)
    requires x in q
    ensures i < |q| && q[i] == x
  {
    var i :| 0 <= i < |q| && q[i] == x;
    i
  }

  /** Every number of `missing` has its refusal among those the accounting counts. */
  ghost predicate AllAnswered(t: T.Tool, es: seq<Event>, key: string, missing: set<int>) {
    forall v :: v in missing ==>
      && Answered(t, es, key, v)
      && NumberOf(RefusalFor(t, v)).value.signerSeq in Sort(Refusals(Entries(es, (key, t.session))))
  }

  lemma AllAreAnswered(t: T.Tool, es: seq<Event>, key: string)
    requires Kept(t, es)
    ensures AllAnswered(t, es, key, MissingUnder(t, es, key) * Refused(t, key))
  {
    hide Kept, MissingUnder, Entries, Refusals, NumberOf, IsRefusal, Attempts, Refused;
    var g := (key, t.session);
    forall v | v in MissingUnder(t, es, key) * Refused(t, key)
      ensures Answered(t, es, key, v) && NumberOf(RefusalFor(t, v)).value.signerSeq in Sort(Refusals(Entries(es, g)))
    {
      MissingIsUsed(t, es, key, v);
      MissingIsAnswered(t, es, key, v);
      RefusalCounts(es, g, RefusalFor(t, v));
      var n := NumberOf(RefusalFor(t, v)).value.signerSeq;
      assert n in multiset(Refusals(Entries(es, g)));
      assert n in multiset(Sort(Refusals(Entries(es, g))));
    }
  }

  ghost function Assigned(t: T.Tool, es: seq<Event>, key: string, missing: set<int>): map<int, int>
    requires AllAnswered(t, es, key, missing)
  {
    var q := Sort(Refusals(Entries(es, (key, t.session))));
    map v | v in missing :: IndexIn(q, NumberOf(RefusalFor(t, v)).value.signerSeq)
  }

  lemma AssignedIsAssignment(t: T.Tool, es: seq<Event>, key: string, mine: set<int>, missing: set<int>)
    requires T.ToolInv(t) && t.start == 0 && mine <= missing && AllAnswered(t, es, key, mine)
    ensures Assignment(Assigned(t, es, key, mine), missing, Sort(Refusals(Entries(es, (key, t.session)))))
  {
    hide T.ToolInv, Refusals, Entries, IsRefusal, Attempts;
    var to := Assigned(t, es, key, mine);
    forall v, u | v in to && u in to && to[v] == to[u] ensures v == u {
      OneRefusalEach(t, es, key, v, u);
    }
  }

  /** What is left under a key is no more than the missing numbers that are not those of refused attempts. */
  lemma RefusedAreAccounted(t: T.Tool, es: seq<Event>, key: string)
    requires Kept(t, es)
    ensures |Unaccounted(es, (key, t.session))| <= |MissingUnder(t, es, key) - Refused(t, key)|
  {
    hide T.ToolInv, Entries, Missing, Values, Refusals, AllAnswered, Account, Assignment, Refused;
    var missing := MissingUnder(t, es, key);
    var mine := missing * Refused(t, key);
    var q := Sort(Refusals(Entries(es, (key, t.session))));
    AllAreAnswered(t, es, key);
    AssignedIsAssignment(t, es, key, mine, missing);
    var to := Assigned(t, es, key, mine);
    assert to.Keys == mine;
    assert |to| == |to.Keys|;
    AccountIsOptimal(missing, q, to);
    assert missing == mine + (missing - Refused(t, key));
    assert |missing| == |mine| + |missing - Refused(t, key)|;
  }

  // ----- exactly what is left -----

  /** Every emission ended normally: no section was left by an exception, and none is under way. */
  predicate AtRest(t: T.Tool) {
    forall x :: x in t.log ==> x.completed
  }

  /** `f` is the refusal of the action whose attempt has number `v`. */
  predicate Declines(t: T.Tool, f: Event, v: int) {
    && f.id.Some? && f.id.value in t.actions
    && var a := t.actions[f.id.value];
    && a.refusal == Some(f) && a.amcp.signer.Some? && a.attempt.Some? && a.attempt.value.signerSeq == Some(v)
  }

  /** A refusal that the accounting counts is of an attempt whose number is missing. */
  lemma CountedIsRefused(t: T.Tool, es: seq<Event>, key: string, f: Event) returns (v: int)
    requires Kept(t, es) && AtRest(t) && f in es && KeyOf(f) !in Attempts(es)
    requires GroupOf(f) == Some((key, t.session)) && IsRefusal(f)
    ensures Declines(t, f, v) && v in MissingUnder(t, es, key) * Refused(t, key)
  {
    PlainIsUnkeyed(t);
    var x :| x in t.log && x.event == f;
    assert T.SentInv(t, x);
    var id := f.id.value;
    var a := t.actions[id];
    assert T.ActionInv(t.session, t.next, id, a) && T.AttemptSent(t, a);
    var e := a.attempt.value;
    v := e.signerSeq.value;
    assert T.Sent(e, true) in t.log;
    hide T.ActionInv, T.SentInv, T.PlainInv, T.RefusalSent, T.AttemptSent, Emitted, OutcomesSealed, Values, Entries;
    NumberIsPlace(t, e);
    AttemptCounts(es, e);
    if v in Values(Entries(es, (key, t.session))) {
      PresentIsSealed(t, es, key, e);
    }
    BelowTop(es, (key, t.session), f, v);
  }

  lemma AttemptCounts(es: seq<Event>, e: Event)
    ensures e in es && IsAttempt(e) ==> KeyOf(e) in Attempts(es)
  {
  }

  /** A number that is present is that of its completed emission. */
  lemma PresentIsSealed(t: T.Tool, es: seq<Event>, key: string, e: Event)
    requires Kept(t, es) && AtRest(t) && T.Sent(e, true) in t.log && e.signerSeq.Some?
    requires e.signerSeq.value in Values(Entries(es, (key, t.session)))
    ensures e in es
  {
    EntriesAre(es, (key, t.session), e.signerSeq.value);
    var d :| d in es && GroupOf(d) == Some((key, t.session)) && NumberOf(d).value.signerSeq == e.signerSeq.value;
    hide T.ActionInv, T.SentInv, T.PlainInv, T.RefusalSent, T.AttemptSent, Emitted, OutcomesSealed, Values, Entries;
    EmittedIsCompleted(t, d);
    OneCompletedPerNumber(t, d, e);
  }

  lemma EmittedIsCompleted(t: T.Tool, d: Event)
    requires T.ToolInv(t) && AtRest(t) && d in Emitted(t) && d.keyId.Some?
    ensures T.Sent(d, true) in t.log
  {
    PlainIsUnkeyed(t);
    var x :| x in t.log && x.event == d;
    assert x == T.Sent(d, true);
  }

  /** In the tool's own numbering a completed emission stands at its number. */
  lemma NumberIsPlace(t: T.Tool, e: Event)
    requires T.ToolInv(t) && t.start == 0 && T.Sent(e, true) in t.log
    ensures e.signerSeq.Some? && 0 <= e.signerSeq.value < |T.Completed(t.log)|
    ensures T.Completed(t.log)[e.signerSeq.value] == e
  {
    SentIsCompleted(t.log, e);
    var i :| 0 <= i < |T.Completed(t.log)| && T.Completed(t.log)[i] == e;
    assert T.Completed(t.log)[i].signerSeq == Some(t.start + i);
    hide T.ActionInv, T.SentInv, T.PlainInv, T.SectionInv;
  }

  lemma BelowTop(es: seq<Event>, g: Group, f: Event, v: int)
    requires f in es && GroupOf(f) == Some(g) && 0 <= v < NumberOf(f).value.signerSeq
    ensures v < Top(Values(Entries(es, g)))
  {
    EntriesAre(es, g, NumberOf(f).value.signerSeq);
    var q := Ascending(Values(Entries(es, g)));
    assert NumberOf(f).value.signerSeq in q;
    var i :| 0 <= i < |q| && q[i] == NumberOf(f).value.signerSeq;
    hide Values, Entries;
  }

  /** The refusals counted are no more than the refused attempts whose numbers are missing: each is of its own. */
  lemma {:induction false} CountedAreRefused(t: T.Tool, es: seq<Event>, key: string, n: nat) returns (counted: set<int>)
    requires Kept(t, es) && AtRest(t) && WellKept(es, true) && n <= |es|
    ensures |counted| == |Refusals(Entries(es[..n], (key, t.session)))|
    ensures counted <= MissingUnder(t, es, key) * Refused(t, key)
    ensures forall v :: v in counted ==> exists p :: 0 <= p < n && Declines(t, es[p], v) && !IsAttempt(es[p])
    decreases n
  {
    hide Kept, WellKept, MissingUnder, Refused, Attempts, AtRest, NumberOf, Declines, Entries, Refusals;
    NothingCounted(es, (key, t.session));
    counted := {};
    if n > 0 {
      counted := CountedAreRefused(t, es, key, n - 1);
      var f := es[n - 1];
      EntryAfter(es, (key, t.session), n);
      if GroupOf(f) == Some((key, t.session)) && IsRefusal(f) && KeyOf(f) !in Attempts(es[..n - 1]) {
        RefusedForGood(es, n - 1);
        var v := CountedIsRefused(t, es, key, f);
        if p :| 0 <= p < n - 1 && Declines(t, es[p], v) && !IsAttempt(es[p]) {
          SameOperation(t, es, es[p], f, v);
          EndsOnce(es, p, n - 1);
        }
        counted := counted + {v};
      }
    }
  }

  lemma NothingCounted(es: seq<Event>, g: Group)
    ensures Refusals(Entries(es[..0], g)) == []
  {
  }

  lemma EntryAfter(es: seq<Event>, g: Group, n: nat)
    requires 0 < n <= |es|
    ensures var f := es[n - 1];
            |Refusals(Entries(es[..n], g))| == |Refusals(Entries(es[..n - 1], g))|
              + if GroupOf(f) == Some(g) && IsRefusal(f) && KeyOf(f) !in Attempts(es[..n - 1]) then 1 else 0
  {
    var before, f := es[..n - 1], es[n - 1];
    assert es[..n][..|es[..n]| - 1] == before;
    if GroupOf(f) == Some(g) {
      var x := Entry(NumberOf(f).value.signerSeq, f, KeyOf(f) in Attempts(before));
      assert Entries(es[..n], g) == Entries(before, g) + [x];
      assert (Entries(before, g) + [x])[..|Entries(before, g)|] == Entries(before, g);
    }
    hide Attempts, NumberOf, IsRefusal;
  }

  /** An operation refused before its attempt was sealed has no attempt sealed afterwards. */
  lemma RefusedForGood(es: seq<Event>, n: nat)
    requires WellKept(es, true) && n < |es| && !IsAttempt(es[n]) && KeyOf(es[n]) !in Attempts(es[..n])
    ensures KeyOf(es[n]) !in Attempts(es)
  {
    hide WellKept, NumberOf, Attempts;
    if KeyOf(es[n]) in Attempts(es) {
      var d := AttemptOfKey(es, KeyOf(es[n]));
      var j :| 0 <= j < |es| && es[j] == d;
      if j < n {
        InSets(es[..n], j);
      } else {
        EndsOnce(es, n, j);
      }
    }
  }

  /** Nothing of an operation is sealed after its end. */
  lemma EndsOnce(es: seq<Event>, i: nat, j: nat)
    requires WellKept(es, true) && i < j < |es| && !IsAttempt(es[i])
    ensures KeyOf(es[i]) != KeyOf(es[j])
  {
    hide WellKept;
    Lifecycle(es, true);
  }

  lemma SameOperation(t: T.Tool, es: seq<Event>, d: Event, f: Event, v: int)
    requires Kept(t, es) && AtRest(t) && Declines(t, d, v) && Declines(t, f, v)
    ensures KeyOf(d) == KeyOf(f)
  {
    var a, b := t.actions[d.id.value], t.actions[f.id.value];
    assert T.ActionInv(t.session, t.next, d.id.value, a) && T.AttemptSent(t, a);
    assert T.ActionInv(t.session, t.next, f.id.value, b) && T.AttemptSent(t, b);
    assert T.Sent(a.attempt.value, true) in t.log && T.Sent(b.attempt.value, true) in t.log;
    hide T.SentInv, T.PlainInv, T.RefusalSent, T.NumberingInv, Emitted, OutcomesSealed;
    KeptNumbering(t, es);
    OneCompletedPerNumber(t, a.attempt.value, b.attempt.value);
  }

  lemma KeptNumbering(t: T.Tool, es: seq<Event>)
    requires Kept(t, es)
    ensures T.NumberingInv(t)
  {
  }

  lemma NothingLeft(s: set<int>)
    requires |s| <= 0
    ensures s == {}
  {
  }

  lemma {:induction false} OneEach(missing: set<int>, refusals: seq<int>)
    ensures |Account(missing, refusals)| >= |missing| - |refusals|
    decreases |refusals|
  {
    if refusals != [] {
      var below := Below(missing, refusals[0]);
      if below == {} {
        OneEach(missing, refusals[1..]);
      } else {
        OneEach(missing - {Min(below)}, refusals[1..]);
      }
    }
  }

  /** With every emission completed and every operation ended once, exactly those numbers are left. */
  lemma ExactlyUnrefused(t: T.Tool, es: seq<Event>, key: string)
    requires Kept(t, es) && AtRest(t) && WellKept(es, true)
    ensures |Unaccounted(es, (key, t.session))| == |MissingUnder(t, es, key) - Refused(t, key)|
  {
    hide Kept, AtRest, WellKept, Entries, Missing, Values, Refusals, Account, Refused, Declines;
    var missing := MissingUnder(t, es, key);
    var refusals := Refusals(Entries(es, (key, t.session)));
    RefusedAreAccounted(t, es, key);
    var counted := CountedAreRefused(t, es, key, |es|);
    assert es[..|es|] == es;
    OneEach(missing, Sort(refusals));
    SameLength(refusals, Sort(refusals));
    NoMore(counted, missing * Refused(t, key));
    assert missing == missing * Refused(t, key) + (missing - Refused(t, key));
    assert |missing| == |missing * Refused(t, key)| + |missing - Refused(t, key)|;
  }

  lemma SameLength(a: seq<int>, b: seq<int>)
    requires multiset(a) == multiset(b)
    ensures |a| == |b|
  {
    assert |multiset(a)| == |a| && |multiset(b)| == |b|;
  }

  lemma NoMore(a: set<int>, b: set<int>)
    requires a <= b
    ensures |a| <= |b|
  {
    assert b == a + (b - a);
  }

  // ----- over a run -----

  lemma RunIsKept(cfg: Config, w: World, faithful: bool)
    requires cfg.level2 && WorldInv(cfg, w, faithful) && w.tool.start == 0
    requires OutcomesSealed(w.tool, EventsOf(w.sys.store.records))
    ensures Kept(w.tool, EventsOf(w.sys.store.records))
  {
    hide T.ToolInv, OutcomesSealed, Emitted, AllMay, HostTracks, ChainInv, AnswersStand, NumberOf, SchemaValid;
    var es := EventsOf(w.sys.store.records);
    SoundEvents(es, cfg.level2, false);
    forall e | e in es && e.session == Some(w.tool.session) ensures e in Emitted(w.tool) {
      var i :| 0 <= i < |es| && es[i] == e;
      assert w.sys.store.records[i] in w.sys.store.records;
    }
  }

  /** The tool and the ledger at the end of a run of deeds in which every outcome the tool emitted is sealed. */
  ghost predicate Delivered(cfg: Config, session: string, ds: seq<Deed>, faithful: bool) {
    && cfg.level2 && AllAllowed(cfg, Begin(session, 0), ds, faithful)
    && var w := AfterAll(cfg, Begin(session, 0), ds, faithful);
    OutcomesSealed(w.tool, EventsOf(w.sys.store.records))
  }

  lemma DeliveredIsKept(cfg: Config, session: string, ds: seq<Deed>, faithful: bool)
    requires Delivered(cfg, session, ds, faithful)
    ensures var w := AfterAll(cfg, Begin(session, 0), ds, faithful);
            && WorldInv(cfg, w, faithful) && Kept(w.tool, EventsOf(w.sys.store.records)) && w.tool.session == session
  {
    hide AllAllowed, AfterAll, WorldInv, OutcomesSealed, Kept;
    BeginInv(cfg, session, 0, faithful);
    AllKeepInv(cfg, Begin(session, 0), ds, faithful);
    SessionStands(cfg, Begin(session, 0), ds, faithful);
    RunIsKept(cfg, AfterAll(cfg, Begin(session, 0), ds, faithful), faithful);
  }

  /**
   * What a tool leaves unaccounted. Over any run of a Level-2 host - ids opened again included - and of a tool that
   * numbers its session from 0, over any transport: if every outcome the tool emitted is sealed, then under each
   * key no more numbers are left than are missing there and not those of attempts the tool refused as rejected or
   * unavailable.
   */
  lemma LeftIsUnrefused(cfg: Config, session: string, ds: seq<Deed>, key: string, faithful: bool)
    requires Delivered(cfg, session, ds, faithful)
    ensures var w := AfterAll(cfg, Begin(session, 0), ds, faithful);
            var es := EventsOf(w.sys.store.records);
            |Unaccounted(es, (key, session))| <= |MissingUnder(w.tool, es, key) - Refused(w.tool, key)|
  {
    hide AllAllowed, AfterAll, WorldInv, OutcomesSealed, Kept, Unaccounted, MissingUnder, Refused;
    DeliveredIsKept(cfg, session, ds, faithful);
    var w := AfterAll(cfg, Begin(session, 0), ds, faithful);
    RefusedAreAccounted(w.tool, EventsOf(w.sys.store.records), key);
  }

  /**
   * And exactly so many, where no id that a committed record carries is opened again and every emission of the
   * tool completed. So nothing is left under a key - if and only if each number missing there is that of an attempt
   * the tool refused as rejected or unavailable.
   */
  lemma NothingLeftIff(cfg: Config, session: string, ds: seq<Deed>, key: string, faithful: bool)
    requires Delivered(cfg, session, ds, faithful) && AllFresh(cfg, Begin(session, 0), ds, faithful)
    requires AtRest(AfterAll(cfg, Begin(session, 0), ds, faithful).tool)
    ensures var w := AfterAll(cfg, Begin(session, 0), ds, faithful);
            var es := EventsOf(w.sys.store.records);
            && |Unaccounted(es, (key, session))| == |MissingUnder(w.tool, es, key) - Refused(w.tool, key)|
            && (Unaccounted(es, (key, session)) == {} <==> MissingUnder(w.tool, es, key) <= Refused(w.tool, key))
  {
    hide AllAllowed, AllFresh, AfterAll, WorldInv, OutcomesSealed, Kept, AtRest, Unaccounted, MissingUnder, Refused,
         HostInv, Linked, WellKept, Extends, HeldInv;
    DeliveredIsKept(cfg, session, ds, faithful);
    StartInv(cfg);
    AllKeepSystem(cfg, Begin(session, 0), ds, faithful);
    var w := AfterAll(cfg, Begin(session, 0), ds, faithful);
    var es := EventsOf(w.sys.store.records);
    ExactlyUnrefused(w.tool, es, key);
    NothingBeyond(MissingUnder(w.tool, es, key), Refused(w.tool, key));
    EmptyIff(Unaccounted(es, (key, session)));
    EmptyIff(MissingUnder(w.tool, es, key) - Refused(w.tool, key));
  }

  lemma NothingBeyond(a: set<int>, b: set<int>)
    ensures a - b == {} <==> a <= b
  {
    forall x | x in a && a - b == {} ensures x in b {
      assert x !in a - b;
    }
  }

  lemma EmptyIff(s: set<int>)
    ensures s == {} <==> |s| == 0
  {
  }

  // ----- where every accept was the attempt's own -----

  /** A completed emission under `key` that is not in the ledger is an attempt the tool refused. */
  lemma UnsealedIsRefused(cfg: Config, w: World, key: string, faithful: bool, v: int)
    requires WorldInv(cfg, w, faithful) && (faithful || NoStrayAccept(w.tool, key))
    requires Kept(w.tool, EventsOf(w.sys.store.records))
    requires 0 <= v < |T.Completed(w.tool.log)| && v !in Foreign(w.tool, key)
    requires T.Completed(w.tool.log)[v] !in EventsOf(w.sys.store.records)
    ensures v in Refused(w.tool, key)
  {
    var t, es := w.tool, EventsOf(w.sys.store.records);
    var e := T.Completed(t.log)[v];
    CompletedIsSent(t.log, e);
    assert T.SentInv(t, T.Sent(e, true));
    var id := e.id.value;
    var a := t.actions[id];
    assert T.ActionInv(t.session, t.next, id, a);
    hide T.ActionInv, T.SentInv, T.PlainInv, T.NumberingInv, T.ToolInv, Standing, OwnRecords, CommittedAs, AccountedFor,
         Emitted;
    if a.answered.Some? && a.answered.value.Accept? {
      if faithful {
        assert Given(w, true, a.attempt, a.answered.value);
        assert AnswerStands(w.sys, (a.attempt.value, a.answered.value));
        CommittedIsStored(w.sys, a.attempt.value, a.answered.value);
      } else if a.accept.Some? {
        SignedStopsPolluted(t, id);
        hide WorldInv, Kept;
        ClearedIsCommitted(cfg, w, id, faithful);
        CommittedIsStored(w.sys, a.attempt.value, a.accept.value);
      }
    }
  }

  lemma SignedStopsPolluted(t: T.Tool, id: string)
    requires T.ToolInv(t) && id in t.actions && t.actions[id].amcp.signer.Some?
    ensures t.actions[id].amcp.pollutedStop
  {
    assert T.ActionInv(t.session, t.next, id, t.actions[id]);
  }

  lemma CommittedIsStored(sys: System, e: Event, a: Answer)
    requires CommittedAs(sys.host.ledger, sys.store, e, a)
    ensures e in EventsOf(sys.store.records)
  {
    assert EventsOf(sys.store.records)[a.position] == e;
  }

  lemma UnrefusedIsForeign(cfg: Config, w: World, key: string, faithful: bool)
    requires WorldInv(cfg, w, faithful) && (faithful || NoStrayAccept(w.tool, key))
    requires Kept(w.tool, EventsOf(w.sys.store.records))
    ensures var missing := MissingUnder(w.tool, EventsOf(w.sys.store.records), key);
            missing - Refused(w.tool, key) <= missing * Foreign(w.tool, key)
  {
    var t, es := w.tool, EventsOf(w.sys.store.records);
    hide WorldInv, NoStrayAccept, MissingUnder, Refused, Foreign, NumberOf;
    forall v | v in MissingUnder(t, es, key) - Refused(t, key) ensures v in Foreign(t, key) {
      MissingIsUsed(t, es, key, v);
      MissingIsUnsealed(t, es, key, v);
      if v !in Foreign(t, key) {
        UnsealedIsRefused(cfg, w, key, faithful, v);
      }
    }
  }

  lemma MissingIsUnsealed(t: T.Tool, es: seq<Event>, key: string, v: int)
    requires Kept(t, es) && 0 <= v < t.next && v <= MAX_SAFE_INTEGER
    requires forall e :: e in es && GroupOf(e) == Some((key, t.session)) ==> NumberOf(e).value.signerSeq != v
    ensures v < |T.Completed(t.log)| && (v !in Foreign(t, key) ==> T.Completed(t.log)[v] !in es)
  {
    UsedNumber(t, v);
    var e := T.Completed(t.log)[v];
    CompletedIsSent(t.log, e);
    assert T.SentInv(t, T.Sent(e, true));
    hide T.ActionInv, T.SentInv, T.PlainInv, Emitted, NumberOf;
    if v !in Foreign(t, key) {
      NumberedUnder(e, key, t.session, v);
    }
  }

  /**
   * What an honest tool leaves unaccounted. Where the transport hands each attempt its own answers, or mixes them
   * up and the tool is not left with an accept it turned down, no more numbers are left under a key than are
   * missing there because the session used them under another.
   */
  lemma LeftUnderOneKey(cfg: Config, session: string, ds: seq<Deed>, key: string, faithful: bool)
    requires Delivered(cfg, session, ds, faithful)
    requires faithful || NoStrayAccept(AfterAll(cfg, Begin(session, 0), ds, faithful).tool, key)
    ensures var w := AfterAll(cfg, Begin(session, 0), ds, faithful);
            var es := EventsOf(w.sys.store.records);
            |Unaccounted(es, (key, session))| <= |MissingUnder(w.tool, es, key) * Foreign(w.tool, key)|
  {
    hide AllAllowed, AfterAll, WorldInv, OutcomesSealed, Kept, NoStrayAccept, Unaccounted, MissingUnder, Refused,
         Foreign;
    LeftIsUnrefused(cfg, session, ds, key, faithful);
    DeliveredIsKept(cfg, session, ds, faithful);
    var w := AfterAll(cfg, Begin(session, 0), ds, faithful);
    var missing := MissingUnder(w.tool, EventsOf(w.sys.store.records), key);
    UnrefusedIsForeign(cfg, w, key, faithful);
    NoMore(missing - Refused(w.tool, key), missing * Foreign(w.tool, key));
  }

  /** So a tool that signs the session under one key leaves no unexplained gap. */
  lemma HonestToolLeavesNoGap(cfg: Config, session: string, ds: seq<Deed>, key: string, faithful: bool)
    requires Delivered(cfg, session, ds, faithful)
    requires var t := AfterAll(cfg, Begin(session, 0), ds, faithful).tool;
             OneKey(t, key) && (faithful || NoStrayAccept(t, key))
    ensures var w := AfterAll(cfg, Begin(session, 0), ds, faithful);
            Unaccounted(EventsOf(w.sys.store.records), (key, session)) == {}
  {
    hide AllAllowed, AfterAll, WorldInv, OneKey, OutcomesSealed, NoStrayAccept, Unaccounted, MissingUnder, Foreign,
         T.ToolInv;
    DeliveredIsKept(cfg, session, ds, faithful);
    LeftUnderOneKey(cfg, session, ds, key, faithful);
    var w := AfterAll(cfg, Begin(session, 0), ds, faithful);
    OneKeyIsNotForeign(w.tool, key);
    var es := EventsOf(w.sys.store.records);
    assert MissingUnder(w.tool, es, key) * Foreign(w.tool, key) == {};
    NothingLeft(Unaccounted(es, (key, session)));
  }

  lemma OneKeyIsNotForeign(t: T.Tool, key: string)
    requires T.ToolInv(t) && OneKey(t, key)
    ensures Foreign(t, key) == {}
  {
    hide T.ActionInv, T.PlainInv, T.NumberingInv, T.RefusalSent, T.AttemptSent;
    forall v | 0 <= v < |T.Completed(t.log)| ensures T.Completed(t.log)[v].keyId == Some(key) {
      CompletedIsSent(t.log, T.Completed(t.log)[v]);
      assert T.SentInv(t, T.Sent(T.Completed(t.log)[v], true));
    }
  }

  /** And an audit of the stored records lists no gap of the tool's key and session. */
  lemma AuditListsNoGapOfHonestTool(cfg: Config, session: string, ds: seq<Deed>, key: string, faithful: bool, gap: Gap)
    requires Delivered(cfg, session, ds, faithful)
    requires var t := AfterAll(cfg, Begin(session, 0), ds, faithful).tool;
             OneKey(t, key) && (faithful || NoStrayAccept(t, key))
    requires var es := EventsOf(AfterAll(cfg, Begin(session, 0), ds, faithful).sys.store.records);
             gap in AllGaps(es, Groups(es))
    ensures gap.keyId != key || gap.session != session
  {
    hide AllAllowed, AfterAll, OneKey, OutcomesSealed, NoStrayAccept, Unaccounted, AllGaps, Groups;
    HonestToolLeavesNoGap(cfg, session, ds, key, faithful);
    var es := EventsOf(AfterAll(cfg, Begin(session, 0), ds, faithful).sys.store.records);
    GapsAreUnaccounted(es, Groups(es), gap);
  }
}
