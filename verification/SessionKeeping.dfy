/** The audit sessions of a connection: one numbering each, kept from a call's first request to its end. */
module SessionKeeping {
  import opened Events

  const MAX_IDLE_SESSIONS := 1024

  /** A session as the tool sees it: the one numbering of its requests, and how many are in flight. */
  datatype Audit = Audit(sessionId: string, live: int)

  /** One request of a call, by the session object it was served under. */
  datatype Request = Request(audit: nat, released: bool)

  /** The requests of session object `a` still in flight. */
  function InFlight(requests: seq<Request>, a: nat): nat {
    if requests == [] then
      0
    else
      var r := requests[|requests| - 1];
      InFlight(requests[..|requests| - 1], a) + if r.audit == a && !r.released then 1 else 0
  }

  lemma {:induction false} InFlightAfter(requests: seq<Request>, r: Request, a: nat)
    ensures InFlight(requests + [r], a) == InFlight(requests, a) + if r.audit == a && !r.released then 1 else 0
  {
    assert (requests + [r])[..|requests|] == requests;
  }

  lemma {:induction false} InFlightReleased(requests: seq<Request>, n: nat, a: nat)
    requires n < |requests| && !requests[n].released
    ensures InFlight(requests[n := requests[n].(released := true)], a)
            == InFlight(requests, a) - if requests[n].audit == a then 1 else 0
  {
    var after := requests[n := requests[n].(released := true)];
    var k := |requests| - 1;
    if n == k {
      assert after[..k] == requests[..k];
    } else {
      assert after[..k] == requests[..k][n := requests[..k][n].(released := true)];
      InFlightReleased(requests[..k], n, a);
    }
  }

  lemma {:induction false} SomeInFlight(requests: seq<Request>, n: nat)
    requires n < |requests| && !requests[n].released
    ensures InFlight(requests, requests[n].audit) >= 1
  {
    if n < |requests| - 1 {
      SomeInFlight(requests[..|requests| - 1], n);
    }
  }

  lemma {:induction false} NoneInFlight(requests: seq<Request>, a: nat)
    requires forall i :: 0 <= i < |requests| ==> requests[i].audit < a
    ensures InFlight(requests, a) == 0
  {
    if requests != [] {
      NoneInFlight(requests[..|requests| - 1], a);
    }
  }

  function Dropped(idle: seq<string>, s: string): (r: seq<string>)
    ensures |r| <= |idle|
    ensures forall x :: x in r <==> x in idle && x != s
  {
    if idle == [] then
      []
    else if idle[0] == s then
      Dropped(idle[1..], s)
    else
      [idle[0]] + Dropped(idle[1..], s)
  }

  /** `sessions` and `idle` are the transport's tables; `audits` and `requests` hold the objects they refer to.
      `rests` is history: the sessions left with nothing in flight, each time they were, in order. */
  datatype Keeping = Keeping(
    audits: seq<Audit>,
    sessions: map<string, nat>,
    idle: seq<string>,
    requests: seq<Request>,
    rests: seq<string>)

  const NEW_KEEPING := Keeping([], map[], [], [], [])

  /** The last place of `x` in `q`, or -1. */
  function LastIn(q: seq<string>, x: string): (i: int)
    ensures -1 <= i < |q|
    ensures 0 <= i ==> q[i] == x
    ensures forall j :: i < j < |q| ==> q[j] != x
  {
    if q == [] then -1 else if q[|q| - 1] == x then |q| - 1 else LastIn(q[..|q| - 1], x)
  }

  ghost predicate Inv(k: Keeping) {
    Tables(k) && |k.idle| <= MAX_IDLE_SESSIONS
  }

  /** The tables agree with the requests in flight. */
  ghost predicate Tables(k: Keeping) {
    && (forall n :: 0 <= n < |k.requests| ==> k.requests[n].audit < |k.audits|)
    && (forall a :: 0 <= a < |k.audits| ==> k.audits[a].live == InFlight(k.requests, a))
    && (forall a :: 0 <= a < |k.audits| && k.audits[a].live > 0 ==> HoldsSession(k, a))
    && (forall s :: s in k.sessions ==> k.sessions[s] < |k.audits| && k.audits[k.sessions[s]].sessionId == s)
    && (forall s :: s in k.idle <==> s in k.sessions && k.audits[k.sessions[s]].live == 0)
    && Distinct(k.idle)
    && InOrderOfRest(k.idle, k.rests)
  }

  /** The longer idle come first. */
  ghost predicate InOrderOfRest(idle: seq<string>, rests: seq<string>) {
    && (forall i :: 0 <= i < |idle| ==> LastIn(rests, idle[i]) >= 0)
    && (forall i, j :: 0 <= i < j < |idle| ==> LastIn(rests, idle[i]) < LastIn(rests, idle[j]))
  }

  lemma {:induction false} DroppedInOrder(idle: seq<string>, rests: seq<string>, s: string)
    requires InOrderOfRest(idle, rests)
    ensures InOrderOfRest(Dropped(idle, s), rests)
  {
    hide LastIn, InOrderOfRest;
    if idle != [] {
      RestInOrder(idle, rests);
      DroppedInOrder(idle[1..], rests, s);
      FirstInOrder(idle[0], Dropped(idle[1..], s), rests);
    }
  }

  lemma RestInOrder(idle: seq<string>, rests: seq<string>)
    requires InOrderOfRest(idle, rests) && idle != []
    ensures InOrderOfRest(idle[1..], rests) && LastIn(rests, idle[0]) >= 0
    ensures forall x :: x in idle[1..] ==> LastIn(rests, idle[0]) < LastIn(rests, x)
  {
    hide LastIn;
  }

  lemma FirstInOrder(first: string, rest: seq<string>, rests: seq<string>)
    requires InOrderOfRest(rest, rests) && LastIn(rests, first) >= 0
    requires forall x :: x in rest ==> LastIn(rests, first) < LastIn(rests, x)
    ensures InOrderOfRest([first] + rest, rests)
  {
    hide LastIn;
  }

  /** A session just left with nothing in flight is the one idle shortest. */
  lemma RestsLast(idle: seq<string>, rests: seq<string>, s: string)
    requires InOrderOfRest(idle, rests) && s !in idle
    ensures InOrderOfRest(idle + [s], rests + [s])
  {
    forall x | x in idle ensures LastIn(rests + [s], x) == LastIn(rests, x) {
      assert (rests + [s])[..|rests|] == rests;
    }
    assert LastIn(rests + [s], s) == |rests|;
    forall i | 0 <= i < |idle| ensures idle[i] in idle {
    }
  }

  ghost predicate Distinct(q: seq<string>) {
    forall i, j :: 0 <= i < j < |q| ==> q[i] != q[j]
  }

  lemma {:induction false} DroppedDistinct(idle: seq<string>, s: string)
    requires Distinct(idle)
    ensures Distinct(Dropped(idle, s)) && Distinct(Dropped(idle, s) + [s])
  {
    if idle != [] {
      DroppedDistinct(idle[1..], s);
      var rest := Dropped(idle[1..], s);
      assert forall i :: 0 <= i < |rest| ==> rest[i] in rest;
      assert forall i :: 1 <= i < |idle| ==> idle[i] != idle[0] && idle[i] == idle[1..][i - 1];
      assert idle[0] !in idle[1..];
    }
  }

  ghost predicate HoldsSession(k: Keeping, a: nat)
    requires a < |k.audits|
  {
    k.audits[a].sessionId in k.sessions && k.sessions[k.audits[a].sessionId] == a
  }

  /** A request of a session arrives: served under the session held, or a new one. */
  function Take(k: Keeping, s: string): Keeping {
    if s in k.sessions && k.sessions[s] < |k.audits| then
      var a := k.sessions[s];
      k.(audits := k.audits[a := k.audits[a].(live := k.audits[a].live + 1)], idle := Dropped(k.idle, s),
         requests := k.requests + [Request(a, false)])
    else
      var a := |k.audits|;
      k.(audits := k.audits + [Audit(s, 1)], sessions := k.sessions[s := a], idle := Dropped(k.idle, s),
         requests := k.requests + [Request(a, false)])
  }

  /** A request ends. With none left in flight the session goes where the call ended, and waits, evictable,
      where the tool's own round is to be retried. */
  function Release(k: Keeping, n: nat, last: bool): Keeping
    requires n < |k.requests|
  {
    var r := k.requests[n];
    if r.released || r.audit >= |k.audits| then
      k
    else
      var x := k.audits[r.audit].(live := k.audits[r.audit].live - 1);
      var j := k.(audits := k.audits[r.audit := x], requests := k.requests[n := r.(released := true)]);
      if x.live > 0 then
        j
      else if last then
        j.(sessions := j.sessions - {x.sessionId}, idle := Dropped(j.idle, x.sessionId))
      else
        Evict(Rested(j, x.sessionId))
  }

  /** The session waits, evictable. */
  function Rested(k: Keeping, s: string): Keeping {
    k.(idle := Dropped(k.idle, s) + [s], rests := k.rests + [s])
  }

  function Evict(k: Keeping): Keeping {
    if |k.idle| > MAX_IDLE_SESSIONS then
      k.(idle := k.idle[1..], sessions := k.sessions - {k.idle[0]})
    else
      k
  }

  // ----- what every request keeps -----

  lemma TakeKeeps(k: Keeping, s: string)
    requires Inv(k)
    ensures Inv(Take(k, s))
  {
    hide LastIn, InOrderOfRest;
    var j := Take(k, s);
    var r := j.requests[|k.requests|];
    forall a | 0 <= a < |j.audits| ensures j.audits[a].live == InFlight(j.requests, a) {
      InFlightAfter(k.requests, r, a);
      if a == |k.audits| {
        NoneInFlight(k.requests, a);
      }
    }
    forall a | 0 <= a < |j.audits| && j.audits[a].live > 0 ensures HoldsSession(j, a) {
      assert a < |k.audits| && k.audits[a].live > 0 ==> HoldsSession(k, a);
    }
    DroppedDistinct(k.idle, s);
    DroppedInOrder(k.idle, k.rests, s);
    hide InFlight;
  }

  lemma ReleaseKeeps(k: Keeping, n: nat, last: bool)
    requires Inv(k) && n < |k.requests|
    ensures Inv(Release(k, n, last))
  {
    var r := k.requests[n];
    if !r.released {
      var a := r.audit;
      var s := k.audits[a].sessionId;
      var j := Released(k, n);
      ReleasedCounts(k, n);
      DroppedDistinct(k.idle, s);
      SomeInFlight(k.requests, n);
      assert HoldsSession(k, a);
      forall b | 0 <= b < |j.audits| && j.audits[b].live > 0 ensures HoldsSession(j, b) {
        assert HoldsSession(k, b);
      }
      hide InFlight;
      if j.audits[a].live > 0 {
      } else if last {
        LastReleased(k, j, s, a);
      } else {
        IdleReleased(k, j, s, a);
      }
    }
  }

  /** The request counted out, before the session itself is kept or let go. */
  function Released(k: Keeping, n: nat): Keeping
    requires n < |k.requests| && k.requests[n].audit < |k.audits|
  {
    var r := k.requests[n];
    k.(audits := k.audits[r.audit := k.audits[r.audit].(live := k.audits[r.audit].live - 1)],
       requests := k.requests[n := r.(released := true)])
  }

  lemma ReleasedCounts(k: Keeping, n: nat)
    requires Inv(k) && n < |k.requests| && !k.requests[n].released
    ensures var j := Released(k, n);
            forall a :: 0 <= a < |j.audits| ==> j.audits[a].live == InFlight(j.requests, a)
  {
    var j := Released(k, n);
    forall a | 0 <= a < |j.audits| ensures j.audits[a].live == InFlight(j.requests, a) {
      InFlightReleased(k.requests, n, a);
    }
  }

  /** The tables before the session with nothing in flight any more is placed. */
  ghost predicate Unplaced(k: Keeping, j: Keeping, s: string, a: nat) {
    && j.sessions == k.sessions && j.idle == k.idle && j.rests == k.rests
    && |j.audits| == |k.audits| && a < |j.audits|
    && s in j.sessions && j.sessions[s] == a && j.audits[a].live == 0 && j.audits[a].sessionId == s
    && (forall b :: 0 <= b < |j.audits| && b != a ==> j.audits[b] == k.audits[b])
    && (forall n :: 0 <= n < |j.requests| ==> j.requests[n].audit < |j.audits|)
    && (forall b :: 0 <= b < |j.audits| ==> j.audits[b].live == InFlight(j.requests, b))
    && (forall b :: 0 <= b < |j.audits| && j.audits[b].live > 0 ==> HoldsSession(j, b))
    && (forall t :: t in j.sessions ==> j.sessions[t] < |j.audits| && j.audits[j.sessions[t]].sessionId == t)
    && (forall t :: t in j.idle ==> t in j.sessions && j.audits[j.sessions[t]].live == 0)
    && (forall t :: t in j.sessions && t != s && j.audits[j.sessions[t]].live == 0 ==> t in j.idle)
    && s !in j.idle
  }

  lemma LastReleased(k: Keeping, j: Keeping, s: string, a: nat)
    requires Inv(k) && Unplaced(k, j, s, a)
    ensures Inv(j.(sessions := j.sessions - {s}, idle := Dropped(j.idle, s)))
  {
    hide InFlight;
    DroppedDistinct(j.idle, s);
    DroppedInOrder(j.idle, j.rests, s);
  }

  lemma IdleReleased(k: Keeping, j: Keeping, s: string, a: nat)
    requires Inv(k) && Unplaced(k, j, s, a)
    ensures Inv(Evict(Rested(j, s)))
  {
    hide InFlight, LastIn, InOrderOfRest;
    DroppedDistinct(j.idle, s);
    DroppedInOrder(j.idle, j.rests, s);
    RestsLast(Dropped(j.idle, s), j.rests, s);
    assert Tables(Rested(j, s));
    EvictKeeps(Rested(j, s));
    hide Tables, Unplaced, Evict;
  }

  /** Evicting the session that has been idle longest drops one with nothing in flight. */
  lemma EvictKeeps(k: Keeping)
    requires Tables(k) && |k.idle| <= MAX_IDLE_SESSIONS + 1
    ensures Inv(Evict(k))
  {
    hide InFlight, LastIn;
    if |k.idle| > MAX_IDLE_SESSIONS {
      var out := k.idle[0];
      assert forall t :: t in k.idle <==> t == out || t in k.idle[1..];
      assert out !in k.idle[1..];
    }
  }

  // ----- runs -----

  datatype Move = Takes(session: string) | Releases(n: nat, last: bool)

  predicate Enabled(k: Keeping, m: Move) {
    m.Releases? ==> m.n < |k.requests|
  }

  function Next(k: Keeping, m: Move): Keeping
    requires Enabled(k, m)
  {
    match m
    case Takes(s) => Take(k, s)
    case Releases(n, last) => Release(k, n, last)
  }

  ghost predicate Legal(k: Keeping, ms: seq<Move>)
    decreases |ms|
  {
    ms != [] ==> Enabled(k, ms[0]) && Legal(Next(k, ms[0]), ms[1..])
  }

  ghost function Play(k: Keeping, ms: seq<Move>): Keeping
    requires Legal(k, ms)
    decreases |ms|
  {
    if ms == [] then k else Play(Next(k, ms[0]), ms[1..])
  }

  lemma {:induction false} PlayKeeps(k: Keeping, ms: seq<Move>)
    requires Inv(k) && Legal(k, ms)
    ensures Inv(Play(k, ms))
    decreases |ms|
  {
    hide Inv, Take, Release;
    if ms != [] {
      match ms[0] {
        case Takes(s) => TakeKeeps(k, s);
        case Releases(n, last) => ReleaseKeeps(k, n, last);
      }
      PlayKeeps(Next(k, ms[0]), ms[1..]);
    }
  }

  /**
   * A session's numbering is never split: over every run, two requests of one session in flight together
   * were served under the same session object, and an idle session - the only kind evicted - has none.
   */
  lemma OneNumberingPerSession(ms: seq<Move>, m: nat, n: nat)
    requires Legal(NEW_KEEPING, ms)
    requires var k := Play(NEW_KEEPING, ms);
             m < |k.requests| && n < |k.requests| && !k.requests[m].released && !k.requests[n].released
    ensures var k := Play(NEW_KEEPING, ms);
            && k.requests[m].audit < |k.audits| && k.requests[n].audit < |k.audits|
            && (k.audits[k.requests[m].audit].sessionId == k.audits[k.requests[n].audit].sessionId ==>
                  k.requests[m].audit == k.requests[n].audit)
            && k.audits[k.requests[m].audit].sessionId !in k.idle
            && |k.idle| <= MAX_IDLE_SESSIONS
  {
    hide Play, Legal;
    PlayKeeps(NEW_KEEPING, ms);
    var k := Play(NEW_KEEPING, ms);
    SomeInFlight(k.requests, m);
    SomeInFlight(k.requests, n);
    assert HoldsSession(k, k.requests[m].audit) && HoldsSession(k, k.requests[n].audit);
    hide InFlight;
  }

  // ----- one numbering over a round of the tool's own -----

  /** The session the request belongs to. */
  function SessionOf(k: Keeping, n: nat): Option<string> {
    if n < |k.requests| && k.requests[n].audit < |k.audits| then
      Some(k.audits[k.requests[n].audit].sessionId)
    else
      None
  }

  /** Nothing of `s` ends for good, and no release finds the idle sessions at their bound. */
  ghost predicate Undisturbed(k: Keeping, ms: seq<Move>, s: string)
    requires Legal(k, ms)
    decreases |ms|
  {
    ms != [] ==>
      && (ms[0].Releases? && ms[0].last ==> SessionOf(k, ms[0].n) != Some(s))
      && (ms[0].Releases? && !ms[0].last ==> |k.idle| < MAX_IDLE_SESSIONS)
      && Undisturbed(Next(k, ms[0]), ms[1..], s)
  }

  lemma StepHolds(k: Keeping, m: Move, s: string)
    requires Inv(k) && Enabled(k, m) && s in k.sessions
    requires m.Releases? && m.last ==> SessionOf(k, m.n) != Some(s)
    requires m.Releases? && !m.last ==> |k.idle| < MAX_IDLE_SESSIONS
    ensures s in Next(k, m).sessions && Next(k, m).sessions[s] == k.sessions[s]
  {
    hide InFlight, InOrderOfRest;
    if m.Releases? && !k.requests[m.n].released {
      var t := k.audits[k.requests[m.n].audit].sessionId;
      DroppedDistinct(k.idle, t);
    }
  }

  lemma {:induction false} UndisturbedHolds(k: Keeping, ms: seq<Move>, s: string)
    requires Inv(k) && Legal(k, ms) && s in k.sessions && Undisturbed(k, ms, s)
    ensures s in Play(k, ms).sessions && Play(k, ms).sessions[s] == k.sessions[s] && Inv(Play(k, ms))
    decreases |ms|
  {
    hide Inv, Next, Enabled;
    if ms != [] {
      StepHolds(k, ms[0], s);
      OneMove(k, ms[0]);
      UndisturbedHolds(Next(k, ms[0]), ms[1..], s);
    }
  }

  lemma OneMove(k: Keeping, m: Move)
    requires Inv(k) && Enabled(k, m)
    ensures Inv(Next(k, m))
  {
    hide Inv, Take, Release;
    match m
    case Takes(s) => TakeKeeps(k, s);
    case Releases(n, last) => ReleaseKeeps(k, n, last);
  }

  lemma TakeServes(k: Keeping, s: string)
    requires Inv(k)
    ensures var j := Take(k, s);
            && |j.requests| == |k.requests| + 1 && s in j.sessions
            && j.requests[|k.requests|] == Request(j.sessions[s], false)
            && (s in k.sessions ==> j.sessions[s] == k.sessions[s])
  {
    hide InFlight, InOrderOfRest;
  }

  /**
   * A numbering outlives the round of a tool's own: over every run, two requests of one session are served under
   * one session object, whatever else came and went between them, where nothing of the session ended for good
   * and no release between them found the idle sessions at their bound.
   */
  lemma OneNumberingOverRounds(before: seq<Move>, s: string, between: seq<Move>)
    requires Legal(NEW_KEEPING, before)
    requires Legal(Take(Play(NEW_KEEPING, before), s), between)
    requires Undisturbed(Take(Play(NEW_KEEPING, before), s), between, s)
    ensures var j := Take(Play(NEW_KEEPING, before), s);
            var k := Take(Play(j, between), s);
            && |j.requests| > 0 && |k.requests| > 0
            && k.requests[|k.requests| - 1].audit == j.requests[|j.requests| - 1].audit
  {
    hide Inv, Play, Legal, Undisturbed, Take;
    NewKeeps();
    PlayKeeps(NEW_KEEPING, before);
    var k := Play(NEW_KEEPING, before);
    TakeKeeps(k, s);
    TakeServes(k, s);
    UndisturbedHolds(Take(k, s), between, s);
    TakeServes(Play(Take(k, s), between), s);
  }

  lemma NewKeeps()
    ensures Inv(NEW_KEEPING)
  {
  }

  /**
   * A session held goes in two cases only: nothing of it is left in flight where its call ended, or one more
   * session comes to rest than may be idle, and this is the one that has been idle longest.
   */
  lemma SessionGoesIff(k: Keeping, m: Move, s: string)
    requires Inv(k) && Enabled(k, m) && s in k.sessions
    ensures s !in Next(k, m).sessions <==>
              && m.Releases? && !k.requests[m.n].released && InFlight(k.requests, k.requests[m.n].audit) == 1
              && (if m.last then
                    SessionOf(k, m.n) == Some(s)
                  else
                    && |k.idle| == MAX_IDLE_SESSIONS && s in k.idle
                    && forall t :: t in k.idle ==> LastIn(k.rests, s) <= LastIn(k.rests, t))
  {
    hide InFlight, LastIn;
    if m.Releases? && !k.requests[m.n].released {
      var a := k.requests[m.n].audit;
      var t := k.audits[a].sessionId;
      SomeInFlight(k.requests, m.n);
      assert HoldsSession(k, a);
      DroppedNothing(k.idle, t);
      if k.idle != [] {
        assert k.idle[0] in k.idle;
      }
    }
  }

  lemma {:induction false} DroppedNothing(idle: seq<string>, s: string)
    requires s !in idle
    ensures Dropped(idle, s) == idle
  {
    if idle != [] {
      DroppedNothing(idle[1..], s);
    }
  }

  // ----- in place -----

  class AuditSessions {
    var audits: seq<Audit>
    var sessions: map<string, nat>
    var idle: seq<string>
    var requests: seq<Request>
    ghost var rests: seq<string>

    ghost function State(): Keeping
      reads this
    {
      Keeping(audits, sessions, idle, requests, rests)
    }

    ghost predicate Valid()
      reads this
    {
      Inv(State())
    }

    constructor ()
      ensures State() == NEW_KEEPING && Valid()
    {
      audits, sessions, idle, requests, rests := [], map[], [], [], [];
    }

    /** Serves a request under the session held, or under a new one. */
    method TakeRequest(s: string) returns (a: nat)
      modifies this
      ensures State() == Take(old(State()), s)
      ensures requests == old(requests) + [Request(a, false)]
      ensures old(Valid()) ==> Valid()
    {
      if Inv(State()) {
        TakeKeeps(State(), s);
      }
      hide Inv;
      if s in sessions && sessions[s] < |audits| {
        a := sessions[s];
      } else {
        a := |audits|;
        audits := audits + [Audit(s, 0)];
        sessions := sessions[s := a];
      }
      idle := Dropped(idle, s);
      audits := audits[a := audits[a].(live := audits[a].live + 1)];
      requests := requests + [Request(a, false)];
    }

    /** A request of the call is done, counted once; the session goes, or waits idle, when none is left. */
    method ReleaseRequest(n: nat, last: bool)
      requires n < |requests|
      modifies this
      ensures State() == Release(old(State()), n, last)
      ensures old(Valid()) ==> Valid()
    {
      if Inv(State()) {
        ReleaseKeeps(State(), n, last);
      }
      hide Inv;
      var r := requests[n];
      if r.released || r.audit >= |audits| {
        return;
      }
      requests := requests[n := r.(released := true)];
      var x := audits[r.audit].(live := audits[r.audit].live - 1);
      audits := audits[r.audit := x];
      if x.live > 0 {
        return;
      }
      idle := Dropped(idle, x.sessionId);
      if last {
        sessions := sessions - {x.sessionId};
        return;
      }
      idle := idle + [x.sessionId];
      rests := rests + [x.sessionId];
      if |idle| > MAX_IDLE_SESSIONS {
        sessions := sessions - {idle[0]};
        idle := idle[1..];
      }
    }
  }
}
