/**
 * What the registry stands for, said without its tables: each call with its requests, the order in which calls
 * were used, which of them are gone, and where each token is. The registry is proved to follow this over every
 * run; its order list, its token table with the connections' own sets, and its counters are bookkeeping for it.
 */
module RegistryReference {
  import opened Events
  import opened RegistryModel

  /** One call, with the requests written in and not left; `running` and `undelivered` are its seam's last word. */
  datatype Caller = Caller(
    session: string,
    principal: Option<string>,
    requests: map<nat, Waiter>,
    running: bool,
    undelivered: bool)

  /** Where a token is: its round is out, a retry holds it, or its retry was written. */
  datatype Story = Out(call: nat, own: Option<string>) | InHand(call: nat, own: Option<string>) | Spent

  datatype Reference = Reference(calls: seq<Caller>, gone: set<nat>, uses: seq<nat>, stories: map<Token, Story>)

  const NOTHING := Reference([], {}, [], map[])

  // ----- which call was used when -----

  function UsesOf(uses: seq<nat>, n: nat): nat {
    if uses == [] then 0 else UsesOf(uses[..|uses| - 1], n) + if uses[|uses| - 1] == n then 1 else 0
  }

  /** The place of the last use, or -1. */
  function LastUse(uses: seq<nat>, n: nat): int {
    if uses == [] then -1
    else if uses[|uses| - 1] == n then |uses| - 1
    else LastUse(uses[..|uses| - 1], n)
  }

  predicate Busy(c: Caller) {
    c.requests != map[] || c.running
  }

  predicate Live(r: Reference, n: nat) {
    n < |r.calls| && n !in r.gone
  }

  function LiveCalls(r: Reference): set<nat> {
    set n | 0 <= n < |r.calls| && n !in r.gone
  }

  predicate Idle(r: Reference, n: nat) {
    Live(r, n) && !Busy(r.calls[n]) && !r.calls[n].undelivered
  }

  /** Of the calls that may be closed, the one last used longest ago. */
  ghost predicate IsVictim(r: Reference, n: nat) {
    Idle(r, n) && forall k: nat :: Idle(r, k) && k != n ==> LastUse(r.uses, n) < LastUse(r.uses, k)
  }

  // ----- each move -----

  function Began(r: Reference, session: string, principal: Option<string>): Reference {
    r.(calls := r.calls + [Caller(session, principal, map[], false, false)], uses := r.uses + [|r.calls|])
  }

  ghost predicate HasCall(r: Reference, session: string) {
    exists n: nat :: Live(r, n) && r.calls[n].session == session
  }

  ghost function RefOpen(r: Reference, maxHeld: nat, session: string, principal: Option<string>): Reference {
    if HasCall(r, session) then
      r
    else if |LiveCalls(r)| < maxHeld then
      Began(r, session, principal)
    else if victim :| IsVictim(r, victim) then
      Began(r.(gone := r.gone + {victim}), session, principal)
    else
      r
  }

  /** A request is written in: it is a use of the call, and its number is how often the call was used so. */
  function RefEnter(r: Reference, n: nat, requestId: string, reading: bool): Reference
    requires Live(r, n)
  {
    var c := r.calls[n];
    r.(uses := r.uses + [n],
       calls := if reading then
                  r.calls[n := c.(requests := c.requests[UsesOf(r.uses, n) := Waiter(requestId, false)])]
                else
                  r.calls)
  }

  /** The token may be used: its round is out on a call that is not gone. */
  predicate CanRetry(r: Reference, token: Token) {
    token in r.stories && r.stories[token].Out? && Live(r, r.stories[token].call)
  }

  /** The retry is one the call itself may send: by its own principal, and for a tool's own round of its session. */
  predicate MayPresent(r: Reference, token: Token, principal: Option<string>, named: Option<string>) {
    && CanRetry(r, token)
    && var x := r.stories[token];
       && principal == r.calls[x.call].principal
       && (x.own.Some? ==> named == Some(r.calls[x.call].session))
  }

  function RefWrite(r: Reference, token: Token, requestId: string, reading: bool): Reference
    requires token in r.stories && r.stories[token].InHand?
  {
    var n, own := r.stories[token].call, r.stories[token].own;
    if Live(r, n) then
      var t := RefEnter(r, n, requestId, reading);
      t.(stories := t.stories[token := if reading then Spent else Out(n, own)])
    else
      r.(stories := r.stories[token := Out(n, own)])
  }

  /** What a move changes, where `before` is what the moves so far amount to. */
  ghost function RefNext(before: Reference, maxHeld: nat, m: Move): Reference {
    var r := before;
    match m
    case Opens(session, principal) => RefOpen(r, maxHeld, session, principal)
    case Closes(n) => r.(gone := r.gone + {n})
    case Expires(n) => if n < |r.calls| && Busy(r.calls[n]) then r else r.(gone := r.gone + {n})
    case NotesRound(n, token, own) => if Live(r, n) then r.(stories := r.stories[token := Out(n, own)]) else r
    case Presents(token, principal, named) =>
      if MayPresent(r, token, principal, named) then
        r.(stories := r.stories[token := InHand(r.stories[token].call, r.stories[token].own)])
      else
        r
    case Restores(token) =>
      if token in r.stories && r.stories[token].InHand? then
        r.(stories := r.stories[token := Out(r.stories[token].call, r.stories[token].own)])
      else
        r
    case WritesRetry(token, requestId, reading) =>
      if token in r.stories && r.stories[token].InHand? then RefWrite(r, token, requestId, reading) else r
    case Enters(n, requestId, reading) => if Live(r, n) then RefEnter(r, n, requestId, reading) else r
    case Leaves(n, id) =>
      if n < |r.calls| then
        r.(calls := r.calls[n := r.calls[n].(requests := r.calls[n].requests - {id})])
      else
        r
    case Answers(n, id) =>
      if n < |r.calls| && id in r.calls[n].requests then
        var x := r.calls[n].requests[id].(answered := true);
        r.(calls := r.calls[n := r.calls[n].(requests := r.calls[n].requests[id := x])])
      else
        r
    case SeamChanges(n, running, undelivered) =>
      if n < |r.calls| then
        r.(calls := r.calls[n := r.calls[n].(running := running, undelivered := undelivered)])
      else
        r
  }

  ghost function RefPlay(r: Reference, maxHeld: nat, ms: seq<Move>): Reference
    decreases |ms|
  {
    if ms == [] then r else RefPlay(RefNext(r, maxHeld, ms[0]), maxHeld, ms[1..])
  }

  // ----- what the registry is of it -----

  /** The requests of a call that is gone are all answered. */
  function Shown(requests: map<nat, Waiter>, gone: bool): map<nat, Waiter> {
    map id | id in requests :: requests[id].(answered := requests[id].answered || gone)
  }

  ghost predicate CallTells(c: Connection, x: Caller, gone: bool, uses: nat) {
    && c.sessionId == x.session && c.principal == x.principal && c.closed == gone
    && c.waiters == Shown(x.requests, gone) && c.seamRunning == x.running && c.undelivered == x.undelivered
    && c.nextId + 1 == uses
  }

  ghost predicate CallsTell(g: Registry, r: Reference) {
    && |g.all| == |r.calls|
    && (forall n :: 0 <= n < |g.all| ==> CallTells(g.all[n], r.calls[n], n in r.gone, UsesOf(r.uses, n)))
    && (forall n :: n in r.gone || n in r.uses ==> n < |r.calls|)
  }

  function OwnRound(c: Connection, token: Token): Option<string> {
    if token in c.ownRounds then Some(c.ownRounds[token]) else None
  }

  ghost predicate TokenTells(g: Registry, r: Reference, t: Token) {
    && (t in g.issued <==> t in r.stories)
    && (t in g.tokens <==> CanRetry(r, t))
    && (t in g.tokens ==>
          && g.tokens[t] == r.stories[t].call < |g.all|
          && OwnRound(g.all[g.tokens[t]], t) == r.stories[t].own)
    && (t in g.retrying <==> t in r.stories && r.stories[t].InHand?)
    && (t in g.retrying ==> g.retrying[t] == Retrying(r.stories[t].call, r.stories[t].own))
    && (t in g.written <==> t in r.stories && r.stories[t] == Spent)
  }

  ghost predicate TokensTell(g: Registry, r: Reference) {
    forall t :: TokenTells(g, r, t)
  }

  function UseOf(sessions: map<string, nat>, uses: seq<nat>, s: string): int {
    if s in sessions then LastUse(uses, sessions[s]) else -1
  }

  /** The order lists the calls held by their last use. */
  ghost predicate Ascending(order: seq<string>, sessions: map<string, nat>, uses: seq<nat>) {
    forall i, j :: 0 <= i < j < |order| ==> UseOf(sessions, uses, order[i]) < UseOf(sessions, uses, order[j])
  }

  ghost predicate Tells(g: Registry, r: Reference) {
    CallsTell(g, r) && TokensTell(g, r) && Ascending(g.order, g.sessions, r.uses)
  }

  // ----- the order of use -----

  lemma {:induction false} LastUseIs(uses: seq<nat>, n: nat)
    ensures -1 <= LastUse(uses, n) < |uses|
    ensures LastUse(uses, n) >= 0 ==> uses[LastUse(uses, n)] == n
    ensures n in uses <==> LastUse(uses, n) >= 0
    ensures n in uses <==> UsesOf(uses, n) > 0
  {
    if uses != [] {
      LastUseIs(uses[..|uses| - 1], n);
      assert uses == uses[..|uses| - 1] + [uses[|uses| - 1]];
    }
  }

  lemma OneMoreUse(uses: seq<nat>, n: nat, k: nat)
    ensures LastUse(uses + [n], k) == if k == n then |uses| else LastUse(uses, k)
    ensures UsesOf(uses + [n], k) == UsesOf(uses, k) + if k == n then 1 else 0
  {
    assert (uses + [n])[..|uses|] == uses;
  }

  lemma {:induction false} RemovedAscends(order: seq<string>, s: string, sessions: map<string, nat>, uses: seq<nat>)
    requires Ascending(order, sessions, uses)
    ensures Ascending(Removed(order, s), sessions, uses)
  {
    hide Ascending, UseOf;
    if order != [] {
      RestAscends(order, sessions, uses);
      RemovedAscends(order[1..], s, sessions, uses);
      FirstAscends(order[0], Removed(order[1..], s), sessions, uses);
    }
  }

  lemma RestAscends(order: seq<string>, sessions: map<string, nat>, uses: seq<nat>)
    requires Ascending(order, sessions, uses) && order != []
    ensures Ascending(order[1..], sessions, uses)
    ensures forall x :: x in order[1..] ==> UseOf(sessions, uses, order[0]) < UseOf(sessions, uses, x)
  {
    hide UseOf;
  }

  lemma FirstAscends(first: string, rest: seq<string>, sessions: map<string, nat>, uses: seq<nat>)
    requires Ascending(rest, sessions, uses)
    requires forall x :: x in rest ==> UseOf(sessions, uses, first) < UseOf(sessions, uses, x)
    ensures Ascending([first] + rest, sessions, uses)
  {
    hide UseOf;
  }

  /** The uses of what is listed are the same. */
  lemma SameAscends(order: seq<string>, sessions: map<string, nat>, uses: seq<nat>, later: map<string, nat>,
                    more: seq<nat>)
    requires Ascending(order, sessions, uses)
    requires forall s :: s in order ==> UseOf(later, more, s) == UseOf(sessions, uses, s)
    ensures Ascending(order, later, more)
  {
    hide UseOf;
  }

  lemma LastAscends(order: seq<string>, s: string, sessions: map<string, nat>, uses: seq<nat>)
    requires Ascending(order, sessions, uses)
    requires forall x :: x in order ==> UseOf(sessions, uses, x) < UseOf(sessions, uses, s)
    ensures Ascending(order + [s], sessions, uses)
  {
    hide UseOf;
  }

  // ----- closing -----

  lemma ShownAnswered(requests: map<nat, Waiter>)
    ensures AllAnswered(Shown(requests, false)) == Shown(requests, true)
  {
  }

  lemma ClosedCall(g: Registry, r: Reference, n: nat)
    requires CallsTell(g, r) && n < |g.all| && !g.all[n].closed
    ensures |Close(g, n).all| == |g.all| == |r.calls|
    ensures CallTells(Close(g, n).all[n], r.calls[n], true, UsesOf(r.uses, n))
  {
    CallIs(g, r, n);
    CloseChanges(g, n);
    ShownAnswered(r.calls[n].requests);
    hide Close, AllAnswered, UsesOf, Shown, CallsTell;
  }

  lemma CloseCalls(g: Registry, r: Reference, n: nat)
    requires HeldInv(g) && CallsTell(g, r) && n < |g.all| && !g.all[n].closed
    ensures CallsTell(Close(g, n), r.(gone := r.gone + {n}))
  {
    CloseShape(g, n);
    ClosedCall(g, r, n);
    var h, gone := Close(g, n), r.gone + {n};
    hide Close, UsesOf, HeldInv, CallTells, Removed;
    forall m | 0 <= m < |h.all| ensures CallTells(h.all[m], r.calls[m], m in gone, UsesOf(r.uses, m)) {
      if m != n {
        CallIs(g, r, m);
        assert h.all[m] == g.all[m];
      }
    }
    hide CallsTell;
    TellsOf(h, r.(gone := gone));
  }

  lemma TellsOf(g: Registry, r: Reference)
    requires |g.all| == |r.calls|
    requires forall n :: 0 <= n < |g.all| ==> CallTells(g.all[n], r.calls[n], n in r.gone, UsesOf(r.uses, n))
    requires forall n :: n in r.gone || n in r.uses ==> n < |r.calls|
    ensures CallsTell(g, r)
  {
    hide CallTells, UsesOf;
  }

  /** What closing does to the call itself, and to the tokens. */
  lemma CloseChanges(g: Registry, n: nat)
    requires n < |g.all| && !g.all[n].closed
    ensures var h, c := Close(g, n), g.all[n];
            && |h.all| == |g.all|
            && h.all[n] == c.(closed := true, tokens := {}, waiters := AllAnswered(c.waiters))
            && h.tokens == g.tokens - c.tokens
            && h.issued == g.issued && h.retrying == g.retrying && h.written == g.written
  {
    hide AllAnswered, Removed;
  }

  lemma CloseTokens(g: Registry, r: Reference, n: nat)
    requires HeldInv(g) && MirrorInv(g) && CallsTell(g, r) && TokensTell(g, r) && n < |g.all| && !g.all[n].closed
    ensures TokensTell(Close(g, n), r.(gone := r.gone + {n}))
  {
    CloseShape(g, n);
    CloseChanges(g, n);
    hide Close, AllAnswered, CallTells, HeldInv;
    var h, q := Close(g, n), r.(gone := r.gone + {n});
    forall t ensures TokenTells(h, q, t) {
      assert TokenTells(g, r, t);
      assert OwnTokens(g, n);
      assert t in g.tokens && g.tokens[t] == n ==> t in g.all[n].tokens;
    }
  }

  lemma CloseOrder(g: Registry, r: Reference, n: nat)
    requires HeldInv(g) && n < |g.all| && !g.all[n].closed && Ascending(g.order, g.sessions, r.uses)
    ensures var h := Close(g, n); Ascending(h.order, h.sessions, r.uses)
  {
    CloseShape(g, n);
    var s := g.all[n].sessionId;
    hide HeldInv, Close, Ascending, LastUse;
    RemovedAscends(g.order, s, g.sessions, r.uses);
    SameAscends(Removed(g.order, s), g.sessions, r.uses, g.sessions - {s}, r.uses);
  }

  lemma CallIs(g: Registry, r: Reference, n: nat)
    requires CallsTell(g, r) && n < |g.all|
    ensures |g.all| == |r.calls| && CallTells(g.all[n], r.calls[n], n in r.gone, UsesOf(r.uses, n))
  {
  }

  lemma CloseTells(g: Registry, r: Reference, n: nat)
    requires Inv(g) && Tells(g, r) && n < |g.all|
    ensures Tells(Close(g, n), r.(gone := r.gone + {n}))
  {
    InvParts(g);
    CallIs(g, r, n);
    hide Inv, CallsTell, TokensTell, HeldInv, MirrorInv, ConnectionsInv, OnceInv, Ascending, UsesOf;
    if g.all[n].closed {
      assert r.gone + {n} == r.gone;
    } else {
      CloseCalls(g, r, n);
      CloseTokens(g, r, n);
      CloseOrder(g, r, n);
    }
  }

  // ----- opening -----

  lemma BeginCalls(g: Registry, r: Reference, s: string, principal: Option<string>)
    requires CallsTell(g, r)
    ensures CallsTell(Add(g, s, principal), Began(r, s, principal))
  {
    var h, q := Add(g, s, principal), Began(r, s, principal);
    LastUseIs(r.uses, |r.calls|);
    hide Removed, UsesOf, LastUse;
    forall m | 0 <= m < |h.all| ensures CallTells(h.all[m], q.calls[m], m in q.gone, UsesOf(q.uses, m)) {
      OneMoreUse(r.uses, |r.calls|, m);
      if m < |g.all| {
        assert CallTells(g.all[m], r.calls[m], m in r.gone, UsesOf(r.uses, m));
      }
    }
  }

  lemma BeginTokens(g: Registry, r: Reference, s: string, principal: Option<string>)
    requires CallsTell(g, r) && TokensTell(g, r) && StoriesInside(r)
    ensures TokensTell(Add(g, s, principal), Began(r, s, principal))
  {
    var h, q := Add(g, s, principal), Began(r, s, principal);
    hide Removed, CallTells;
    forall t ensures TokenTells(h, q, t) {
      assert TokenTells(g, r, t);
    }
  }

  lemma BeginOrder(g: Registry, r: Reference, s: string, principal: Option<string>)
    requires HeldInv(g) && CallsTell(g, r) && s !in g.sessions && Ascending(g.order, g.sessions, r.uses)
    ensures var h := Add(g, s, principal); Ascending(h.order, h.sessions, r.uses + [|r.calls|])
  {
    var n := |r.calls|;
    var later, more, rest := g.sessions[s := n], r.uses + [n], Removed(g.order, s);
    RemovedAscends(g.order, s, g.sessions, r.uses);
    forall x | x in rest
      ensures UseOf(later, more, x) == UseOf(g.sessions, r.uses, x) < UseOf(later, more, s)
    {
      OneMoreUse(r.uses, n, g.sessions[x]);
      OneMoreUse(r.uses, n, n);
      LastUseIs(r.uses, g.sessions[x]);
    }
    hide LastUse, UseOf, HeldInv, CallsTell;
    SameAscends(rest, g.sessions, r.uses, later, more);
    LastAscends(rest, s, later, more);
  }

  ghost predicate StoriesInside(r: Reference) {
    forall t :: t in r.stories && !r.stories[t].Spent? ==> r.stories[t].call < |r.calls|
  }

  lemma BeginTells(g: Registry, r: Reference, s: string, principal: Option<string>)
    requires Inv(g) && Tells(g, r) && StoriesInside(r) && s !in g.sessions
    ensures Tells(Add(g, s, principal), Began(r, s, principal)) && StoriesInside(Began(r, s, principal))
  {
    InvParts(g);
    BeginCalls(g, r, s, principal);
    BeginTokens(g, r, s, principal);
    BeginOrder(g, r, s, principal);
    hide Inv, CallsTell, TokensTell, Ascending, HeldInv, MirrorInv, ConnectionsInv, OnceInv;
  }

  // ----- whom eviction closes -----

  lemma LiveIsOpen(g: Registry, r: Reference, n: nat)
    requires CallsTell(g, r)
    ensures Live(r, n) <==> n < |g.all| && !g.all[n].closed
    ensures Live(r, n) ==> r.calls[n].session == g.all[n].sessionId
  {
    if n < |g.all| {
      CallIs(g, r, n);
    }
    hide UsesOf, Shown;
  }

  lemma HeldIsLive(g: Registry, r: Reference)
    requires HeldInv(g) && CallsTell(g, r)
    ensures forall n: nat :: Live(r, n) <==>
              n < |g.all| && g.all[n].sessionId in g.sessions && g.sessions[g.all[n].sessionId] == n
    ensures forall s :: s in g.sessions ==> Live(r, g.sessions[s]) && g.all[g.sessions[s]].sessionId == s
    ensures forall s :: HasCall(r, s) <==> s in g.sessions
    ensures |LiveCalls(r)| == |g.sessions|
  {
    assert |g.all| == |r.calls|;
    forall n: nat
      ensures Live(r, n) <==> n < |g.all| && !g.all[n].closed
      ensures Live(r, n) ==> r.calls[n].session == g.all[n].sessionId
    {
      LiveIsOpen(g, r, n);
    }
    hide CallsTell, Live;
    forall s ensures HasCall(r, s) <==> s in g.sessions {
      if s in g.sessions {
        assert Live(r, g.sessions[s]);
      }
    }
    LiveAreHeld(g, r);
  }

  lemma LiveAreHeld(g: Registry, r: Reference)
    requires HeldInv(g) && |g.all| == |r.calls|
    requires forall n: nat :: Live(r, n) <==> n < |g.all| && !g.all[n].closed
    ensures |LiveCalls(r)| == |g.sessions|
  {
    forall n ensures n in LiveCalls(r) <==> n in g.sessions.Values {
      if 0 <= n < |r.calls| {
        assert n in LiveCalls(r) <==> Live(r, n);
      }
      if n in g.sessions.Values {
        var s :| s in g.sessions && g.sessions[s] == n;
      }
    }
    hide Live, LiveCalls;
    assert LiveCalls(r) == g.sessions.Values;
    OneEach(g.sessions);
  }

  lemma {:induction false} OneEach(m: map<string, nat>)
    requires forall a, b :: a in m && b in m && m[a] == m[b] ==> a == b
    ensures |m.Values| == |m|
  {
    if s :| s in m {
      var rest := m - {s};
      OneEach(rest);
      forall v ensures v in m.Values <==> v in rest.Values || v == m[s] {
        if v in m.Values {
          var a :| a in m && m[a] == v;
          assert a == s || a in rest;
        }
      }
      assert m[s] !in rest.Values;
      assert m.Values == rest.Values + {m[s]};
      assert m.Keys == rest.Keys + {s};
      assert |m| == |m.Keys| && |rest| == |rest.Keys|;
    } else {
      assert m == map[];
    }
  }

  lemma IdleIsEvictable(g: Registry, r: Reference, n: nat)
    requires HeldInv(g) && ConnectionsInv(g) && CallsTell(g, r) && n < |g.all| && !g.all[n].closed
    ensures Idle(r, n) <==> Evictable(g.all[n])
    ensures Busy(r.calls[n]) <==> Running(g.all[n])
  {
    assert CallTells(g.all[n], r.calls[n], n in r.gone, UsesOf(r.uses, n));
    assert ConnectionInv(g.all[n]);
    var requests := r.calls[n].requests;
    assert Shown(requests, false).Keys == requests.Keys;
    assert |Shown(requests, false)| == |Shown(requests, false).Keys|;
    assert requests != map[] ==> exists id :: id in requests.Keys;
  }

  /** The first one found in the order is the one last used longest ago. */
  lemma {:induction false} FirstIsVictim(g: Registry, r: Reference, order: seq<string>)
    requires HeldInv(g) && ConnectionsInv(g) && CallsTell(g, r) && Ascending(order, g.sessions, r.uses)
    requires forall s :: s in order ==> s in g.sessions
    ensures match FirstEvictable(g, order)
            case None => forall s :: s in order ==> !Idle(r, g.sessions[s])
            case Some(n) =>
              && Idle(r, n) && g.all[n].sessionId in order && n < |g.all|
              && forall s :: s in order && Idle(r, g.sessions[s]) && g.sessions[s] != n ==>
                   LastUse(r.uses, n) < LastUse(r.uses, g.sessions[s])
  {
    if order != [] {
      var n := g.sessions[order[0]];
      IdleIsEvictable(g, r, n);
      assert Ascending(order[1..], g.sessions, r.uses);
      FirstIsVictim(g, r, order[1..]);
      forall s | s in order[1..] ensures UseOf(g.sessions, r.uses, order[0]) < UseOf(g.sessions, r.uses, s) {
        var i :| 0 <= i < |order[1..]| && order[1..][i] == s;
        assert order[i + 1] == s;
      }
      hide ConnectionsInv, CallsTell, Idle, Ascending, LastUse;
    }
  }

  lemma EvictedIsVictim(g: Registry, r: Reference)
    requires Inv(g) && Tells(g, r)
    ensures match FirstEvictable(g, g.order)
            case None => forall n: nat :: !Idle(r, n)
            case Some(n) => n < |g.all| && Idle(r, n) && forall k: nat :: IsVictim(r, k) <==> k == n
  {
    InvParts(g);
    FirstIsVictim(g, r, g.order);
    IdleIsListed(g, r);
    hide Inv, HeldInv, ConnectionsInv, MirrorInv, OnceInv, Tells, Ascending, LastUse, FirstEvictable, Idle, IsVictim;
    if FirstEvictable(g, g.order).Some? {
      FirstIsOnly(r, FirstEvictable(g, g.order).value);
    }
  }

  lemma IdleIsListed(g: Registry, r: Reference)
    requires HeldInv(g) && CallsTell(g, r)
    ensures forall s :: s in g.order <==> s in g.sessions
    ensures forall k: nat :: Idle(r, k) ==>
              k < |g.all| && g.all[k].sessionId in g.order && g.sessions[g.all[k].sessionId] == k
  {
    forall k: nat | Idle(r, k)
      ensures k < |g.all| && g.all[k].sessionId in g.order && g.sessions[g.all[k].sessionId] == k
    {
      LiveIsOpen(g, r, k);
    }
  }

  lemma FirstIsOnly(r: Reference, n: nat)
    requires Idle(r, n) && forall k: nat :: Idle(r, k) && k != n ==> LastUse(r.uses, n) < LastUse(r.uses, k)
    ensures forall k: nat :: IsVictim(r, k) <==> k == n
  {
    hide Idle, LastUse;
  }

  lemma RefEvicts(r: Reference, maxHeld: nat, s: string, principal: Option<string>, n: nat)
    requires !HasCall(r, s) && |LiveCalls(r)| >= maxHeld && forall k: nat :: IsVictim(r, k) <==> k == n
    ensures RefOpen(r, maxHeld, s, principal) == Began(r.(gone := r.gone + {n}), s, principal)
  {
    assert IsVictim(r, n);
    hide HasCall, LiveCalls, IsVictim, Began;
  }

  lemma RefRefuses(r: Reference, maxHeld: nat, s: string, principal: Option<string>)
    requires !HasCall(r, s) && |LiveCalls(r)| >= maxHeld && forall n: nat :: !Idle(r, n)
    ensures RefOpen(r, maxHeld, s, principal) == r
  {
    hide HasCall, LiveCalls, Idle, Began;
  }

  lemma OpenTells(g: Registry, r: Reference, s: string, principal: Option<string>)
    requires Inv(g) && Tells(g, r) && StoriesInside(r) && g.maxHeld > 0
    ensures Tells(Open(g, s, principal).0, RefOpen(r, g.maxHeld, s, principal))
    ensures StoriesInside(RefOpen(r, g.maxHeld, s, principal))
  {
    InvParts(g);
    HeldNames(g, r);
    hide Inv, HeldInv, MirrorInv, ConnectionsInv, OnceInv, Tells, HasCall, LiveCalls, Add, Evict, Began;
    hide FirstEvictable, StoriesInside, Live, IsVictim, CallsTell, TokensTell, Ascending;
    if s !in g.sessions {
      if |g.sessions| < g.maxHeld {
        BeginTells(g, r, s, principal);
      } else {
        FullTells(g, r, s, principal);
      }
    }
  }

  lemma HeldNames(g: Registry, r: Reference)
    requires HeldInv(g) && CallsTell(g, r)
    ensures forall s :: HasCall(r, s) <==> s in g.sessions
    ensures |LiveCalls(r)| == |g.sessions|
  {
    HeldIsLive(g, r);
    hide HasCall, LiveCalls, Live, CallsTell;
  }

  lemma FullTells(g: Registry, r: Reference, s: string, principal: Option<string>)
    requires Inv(g) && Tells(g, r) && StoriesInside(r) && s !in g.sessions && |g.sessions| >= g.maxHeld
    requires !HasCall(r, s) && |LiveCalls(r)| == |g.sessions|
    ensures Tells(Open(g, s, principal).0, RefOpen(r, g.maxHeld, s, principal))
    ensures StoriesInside(RefOpen(r, g.maxHeld, s, principal))
  {
    EvictedIsVictim(g, r);
    hide Inv, Tells, HasCall, LiveCalls, Add, Evict, Began, FirstEvictable, StoriesInside, Idle, IsVictim;
    var found := FirstEvictable(g, g.order);
    if found.None? {
      RefRefuses(r, g.maxHeld, s, principal);
    } else {
      RefEvicts(r, g.maxHeld, s, principal, found.value);
      hide RefOpen;
      EvictingTells(g, r, found.value, s, principal);
    }
  }

  lemma EvictingTells(g: Registry, r: Reference, n: nat, s: string, principal: Option<string>)
    requires Inv(g) && Tells(g, r) && StoriesInside(r) && s !in g.sessions && n < |g.all| && Idle(r, n)
    ensures var q := Began(r.(gone := r.gone + {n}), s, principal);
            Tells(Add(Evict(g, n), s, principal), q) && StoriesInside(q)
  {
    InvParts(g);
    assert CallTells(g.all[n], r.calls[n], n in r.gone, UsesOf(r.uses, n));
    IdleIsEvictable(g, r, n);
    CloseTells(g, r, n);
    CloseKeeps(g, n);
    CloseShape(g, n);
    hide Inv, Tells, Close, HeldInv, MirrorInv, ConnectionsInv, OnceInv;
    BeginTells(Close(g, n), r.(gone := r.gone + {n}), s, principal);
  }

  lemma ExpireTells(g: Registry, r: Reference, maxHeld: nat, n: nat)
    requires Inv(g) && Tells(g, r) && StoriesInside(r) && n < |g.all|
    ensures Tells(Expire(g, n), RefNext(r, maxHeld, Expires(n)))
  {
    InvParts(g);
    CallIs(g, r, n);
    CloseTells(g, r, n);
    if g.all[n].closed {
      assert r.gone + {n} == r.gone;
    } else {
      IdleIsEvictable(g, r, n);
    }
    ExpireIs(g, n);
    hide Inv, Tells, Close, Expire, Busy, HeldInv, MirrorInv, ConnectionsInv, OnceInv, UsesOf, Shown, CallsTell,
         TokensTell, Ascending;
  }

  lemma ExpireIs(g: Registry, n: nat)
    requires n < |g.all|
    ensures Expire(g, n) == if g.all[n].closed || Running(g.all[n]) then g else Close(g, n)
  {
    hide Close;
  }

  // ----- tokens -----

  /** One call's tokens change, and nothing of what it is. */
  lemma SameCalls(g: Registry, r: Reference, h: Registry, q: Reference)
    requires CallsTell(g, r) && |h.all| == |g.all| && q.calls == r.calls && q.gone == r.gone && q.uses == r.uses
    requires forall n :: 0 <= n < |g.all| ==>
               h.all[n] == g.all[n].(tokens := h.all[n].tokens, ownRounds := h.all[n].ownRounds)
    ensures CallsTell(h, q)
  {
    hide UsesOf, Shown;
    forall n | 0 <= n < |h.all| ensures CallTells(h.all[n], q.calls[n], n in q.gone, UsesOf(q.uses, n)) {
      CallIs(g, r, n);
    }
  }

  /** A token that is not out is none of its call's own rounds. */
  lemma NotOwn(g: Registry, n: nat, token: Token)
    requires MirrorInv(g) && ConnectionsInv(g) && n < |g.all| && !g.all[n].closed && token !in g.tokens
    ensures token !in g.all[n].ownRounds
  {
    assert OwnTokens(g, n) && ConnectionInv(g.all[n]);
  }

  lemma NoteTells(g: Registry, r: Reference, n: nat, token: Token, own: Option<string>)
    requires Inv(g) && Tells(g, r) && StoriesInside(r) && n < |g.all| && token !in g.issued
    ensures var q := if Live(r, n) then r.(stories := r.stories[token := Out(n, own)]) else r;
            Tells(NoteRound(g, n, token, own), q) && StoriesInside(q)
  {
    InvParts(g);
    LiveIsOpen(g, r, n);
    if !g.all[n].closed {
      assert token !in g.tokens by {
        hide HeldInv, MirrorInv, ConnectionsInv;
      }
      NotOwn(g, n, token);
      NoteChanges(g, n, token, own);
      hide Inv, HeldInv, MirrorInv, ConnectionsInv, OnceInv, Ascending;
      SameCalls(g, r, NoteRound(g, n, token, own), r.(stories := r.stories[token := Out(n, own)]));
      NoteTokens(g, r, n, token, own);
      hide CallsTell, TokensTell, Live, NoteRound;
    }
  }

  lemma NoteChanges(g: Registry, n: nat, token: Token, own: Option<string>)
    requires n < |g.all|
    ensures var h := NoteRound(g, n, token, own);
            && |h.all| == |g.all| && h.order == g.order && h.sessions == g.sessions
            && forall m :: 0 <= m < |g.all| ==>
                 h.all[m] == g.all[m].(tokens := h.all[m].tokens, ownRounds := h.all[m].ownRounds)
  {
  }

  lemma NoteTokens(g: Registry, r: Reference, n: nat, token: Token, own: Option<string>)
    requires TokensTell(g, r) && n < |g.all| && !g.all[n].closed && Live(r, n) && token !in g.issued
    requires token !in g.all[n].ownRounds
    ensures TokensTell(NoteRound(g, n, token, own), r.(stories := r.stories[token := Out(n, own)]))
  {
    var h, q := NoteRound(g, n, token, own), r.(stories := r.stories[token := Out(n, own)]);
    assert TokenTells(g, r, token);
    forall t ensures TokenTells(h, q, t) {
      assert TokenTells(g, r, t);
    }
  }

  /** A retry takes its token in hand exactly where the token may be used and the retry is the call's own; it is
      refused where it is not, and of a token that may not be used nothing is known. */
  lemma PresentTells(g: Registry, r: Reference, token: Token, principal: Option<string>, named: Option<string>)
    requires Inv(g) && Tells(g, r) && StoriesInside(r)
    ensures var q :=
              if MayPresent(r, token, principal, named) then
                r.(stories := r.stories[token := InHand(r.stories[token].call, r.stories[token].own)])
              else
                r;
            Tells(Present(g, token, principal, named).0, q) && StoriesInside(q)
    ensures Present(g, token, principal, named).1 ==
              if MayPresent(r, token, principal, named) then Taken
              else if CanRetry(r, token) then Refused
              else NotHeld
  {
    PresentAnswers(g, r, token, principal, named);
    if MayPresent(r, token, principal, named) {
      TakingTells(g, r, token, principal, named);
    }
    hide Inv, Tells, StoriesInside, MayPresent, Present;
  }

  lemma TakingTells(g: Registry, r: Reference, token: Token, principal: Option<string>, named: Option<string>)
    requires Tells(g, r) && StoriesInside(r) && MayPresent(r, token, principal, named)
    ensures var q := r.(stories := r.stories[token := InHand(r.stories[token].call, r.stories[token].own)]);
            Tells(Present(g, token, principal, named).0, q) && StoriesInside(q)
  {
    var q := r.(stories := r.stories[token := InHand(r.stories[token].call, r.stories[token].own)]);
    PresentChanges(g, token, principal, named);
    PresentTokens(g, r, token, principal, named);
    hide CallsTell, TokensTell, Ascending, Present;
    SameCalls(g, r, Present(g, token, principal, named).0, q);
  }

  lemma PresentAnswers(g: Registry, r: Reference, token: Token, principal: Option<string>, named: Option<string>)
    requires CallsTell(g, r) && TokensTell(g, r)
    ensures var (h, answer) := Present(g, token, principal, named);
            && (answer == if MayPresent(r, token, principal, named) then Taken
                          else if CanRetry(r, token) then Refused
                          else NotHeld)
            && (answer != Taken ==> h == g)
  {
    assert TokenTells(g, r, token);
    if token in g.tokens {
      CallIs(g, r, g.tokens[token]);
    }
    hide CallsTell, UsesOf, Shown;
  }

  lemma PresentChanges(g: Registry, token: Token, principal: Option<string>, named: Option<string>)
    ensures var h := Present(g, token, principal, named).0;
            && |h.all| == |g.all| && h.order == g.order && h.sessions == g.sessions
            && forall m :: 0 <= m < |g.all| ==>
                 h.all[m] == g.all[m].(tokens := h.all[m].tokens, ownRounds := h.all[m].ownRounds)
  {
  }

  lemma PresentTokens(g: Registry, r: Reference, token: Token, principal: Option<string>, named: Option<string>)
    requires CallsTell(g, r) && TokensTell(g, r) && MayPresent(r, token, principal, named)
    ensures var q := r.(stories := r.stories[token := InHand(r.stories[token].call, r.stories[token].own)]);
            TokensTell(Present(g, token, principal, named).0, q)
  {
    var h := Present(g, token, principal, named).0;
    var q := r.(stories := r.stories[token := InHand(r.stories[token].call, r.stories[token].own)]);
    assert TokenTells(g, r, token);
    CallIs(g, r, g.tokens[token]);
    hide CallsTell, UsesOf, Shown;
    forall t ensures TokenTells(h, q, t) {
      assert TokenTells(g, r, t);
    }
  }

  /** The token goes back to its round: out again, where the call is not gone. */
  lemma RestoreTells(g: Registry, r: Reference, token: Token)
    requires Inv(g) && Tells(g, r) && StoriesInside(r) && token in g.retrying
    ensures token in r.stories && r.stories[token].InHand?
    ensures var x := r.stories[token];
            var q := r.(stories := r.stories[token := Out(x.call, x.own)]);
            Tells(Restore(g, token), q) && StoriesInside(q)
  {
    InvParts(g);
    RetryingTells(g, r, token);
    var x := r.stories[token];
    LiveIsOpen(g, r, x.call);
    if Live(r, x.call) {
      NotOwn(g, x.call, token);
    }
    RestoreChanges(g, token);
    hide Inv, HeldInv, MirrorInv, ConnectionsInv, OnceInv, Ascending, Restore, Live, CallsTell, TokensTell;
    SameCalls(g, r, Restore(g, token), r.(stories := r.stories[token := Out(x.call, x.own)]));
    RestoreTokens(g, r, token);
  }

  lemma RetryingTells(g: Registry, r: Reference, token: Token)
    requires OnceInv(g) && CallsTell(g, r) && TokensTell(g, r) && token in g.retrying
    ensures token in r.stories && r.stories[token].InHand? && token !in g.tokens
    ensures r.stories[token].call < |g.all| == |r.calls|
  {
    assert TokenTells(g, r, token);
    hide CallTells;
  }

  lemma RestoreChanges(g: Registry, token: Token)
    ensures var h := Restore(g, token);
            && |h.all| == |g.all| && h.order == g.order && h.sessions == g.sessions
            && forall m :: 0 <= m < |g.all| ==>
                 h.all[m] == g.all[m].(tokens := h.all[m].tokens, ownRounds := h.all[m].ownRounds)
  {
  }

  lemma RestoreTokens(g: Registry, r: Reference, token: Token)
    requires TokensTell(g, r) && token in g.retrying && token in r.stories && r.stories[token].InHand?
    requires var n := r.stories[token].call;
             n < |g.all| == |r.calls| && g.all[n].closed == !Live(r, n)
             && (Live(r, n) ==> token !in g.all[n].ownRounds)
    ensures var q := r.(stories := r.stories[token := Out(r.stories[token].call, r.stories[token].own)]);
            TokensTell(Restore(g, token), q)
  {
    var h := Restore(g, token);
    var q := r.(stories := r.stories[token := Out(r.stories[token].call, r.stories[token].own)]);
    assert TokenTells(g, r, token);
    forall t ensures TokenTells(h, q, t) {
      assert TokenTells(g, r, t);
    }
  }

  // ----- requests -----

  /** One call's requests change; tokens, order and the rest stay. */
  lemma OneCallTells(g: Registry, r: Reference, n: nat, c: Connection, x: Caller)
    requires Tells(g, r) && StoriesInside(r) && n < |g.all| == |r.calls|
    requires c == g.all[n].(waiters := c.waiters, inFlight := c.inFlight, nextId := c.nextId,
                            seamRunning := c.seamRunning, undelivered := c.undelivered)
    requires CallTells(c, x, n in r.gone, UsesOf(r.uses, n))
    requires x.session == r.calls[n].session && x.principal == r.calls[n].principal
    ensures var q := r.(calls := r.calls[n := x]); Tells(With(g, n, c), q) && StoriesInside(q)
  {
    var h, q := With(g, n, c), r.(calls := r.calls[n := x]);
    hide UsesOf, Shown, Ascending;
    forall m | 0 <= m < |h.all| ensures CallTells(h.all[m], q.calls[m], m in q.gone, UsesOf(q.uses, m)) {
      CallIs(g, r, m);
    }
    hide CallTells;
    forall t ensures TokenTells(h, q, t) {
      assert TokenTells(g, r, t);
    }
  }

  lemma ShownOfOne(requests: map<nat, Waiter>, id: nat, gone: bool)
    ensures id in Shown(requests, gone) <==> id in requests
    ensures Shown(requests - {id}, gone) == Shown(requests, gone) - {id}
    ensures id in requests ==>
              Shown(requests[id := requests[id].(answered := true)], gone) ==
              Shown(requests, gone)[id := Shown(requests, gone)[id].(answered := true)]
  {
  }

  lemma LeaveTells(g: Registry, r: Reference, n: nat, id: nat)
    requires Tells(g, r) && StoriesInside(r) && n < |g.all|
    ensures |g.all| == |r.calls|
    ensures var q := r.(calls := r.calls[n := r.calls[n].(requests := r.calls[n].requests - {id})]);
            Tells(Leave(g, n, id), q) && StoriesInside(q)
  {
    CallIs(g, r, n);
    hide Tells, UsesOf, Shown, StoriesInside;
    var c, x := g.all[n], r.calls[n];
    var y := x.(requests := x.requests - {id});
    ShownOfOne(x.requests, id, n in r.gone);
    if id in c.waiters {
      OneCallTells(g, r, n, c.(waiters := c.waiters - {id}, inFlight := c.inFlight - 1), y);
    } else {
      hide CallTells;
      assert x.requests - {id} == x.requests;
      assert r.calls[n := y] == r.calls;
    }
  }

  lemma AnswerTells(g: Registry, r: Reference, n: nat, id: nat)
    requires Tells(g, r) && StoriesInside(r) && n < |g.all|
    ensures |g.all| == |r.calls|
    ensures var reqs := r.calls[n].requests;
            var q :=
              if id in reqs then
                r.(calls := r.calls[n := r.calls[n].(requests := reqs[id := reqs[id].(answered := true)])])
              else
                r;
            Tells(Answer(g, n, id), q) && StoriesInside(q)
  {
    CallIs(g, r, n);
    hide Tells, UsesOf, Shown, StoriesInside;
    var c, x := g.all[n], r.calls[n];
    ShownOfOne(x.requests, id, n in r.gone);
    if id in c.waiters {
      OneCallTells(g, r, n, c.(waiters := c.waiters[id := c.waiters[id].(answered := true)]),
                   x.(requests := x.requests[id := x.requests[id].(answered := true)]));
    }
  }

  lemma SeamTells(g: Registry, r: Reference, n: nat, running: bool, undelivered: bool)
    requires Tells(g, r) && StoriesInside(r) && n < |g.all|
    ensures |g.all| == |r.calls|
    ensures var q := r.(calls := r.calls[n := r.calls[n].(running := running, undelivered := undelivered)]);
            Tells(With(g, n, g.all[n].(seamRunning := running, undelivered := undelivered)), q) && StoriesInside(q)
  {
    CallIs(g, r, n);
    hide Tells, UsesOf, Shown, StoriesInside;
    OneCallTells(g, r, n, g.all[n].(seamRunning := running, undelivered := undelivered),
                 r.calls[n].(running := running, undelivered := undelivered));
  }

  // ----- a request written in -----

  function Entered(r: Reference, n: nat, requestId: string): Reference
    requires n < |r.calls|
  {
    var c := r.calls[n];
    r.(uses := r.uses + [n],
       calls := r.calls[n := c.(requests := c.requests[UsesOf(r.uses, n) := Waiter(requestId, false)])])
  }

  lemma ShownEntered(requests: map<nat, Waiter>, id: nat, requestId: string)
    ensures Shown(requests[id := Waiter(requestId, false)], false) ==
            Shown(requests, false)[id := Waiter(requestId, false)]
  {
  }

  lemma EnteredCalls(g: Registry, r: Reference, n: nat, requestId: string)
    requires CallsTell(g, r) && n < |g.all| == |r.calls| && !g.all[n].closed
    ensures CallsTell(With(g, n, Entering(g.all[n], requestId)), Entered(r, n, requestId))
  {
    CallIs(g, r, n);
    ShownEntered(r.calls[n].requests, UsesOf(r.uses, n), requestId);
    OneMoreUse(r.uses, n, n);
    hide UsesOf, Shown, LastUse;
    var h, q := With(g, n, Entering(g.all[n], requestId)), Entered(r, n, requestId);
    assert CallTells(h.all[n], q.calls[n], n in q.gone, UsesOf(q.uses, n));
    forall m | 0 <= m < |h.all| ensures CallTells(h.all[m], q.calls[m], m in q.gone, UsesOf(q.uses, m)) {
      if m != n {
        CallIs(g, r, m);
        OneMoreUse(r.uses, n, m);
        hide CallTells;
      }
    }
  }

  /** The call moves to the end of the order, being the one used last. */
  lemma UsedAscends(g: Registry, r: Reference, n: nat)
    requires HeldInv(g) && Ascending(g.order, g.sessions, r.uses) && n < |g.all| && !g.all[n].closed
    ensures var s := g.all[n].sessionId; Ascending(Removed(g.order, s) + [s], g.sessions, r.uses + [n])
  {
    var s := g.all[n].sessionId;
    var rest, more := Removed(g.order, s), r.uses + [n];
    RemovedAscends(g.order, s, g.sessions, r.uses);
    forall x | x in rest
      ensures UseOf(g.sessions, more, x) == UseOf(g.sessions, r.uses, x) < UseOf(g.sessions, more, s)
    {
      OneMoreUse(r.uses, n, g.sessions[x]);
      OneMoreUse(r.uses, n, n);
      LastUseIs(r.uses, g.sessions[x]);
    }
    hide LastUse, UseOf, HeldInv;
    SameAscends(rest, g.sessions, r.uses, g.sessions, more);
    LastAscends(rest, s, g.sessions, more);
  }

  lemma EnteredTells(g: Registry, r: Reference, n: nat, requestId: string)
    requires Inv(g) && Tells(g, r) && StoriesInside(r) && n < |g.all| == |r.calls| && !g.all[n].closed
    ensures var h := Used(With(g, n, Entering(g.all[n], requestId)), g.all[n].sessionId, n);
            Tells(h, Entered(r, n, requestId)) && StoriesInside(Entered(r, n, requestId))
  {
    InvParts(g);
    assert g.all[n].sessionId in g.sessions && g.sessions[g.all[n].sessionId] == n;
    EnteredCalls(g, r, n, requestId);
    UsedAscends(g, r, n);
    EnteredTokens(g, r, n, requestId);
    var k := With(g, n, Entering(g.all[n], requestId));
    hide Inv, HeldInv, MirrorInv, ConnectionsInv, OnceInv, CallsTell, TokensTell, Ascending, Entered, Entering;
    UsedAlike(k, Entered(r, n, requestId), g.all[n].sessionId, n);
  }

  lemma EnteredTokens(g: Registry, r: Reference, n: nat, requestId: string)
    requires TokensTell(g, r) && n < |g.all| == |r.calls| && StoriesInside(r)
    ensures TokensTell(With(g, n, Entering(g.all[n], requestId)), Entered(r, n, requestId))
    ensures StoriesInside(Entered(r, n, requestId))
    ensures Entered(r, n, requestId).uses == r.uses + [n]
  {
    var h, q := With(g, n, Entering(g.all[n], requestId)), Entered(r, n, requestId);
    forall t ensures TokenTells(h, q, t) {
      assert TokenTells(g, r, t);
    }
  }

  lemma UsedAlike(k: Registry, q: Reference, s: string, n: nat)
    requires CallsTell(k, q) && TokensTell(k, q)
    ensures CallsTell(Used(k, s, n), q) && TokensTell(Used(k, s, n), q)
  {
    hide Removed, CallTells;
    var h := Used(k, s, n);
    forall t ensures TokenTells(h, q, t) {
      assert TokenTells(k, q, t);
    }
  }

  /** A request is written into a call that is not gone and takes it, under the number of its use. */
  lemma EnterTells(g: Registry, r: Reference, n: nat, requestId: string, reading: bool)
    requires Inv(g) && Tells(g, r) && StoriesInside(r) && n < |g.all|
    ensures var q := if Live(r, n) then RefEnter(r, n, requestId, reading) else r;
            Tells(Enter(g, n, requestId, reading).0, q) && StoriesInside(q)
    ensures Enter(g, n, requestId, reading).1 ==
              if Live(r, n) && reading then Some(UsesOf(r.uses, n)) else None
  {
    CallIs(g, r, n);
    LiveIsOpen(g, r, n);
    if g.all[n].closed {
      EnterClosed(g, n, requestId, reading);
    } else {
      OpenEnterTells(g, r, n, requestId, reading);
    }
    hide Inv, Tells, StoriesInside, UsesOf, Shown, Enter, CallTells, RefEnter;
  }

  lemma OpenEnterTells(g: Registry, r: Reference, n: nat, requestId: string, reading: bool)
    requires Inv(g) && Tells(g, r) && StoriesInside(r) && n < |g.all| == |r.calls| && !g.all[n].closed && Live(r, n)
    ensures var q := RefEnter(r, n, requestId, reading);
            Tells(Enter(g, n, requestId, reading).0, q) && StoriesInside(q)
    ensures Enter(g, n, requestId, reading).1 == if reading then Some(UsesOf(r.uses, n)) else None
  {
    CallIs(g, r, n);
    var c, id := g.all[n], UsesOf(r.uses, n);
    EnterIs(g, n, requestId, reading);
    EnteredTells(g, r, n, requestId);
    NumberIsNew(g, r, n);
    hide Inv, Tells, StoriesInside, UsesOf, Shown, Enter, Used, Entering, Leave;
    if !reading {
      var k := Used(With(g, n, Entering(c, requestId)), c.sessionId, n);
      LeaveTells(k, Entered(r, n, requestId), n, id);
      UnwrittenIsNothing(r, n, requestId);
    }
  }

  lemma UnwrittenIsNothing(r: Reference, n: nat, requestId: string)
    requires Live(r, n) && UsesOf(r.uses, n) !in r.calls[n].requests
    ensures var q := Entered(r, n, requestId);
            q.(calls := q.calls[n := q.calls[n].(requests := q.calls[n].requests - {UsesOf(r.uses, n)})])
            == RefEnter(r, n, requestId, false)
  {
    hide UsesOf;
    var requests, id := r.calls[n].requests, UsesOf(r.uses, n);
    assert requests[id := Waiter(requestId, false)] - {id} == requests;
    assert r.calls[n := r.calls[n].(requests := requests)] == r.calls;
  }

  lemma NumberIsNew(g: Registry, r: Reference, n: nat)
    requires Inv(g) && CallsTell(g, r) && n < |g.all| == |r.calls|
    ensures UsesOf(r.uses, n) !in r.calls[n].requests
  {
    CallIs(g, r, n);
    ConnectionStands(g, n);
    ShownOfOne(r.calls[n].requests, UsesOf(r.uses, n), n in r.gone);
    hide Inv, UsesOf, Shown, CallsTell;
  }

  // ----- a retry written in -----

  lemma WriteTells(g: Registry, r: Reference, token: Token, requestId: string, reading: bool)
    requires Inv(g) && Tells(g, r) && StoriesInside(r)
    requires token in g.retrying && g.retrying[token].connection < |g.all|
    ensures token in r.stories && r.stories[token].InHand?
    ensures var q := RefWrite(r, token, requestId, reading);
            Tells(WriteRetry(g, token, requestId, reading), q) && StoriesInside(q)
  {
    assert TokenTells(g, r, token);
    var n, own := r.stories[token].call, r.stories[token].own;
    var (h, entered) := Enter(g, n, requestId, reading);
    EnterTells(g, r, n, requestId, reading);
    EnterKeeps(g, n, requestId, reading);
    var q := if Live(r, n) then RefEnter(r, n, requestId, reading) else r;
    assert q.stories == r.stories;
    hide Inv, Tells, Enter, RefEnter, Live, UsesOf, StoriesInside, TokenTells;
    if entered.Some? {
      WrittenTells(h, q, token);
    } else {
      RestoreTells(h, q, token);
    }
  }

  lemma WrittenTells(h: Registry, q: Reference, token: Token)
    requires Inv(h) && Tells(h, q) && StoriesInside(q) && token in h.retrying
    ensures var k := h.(retrying := h.retrying - {token}, written := h.written + [token]);
            var p := q.(stories := q.stories[token := Spent]);
            Tells(k, p) && StoriesInside(p)
  {
    var k := h.(retrying := h.retrying - {token}, written := h.written + [token]);
    var p := q.(stories := q.stories[token := Spent]);
    InvParts(h);
    assert token !in h.tokens;
    hide Inv, HeldInv, MirrorInv, ConnectionsInv, OnceInv, Ascending;
    SameCalls(h, q, k, p);
    WrittenTokens(h, q, token);
    hide CallsTell, TokensTell;
  }

  lemma WrittenTokens(h: Registry, q: Reference, token: Token)
    requires TokensTell(h, q) && token in h.retrying && token !in h.tokens
    ensures TokensTell(h.(retrying := h.retrying - {token}, written := h.written + [token]),
                       q.(stories := q.stories[token := Spent]))
  {
    var k := h.(retrying := h.retrying - {token}, written := h.written + [token]);
    var p := q.(stories := q.stories[token := Spent]);
    assert TokenTells(h, q, token);
    forall t ensures TokenTells(k, p, t) {
      assert TokenTells(h, q, t);
    }
  }

  // ----- every run -----

  lemma MoveTells(g: Registry, r: Reference, m: Move)
    requires Inv(g) && Tells(g, r) && StoriesInside(r) && Enabled(g, m) && g.maxHeld > 0
    ensures Tells(Next(g, m), RefNext(r, g.maxHeld, m)) && StoriesInside(RefNext(r, g.maxHeld, m))
  {
    hide Inv, Tells, StoriesInside, Open, Close, Expire, NoteRound, Present, Restore, WriteRetry, Enter, Leave, Answer;
    hide RefOpen, RefEnter, RefWrite, MayPresent, Live, Busy;
    match m
    case Opens(s, principal) => OpenTells(g, r, s, principal);
    case Closes(n) => CloseTells(g, r, n); SameStories(r, n);
    case Expires(n) => ExpireTells(g, r, g.maxHeld, n); SameStories(r, n);
    case NotesRound(n, token, own) => NoteTells(g, r, n, token, own);
    case Presents(token, principal, named) => PresentTells(g, r, token, principal, named);
    case _ => RequestTells(g, r, m);
  }

  lemma RequestTells(g: Registry, r: Reference, m: Move)
    requires Inv(g) && Tells(g, r) && StoriesInside(r) && Enabled(g, m)
    requires m.Restores? || m.WritesRetry? || m.Enters? || m.Leaves? || m.Answers? || m.SeamChanges?
    ensures Tells(Next(g, m), RefNext(r, g.maxHeld, m)) && StoriesInside(RefNext(r, g.maxHeld, m))
  {
    hide Inv, Tells, StoriesInside, Restore, WriteRetry, Enter, Leave, Answer, RefEnter, RefWrite, Live;
    match m
    case Restores(token) => RestoreTells(g, r, token);
    case WritesRetry(token, requestId, reading) => WriteTells(g, r, token, requestId, reading);
    case Enters(n, requestId, reading) => EnterTells(g, r, n, requestId, reading);
    case Leaves(n, id) => LeaveTells(g, r, n, id);
    case Answers(n, id) => AnswerTells(g, r, n, id);
    case SeamChanges(n, running, undelivered) => SeamTells(g, r, n, running, undelivered);
  }

  lemma SameStories(r: Reference, n: nat)
    requires StoriesInside(r)
    ensures StoriesInside(r.(gone := r.gone + {n}))
  {
  }

  lemma {:induction false} PlayTells(g: Registry, r: Reference, ms: seq<Move>)
    requires Inv(g) && Tells(g, r) && StoriesInside(r) && g.maxHeld > 0 && Legal(g, ms)
    ensures Tells(Play(g, ms), RefPlay(r, g.maxHeld, ms)) && StoriesInside(RefPlay(r, g.maxHeld, ms))
    decreases |ms|
  {
    hide Inv, Tells, StoriesInside, Enabled, Next, RefNext;
    if ms != [] {
      MoveTells(g, r, ms[0]);
      MoveKeepsInv(g, ms[0]);
      PlayTells(Next(g, ms[0]), RefNext(r, g.maxHeld, ms[0]), ms[1..]);
    }
  }

  lemma NothingTells(maxHeld: nat)
    ensures Tells(NewRegistry(maxHeld), NOTHING) && StoriesInside(NOTHING)
  {
  }

  /** Over every run with fresh tokens the registry is what its moves amount to. */
  lemma RegistryFollows(maxHeld: nat, ms: seq<Move>)
    requires maxHeld > 0 && Legal(NewRegistry(maxHeld), ms)
    ensures var g, r := Play(NewRegistry(maxHeld), ms), RefPlay(NOTHING, maxHeld, ms);
            Tells(g, r) && StoriesInside(r) && Inv(g) && g.maxHeld == maxHeld
  {
    hide Inv, Tells, StoriesInside, Legal, Play, RefPlay;
    NewInv(maxHeld);
    NothingTells(maxHeld);
    PlayTells(NewRegistry(maxHeld), NOTHING, ms);
    PlayKeepsInv(NewRegistry(maxHeld), ms);
  }

  /**
   * What a move closes, over every run. An `Opens` closes one call alone, and only where its session has none
   * and as many are held as may be: the one that may be closed and was used longest ago. The idle bound closes
   * its call unless that is busy. No other move but a close closes anything, and nothing is opened again.
   */
  lemma ClosedIff(maxHeld: nat, ms: seq<Move>, m: Move, n: nat)
    requires maxHeld > 0 && Legal(NewRegistry(maxHeld), ms)
    requires Enabled(Play(NewRegistry(maxHeld), ms), m) && n < |Play(NewRegistry(maxHeld), ms).all|
    ensures var g, r := Play(NewRegistry(maxHeld), ms), RefPlay(NOTHING, maxHeld, ms);
            && n < |Next(g, m).all| && n < |r.calls|
            && (Next(g, m).all[n].closed <==>
                  || g.all[n].closed
                  || m == Closes(n)
                  || (m == Expires(n) && !Busy(r.calls[n]))
                  || (m.Opens? && !HasCall(r, m.session) && |LiveCalls(r)| >= maxHeld && IsVictim(r, n)))
  {
    hide Inv, Legal, Play, RefPlay, Enabled, Next, StoriesInside, RefNext, Busy, HasCall, LiveCalls, IsVictim;
    var g, r := Play(NewRegistry(maxHeld), ms), RefPlay(NOTHING, maxHeld, ms);
    RegistryFollows(maxHeld, ms);
    MoveTells(g, r, m);
    LiveIsOpen(g, r, n);
    LiveIsOpen(Next(g, m), RefNext(r, maxHeld, m), n);
    GoneIff(r, maxHeld, m, n);
    hide Tells;
  }

  lemma GoneIff(r: Reference, maxHeld: nat, m: Move, n: nat)
    requires n < |r.calls|
    ensures var q := RefNext(r, maxHeld, m);
            && n < |q.calls|
            && (n in q.gone <==>
                  || n in r.gone
                  || m == Closes(n)
                  || (m == Expires(n) && !Busy(r.calls[n]))
                  || (m.Opens? && !HasCall(r, m.session) && |LiveCalls(r)| >= maxHeld && IsVictim(r, n)))
  {
    hide Busy, HasCall, LiveCalls, MayPresent, UsesOf;
    if m.Opens? {
      OpenGone(r, maxHeld, m.session, m.principal, n);
    }
    hide RefOpen, IsVictim;
  }

  lemma OpenGone(r: Reference, maxHeld: nat, s: string, principal: Option<string>, n: nat)
    requires n < |r.calls|
    ensures var q := RefOpen(r, maxHeld, s, principal);
            && n < |q.calls|
            && (n in q.gone <==> n in r.gone || (!HasCall(r, s) && |LiveCalls(r)| >= maxHeld && IsVictim(r, n)))
  {
    OneVictim(r);
    hide HasCall, LiveCalls, IsVictim;
  }

  lemma OneVictim(r: Reference)
    ensures forall n, k: nat :: IsVictim(r, n) && IsVictim(r, k) ==> n == k
  {
    hide Idle;
  }

  /** What each operation answers, over every run, from what its moves amount to. */
  lemma AnswersFollow(maxHeld: nat, ms: seq<Move>)
    requires maxHeld > 0 && Legal(NewRegistry(maxHeld), ms)
    ensures var g, r := Play(NewRegistry(maxHeld), ms), RefPlay(NOTHING, maxHeld, ms);
            && (forall s, principal ::
                  Open(g, s, principal).1 ==
                    if HasCall(r, s) then AlreadyOpen
                    else if |LiveCalls(r)| >= maxHeld && forall n: nat :: !Idle(r, n) then Full
                    else OpenedAs(|r.calls|))
            && (forall token, principal, named ::
                  Present(g, token, principal, named).1 ==
                    if MayPresent(r, token, principal, named) then Taken
                    else if CanRetry(r, token) then Refused
                    else NotHeld)
            && (forall n: nat, requestId, reading :: n < |g.all| ==>
                  Enter(g, n, requestId, reading).1 ==
                    if Live(r, n) && reading then Some(UsesOf(r.uses, n)) else None)
  {
    hide Inv, Tells, Legal, Play, RefPlay, StoriesInside, Open, Present, Enter, Live, UsesOf, CanRetry, MayPresent;
    hide HasCall, LiveCalls, Idle;
    var g, r := Play(NewRegistry(maxHeld), ms), RefPlay(NOTHING, maxHeld, ms);
    RegistryFollows(maxHeld, ms);
    forall s, principal
      ensures Open(g, s, principal).1 ==
                if HasCall(r, s) then AlreadyOpen
                else if |LiveCalls(r)| >= maxHeld && forall n: nat :: !Idle(r, n) then Full
                else OpenedAs(|r.calls|)
    {
      OpenAnswers(g, r, s, principal);
    }
    forall token, principal, named
      ensures Present(g, token, principal, named).1 ==
                if MayPresent(r, token, principal, named) then Taken
                else if CanRetry(r, token) then Refused
                else NotHeld
    {
      PresentTells(g, r, token, principal, named);
    }
    forall n: nat, requestId, reading | n < |g.all|
      ensures Enter(g, n, requestId, reading).1 == if Live(r, n) && reading then Some(UsesOf(r.uses, n)) else None
    {
      EnterTells(g, r, n, requestId, reading);
    }
  }

  lemma OpenAnswers(g: Registry, r: Reference, s: string, principal: Option<string>)
    requires Inv(g) && Tells(g, r)
    ensures Open(g, s, principal).1 ==
              if HasCall(r, s) then AlreadyOpen
              else if |LiveCalls(r)| >= g.maxHeld && forall n: nat :: !Idle(r, n) then Full
              else OpenedAs(|r.calls|)
  {
    hide *;
    TablesTell(g, r);
    OpenOutcome(g, s, principal);
  }

  lemma TablesTell(g: Registry, r: Reference)
    requires Inv(g) && Tells(g, r)
    ensures forall s :: HasCall(r, s) <==> s in g.sessions
    ensures |LiveCalls(r)| == |g.sessions| && |g.all| == |r.calls|
    ensures var found := FirstEvictable(g, g.order);
            (found.Some? ==> found.value < |g.all|) && (found.None? <==> forall n: nat :: !Idle(r, n))
  {
    InvParts(g);
    assert CallsTell(g, r) && |g.all| == |r.calls|;
    hide *;
    HeldNames(g, r);
    VictimFound(g, r);
  }

  lemma VictimFound(g: Registry, r: Reference)
    requires Inv(g) && Tells(g, r)
    ensures var found := FirstEvictable(g, g.order);
            (found.Some? ==> found.value < |g.all|) && (found.None? <==> forall n: nat :: !Idle(r, n))
  {
    hide *;
    EvictedIsVictim(g, r);
  }

  lemma OpenOutcome(g: Registry, s: string, principal: Option<string>)
    ensures var found := FirstEvictable(g, g.order);
            Open(g, s, principal).1 ==
              if s in g.sessions then AlreadyOpen
              else if |g.sessions| >= g.maxHeld && (found.None? || found.value >= |g.all|) then Full
              else OpenedAs(|g.all|)
  {
    hide Add, Evict, FirstEvictable;
  }
}
