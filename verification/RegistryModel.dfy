/**
 * The entry that serves audited calls over HTTP: the connections it holds, the rounds they have out, and
 * the requests in flight on them. A connection is named by its place in `all`.
 */
module RegistryModel {
  import opened Events

  type Token = string

  /** One request written into a connection. Its first answer is its only one. */
  datatype Waiter = Waiter(requestId: string, answered: bool)

  /** `seamRunning` and `undelivered` are what the tool's seam reports of the call. */
  datatype Connection = Connection(
    sessionId: string,
    principal: Option<string>,
    waiters: map<nat, Waiter>,
    tokens: set<Token>,
    ownRounds: map<Token, string>,
    inFlight: int,
    nextId: nat,
    closed: bool,
    seamRunning: bool,
    undelivered: bool)

  /** A retry whose token was consumed and that is not yet written into its connection or given back. */
  datatype Retrying = Retrying(connection: nat, own: Option<string>)

  /**
   * `order` lists the held sessions, least recently used first. The last members are history: the tokens
   * issued, the retries under way by token, the tokens whose retry was written into a connection, and the
   * connections eviction or expiry closed while they were running.
   */
  datatype Registry = Registry(
    maxHeld: nat,
    all: seq<Connection>,
    sessions: map<string, nat>,
    order: seq<string>,
    tokens: map<Token, nat>,
    issued: set<Token>,
    retrying: map<Token, Retrying>,
    written: seq<Token>,
    cutShort: set<nat>)

  function NewRegistry(maxHeld: nat): Registry {
    Registry(maxHeld, [], map[], [], map[], {}, map[], [], {})
  }

  predicate Running(c: Connection) {
    c.inFlight > 0 || c.seamRunning
  }

  predicate Evictable(c: Connection) {
    !Running(c) && !c.undelivered
  }

  function With(g: Registry, n: nat, c: Connection): Registry
    requires n < |g.all|
  {
    g.(all := g.all[n := c])
  }

  function Removed(order: seq<string>, s: string): (r: seq<string>)
    ensures forall x :: x in r <==> x in order && x != s
  {
    if order == [] then
      []
    else if order[0] == s then
      Removed(order[1..], s)
    else
      [order[0]] + Removed(order[1..], s)
  }

  // ----- closing -----

  function AllAnswered(waiters: map<nat, Waiter>): map<nat, Waiter> {
    map id | id in waiters :: waiters[id].(answered := true)
  }

  /** The connection is no longer held, none of its rounds can be resumed, and its requests are answered. */
  function Close(g: Registry, n: nat): Registry
    requires n < |g.all|
  {
    var c := g.all[n];
    if c.closed then
      g
    else
      var mine := c.sessionId in g.sessions && g.sessions[c.sessionId] == n;
      With(g.(sessions := if mine then g.sessions - {c.sessionId} else g.sessions,
              order := if mine then Removed(g.order, c.sessionId) else g.order,
              tokens := g.tokens - c.tokens),
           n, c.(closed := true, tokens := {}, waiters := AllAnswered(c.waiters)))
  }

  // ----- opening -----

  /** The least recently used call that may be closed. */
  function FirstEvictable(g: Registry, order: seq<string>): Option<nat> {
    if order == [] then
      None
    else if order[0] in g.sessions && g.sessions[order[0]] < |g.all| && Evictable(g.all[g.sessions[order[0]]]) then
      Some(g.sessions[order[0]])
    else
      FirstEvictable(g, order[1..])
  }

  datatype Opening = AlreadyOpen | Full | OpenedAs(connection: nat)

  function Open(g: Registry, s: string, principal: Option<string>): (Registry, Opening) {
    if s in g.sessions then
      (g, AlreadyOpen)
    else if |g.sessions| >= g.maxHeld then
      match FirstEvictable(g, g.order)
      case None => (g, Full)
      case Some(n) =>
        if n < |g.all| then
          (Add(Evict(g, n), s, principal), OpenedAs(|g.all|))
        else
          (g, Full)
    else
      (Add(g, s, principal), OpenedAs(|g.all|))
  }

  function Evict(g: Registry, n: nat): Registry
    requires n < |g.all|
  {
    var h := Close(g, n);
    if Running(g.all[n]) && !g.all[n].closed then h.(cutShort := h.cutShort + {n}) else h
  }

  function Add(g: Registry, s: string, principal: Option<string>): Registry {
    g.(all := g.all + [Connection(s, principal, map[], {}, map[], 0, 0, false, false, false)],
       sessions := g.sessions[s := |g.all|],
       order := Removed(g.order, s) + [s])
  }

  /** The idle bound passed: the call is closed unless it is running. */
  function Expire(g: Registry, n: nat): Registry
    requires n < |g.all|
  {
    if g.all[n].closed || Running(g.all[n]) then g else Evict(g, n)
  }

  // ----- rounds -----

  /** A round went out: the seam's under its own token, the tool's own under one the entry issues for it. */
  function NoteRound(g: Registry, n: nat, token: Token, own: Option<string>): Registry
    requires n < |g.all|
  {
    var c := g.all[n];
    if c.closed then
      g
    else
      With(g.(tokens := g.tokens[token := n], issued := g.issued + {token}), n,
           c.(tokens := c.tokens + {token},
              ownRounds := if own.Some? then c.ownRounds[token := own.value] else c.ownRounds))
  }

  datatype Presented = NotHeld | Refused | Taken

  /** A retry presents a token. It is consumed at once - unless another principal, or another session than the
      one a tool's own round belongs to, presents it: then it is left for the call's own retry. */
  function Present(g: Registry, token: Token, principal: Option<string>, session: Option<string>)
    : (Registry, Presented)
  {
    if token !in g.tokens || g.tokens[token] >= |g.all| then
      (g, NotHeld)
    else
      var n := g.tokens[token];
      var c := g.all[n];
      if (token in c.ownRounds && session != Some(c.sessionId)) || principal != c.principal then
        (g, Refused)
      else
        var own := if token in c.ownRounds then Some(c.ownRounds[token]) else None;
        (With(g.(tokens := g.tokens - {token}, retrying := g.retrying[token := Retrying(n, own)]), n,
              c.(tokens := c.tokens - {token}, ownRounds := c.ownRounds - {token})), Taken)
  }

  /** The retry never reached the seam: its round is still out and may be retried. */
  function Restore(g: Registry, token: Token): Registry {
    if token !in g.retrying || g.retrying[token].connection >= |g.all| then
      g
    else
      var n, own := g.retrying[token].connection, g.retrying[token].own;
      var c := g.all[n];
      var h := g.(retrying := g.retrying - {token});
      if c.closed then
        h
      else
        With(h.(tokens := g.tokens[token := n]), n,
             c.(tokens := c.tokens + {token},
                ownRounds := if own.Some? then c.ownRounds[token := own.value] else c.ownRounds))
  }

  // ----- requests -----

  /** Registers a request and writes it in; `reading` says whether the connection takes it. */
  function Enter(g: Registry, n: nat, requestId: string, reading: bool): (Registry, Option<nat>)
    requires n < |g.all|
  {
    var c := g.all[n];
    if c.closed then
      (g, None)
    else
      var id := c.nextId + 1;
      var h := Used(With(g, n, c.(nextId := id, waiters := c.waiters[id := Waiter(requestId, false)],
                                  inFlight := c.inFlight + 1)), c.sessionId, n);
      if reading then (h, Some(id)) else (Leave(h, n, id), None)
  }

  /** The call becomes the most recently used one. */
  function Used(g: Registry, s: string, n: nat): Registry {
    if s in g.sessions && g.sessions[s] == n then g.(order := Removed(g.order, s) + [s]) else g
  }

  function Leave(g: Registry, n: nat, id: nat): Registry
    requires n < |g.all|
  {
    var c := g.all[n];
    if id in c.waiters then With(g, n, c.(waiters := c.waiters - {id}, inFlight := c.inFlight - 1)) else g
  }

  /** Writes the retry of a consumed token into its connection, or gives the token back. */
  function WriteRetry(g: Registry, token: Token, requestId: string, reading: bool): Registry
    requires token in g.retrying && g.retrying[token].connection < |g.all|
  {
    var (h, entered) := Enter(g, g.retrying[token].connection, requestId, reading);
    if entered.Some? then
      h.(retrying := h.retrying - {token}, written := h.written + [token])
    else
      Restore(h, token)
  }

  function Answer(g: Registry, n: nat, id: nat): Registry
    requires n < |g.all|
  {
    var c := g.all[n];
    if id in c.waiters then With(g, n, c.(waiters := c.waiters[id := c.waiters[id].(answered := true)])) else g
  }

  // ----- runs -----

  datatype Move =
    | Opens(session: string, principal: Option<string>)
    | Closes(n: nat)
    | Expires(n: nat)
    | NotesRound(n: nat, token: Token, own: Option<string>)
    | Presents(token: Token, principal: Option<string>, named: Option<string>)
    | Restores(token: Token)
    | WritesRetry(token: Token, requestId: string, reading: bool)
    | Enters(n: nat, requestId: string, reading: bool)
    | Leaves(n: nat, id: nat)
    | Answers(n: nat, id: nat)
    | SeamChanges(n: nat, running: bool, undelivered: bool)

  /** Tokens are fresh: none is issued twice. */
  predicate Enabled(g: Registry, m: Move) {
    match m
    case Opens(_, _) => true
    case Closes(n) => n < |g.all|
    case Expires(n) => n < |g.all|
    case NotesRound(n, token, _) => n < |g.all| && token !in g.issued
    case Presents(_, _, _) => true
    case Restores(token) => token in g.retrying
    case WritesRetry(token, _, _) => token in g.retrying && g.retrying[token].connection < |g.all|
    case Enters(n, _, _) => n < |g.all|
    case Leaves(n, _) => n < |g.all|
    case Answers(n, _) => n < |g.all|
    case SeamChanges(n, _, _) => n < |g.all|
  }

  function Next(g: Registry, m: Move): Registry
    requires Enabled(g, m)
  {
    match m
    case Opens(s, principal) => Open(g, s, principal).0
    case Closes(n) => Close(g, n)
    case Expires(n) => Expire(g, n)
    case NotesRound(n, token, own) => NoteRound(g, n, token, own)
    case Presents(token, principal, named) => Present(g, token, principal, named).0
    case Restores(token) => Restore(g, token)
    case WritesRetry(token, requestId, reading) => WriteRetry(g, token, requestId, reading)
    case Enters(n, requestId, reading) => Enter(g, n, requestId, reading).0
    case Leaves(n, id) => Leave(g, n, id)
    case Answers(n, id) => Answer(g, n, id)
    case SeamChanges(n, running, undelivered) =>
      With(g, n, g.all[n].(seamRunning := running, undelivered := undelivered))
  }

  ghost predicate Legal(g: Registry, ms: seq<Move>)
    decreases |ms|
  {
    ms != [] ==> Enabled(g, ms[0]) && Legal(Next(g, ms[0]), ms[1..])
  }

  ghost function Play(g: Registry, ms: seq<Move>): Registry
    requires Legal(g, ms)
    decreases |ms|
  {
    if ms == [] then g else Play(Next(g, ms[0]), ms[1..])
  }

  // ----- the invariant -----

  /** The calls held are the connections not closed, each under its own session, and no more than allowed. */
  ghost predicate HeldInv(g: Registry) {
    && |g.sessions| <= g.maxHeld
    && (forall s :: s in g.order <==> s in g.sessions)
    && (forall s :: s in g.sessions ==>
          g.sessions[s] < |g.all| && g.all[g.sessions[s]].sessionId == s && !g.all[g.sessions[s]].closed)
    && (forall n :: 0 <= n < |g.all| && !g.all[n].closed ==>
          g.all[n].sessionId in g.sessions && g.sessions[g.all[n].sessionId] == n)
  }

  /** The token table and the connections' token sets mirror each other; a closed connection has none. */
  ghost predicate MirrorInv(g: Registry) {
    && (forall t :: t in g.tokens ==> g.tokens[t] < |g.all| && t in g.all[g.tokens[t]].tokens)
    && (forall n :: 0 <= n < |g.all| ==> OwnTokens(g, n))
  }

  ghost predicate OwnTokens(g: Registry, n: nat)
    requires n < |g.all|
  {
    forall t :: t in g.all[n].tokens ==> t in g.tokens && g.tokens[t] == n && !g.all[n].closed
  }

  /** Requests in flight are exactly the waiters registered; a tool's own round is one of the rounds out. */
  ghost predicate ConnectionInv(c: Connection) {
    && c.inFlight == |c.waiters|
    && (forall id :: id in c.waiters ==> id <= c.nextId)
    && (!c.closed ==> c.ownRounds.Keys <= c.tokens)
    && (c.closed ==> forall id :: id in c.waiters ==> c.waiters[id].answered)
  }

  ghost predicate ConnectionsInv(g: Registry) {
    forall n :: 0 <= n < |g.all| ==> ConnectionInv(g.all[n])
  }

  /** A token is out, or being retried, or its retry was written, once. */
  ghost predicate OnceInv(g: Registry) {
    && g.tokens.Keys <= g.issued
    && (forall t :: t in g.retrying ==> t in g.issued && t !in g.tokens && t !in g.written)
    && (forall t :: t in g.written ==> t in g.issued && t !in g.tokens)
    && (forall i, j :: 0 <= i < j < |g.written| ==> g.written[i] != g.written[j])
    && (forall t :: t in g.retrying ==> g.retrying[t].connection < |g.all|)
  }

  ghost predicate Inv(g: Registry) {
    && HeldInv(g) && MirrorInv(g) && ConnectionsInv(g) && OnceInv(g)
    && g.cutShort == {}
  }

  // ----- what every step keeps -----

  lemma SubmapCard<K, V>(m: map<K, V>, keys: set<K>)
    ensures |m - keys| <= |m|
  {
    assert (m - keys).Keys <= m.Keys;
    SubsetCard((m - keys).Keys, m.Keys);
  }

  lemma {:induction false} SubsetCard<K>(a: set<K>, b: set<K>)
    requires a <= b
    ensures |a| <= |b|
  {
    if x :| x in a {
      SubsetCard(a - {x}, b - {x});
    }
  }

  lemma LessOne<V>(m: map<nat, V>, id: nat)
    requires id in m
    ensures |m - {id}| == |m| - 1
  {
    assert (m - {id}).Keys == m.Keys - {id};
  }

  lemma CloseKeeps(g: Registry, n: nat)
    requires Inv(g) && n < |g.all|
    ensures Inv(Close(g, n)) && |Close(g, n).all| == |g.all|
  {
    if !g.all[n].closed {
      CloseHeld(g, n);
      CloseMirror(g, n);
      CloseConnections(g, n);
      CloseOnce(g, n);
      hide HeldInv, MirrorInv, ConnectionsInv, OnceInv;
    }
  }

  /** Of what is held, closing takes away the call's own entry. */
  lemma CloseShape(g: Registry, n: nat)
    requires HeldInv(g) && n < |g.all| && !g.all[n].closed
    ensures var h := Close(g, n);
            && h.sessions == g.sessions - {g.all[n].sessionId} && h.order == Removed(g.order, g.all[n].sessionId)
            && |h.all| == |g.all| && h.maxHeld == g.maxHeld && h.all[n].closed
            && (forall m :: 0 <= m < |g.all| && m != n ==> h.all[m] == g.all[m])
  {
    hide AllAnswered, Removed;
  }

  lemma CloseHeld(g: Registry, n: nat)
    requires HeldInv(g) && n < |g.all|
    ensures HeldInv(Close(g, n))
  {
    if !g.all[n].closed {
      hide Close;
      CloseShape(g, n);
      SubmapCard(g.sessions, {g.all[n].sessionId});
    }
  }

  lemma CloseMirror(g: Registry, n: nat)
    requires MirrorInv(g) && n < |g.all|
    ensures MirrorInv(Close(g, n))
  {
    hide AllAnswered, Removed;
    var h := Close(g, n);
    if !g.all[n].closed {
      forall t | t in h.tokens ensures h.tokens[t] < |h.all| && t in h.all[h.tokens[t]].tokens {
        assert t in g.tokens && t !in g.all[n].tokens;
        assert g.tokens[t] != n;
      }
      forall m | 0 <= m < |h.all| ensures OwnTokens(h, m) {
        assert OwnTokens(g, m) && OwnTokens(g, n);
      }
      MirrorOf(h);
    }
  }

  lemma MirrorOf(g: Registry)
    requires forall t :: t in g.tokens ==> g.tokens[t] < |g.all| && t in g.all[g.tokens[t]].tokens
    requires forall n :: 0 <= n < |g.all| ==> OwnTokens(g, n)
    ensures MirrorInv(g)
  {
  }

  lemma CloseConnections(g: Registry, n: nat)
    requires ConnectionsInv(g) && n < |g.all|
    ensures ConnectionsInv(Close(g, n))
  {
    hide Removed;
    assert ConnectionInv(g.all[n]);
    assert AllAnswered(g.all[n].waiters).Keys == g.all[n].waiters.Keys;
    assert |AllAnswered(g.all[n].waiters)| == |AllAnswered(g.all[n].waiters).Keys|;
    assert |g.all[n].waiters| == |g.all[n].waiters.Keys|;
  }

  lemma CloseOnce(g: Registry, n: nat)
    requires OnceInv(g) && n < |g.all|
    ensures OnceInv(Close(g, n))
  {
    hide AllAnswered, Removed;
  }

  // ----- opening -----

  lemma AddKeeps(g: Registry, s: string, principal: Option<string>)
    requires Inv(g) && s !in g.sessions && |g.sessions| < g.maxHeld
    ensures Inv(Add(g, s, principal))
  {
    AddHeld(g, s, principal);
    AddRest(g, s, principal);
    hide HeldInv, MirrorInv, ConnectionsInv, OnceInv, Removed;
  }

  lemma AddRest(g: Registry, s: string, principal: Option<string>)
    requires MirrorInv(g) && ConnectionsInv(g) && OnceInv(g)
    ensures var h := Add(g, s, principal); MirrorInv(h) && ConnectionsInv(h) && OnceInv(h)
  {
    hide Removed;
    var h := Add(g, s, principal);
    forall t | t in h.tokens ensures h.tokens[t] < |h.all| && t in h.all[h.tokens[t]].tokens {
      assert h.all[g.tokens[t]] == g.all[g.tokens[t]];
    }
    forall n | 0 <= n < |h.all| ensures OwnTokens(h, n) {
      assert n < |g.all| ==> OwnTokens(g, n);
    }
    MirrorOf(h);
    forall n | 0 <= n < |h.all| ensures ConnectionInv(h.all[n]) {
      assert n < |g.all| ==> ConnectionInv(g.all[n]);
    }
  }

  lemma AddHeld(g: Registry, s: string, principal: Option<string>)
    requires HeldInv(g) && s !in g.sessions && |g.sessions| < g.maxHeld
    ensures HeldInv(Add(g, s, principal))
  {
  }

  /** What is evicted is held, and closing it cuts nothing short. */
  lemma {:induction false} EvictableIsIdle(g: Registry, order: seq<string>)
    ensures match FirstEvictable(g, order)
            case None => forall s :: s in order && s in g.sessions && g.sessions[s] < |g.all| ==>
              !Evictable(g.all[g.sessions[s]])
            case Some(n) =>
              && n < |g.all| && Evictable(g.all[n])
              && exists s :: s in order && s in g.sessions && g.sessions[s] == n
  {
    if order != [] {
      EvictableIsIdle(g, order[1..]);
    }
  }

  lemma EvictKeeps(g: Registry, n: nat)
    requires Inv(g) && n < |g.all| && !Running(g.all[n])
    ensures Inv(Evict(g, n)) && |Evict(g, n).all| == |g.all|
  {
    CloseKeeps(g, n);
    hide Inv, Close;
  }

  lemma OpenKeeps(g: Registry, s: string, principal: Option<string>)
    requires Inv(g) && g.maxHeld > 0
    ensures Inv(Open(g, s, principal).0)
  {
    hide Inv, Add, Evict, FirstEvictable, Evictable;
    InvParts(g);
    assert |g.sessions| <= g.maxHeld by {
      hide MirrorInv, ConnectionsInv, OnceInv;
    }
    hide HeldInv, MirrorInv, ConnectionsInv, OnceInv;
    if s !in g.sessions {
      if |g.sessions| >= g.maxHeld {
        EvictionKeeps(g, s, principal);
      } else {
        AddKeeps(g, s, principal);
      }
    }
  }

  lemma EvictionKeeps(g: Registry, s: string, principal: Option<string>)
    requires Inv(g) && s !in g.sessions && |g.sessions| <= g.maxHeld
    ensures var found := FirstEvictable(g, g.order);
            found.Some? ==> found.value < |g.all| && Inv(Add(Evict(g, found.value), s, principal))
  {
    EvictableIsIdle(g, g.order);
    var found := FirstEvictable(g, g.order);
    if found.Some? {
      InvParts(g);
      hide Inv, Add, Evict, HeldInv, MirrorInv, ConnectionsInv, OnceInv, FirstEvictable;
      EvictKeeps(g, found.value);
      EvictFrees(g, found.value);
      AddKeeps(Evict(g, found.value), s, principal);
    }
  }

  /** Evicting a held call makes room for one. */
  lemma EvictFrees(g: Registry, n: nat)
    requires HeldInv(g) && n < |g.all| && exists s :: s in g.order && s in g.sessions && g.sessions[s] == n
    ensures |Evict(g, n).sessions| < |g.sessions| && Evict(g, n).sessions.Keys <= g.sessions.Keys
    ensures Evict(g, n).maxHeld == g.maxHeld
  {
    hide AllAnswered, Removed;
    var s :| s in g.order && s in g.sessions && g.sessions[s] == n;
    assert g.all[n].sessionId == s;
    assert Evict(g, n).sessions == g.sessions - {s};
    assert (g.sessions - {s}).Keys == g.sessions.Keys - {s};
  }

  // ----- rounds and requests -----

  lemma NoteKeeps(g: Registry, n: nat, token: Token, own: Option<string>)
    requires Inv(g) && n < |g.all| && token !in g.issued
    ensures Inv(NoteRound(g, n, token, own))
  {
    assert ConnectionInv(g.all[n]);
    NoteMirror(g, n, token, own);
    NoteOnce(g, n, token, own);
    NoteConnections(g, n, token, own);
    NoteHeld(g, n, token, own);
    hide HeldInv, MirrorInv, ConnectionsInv, OnceInv;
  }

  lemma NoteHeld(g: Registry, n: nat, token: Token, own: Option<string>)
    requires HeldInv(g) && n < |g.all|
    ensures HeldInv(NoteRound(g, n, token, own))
  {
  }

  lemma NoteMirror(g: Registry, n: nat, token: Token, own: Option<string>)
    requires MirrorInv(g) && OnceInv(g) && n < |g.all| && token !in g.issued
    ensures MirrorInv(NoteRound(g, n, token, own))
  {
    var h := NoteRound(g, n, token, own);
    forall m | 0 <= m < |h.all| ensures OwnTokens(h, m) {
      assert OwnTokens(g, m);
    }
  }

  lemma NoteConnections(g: Registry, n: nat, token: Token, own: Option<string>)
    requires ConnectionsInv(g) && n < |g.all|
    ensures ConnectionsInv(NoteRound(g, n, token, own))
  {
    assert ConnectionInv(g.all[n]);
  }

  lemma NoteOnce(g: Registry, n: nat, token: Token, own: Option<string>)
    requires OnceInv(g) && n < |g.all| && token !in g.issued
    ensures OnceInv(NoteRound(g, n, token, own))
  {
  }

  lemma PresentKeeps(g: Registry, token: Token, principal: Option<string>, named: Option<string>)
    requires Inv(g)
    ensures Inv(Present(g, token, principal, named).0)
  {
    if token in g.tokens && g.tokens[token] < |g.all| {
      PresentMirror(g, token, principal, named);
      PresentOnce(g, token, principal, named);
      PresentConnections(g, token, principal, named);
      PresentHeld(g, token, principal, named);
      hide HeldInv, MirrorInv, ConnectionsInv, OnceInv;
    }
  }

  lemma PresentHeld(g: Registry, token: Token, principal: Option<string>, named: Option<string>)
    requires HeldInv(g)
    ensures HeldInv(Present(g, token, principal, named).0)
  {
  }

  lemma PresentMirror(g: Registry, token: Token, principal: Option<string>, named: Option<string>)
    requires MirrorInv(g)
    ensures MirrorInv(Present(g, token, principal, named).0)
  {
    var h := Present(g, token, principal, named).0;
    forall m | 0 <= m < |h.all| ensures OwnTokens(h, m) {
      assert OwnTokens(g, m);
    }
  }

  lemma PresentConnections(g: Registry, token: Token, principal: Option<string>, named: Option<string>)
    requires ConnectionsInv(g)
    ensures ConnectionsInv(Present(g, token, principal, named).0)
  {
    if token in g.tokens && g.tokens[token] < |g.all| {
      assert ConnectionInv(g.all[g.tokens[token]]);
    }
  }

  lemma PresentOnce(g: Registry, token: Token, principal: Option<string>, named: Option<string>)
    requires OnceInv(g)
    ensures OnceInv(Present(g, token, principal, named).0)
  {
  }

  lemma RestoreKeeps(g: Registry, token: Token)
    requires Inv(g)
    ensures Inv(Restore(g, token))
  {
    if token in g.retrying && g.retrying[token].connection < |g.all| {
      RestoreMirror(g, token);
      RestoreConnections(g, token);
      RestoreOnce(g, token);
      RestoreHeld(g, token);
      hide HeldInv, MirrorInv, ConnectionsInv, OnceInv;
    }
  }

  lemma RestoreHeld(g: Registry, token: Token)
    requires HeldInv(g)
    ensures HeldInv(Restore(g, token))
  {
  }

  lemma RestoreMirror(g: Registry, token: Token)
    requires MirrorInv(g) && OnceInv(g)
    ensures MirrorInv(Restore(g, token))
  {
    var h := Restore(g, token);
    forall m | 0 <= m < |h.all| ensures OwnTokens(h, m) {
      assert OwnTokens(g, m);
    }
  }

  lemma RestoreConnections(g: Registry, token: Token)
    requires ConnectionsInv(g)
    ensures ConnectionsInv(Restore(g, token))
  {
    if token in g.retrying && g.retrying[token].connection < |g.all| {
      assert ConnectionInv(g.all[g.retrying[token].connection]);
    }
  }

  lemma RestoreOnce(g: Registry, token: Token)
    requires OnceInv(g)
    ensures OnceInv(Restore(g, token))
  {
  }

  lemma UsedKeeps(g: Registry, s: string, n: nat)
    requires Inv(g)
    ensures Inv(Used(g, s, n))
  {
    hide Removed, ConnectionInv;
    var h := Used(g, s, n);
    forall m | 0 <= m < |h.all| ensures OwnTokens(h, m) {
      assert OwnTokens(g, m);
    }
  }

  lemma ChangedWaiters(g: Registry, n: nat, c: Connection)
    requires Inv(g) && n < |g.all| && ConnectionInv(c)
    requires c == g.all[n].(waiters := c.waiters, inFlight := c.inFlight, nextId := c.nextId,
                            seamRunning := c.seamRunning, undelivered := c.undelivered)
    ensures Inv(With(g, n, c))
  {
    hide Inv, ConnectionInv;
    InvParts(g);
    SameHeld(g, n, c);
    SameMirror(g, n, c);
    SameOnce(g, n, c);
    InvOf(With(g, n, c));
  }

  lemma InvParts(g: Registry)
    requires Inv(g)
    ensures HeldInv(g) && MirrorInv(g) && ConnectionsInv(g) && OnceInv(g) && g.cutShort == {}
  {
  }

  lemma InvOf(g: Registry)
    requires HeldInv(g) && MirrorInv(g) && ConnectionsInv(g) && OnceInv(g) && g.cutShort == {}
    ensures Inv(g)
  {
  }

  lemma SameHeld(g: Registry, n: nat, c: Connection)
    requires HeldInv(g) && n < |g.all| && c.closed == g.all[n].closed && c.sessionId == g.all[n].sessionId
    ensures HeldInv(With(g, n, c))
  {
  }

  lemma SameMirror(g: Registry, n: nat, c: Connection)
    requires MirrorInv(g) && n < |g.all| && c.closed == g.all[n].closed && c.tokens == g.all[n].tokens
    ensures MirrorInv(With(g, n, c))
  {
    var h := With(g, n, c);
    forall m | 0 <= m < |h.all| ensures OwnTokens(h, m) {
      assert OwnTokens(g, m);
    }
  }

  lemma SameOnce(g: Registry, n: nat, c: Connection)
    requires OnceInv(g) && n < |g.all|
    ensures OnceInv(With(g, n, c))
  {
  }

  lemma LeaveKeeps(g: Registry, n: nat, id: nat)
    requires Inv(g) && n < |g.all|
    ensures Inv(Leave(g, n, id))
  {
    var c := g.all[n];
    assert ConnectionInv(c);
    if id in c.waiters {
      LessOne(c.waiters, id);
      ChangedWaiters(g, n, c.(waiters := c.waiters - {id}, inFlight := c.inFlight - 1));
    }
  }

  function Entering(c: Connection, requestId: string): Connection {
    c.(nextId := c.nextId + 1, waiters := c.waiters[c.nextId + 1 := Waiter(requestId, false)],
       inFlight := c.inFlight + 1)
  }

  lemma EnteringCounts(c: Connection, requestId: string)
    requires ConnectionInv(c) && !c.closed
    ensures ConnectionInv(Entering(c, requestId))
  {
    var d := Entering(c, requestId);
    assert c.nextId + 1 !in c.waiters;
    assert d.waiters.Keys == c.waiters.Keys + {c.nextId + 1};
    assert |d.waiters| == |d.waiters.Keys| && |c.waiters| == |c.waiters.Keys|;
  }

  lemma EnterKeeps(g: Registry, n: nat, requestId: string, reading: bool)
    requires Inv(g) && n < |g.all|
    ensures var (h, id) := Enter(g, n, requestId, reading);
            && Inv(h) && |h.all| == |g.all|
            && h.retrying == g.retrying && h.written == g.written && h.tokens == g.tokens
            && h.issued == g.issued
  {
    hide Inv, ConnectionInv, Leave, Used, With, Entering, Enter;
    var c := g.all[n];
    if c.closed {
      EnterClosed(g, n, requestId, reading);
    } else {
      ConnectionStands(g, n);
      EnteringCounts(c, requestId);
      EnteringInside(c, requestId);
      ChangedWaiters(g, n, Entering(c, requestId));
      EnterIs(g, n, requestId, reading);
      var h := Used(With(g, n, Entering(c, requestId)), c.sessionId, n);
      UsedKeeps(With(g, n, Entering(c, requestId)), c.sessionId, n);
      LeaveKeeps(h, n, c.nextId + 1);
    }
  }

  lemma EnterClosed(g: Registry, n: nat, requestId: string, reading: bool)
    requires n < |g.all| && g.all[n].closed
    ensures Enter(g, n, requestId, reading) == (g, None)
  {
  }

  lemma ConnectionStands(g: Registry, n: nat)
    requires Inv(g) && n < |g.all|
    ensures ConnectionInv(g.all[n])
  {
    hide HeldInv, MirrorInv, OnceInv;
  }

  lemma EnteringInside(c: Connection, requestId: string)
    ensures var d := Entering(c, requestId);
            d == c.(waiters := d.waiters, inFlight := d.inFlight, nextId := d.nextId)
  {
  }

  lemma EnterIs(g: Registry, n: nat, requestId: string, reading: bool)
    requires n < |g.all| && !g.all[n].closed
    ensures var c := g.all[n];
            var h := Used(With(g, n, Entering(c, requestId)), c.sessionId, n);
            && |h.all| == |g.all| && h == g.(all := h.all, order := h.order)
            && Enter(g, n, requestId, reading) ==
                 (if reading then (h, Some(c.nextId + 1)) else (Leave(h, n, c.nextId + 1), None))
            && |Leave(h, n, c.nextId + 1).all| == |h.all|
            && Leave(h, n, c.nextId + 1) == h.(all := Leave(h, n, c.nextId + 1).all)
  {
    hide Removed;
    LeaveTouches(Used(With(g, n, Entering(g.all[n], requestId)), g.all[n].sessionId, n), n, g.all[n].nextId + 1);
    hide Leave;
  }

  lemma LeaveTouches(g: Registry, n: nat, id: nat)
    requires n < |g.all|
    ensures Leave(g, n, id) == g.(all := Leave(g, n, id).all) && |Leave(g, n, id).all| == |g.all|
  {
  }

  lemma AnswerKeeps(g: Registry, n: nat, id: nat)
    requires Inv(g) && n < |g.all|
    ensures Inv(Answer(g, n, id))
  {
    var c := g.all[n];
    assert ConnectionInv(c);
    if id in c.waiters {
      var d := c.(waiters := c.waiters[id := c.waiters[id].(answered := true)]);
      assert d.waiters.Keys == c.waiters.Keys;
      assert |d.waiters| == |d.waiters.Keys| && |c.waiters| == |c.waiters.Keys|;
      ChangedWaiters(g, n, d);
    }
  }

  lemma WriteKeeps(g: Registry, token: Token, requestId: string, reading: bool)
    requires Inv(g) && token in g.retrying && g.retrying[token].connection < |g.all|
    ensures Inv(WriteRetry(g, token, requestId, reading))
  {
    hide HeldInv, MirrorInv, ConnectionsInv, OnceInv, Enter;
    var (h, entered) := Enter(g, g.retrying[token].connection, requestId, reading);
    EnterKeeps(g, g.retrying[token].connection, requestId, reading);
    if entered.Some? {
      WrittenOnce(h, token);
      WrittenElsewhere(h, token);
    } else {
      RestoreKeeps(h, token);
    }
  }

  lemma WrittenOnce(h: Registry, token: Token)
    requires OnceInv(h) && token in h.retrying
    ensures OnceInv(h.(retrying := h.retrying - {token}, written := h.written + [token]))
  {
  }

  lemma WrittenElsewhere(h: Registry, token: Token)
    requires HeldInv(h) && MirrorInv(h) && ConnectionsInv(h)
    ensures var k := h.(retrying := h.retrying - {token}, written := h.written + [token]);
            HeldInv(k) && MirrorInv(k) && ConnectionsInv(k)
  {
    var k := h.(retrying := h.retrying - {token}, written := h.written + [token]);
    forall m | 0 <= m < |k.all| ensures OwnTokens(k, m) {
      assert OwnTokens(h, m);
    }
  }

  lemma ExpireKeeps(g: Registry, n: nat)
    requires Inv(g) && n < |g.all|
    ensures Inv(Expire(g, n))
  {
    hide Inv, Evict;
    if !g.all[n].closed && !Running(g.all[n]) {
      EvictKeeps(g, n);
    }
  }

  lemma MoveKeepsInv(g: Registry, m: Move)
    requires Inv(g) && Enabled(g, m) && g.maxHeld > 0
    ensures Inv(Next(g, m)) && Next(g, m).maxHeld == g.maxHeld
  {
    BoundStands(g, m);
    hide Inv, Open, Close, Expire, NoteRound, Present, Restore, WriteRetry, Enter, Leave, Answer;
    match m
    case Opens(s, principal) => OpenKeeps(g, s, principal);
    case Closes(n) => CloseKeeps(g, n);
    case Expires(n) => ExpireKeeps(g, n);
    case NotesRound(n, token, own) => NoteKeeps(g, n, token, own);
    case Presents(token, principal, named) => PresentKeeps(g, token, principal, named);
    case Restores(token) => RestoreKeeps(g, token);
    case WritesRetry(token, requestId, reading) => WriteKeeps(g, token, requestId, reading);
    case Enters(n, requestId, reading) => EnterKeeps(g, n, requestId, reading);
    case Leaves(n, id) => LeaveKeeps(g, n, id);
    case Answers(n, id) => AnswerKeeps(g, n, id);
    case SeamChanges(n, running, undelivered) =>
      ConnectionOf(g, n);
      ChangedWaiters(g, n, g.all[n].(seamRunning := running, undelivered := undelivered));
  }

  lemma ConnectionOf(g: Registry, n: nat)
    requires Inv(g) && n < |g.all|
    ensures ConnectionInv(g.all[n])
    ensures forall c: Connection ::
              c == g.all[n].(seamRunning := c.seamRunning, undelivered := c.undelivered) ==> ConnectionInv(c)
  {
  }

  lemma BoundStands(g: Registry, m: Move)
    requires Enabled(g, m)
    ensures Next(g, m).maxHeld == g.maxHeld
  {
    hide Removed, AllAnswered, FirstEvictable, Open, Enter, WriteRetry;
    match m
    case Opens(s, principal) => OpenBound(g, s, principal);
    case Enters(n, requestId, reading) => EnterBound(g, n, requestId, reading);
    case WritesRetry(token, requestId, reading) => WriteBound(g, token, requestId, reading);
    case _ =>
  }

  lemma OpenBound(g: Registry, s: string, principal: Option<string>)
    ensures Open(g, s, principal).0.maxHeld == g.maxHeld
  {
    hide Removed, AllAnswered, FirstEvictable;
  }

  lemma EnterBound(g: Registry, n: nat, requestId: string, reading: bool)
    requires n < |g.all|
    ensures Enter(g, n, requestId, reading).0.maxHeld == g.maxHeld
  {
    hide Removed;
  }

  lemma WriteBound(g: Registry, token: Token, requestId: string, reading: bool)
    requires token in g.retrying && g.retrying[token].connection < |g.all|
    ensures WriteRetry(g, token, requestId, reading).maxHeld == g.maxHeld
  {
    EnterBound(g, g.retrying[token].connection, requestId, reading);
    hide Enter;
  }

  lemma {:induction false} PlayKeepsInv(g: Registry, ms: seq<Move>)
    requires Inv(g) && g.maxHeld > 0 && Legal(g, ms)
    ensures Inv(Play(g, ms)) && Play(g, ms).maxHeld == g.maxHeld
    decreases |ms|
  {
    hide Inv, Enabled, Next;
    if ms != [] {
      MoveKeepsInv(g, ms[0]);
      PlayKeepsInv(Next(g, ms[0]), ms[1..]);
    }
  }

  /**
   * The registry, over every run with fresh tokens: the token table and the open connections' token sets
   * mirror each other; the requests in flight are the waiters registered; no more calls are held than
   * allowed, and they are the connections not closed; eviction and expiry cut no running call short; and the
   * retry of a token is written into its connection at most once, however often it was given back.
   */
  lemma RegistryHolds(maxHeld: nat, ms: seq<Move>)
    requires maxHeld > 0 && Legal(NewRegistry(maxHeld), ms)
    ensures var g := Play(NewRegistry(maxHeld), ms);
            && (forall t, n :: t in g.tokens && g.tokens[t] == n <==>
                  0 <= n < |g.all| && !g.all[n].closed && t in g.all[n].tokens)
            && (forall n :: 0 <= n < |g.all| ==> g.all[n].inFlight == |g.all[n].waiters|)
            && |g.sessions| <= maxHeld
            && (forall s, n :: s in g.sessions && g.sessions[s] == n <==>
                  0 <= n < |g.all| && !g.all[n].closed && g.all[n].sessionId == s)
            && g.cutShort == {}
            && (forall i, j :: 0 <= i < j < |g.written| ==> g.written[i] != g.written[j])
  {
    hide Play, Legal, Inv;
    assert Inv(NewRegistry(maxHeld)) by {
      NewInv(maxHeld);
    }
    PlayKeepsInv(NewRegistry(maxHeld), ms);
    var g := Play(NewRegistry(maxHeld), ms);
    TablesAgree(g);
    InvParts(g);
    hide HeldInv, MirrorInv, ConnectionsInv;
  }

  lemma NewInv(maxHeld: nat)
    ensures Inv(NewRegistry(maxHeld))
  {
  }

  lemma TablesAgree(g: Registry)
    requires Inv(g)
    ensures forall t, n :: t in g.tokens && g.tokens[t] == n <==>
              0 <= n < |g.all| && !g.all[n].closed && t in g.all[n].tokens
    ensures forall n :: 0 <= n < |g.all| ==> g.all[n].inFlight == |g.all[n].waiters|
    ensures |g.sessions| <= g.maxHeld
    ensures forall s, n :: s in g.sessions && g.sessions[s] == n <==>
              0 <= n < |g.all| && !g.all[n].closed && g.all[n].sessionId == s
  {
    hide OnceInv;
    forall n | 0 <= n < |g.all| ensures g.all[n].inFlight == |g.all[n].waiters| {
      assert ConnectionInv(g.all[n]);
    }
    forall t, n
      ensures t in g.tokens && g.tokens[t] == n <==> 0 <= n < |g.all| && !g.all[n].closed && t in g.all[n].tokens
    {
      if 0 <= n < |g.all| {
        assert OwnTokens(g, n);
      }
      if t in g.tokens {
        assert OwnTokens(g, g.tokens[t]);
      }
    }
  }

  /** A new call is refused only while every held call is running or holds what its host has not received. */
  lemma FullOnlyWhenNoneEvictable(g: Registry, s: string, principal: Option<string>)
    requires Inv(g) && s !in g.sessions
    ensures Open(g, s, principal).1 == Full <==>
              |g.sessions| == g.maxHeld && forall n :: 0 <= n < |g.all| && !g.all[n].closed ==> !Evictable(g.all[n])
  {
    hide MirrorInv, ConnectionsInv, OnceInv;
    EvictableIsIdle(g, g.order);
  }

  /** A retry that another principal, or another session than a tool's own round belongs to, presents burns
      nothing: the registry is unchanged, so the call's own retry is taken as before. */
  lemma RefusalBurnsNothing(g: Registry, token: Token, principal: Option<string>, named: Option<string>)
    requires Inv(g) && token in g.tokens
    ensures var (h, p) := Present(g, token, principal, named);
            var c := g.all[g.tokens[token]];
            && (p == Refused <==> principal != c.principal || (token in c.ownRounds && named != Some(c.sessionId)))
            && (p == Refused ==> h == g)
            && (p == Taken ==> Restore(h, token) == g)
  {
    hide HeldInv, ConnectionsInv;
    var n := g.tokens[token];
    var c := g.all[n];
    var (h, p) := Present(g, token, principal, named);
    if p == Taken {
      assert OwnTokens(g, n);
      assert token in c.tokens && !c.closed;
      assert (g.tokens - {token})[token := n] == g.tokens;
      assert (c.tokens - {token}) + {token} == c.tokens;
      if token in c.ownRounds {
        assert (c.ownRounds - {token})[token := c.ownRounds[token]] == c.ownRounds;
      } else {
        assert c.ownRounds - {token} == c.ownRounds;
      }
      var own := if token in c.ownRounds then Some(c.ownRounds[token]) else None;
      assert g.retrying[token := Retrying(n, own)] - {token} == g.retrying;
      assert Restore(h, token).all == g.all;
    }
  }
}
