/** The HTTP entry's registry, updated in place; each operation is proved to compute its specification. */
module CallRegistries {
  import opened Events
  import opened RegistryModel

  class AuditedStreamableHTTP {
    const maxHeld: nat
    var all: seq<Connection>
    var sessions: map<string, nat>
    var order: seq<string>
    var tokens: map<Token, nat>
    var retrying: map<Token, Retrying>
    ghost var issued: set<Token>
    ghost var written: seq<Token>
    ghost var cutShort: set<nat>

    ghost function State(): Registry
      reads this
    {
      Registry(maxHeld, all, sessions, order, tokens, issued, retrying, written, cutShort)
    }

    ghost predicate Valid()
      reads this
    {
      Inv(State()) && maxHeld > 0
    }

    constructor (maxHeld: nat)
      ensures State() == NewRegistry(maxHeld)
      ensures maxHeld > 0 ==> Valid()
    {
      this.maxHeld := maxHeld;
      all, sessions, order, tokens, retrying := [], map[], [], map[], map[];
      issued, written, cutShort := {}, [], {};
      new;
      NewInv(maxHeld);
    }

    /** A call's connection closes: its rounds are no longer held, and its requests are answered. */
    method Close(n: nat)
      requires n < |all|
      modifies this
      ensures State() == RegistryModel.Close(old(State()), n)
      ensures old(Valid()) ==> Valid()
    {
      IsSound(State(), Closes(n));
      hide Inv;
      var c := all[n];
      if c.closed {
        return;
      }
      if c.sessionId in sessions && sessions[c.sessionId] == n {
        sessions := sessions - {c.sessionId};
        order := Removed(order, c.sessionId);
      }
      tokens := tokens - c.tokens;
      all := all[n := c.(closed := true, tokens := {}, waiters := AllAnswered(c.waiters))];
    }

    /** The least recently used call that may be closed, if there is one. */
    method FindEvictable() returns (found: Option<nat>)
      ensures found == FirstEvictable(State(), order)
    {
      var i := 0;
      while i < |order|
        invariant 0 <= i <= |order|
        invariant FirstEvictable(State(), order) == FirstEvictable(State(), order[i..])
      {
        var s := order[i];
        assert order[i..][0] == s && order[i..][1..] == order[i + 1..];
        if s in sessions && sessions[s] < |all| && Evictable(all[sessions[s]]) {
          return Some(sessions[s]);
        }
        i := i + 1;
      }
      return None;
    }

    /** Opens a call's connection, making room where a call may be closed for it. */
    method Open(s: string, principal: Option<string>) returns (opening: Opening)
      modifies this
      ensures (State(), opening) == RegistryModel.Open(old(State()), s, principal)
      ensures old(Valid()) ==> Valid()
    {
      OpenIsSound(State(), s, principal);
      hide Inv, FirstEvictable, Removed, AllAnswered;
      ghost var before := State();
      if s in sessions {
        return AlreadyOpen;
      }
      if |sessions| >= maxHeld {
        var found := FindEvictable();
        if found.None? || found.value >= |all| {
          return Full;
        }
        if Running(all[found.value]) && !all[found.value].closed {
          cutShort := cutShort + {found.value};
        }
        Close(found.value);
        assert State() == Evict(before, found.value) && |all| == |before.all|;
      }
      hide RegistryModel.Close, Evict;
      opening := OpenedAs(|all|);
      sessions := sessions[s := |all|];
      order := Removed(order, s) + [s];
      all := all + [Connection(s, principal, map[], {}, map[], 0, 0, false, false, false)];
    }

    /** The call was idle for the whole bound: its connection closes, unless an operation is under way. */
    method Expire(n: nat)
      requires n < |all|
      modifies this
      ensures State() == RegistryModel.Expire(old(State()), n)
      ensures old(Valid()) ==> Valid()
    {
      IsSound(State(), Expires(n));
      hide Inv;
      if !all[n].closed && !Running(all[n]) {
        Close(n);
      }
    }

    /** Indexes a round's token, so that its retry finds this connection. */
    method NoteRound(n: nat, token: Token, own: Option<string>)
      requires n < |all|
      modifies this
      ensures State() == RegistryModel.NoteRound(old(State()), n, token, own)
      ensures old(Valid()) && token !in old(issued) ==> Valid()
    {
      NoteIsSound(State(), n, token, own);
      hide Inv;
      var c := all[n];
      if c.closed {
        return;
      }
      if own.Some? {
        c := c.(ownRounds := c.ownRounds[token := own.value]);
      }
      tokens := tokens[token := n];
      issued := issued + {token};
      all := all[n := c.(tokens := c.tokens + {token})];
    }

    /** Consumes the token a retry presents, before anything else can present it. */
    method Present(token: Token, principal: Option<string>, named: Option<string>) returns (presented: Presented)
      modifies this
      ensures (State(), presented) == RegistryModel.Present(old(State()), token, principal, named)
      ensures old(Valid()) ==> Valid()
    {
      PresentIsSound(State(), token, principal, named);
      hide Inv;
      if token !in tokens || tokens[token] >= |all| {
        return NotHeld;
      }
      var n := tokens[token];
      var c := all[n];
      if token in c.ownRounds && named != Some(c.sessionId) {
        return Refused;
      }
      if principal != c.principal {
        return Refused;
      }
      tokens := tokens - {token};
      retrying := retrying[token := Retrying(n, if token in c.ownRounds then Some(c.ownRounds[token]) else None)];
      all := all[n := c.(tokens := c.tokens - {token}, ownRounds := c.ownRounds - {token})];
      return Taken;
    }

    /** Gives back the token of a retry that never reached the seam. */
    method Restore(token: Token)
      modifies this
      ensures State() == RegistryModel.Restore(old(State()), token)
      ensures old(Valid()) ==> Valid()
    {
      RestoreIsSound(State(), token);
      hide Inv;
      if token !in retrying || retrying[token].connection >= |all| {
        return;
      }
      var n, own := retrying[token].connection, retrying[token].own;
      var c := all[n];
      retrying := retrying - {token};
      if !c.closed {
        tokens := tokens[token := n];
        if own.Some? {
          c := c.(ownRounds := c.ownRounds[token := own.value]);
        }
        all := all[n := c.(tokens := c.tokens + {token})];
      }
    }

    /** Registers a request on the connection and writes it in; None where the connection does not take it. */
    method Enter(n: nat, requestId: string, reading: bool) returns (entered: Option<nat>)
      requires n < |all|
      modifies this
      ensures (State(), entered) == RegistryModel.Enter(old(State()), n, requestId, reading)
      ensures old(Valid()) ==> Valid()
    {
      EnterIsSound(State(), n, requestId, reading);
      hide Inv, RegistryModel.Leave, Removed;
      var c := all[n];
      if c.closed {
        return None;
      }
      var id := c.nextId + 1;
      all := all[n := c.(nextId := id, waiters := c.waiters[id := Waiter(requestId, false)],
                         inFlight := c.inFlight + 1)];
      if c.sessionId in sessions && sessions[c.sessionId] == n {
        order := Removed(order, c.sessionId) + [c.sessionId];
      }
      if !reading {
        Leave(n, id);
        return None;
      }
      return Some(id);
    }

    /** The request is answered or abandoned: it no longer keeps the call running. */
    method Leave(n: nat, id: nat)
      requires n < |all|
      modifies this
      ensures State() == RegistryModel.Leave(old(State()), n, id)
      ensures old(Valid()) ==> Valid()
    {
      ghost var g := State();
      hide Inv;
      var c := all[n];
      if id in c.waiters {
        c := c.(waiters := c.waiters - {id}, inFlight := c.inFlight - 1);
        all := all[n := c];
      }
      assert State() == RegistryModel.Leave(g, n, id);
      hide RegistryModel.Leave;
      LeaveIsSound(g, n, id);
    }

    /** Writes the retry of a consumed token into its connection, or gives the token back. */
    method WriteRetry(token: Token, requestId: string, reading: bool) returns (entered: Option<nat>)
      requires token in retrying && retrying[token].connection < |all|
      modifies this
      ensures State() == RegistryModel.WriteRetry(old(State()), token, requestId, reading)
      ensures old(Valid()) ==> Valid()
    {
      WriteIsSound(State(), token, requestId, reading);
      hide Inv, RegistryModel.Enter, RegistryModel.Restore;
      entered := Enter(retrying[token].connection, requestId, reading);
      if entered.Some? {
        retrying := retrying - {token};
        written := written + [token];
      } else {
        Restore(token);
      }
    }
  }

  lemma IsSound(g: Registry, m: Move)
    requires Enabled(g, m)
    ensures Inv(g) && g.maxHeld > 0 ==> Inv(Next(g, m))
  {
    hide Inv, Next;
    if Inv(g) && g.maxHeld > 0 {
      MoveKeepsInv(g, m);
    }
  }

  lemma NoteIsSound(g: Registry, n: nat, token: Token, own: Option<string>)
    requires n < |g.all|
    ensures Inv(g) && token !in g.issued ==> Inv(RegistryModel.NoteRound(g, n, token, own))
  {
    hide Inv, RegistryModel.NoteRound;
    if Inv(g) && token !in g.issued {
      NoteKeeps(g, n, token, own);
    }
  }

  lemma RestoreIsSound(g: Registry, token: Token)
    ensures Inv(g) ==> Inv(RegistryModel.Restore(g, token))
  {
    hide Inv, RegistryModel.Restore;
    if Inv(g) {
      RestoreKeeps(g, token);
    }
  }

  lemma EnterIsSound(g: Registry, n: nat, requestId: string, reading: bool)
    requires n < |g.all|
    ensures Inv(g) ==> Inv(RegistryModel.Enter(g, n, requestId, reading).0)
  {
    hide Inv, RegistryModel.Enter;
    if Inv(g) {
      EnterKeeps(g, n, requestId, reading);
    }
  }

  lemma LeaveIsSound(g: Registry, n: nat, id: nat)
    requires n < |g.all|
    ensures Inv(g) ==> Inv(RegistryModel.Leave(g, n, id))
  {
    hide Inv, RegistryModel.Leave;
    if Inv(g) {
      LeaveKeeps(g, n, id);
    }
  }

  lemma WriteIsSound(g: Registry, token: Token, requestId: string, reading: bool)
    requires token in g.retrying && g.retrying[token].connection < |g.all|
    ensures Inv(g) ==> Inv(RegistryModel.WriteRetry(g, token, requestId, reading))
  {
    hide Inv, RegistryModel.WriteRetry;
    if Inv(g) {
      WriteKeeps(g, token, requestId, reading);
    }
  }

  lemma PresentIsSound(g: Registry, token: Token, principal: Option<string>, named: Option<string>)
    ensures Inv(g) ==> Inv(RegistryModel.Present(g, token, principal, named).0)
  {
    hide Inv, RegistryModel.Present;
    if Inv(g) {
      PresentKeeps(g, token, principal, named);
    }
  }

  lemma OpenIsSound(g: Registry, s: string, principal: Option<string>)
    ensures Inv(g) && g.maxHeld > 0 ==> Inv(RegistryModel.Open(g, s, principal).0)
  {
    hide Inv, RegistryModel.Open;
    if Inv(g) && g.maxHeld > 0 {
      OpenKeeps(g, s, principal);
    }
  }
}
