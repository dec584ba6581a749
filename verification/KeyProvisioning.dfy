/** What registering, revoking and loading a set of keys does to a registry, as functions on values. */
module KeyProvisioning {
  import opened Events

  datatype Algorithm = Ed25519 | Es256

  datatype Role = ToolRole | HostRole

  /** A public key, by its type and its encoded bytes: two keys are the same when they are equal. */
  datatype PublicKey = Ed25519Key(bytes: nat) | EllipticKey(p256: bool, bytes: nat)

  datatype Entry = Entry(algorithm: Algorithm, key: PublicKey, revoked: bool)

  type Keys = map<string, Entry>

  /** One member of a set: not an object, not readable as a key, or a key with its id, role and mark. */
  datatype Member =
    | NotAnObject
    | Unreadable
    | Jwk(kid: string, key: PublicKey, algorithm: Algorithm, role: Role, revoked: bool)

  predicate IsKeyOf(key: PublicKey, algorithm: Algorithm) {
    match algorithm
    case Ed25519 => key.Ed25519Key?
    case Es256 => key.EllipticKey? && key.p256
  }

  /** The entry binds what is given. */
  predicate Binds(e: Entry, key: PublicKey, algorithm: Algorithm) {
    e.algorithm == algorithm && e.key == key
  }

  // ----- the operations -----

  function Register(m: Keys, id: string, key: PublicKey, algorithm: Algorithm): Option<Keys> {
    if id == "" || !IsKeyOf(key, algorithm) then
      None
    else if id in m then
      if Binds(m[id], key, algorithm) then Some(m) else None
    else
      Some(m[id := Entry(algorithm, key, false)])
  }

  function Revoke(m: Keys, id: string): Option<Keys> {
    if id in m then Some(m[id := m[id].(revoked := true)]) else None
  }

  function RegisterAll(m: Keys, es: seq<Member>): Option<Keys>
    requires forall e :: e in es ==> e.Jwk?
    decreases |es|
  {
    if es == [] then
      Some(m)
    else
      match Register(m, es[0].kid, es[0].key, es[0].algorithm)
      case None => None
      case Some(n) => RegisterAll(n, es[1..])
  }

  function RevokeAll(m: Keys, es: seq<Member>): Option<Keys>
    requires forall e :: e in es ==> e.Jwk?
    decreases |es|
  {
    if es == [] then
      Some(m)
    else if es[0].revoked then
      match Revoke(m, es[0].kid)
      case None => None
      case Some(n) => RevokeAll(n, es[1..])
    else
      RevokeAll(m, es[1..])
  }

  /** A set is loaded whole or not at all. */
  function Load(m: Keys, role: Role, es: seq<Member>): Option<Keys> {
    if exists e :: e in es && !e.Jwk? then
      None
    else if exists e :: e in es && e.Jwk? && e.role != role then
      None
    else
      match RegisterAll(m, es)
      case None => None
      case Some(n) => RevokeAll(n, es)
  }

  // ----- what a set says -----

  /** Every member is a key of this role that agrees with what is registered and with every other member. */
  ghost predicate Fits(m: Keys, role: Role, es: seq<Member>) {
    && (forall e :: e in es ==> e.Jwk? && e.role == role && e.kid != "" && IsKeyOf(e.key, e.algorithm))
    && (forall e :: e in es && e.kid in m ==> Binds(m[e.kid], e.key, e.algorithm))
    && (forall e, f :: e in es && f in es && e.kid == f.kid ==> e.key == f.key && e.algorithm == f.algorithm)
  }

  ghost predicate RevokedBy(es: seq<Member>, id: string) {
    exists e :: e in es && e.Jwk? && e.kid == id && e.revoked
  }

  /** `n` is the union of `m` and the set: bindings kept and added, and revoked where either says so. */
  ghost predicate IsUnion(m: Keys, es: seq<Member>, n: Keys) {
    && (forall id :: id in n <==> id in m || exists e :: e in es && e.Jwk? && e.kid == id)
    && (forall id :: id in m ==> id in n && Binds(n[id], m[id].key, m[id].algorithm))
    && (forall e :: e in es && e.Jwk? ==> e.kid in n && Binds(n[e.kid], e.key, e.algorithm))
    && (forall id :: id in n ==> (n[id].revoked <==> (id in m && m[id].revoked) || RevokedBy(es, id)))
  }

  /** There is one union. */
  lemma UnionIsUnique(m: Keys, es: seq<Member>, a: Keys, b: Keys)
    requires IsUnion(m, es, a) && IsUnion(m, es, b)
    ensures a == b
  {
    forall id | id in a ensures a[id] == b[id] {
      if id !in m {
        var e :| e in es && e.Jwk? && e.kid == id;
        assert Binds(a[e.kid], e.key, e.algorithm) && Binds(b[e.kid], e.key, e.algorithm);
      }
    }
    assert a.Keys == b.Keys;
  }

  // ----- registering a set -----

  /** Registering adds the bindings and revokes nothing. */
  ghost predicate IsRegistered(m: Keys, es: seq<Member>, n: Keys) {
    && (forall id :: id in n <==> id in m || exists e :: e in es && e.Jwk? && e.kid == id)
    && (forall id :: id in m ==> id in n && n[id] == m[id])
    && (forall e :: e in es && e.Jwk? ==> e.kid in n && Binds(n[e.kid], e.key, e.algorithm))
    && (forall id :: id in n && id !in m ==> !n[id].revoked)
  }

  ghost predicate OfRole(role: Role, es: seq<Member>) {
    forall e :: e in es ==> e.Jwk? && e.role == role
  }

  /** A set registers exactly when it fits, and then binds what it says. */
  lemma {:induction false} RegisterAllIs(m: Keys, role: Role, es: seq<Member>)
    requires OfRole(role, es)
    ensures RegisterAll(m, es).Some? <==> Fits(m, role, es)
    ensures RegisterAll(m, es).Some? ==> IsRegistered(m, es, RegisterAll(m, es).value)
    decreases |es|
  {
    if es != [] {
      var e, rest := es[0], es[1..];
      assert es == [e] + rest;
      assert forall x :: x in es <==> x == e || x in rest;
      var n := Register(m, e.kid, e.key, e.algorithm);
      if n.Some? {
        RegisterAllIs(n.value, role, rest);
        FitsStep(m, role, e, rest, n.value);
        if RegisterAll(n.value, rest).Some? {
          RegisteredStep(m, e, rest, n.value, RegisterAll(n.value, rest).value);
        }
      } else {
        assert e in es;
      }
    }
  }

  lemma FitsStep(m: Keys, role: Role, e: Member, rest: seq<Member>, n: Keys)
    requires e.Jwk? && e.role == role && Register(m, e.kid, e.key, e.algorithm) == Some(n)
    ensures Fits(m, role, [e] + rest) <==> Fits(n, role, rest)
  {
    assert forall x :: x in [e] + rest <==> x == e || x in rest;
  }

  lemma RegisteredStep(m: Keys, e: Member, rest: seq<Member>, n: Keys, r: Keys)
    requires e.Jwk? && Register(m, e.kid, e.key, e.algorithm) == Some(n) && IsRegistered(n, rest, r)
    ensures IsRegistered(m, [e] + rest, r)
  {
    assert forall x :: x in [e] + rest <==> x == e || x in rest;
  }

  // ----- revoking what a set marks -----

  ghost predicate IsRevoked(m: Keys, es: seq<Member>, n: Keys) {
    && n.Keys == m.Keys
    && (forall id :: id in m ==> Binds(n[id], m[id].key, m[id].algorithm))
    && (forall id :: id in m ==> (n[id].revoked <==> m[id].revoked || RevokedBy(es, id)))
  }

  lemma {:induction false} RevokeAllIs(m: Keys, es: seq<Member>)
    requires forall e :: e in es ==> e.Jwk? && e.kid in m
    ensures RevokeAll(m, es).Some? && IsRevoked(m, es, RevokeAll(m, es).value)
    decreases |es|
  {
    if es != [] {
      var e, rest := es[0], es[1..];
      assert es == [e] + rest;
      assert forall x :: x in es <==> x == e || x in rest;
      var n := if e.revoked then m[e.kid := m[e.kid].(revoked := true)] else m;
      RevokeAllIs(n, rest);
      RevokedStep(m, e, rest, n, RevokeAll(n, rest).value);
    }
  }

  lemma RevokedStep(m: Keys, e: Member, rest: seq<Member>, n: Keys, r: Keys)
    requires e.Jwk? && e.kid in m && IsRevoked(n, rest, r)
    requires n == if e.revoked then m[e.kid := m[e.kid].(revoked := true)] else m
    ensures IsRevoked(m, [e] + rest, r)
  {
    assert forall x :: x in [e] + rest <==> x == e || x in rest;
    forall id | id in m ensures r[id].revoked <==> m[id].revoked || RevokedBy([e] + rest, id) {
      if id == e.kid && e.revoked {
        assert RevokedBy([e] + rest, id);
      } else {
        assert RevokedBy([e] + rest, id) <==> RevokedBy(rest, id);
      }
    }
  }

  // ----- loading is a merge -----

  /** A set loads exactly when it fits, and the result is then the union. */
  lemma LoadIsUnion(m: Keys, role: Role, es: seq<Member>)
    ensures Load(m, role, es).Some? <==> Fits(m, role, es)
    ensures Load(m, role, es).Some? ==> IsUnion(m, es, Load(m, role, es).value)
  {
    if OfRole(role, es) {
      RegisterAllIs(m, role, es);
      if Fits(m, role, es) {
        var n := RegisterAll(m, es).value;
        RevokeAllIs(n, es);
        MarkedUnion(m, es, n, RevokeAll(n, es).value);
      }
    }
  }

  lemma MarkedUnion(m: Keys, es: seq<Member>, n: Keys, r: Keys)
    requires IsRegistered(m, es, n) && IsRevoked(n, es, r)
    ensures IsUnion(m, es, r)
  {
    hide RevokedBy;
  }

  /** Nothing a registry holds is rebound or lifted. */
  ghost predicate Keeps(m: Keys, n: Keys) {
    forall id :: id in m ==>
      id in n && Binds(n[id], m[id].key, m[id].algorithm) && (m[id].revoked ==> n[id].revoked)
  }

  /** Loading two sets one after the other is loading them together. */
  lemma LoadTwice(m: Keys, role: Role, a: seq<Member>, b: seq<Member>)
    ensures var first := Load(m, role, a);
            (if first.None? then None else Load(first.value, role, b)) == Load(m, role, a + b)
  {
    hide Load;
    LoadIsUnion(m, role, a);
    LoadIsUnion(m, role, a + b);
    FitsPrefix(m, role, a, b);
    if Fits(m, role, a) {
      var n := Load(m, role, a).value;
      LoadIsUnion(n, role, b);
      FitsRest(m, role, a, b, n);
      if Fits(n, role, b) {
        UnionTwice(m, a, b, n, Load(n, role, b).value);
        UnionIsUnique(m, a + b, Load(n, role, b).value, Load(m, role, a + b).value);
      }
    }
  }

  lemma FitsPrefix(m: Keys, role: Role, a: seq<Member>, b: seq<Member>)
    ensures Fits(m, role, a + b) ==> Fits(m, role, a)
  {
    assert forall e :: e in a ==> e in a + b;
  }

  lemma FitsRest(m: Keys, role: Role, a: seq<Member>, b: seq<Member>, n: Keys)
    requires Fits(m, role, a) && IsUnion(m, a, n)
    ensures Fits(n, role, b) <==> Fits(m, role, a + b)
  {
    hide RevokedBy;
    assert forall e :: e in a + b <==> e in a || e in b;
    if Fits(n, role, b) {
      forall e, f | e in a + b && f in a + b && e.kid == f.kid ensures e.key == f.key && e.algorithm == f.algorithm {
      }
    }
    if Fits(m, role, a + b) {
      forall e | e in b && e.kid in n ensures Binds(n[e.kid], e.key, e.algorithm) {
        if e.kid !in m {
          var f :| f in a && f.Jwk? && f.kid == e.kid;
          assert f in a + b && e in a + b;
        }
      }
    }
  }

  lemma UnionTwice(m: Keys, a: seq<Member>, b: seq<Member>, n: Keys, r: Keys)
    requires IsUnion(m, a, n) && IsUnion(n, b, r)
    ensures IsUnion(m, a + b, r)
  {
    assert forall e :: e in a + b <==> e in a || e in b;
    forall id ensures RevokedBy(a + b, id) <==> RevokedBy(a, id) || RevokedBy(b, id) {
    }
    hide RevokedBy;
  }

  /** Loading depends on what a set says, not on its order. */
  lemma OrderIsFree(m: Keys, role: Role, a: seq<Member>, b: seq<Member>)
    requires forall e :: e in a <==> e in b
    ensures Load(m, role, a) == Load(m, role, b)
  {
    hide Load, IsUnion;
    LoadIsUnion(m, role, a);
    LoadIsUnion(m, role, b);
    assert Fits(m, role, a) <==> Fits(m, role, b);
    if Fits(m, role, a) {
      SameUnion(m, a, b, Load(m, role, b).value);
      UnionIsUnique(m, a, Load(m, role, a).value, Load(m, role, b).value);
    }
  }

  lemma SameUnion(m: Keys, a: seq<Member>, b: seq<Member>, n: Keys)
    requires (forall e :: e in a <==> e in b) && IsUnion(m, b, n)
    ensures IsUnion(m, a, n)
  {
    forall id ensures RevokedBy(a, id) <==> RevokedBy(b, id) {
    }
    hide RevokedBy;
  }

  /** Two sets load in either order alike: both fail, or both give the same registry. */
  lemma LoadsCommute(m: Keys, role: Role, a: seq<Member>, b: seq<Member>)
    ensures var x, y := Load(m, role, a), Load(m, role, b);
            (if x.None? then None else Load(x.value, role, b)) == (if y.None? then None else Load(y.value, role, a))
  {
    hide Load;
    LoadTwice(m, role, a, b);
    LoadTwice(m, role, b, a);
    OrderIsFree(m, role, a + b, b + a);
  }

  // ----- what a registry holds -----

  /** Every entry has an id and a key of its algorithm. */
  ghost predicate WellBound(m: Keys) {
    forall id :: id in m ==> id != "" && IsKeyOf(m[id].key, m[id].algorithm)
  }

  function Exported(id: string, e: Entry, role: Role): Member {
    Jwk(id, e.key, e.algorithm, role, e.revoked)
  }

  /** `es` lists each entry of the registry, and nothing else. */
  ghost predicate Lists(m: Keys, role: Role, es: seq<Member>) {
    forall e :: e in es <==> e.Jwk? && e.kid in m && e == Exported(e.kid, m[e.kid], role)
  }

  /** An exported registry, loaded into an empty one of the same role, is reproduced, revocations included. */
  lemma ExportReproduces(m: Keys, role: Role, es: seq<Member>)
    requires WellBound(m) && Lists(m, role, es)
    ensures Load(map[], role, es) == Some(m)
  {
    hide Load;
    LoadIsUnion(map[], role, es);
    forall id | id in m ensures Exported(id, m[id], role) in es {
    }
    assert Fits(map[], role, es);
    forall id | id in m ensures m[id].revoked <==> RevokedBy(es, id) {
      assert Exported(id, m[id], role) in es;
    }
    hide RevokedBy;
    assert IsUnion(map[], es, m);
    UnionIsUnique(map[], es, m, Load(map[], role, es).value);
  }

  // ----- over any sequence of operations -----

  datatype Op =
    | Registers(id: string, key: PublicKey, algorithm: Algorithm)
    | Revokes(kid: string)
    | Loads(es: seq<Member>)

  /** An operation that is refused changes nothing. */
  function Apply(m: Keys, role: Role, op: Op): Keys {
    var n := match op
      case Registers(id, key, algorithm) => Register(m, id, key, algorithm)
      case Revokes(id) => Revoke(m, id)
      case Loads(es) => Load(m, role, es);
    if n.Some? then n.value else m
  }

  function ApplyAll(m: Keys, role: Role, ops: seq<Op>): Keys
    decreases |ops|
  {
    if ops == [] then m else ApplyAll(Apply(m, role, ops[0]), role, ops[1..])
  }

  lemma ApplyKeeps(m: Keys, role: Role, op: Op)
    requires WellBound(m)
    ensures Keeps(m, Apply(m, role, op)) && WellBound(Apply(m, role, op))
  {
    if op.Loads? {
      LoadIsUnion(m, role, op.es);
      hide Load, RevokedBy;
      if Load(m, role, op.es).Some? {
        UnionIsWellBound(m, role, op.es, Load(m, role, op.es).value);
      }
    }
  }

  lemma UnionIsWellBound(m: Keys, role: Role, es: seq<Member>, n: Keys)
    requires WellBound(m) && Fits(m, role, es) && IsUnion(m, es, n)
    ensures WellBound(n)
  {
    hide RevokedBy;
    forall id | id in n ensures id != "" && IsKeyOf(n[id].key, n[id].algorithm) {
      if id !in m {
        var e :| e in es && e.Jwk? && e.kid == id;
      }
    }
  }

  /** Over any sequence of operations no binding changes and no revocation is lifted. */
  lemma {:induction false} ProvisioningKeeps(m: Keys, role: Role, ops: seq<Op>)
    requires WellBound(m)
    ensures Keeps(m, ApplyAll(m, role, ops)) && WellBound(ApplyAll(m, role, ops))
    decreases |ops|
  {
    hide Apply;
    if ops != [] {
      ApplyKeeps(m, role, ops[0]);
      ProvisioningKeeps(Apply(m, role, ops[0]), role, ops[1..]);
    }
  }
}
