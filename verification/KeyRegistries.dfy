/** One role's key registry, updated in place; each operation is proved to compute its specification. */
module KeyRegistries {
  import opened Events
  import P = KeyProvisioning

  class KeyRegistry {
    const role: P.Role
    var keys: P.Keys

    constructor (role: P.Role)
      ensures keys == map[] && this.role == role
    {
      this.role := role;
      keys := map[];
    }

    /** Binds a key to an id, once: the same binding again changes nothing, another is refused. */
    method Register(id: string, key: P.PublicKey, algorithm: P.Algorithm) returns (ok: bool)
      modifies this
      ensures ok <==> P.Register(old(keys), id, key, algorithm).Some?
      ensures keys == if ok then P.Register(old(keys), id, key, algorithm).value else old(keys)
      ensures P.Keeps(old(keys), keys)
    {
      if id == "" {
        return false;
      }
      if !P.IsKeyOf(key, algorithm) {
        return false;
      }
      if id in keys {
        return P.Binds(keys[id], key, algorithm);
      }
      keys := keys[id := P.Entry(algorithm, key, false)];
      return true;
    }

    /** Marks an entry, which stays; an id never registered is refused. */
    method Revoke(id: string) returns (ok: bool)
      modifies this
      ensures ok <==> id in old(keys)
      ensures keys == if ok then P.Revoke(old(keys), id).value else old(keys)
      ensures P.Keeps(old(keys), keys)
    {
      if id !in keys {
        return false;
      }
      keys := keys[id := P.Entry(keys[id].algorithm, keys[id].key, true)];
      return true;
    }

    /** Loads a set, rehearsed on a copy: whole, or not at all. */
    method LoadJwks(document: Option<seq<P.Member>>) returns (ok: bool)
      modifies this
      ensures ok <==> document.Some? && P.Fits(old(keys), role, document.value)
      ensures ok ==> P.IsUnion(old(keys), document.value, keys)
      ensures !ok ==> keys == old(keys)
      ensures document.Some? ==> P.Load(old(keys), role, document.value) == if ok then Some(keys) else None
    {
      if document.None? {
        return false;
      }
      var es := document.value;
      P.LoadIsUnion(keys, role, es);
      var i := 0;
      while i < |es|
        invariant 0 <= i <= |es|
        invariant forall j :: 0 <= j < i ==> es[j].Jwk?
      {
        if !es[i].Jwk? {
          return false;
        }
        i := i + 1;
      }
      i := 0;
      while i < |es|
        invariant 0 <= i <= |es|
        invariant forall j :: 0 <= j < i ==> es[j].role == role
      {
        if es[i].role != role {
          return false;
        }
        i := i + 1;
      }
      var rehearsal := new KeyRegistry(role);
      rehearsal.keys := keys;
      var registered := rehearsal.RegisterEach(es);
      if !registered {
        return false;
      }
      P.RegisterAllIs(keys, role, es);
      P.RevokeAllIs(rehearsal.keys, es);
      rehearsal.RevokeEach(es);
      keys := rehearsal.keys;
      return true;
    }

    method RegisterEach(es: seq<P.Member>) returns (ok: bool)
      requires forall e :: e in es ==> e.Jwk?
      modifies this
      ensures ok <==> P.RegisterAll(old(keys), es).Some?
      ensures ok ==> keys == P.RegisterAll(old(keys), es).value
    {
      var i := 0;
      while i < |es|
        invariant 0 <= i <= |es|
        invariant P.RegisterAll(old(keys), es) == P.RegisterAll(keys, es[i..])
      {
        assert es[i] in es && es[i..][0] == es[i] && es[i..][1..] == es[i + 1..];
        ok := Register(es[i].kid, es[i].key, es[i].algorithm);
        if !ok {
          return;
        }
        i := i + 1;
      }
      ok := true;
    }

    method RevokeEach(es: seq<P.Member>)
      requires forall e :: e in es ==> e.Jwk?
      requires P.RevokeAll(keys, es).Some?
      modifies this
      ensures keys == P.RevokeAll(old(keys), es).value
    {
      var i := 0;
      while i < |es|
        invariant 0 <= i <= |es|
        invariant P.RevokeAll(old(keys), es) == P.RevokeAll(keys, es[i..])
      {
        assert es[i] in es && es[i..][0] == es[i] && es[i..][1..] == es[i + 1..];
        if es[i].revoked {
          var _ := Revoke(es[i].kid);
        }
        i := i + 1;
      }
    }

    /** Lists every entry once, with its role and, where it is revoked, the mark. */
    method ToJwks() returns (es: seq<P.Member>)
      ensures P.Lists(keys, role, es) && |es| == |keys|
      ensures P.WellBound(keys) ==> P.Load(map[], role, es) == Some(keys)
    {
      es := [];
      var left := keys.Keys;
      while left != {}
        invariant left <= keys.Keys
        invariant forall e :: e in es <==>
                    e.Jwk? && e.kid in keys && e.kid !in left && e == P.Exported(e.kid, keys[e.kid], role)
        invariant |es| + |left| == |keys|
        decreases left
      {
        var id :| id in left;
        es := es + [P.Exported(id, keys[id], role)];
        left := left - {id};
      }
      if P.WellBound(keys) {
        P.ExportReproduces(keys, role, es);
      }
    }

    /** The entry, if it may confirm something new: registered and not revoked. */
    method Current(id: string) returns (entry: Option<P.Entry>)
      ensures entry.Some? <==> id in keys && !keys[id].revoked
      ensures entry.Some? ==> entry.value == keys[id]
    {
      entry := if id in keys && !keys[id].revoked then Some(keys[id]) else None;
    }
  }
}
