/** Sealed records, the hash chain they form, and what a well-kept chain holds. */
module Chain {
  import opened Events

  /**
   * A record hash. `HashOf` is an injective hash of the preimage whose image excludes the genesis
   * link; `Other` is any string a store may hold that is the hash of no preimage.
   */
  datatype Hash =
    | Genesis
    | HashOf(event: Event, position: int, hostTs: int, previous: Hash)
    | Other(text: nat)

  datatype Record = Record(
    event: Event,
    position: int,
    hostTs: int,
    previousHash: Hash,
    recordHash: Hash,
    hostSignature: Option<string>,
    hostKeyId: Option<string>,
    logId: Option<string>)

  /** What a countersignature covers. */
  datatype Payload = Payload(position: int, hostTs: int, logId: string, previousHash: Hash, recordHash: Hash)

  function PayloadOf(r: Record, logId: string): Payload {
    Payload(r.position, r.hostTs, logId, r.previousHash, r.recordHash)
  }

  function EventsOf(c: seq<Record>): (es: seq<Event>)
    ensures |es| == |c|
    ensures forall i :: 0 <= i < |c| ==> es[i] == c[i].event
  {
    seq(|c|, i requires 0 <= i < |c| => c[i].event)
  }

  function TailHash(c: seq<Record>): Hash {
    if c == [] then Genesis else c[|c| - 1].recordHash
  }

  /** The record that extends a chain of `count` records with tail `tail`, before any countersignature. */
  function NextRecord(e: Event, count: int, now: int, tail: Hash): Record {
    Record(e, count, now, tail, HashOf(e, count, now, tail), None, None, None)
  }

  /** `r` is numbered, linked and hashed as the record after `c`. */
  predicate LinksTo(c: seq<Record>, r: Record) {
    && r.position == |c|
    && r.previousHash == TailHash(c)
    && r.recordHash == HashOf(r.event, r.position, r.hostTs, r.previousHash)
  }

  ghost predicate Linked(c: seq<Record>) {
    forall i :: 0 <= i < |c| ==> LinksTo(c[..i], c[i])
  }

  // ----- what a chain's events say -----

  ghost function Attempts(es: seq<Event>): set<OpKey> {
    set e | e in es && IsAttempt(e) :: KeyOf(e)
  }

  ghost function AttemptIds(es: seq<Event>): set<Option<string>> {
    set e | e in es && IsAttempt(e) :: e.id
  }

  ghost function Terminals(es: seq<Event>): set<OpKey> {
    set e | e in es && !IsAttempt(e) :: KeyOf(e)
  }

  ghost function Numbers(es: seq<Event>): set<Number> {
    set e | e in es && NumberOf(e).Some? :: NumberOf(e).value
  }

  /** `e` may follow `es` in any chain a host seals; `level2` adds that every event is numbered. */
  ghost predicate Sound(es: seq<Event>, e: Event, level2: bool) {
    && SchemaValid(e) && e.canonical
    && (IsAttempt(e) ==> e.id !in AttemptIds(es))
    && (!IsAttempt(e) && e.outcome != Some(Aborted) ==> KeyOf(e) in Attempts(es))
    && (level2 ==> NumberOf(e).Some?)
  }

  /** `e` may follow `es` in a well-kept chain: no operation goes on after its end, and at Level 2 no number is
      used twice. */
  ghost predicate Fits(es: seq<Event>, e: Event, level2: bool) {
    && Sound(es, e, level2)
    && KeyOf(e) !in Terminals(es)
    && (level2 ==> NumberOf(e).value !in Numbers(es))
  }

  ghost predicate WellKept(es: seq<Event>, level2: bool) {
    forall i :: 0 <= i < |es| ==> Fits(es[..i], es[i], level2)
  }

  /** The operation has a terminal record after its attempt. */
  ghost predicate Ended(es: seq<Event>, k: OpKey) {
    exists i, j :: 0 <= i < j < |es| && IsAttempt(es[i]) && KeyOf(es[i]) == k && !IsAttempt(es[j]) && KeyOf(es[j]) == k
  }

  lemma EndedAfter(es: seq<Event>, e: Event, k: OpKey)
    ensures Ended(es + [e], k) <==> Ended(es, k) || (!IsAttempt(e) && KeyOf(e) == k && k in Attempts(es))
  {
    var fs := es + [e];
    if Ended(es, k) {
      var i, j :| 0 <= i < j < |es| && IsAttempt(es[i]) && KeyOf(es[i]) == k && !IsAttempt(es[j]) && KeyOf(es[j]) == k;
      assert fs[i] == es[i] && fs[j] == es[j];
    }
    if !IsAttempt(e) && KeyOf(e) == k && k in Attempts(es) {
      var d :| d in es && IsAttempt(d) && KeyOf(d) == k;
      var i :| 0 <= i < |es| && es[i] == d;
      assert fs[i] == d && fs[|es|] == e;
    }
    if Ended(fs, k) {
      var i, j :| 0 <= i < j < |fs| && IsAttempt(fs[i]) && KeyOf(fs[i]) == k && !IsAttempt(fs[j]) && KeyOf(fs[j]) == k;
      assert es[i] == fs[i] && fs[i] in es;
      assert j < |es| ==> es[j] == fs[j];
    }
  }

  lemma EndedGrows(es: seq<Event>, fs: seq<Event>, k: OpKey)
    requires es <= fs && Ended(es, k)
    ensures Ended(fs, k)
  {
    var i, j :| 0 <= i < j < |es| && IsAttempt(es[i]) && KeyOf(es[i]) == k && !IsAttempt(es[j]) && KeyOf(es[j]) == k;
    assert fs[i] == es[i] && fs[j] == es[j];
  }

  lemma SetsOfNothing()
    ensures Attempts([]) == {} && AttemptIds([]) == {} && Terminals([]) == {} && Numbers([]) == {}
  {
  }

  lemma SetsAfter(es: seq<Event>, e: Event)
    ensures Attempts(es + [e]) == Attempts(es) + if IsAttempt(e) then {KeyOf(e)} else {}
    ensures AttemptIds(es + [e]) == AttemptIds(es) + if IsAttempt(e) then {e.id} else {}
    ensures Terminals(es + [e]) == Terminals(es) + if IsAttempt(e) then {} else {KeyOf(e)}
    ensures Numbers(es + [e]) == Numbers(es) + if NumberOf(e).Some? then {NumberOf(e).value} else {}
  {
    assert forall x :: x in es + [e] <==> x in es || x == e;
  }

  lemma EventsAfter(c: seq<Record>, r: Record)
    ensures EventsOf(c + [r]) == EventsOf(c) + [r.event]
  {
  }

  lemma LinkedAfter(c: seq<Record>, r: Record)
    requires Linked(c) && LinksTo(c, r)
    ensures Linked(c + [r])
  {
    forall i | 0 <= i < |c + [r]| ensures LinksTo((c + [r])[..i], (c + [r])[i]) {
      if i < |c| {
        assert (c + [r])[..i] == c[..i];
      } else {
        assert (c + [r])[..i] == c;
      }
    }
  }

  lemma WellKeptAfter(es: seq<Event>, e: Event, level2: bool)
    requires WellKept(es, level2) && Fits(es, e, level2)
    ensures WellKept(es + [e], level2)
  {
    forall i | 0 <= i < |es + [e]| ensures Fits((es + [e])[..i], (es + [e])[i], level2) {
      if i < |es| {
        assert (es + [e])[..i] == es[..i];
      } else {
        assert (es + [e])[..i] == es;
      }
    }
  }
}
