/** The in-memory chain and the durable store behind it, updated in place. */
module Ledgers {
  import opened Events
  import opened Chain
  import opened HostModel

  /** An append-only chain of one partition. The records before a resumption are not held in memory. */
  class Ledger {
    var records: seq<Record>
    var count: int
    var tailHash: Hash

    function State(): LedgerState
      reads this
    {
      LedgerState(count, tailHash, records)
    }

    /** The ledger stands at the end of the chain `c`. */
    ghost predicate At(c: seq<Record>)
      reads this
    {
      count == |c| && tailHash == TailHash(c)
    }

    constructor ()
      ensures State() == LedgerState(0, Genesis, [])
      ensures At([])
    {
      records, count, tailHash := [], 0, Genesis;
    }

    /** The next record, computed and not committed: it links to whatever chain the ledger stands at. */
    method Seal(e: Event, hostTs: int) returns (r: Record)
      ensures r == NextRecord(e, count, hostTs, tailHash)
      ensures forall c :: At(c) ==> LinksTo(c, r)
    {
      r := Record(e, count, hostTs, tailHash, HashOf(e, count, hostTs, tailHash), None, None, None);
    }

    method Commit(r: Record)
      modifies this
      ensures State() == LedgerState(old(count) + 1, r.recordHash, old(records) + [r])
    {
      records := records + [r];
      count := count + 1;
      tailHash := r.recordHash;
    }

    /** Seal and commit in one step: whatever linked chain the ledger stood at, it stands at a linked one. */
    method Append(e: Event, hostTs: int) returns (r: Record)
      modifies this
      ensures r == NextRecord(e, old(count), hostTs, old(tailHash))
      ensures records == old(records) + [r]
      ensures forall c :: old(At(c)) && Linked(c) ==> At(c + [r]) && Linked(c + [r])
    {
      r := Seal(e, hostTs);
      Commit(r);
      forall c | old(At(c)) && Linked(c) ensures Linked(c + [r]) {
        LinkedAfter(c, r);
      }
    }

    /** The chain goes on from a stored tail, with no history in memory: the ledger stands at the end of
        whatever linked chain that is the tail of. */
    method ResumeFrom(tail: Option<Record>)
      modifies this
      ensures State() == HostModel.ResumeFrom(if tail.None? then [] else [tail.value])
      ensures tail.None? ==> At([])
      ensures forall c :: Linked(c) && c != [] && tail == Some(c[|c| - 1]) ==> At(c)
    {
      records := [];
      forall c: seq<Record> | Linked(c) && c != [] ensures c[|c| - 1].position == |c| - 1 {
        LastPosition(c);
      }
      if tail.Some? {
        count := tail.value.position + 1;
        tailHash := tail.value.recordHash;
      } else {
        count, tailHash := 0, Genesis;
      }
    }
  }

  lemma LastPosition(c: seq<Record>)
    requires Linked(c) && c != []
    ensures c[|c| - 1].position == |c| - 1
  {
    assert LinksTo(c[..|c| - 1], c[|c| - 1]);
  }

  /**
   * A store of sealed records by partition. `Append` is the store's own rule; `AppendOver` is an append
   * over a connection that may lose the acknowledgement, the write, or hold the write back in `inFlight`.
   */
  class Repository {
    var byPartition: map<string, seq<Record>>
    var inFlight: map<string, set<Record>>

    function StoreOf(partition: string): Store
      reads this
    {
      Store(if partition in byPartition then byPartition[partition] else [],
            if partition in inFlight then inFlight[partition] else {})
    }

    constructor ()
      ensures forall p :: StoreOf(p) == Store([], {})
    {
      byPartition, inFlight := map[], map[];
    }

    /** Appends at the next free position and nowhere else; no other partition is touched. */
    method Append(partition: string, r: Record) returns (appended: bool)
      modifies this
      ensures appended <==> r.position == |old(StoreOf(partition)).records|
      ensures StoreOf(partition).records ==
                if appended then old(StoreOf(partition)).records + [r] else old(StoreOf(partition)).records
      ensures inFlight == old(inFlight)
      ensures forall p :: p != partition ==> StoreOf(p) == old(StoreOf(p))
    {
      if partition !in byPartition {
        byPartition := byPartition[partition := []];
      }
      appended := r.position == |byPartition[partition]|;
      if appended {
        byPartition := byPartition[partition := byPartition[partition] + [r]];
      }
    }

    method AppendOver(partition: string, r: Record, fate: Fate) returns (acked: bool)
      modifies this
      ensures (StoreOf(partition), acked) == HostModel.Append(old(StoreOf(partition)), r, fate)
      ensures forall p :: p != partition ==> StoreOf(p) == old(StoreOf(p))
    {
      match fate
      case Acked => acked := Append(partition, r);
      case LandedUnacked =>
        var _ := Append(partition, r);
        acked := false;
      case Lost => acked := false;
      case Delayed =>
        acked := false;
        if r.position == |StoreOf(partition).records| {
          inFlight := inFlight[partition := StoreOf(partition).delayed + {r}];
        }
    }

    /** A write held back reaches the store, which applies its own rule to it. */
    method LandDelayed(partition: string, r: Record)
      modifies this
      ensures StoreOf(partition) == Land(old(StoreOf(partition)), r)
      ensures forall p :: p != partition ==> StoreOf(p) == old(StoreOf(p))
    {
      var waiting := StoreOf(partition).delayed;
      if r in waiting {
        var landed := Append(partition, r);
        if landed {
          inFlight := inFlight[partition := waiting - {r}];
        }
      }
    }

    method LoadTail(partition: string) returns (tail: Option<Record>)
      ensures var c := StoreOf(partition).records;
              tail == if c == [] then None else Some(c[|c| - 1])
    {
      if partition in byPartition && byPartition[partition] != [] {
        tail := Some(byPartition[partition][|byPartition[partition]| - 1]);
      } else {
        tail := None;
      }
    }

    method ReadAll(partition: string) returns (records: seq<Record>)
      ensures records == StoreOf(partition).records
    {
      records := if partition in byPartition then byPartition[partition] else [];
    }
  }
}
