/**
 * The host's state and what each of its operations does to it, as functions on values. `AuditHost`
 * is proved to compute these; the properties of a host are proved about them.
 */
module HostModel {
  import opened Events
  import opened Chain
  import opened Reasons

  datatype Anomaly = Anomaly(id: string, kind: Code)

  /** One open audit session. `outcomes` holds the event sealed per operation, which its digest stands for. */
  datatype Session = Session(
    decided: set<(string, int)>,
    received: map<string, int>,
    accepted: set<string>,
    resolved: set<string>,
    outcomes: map<string, Event>)

  const EMPTY_SESSION := Session({}, map[], {}, {}, map[])

  datatype SignerTracker = SignerTracker(decided: set<(string, int)>, received: map<string, int>)

  datatype OpenSession = OpenSession(sessionId: string, signers: Option<SignerTracker>)

  /** The in-memory chain: its length and tail, and the records sealed in this process. */
  datatype LedgerState = LedgerState(count: int, tailHash: Hash, held: seq<Record>)

  datatype Host = Host(
    ledger: LedgerState,
    sessions: map<string, Session>,
    issued: set<string>,
    tailUncertain: bool,
    sealedAttempts: map<string, Record>,
    sealedDigests: set<Event>,
    rejectedIds: set<string>,
    anomalies: multiset<Anomaly>)

  /** `countersigner` is the host's key id where it declares that it countersigns. */
  datatype Config = Config(level2: bool, countersigner: Option<string>, logId: string)

  /** A partition's durable store: its records, and appends reported failed that may still land. */
  datatype Store = Store(records: seq<Record>, delayed: set<Record>)

  // ----- what the environment does during one event -----

  datatype Verdict = Verifies | Refuses(reason: Code) | VerifierRaised

  /** What the countersigner does: `Signed` gives the signature it returns for each payload. */
  datatype Signing = Signed(sign: Payload -> string) | SignerFailed | SignerInterrupted

  /** What becomes of an append whose `seq` is free. Only `Acked` is reported as a success. */
  datatype Fate = Acked | Lost | LandedUnacked | Delayed

  datatype Reading = ReadTail | ReadFailed | ReadInterrupted

  /**
   * `expired`: the binding's deadline passed before the attempt was taken up. `interrupted`: a failing
   * append surfaces as a cancellation rather than as a repository error.
   */
  datatype Env = Env(
    now: int,
    expired: bool,
    reading: Reading,
    verdict: Verdict,
    persistenceAvailable: bool,
    signing: Signing,
    fate: Fate,
    interrupted: bool)

  // ----- answers -----

  datatype Answer =
    | Accept(
        position: int,
        recordHash: Hash,
        hostTs: int,
        previousHash: Hash,
        hostSignature: Option<string>,
        hostKeyId: Option<string>,
        logId: Option<string>)
    | Reject(reason: Code)
    | Unavailable
    | Raised

  datatype Disposition = Sealed | Repeat | Refused | NotRecorded | OutcomeRaised

  function AcceptOf(r: Record): Answer {
    Accept(r.position, r.recordHash, r.hostTs, r.previousHash, r.hostSignature, r.hostKeyId, r.logId)
  }

  // ----- small parts -----

  function EventId(e: Event): string {
    if e.id.Some? then e.id.value else "<unknown>"
  }

  /** Every signature failure of a dropped event is one anomaly kind. */
  function AnomalyKindOf(c: Code): Code {
    if c == L2Unsigned || c == UnknownKey then SignatureInvalid else c
  }

  function Flag(h: Host, id: string, c: Code): Host {
    h.(anomalies := h.anomalies + multiset{Anomaly(id, AnomalyKindOf(c))})
  }

  function WithSession(h: Host, s: string, x: Session): Host {
    h.(sessions := h.sessions[s := x])
  }

  predicate Numbered(cfg: Config, e: Event) {
    cfg.level2 && e.keyId.Some? && e.signerSeq.Some?
  }

  function Decide(cfg: Config, x: Session, e: Event): Session {
    if Numbered(cfg, e) then x.(decided := x.decided + {(e.keyId.value, e.signerSeq.value)}) else x
  }

  predicate AlreadyDecided(cfg: Config, x: Session, e: Event) {
    Numbered(cfg, e) && (e.keyId.value, e.signerSeq.value) in x.decided
  }

  /** The session after `e` was sealed in it. */
  function AccountTo(cfg: Config, x: Session, e: Event): Session {
    var y := Decide(cfg, x, e);
    var id := EventId(e);
    if IsAttempt(e) then
      y.(accepted := y.accepted + {id})
    else
      y.(outcomes := y.outcomes[id := e],
         resolved := if id in y.accepted then y.resolved + {id} else y.resolved)
  }

  function Commit(l: LedgerState, r: Record): LedgerState {
    LedgerState(l.count + 1, r.recordHash, l.held + [r])
  }

  function Remember(h: Host, r: Record): Host {
    h.(sealedDigests := h.sealedDigests + {r.event},
       sealedAttempts :=
         if IsAttempt(r.event) then h.sealedAttempts[EventId(r.event) := r] else h.sealedAttempts)
  }

  function CommitAndRemember(h: Host, r: Record): Host {
    Remember(h.(ledger := Commit(h.ledger, r)), r)
  }

  function Adopt(cfg: Config, h: Host, r: Record): Host {
    if r.event.session.Some? && r.event.session.value in h.sessions then
      var s := r.event.session.value;
      WithSession(h, s, AccountTo(cfg, h.sessions[s], r.event))
    else
      h
  }

  /** The host after `r` became its committed tail, accounted to its session where that is open. */
  function Absorb(cfg: Config, h: Host, r: Record): Host {
    Adopt(cfg, CommitAndRemember(h, r), r)
  }

  // ----- the store -----

  /** An append, conditional on `seq` being the next free position; true when it is acknowledged. */
  function Append(st: Store, r: Record, fate: Fate): (Store, bool) {
    if r.position != |st.records| then
      (st, false)
    else
      match fate
      case Acked => (st.(records := st.records + [r]), true)
      case LandedUnacked => (st.(records := st.records + [r]), false)
      case Delayed => (st.(delayed := st.delayed + {r}), false)
      case Lost => (st, false)
  }

  /** A delayed append lands now, if the position it was made for is still free. */
  function Land(st: Store, r: Record): Store {
    if r in st.delayed && r.position == |st.records| then
      Store(st.records + [r], st.delayed - {r})
    else
      st
  }

  // ----- settling, sealing -----

  datatype Settling = TailSettled | TailUnread | TailReadRaised

  function SettleTail(cfg: Config, h: Host, st: Store, reading: Reading): (Host, Settling) {
    if !h.tailUncertain then
      (h, TailSettled)
    else
      match reading
      case ReadFailed => (h, TailUnread)
      case ReadInterrupted => (h, TailReadRaised)
      case ReadTail =>
        var n := |st.records|;
        var g :=
          if n > 0 && st.records[n - 1].position == h.ledger.count
             && st.records[n - 1].previousHash == h.ledger.tailHash then
            Absorb(cfg, h, st.records[n - 1])
          else if n > 0 && st.records[n - 1].position > h.ledger.count then
            h.(ledger := ResumeFrom(st.records))
          else
            h;
        (g.(tailUncertain := false), TailSettled)
  }

  function ResumeFrom(records: seq<Record>): LedgerState {
    if records == [] then
      LedgerState(0, Genesis, [])
    else
      var r := records[|records| - 1];
      LedgerState(r.position + 1, r.recordHash, [])
  }

  datatype Sealing = SealedAs(record: Record) | NotSealed | SealRaised

  function Seal(cfg: Config, h: Host, st: Store, e: Event, env: Env): (Host, Store, Sealing) {
    var r0 := NextRecord(e, h.ledger.count, env.now, h.ledger.tailHash);
    if cfg.countersigner.Some? && env.signing.SignerFailed? then
      (h, st, NotSealed)
    else if cfg.countersigner.Some? && env.signing.SignerInterrupted? then
      (h.(tailUncertain := true), st, SealRaised)
    else
      var r := Countersigned(cfg, r0, env.signing);
      var (st', acked) := Append(st, r, env.fate);
      if acked then
        (CommitAndRemember(h, r), st', SealedAs(r))
      else
        (h.(tailUncertain := true), st', if env.interrupted then SealRaised else NotSealed)
  }

  function Countersigned(cfg: Config, r: Record, signing: Signing): Record {
    if cfg.countersigner.Some? && signing.Signed? then
      r.(hostSignature := Some(signing.sign(PayloadOf(r, cfg.logId))), hostKeyId := cfg.countersigner,
         logId := Some(cfg.logId))
    else
      r
  }

  // ----- admission and signature -----

  datatype Admission = Admitted(session: string) | Declined(reason: Code)

  function Admit(h: Host, e: Event, expected: Option<string>, attempt: bool): (r: (Host, Admission))
    ensures r.1.Admitted? ==> SchemaValid(e) && e.canonical && IsAttempt(e) == attempt
                              && e.session == Some(r.1.session) && r.1.session in h.sessions && r.0 == h
  {
    if !SchemaValid(e) || IsAttempt(e) != attempt || !e.canonical then
      (Flag(h, EventId(e), SchemaInvalid), Declined(SchemaInvalid))
    else if e.session.value !in h.sessions || (expected.Some? && e.session != expected) then
      (Flag(h, EventId(e), ReplayDetected), Declined(ReplayDetected))
    else
      (h, Admitted(e.session.value))
  }

  datatype Check = Passed | Unverified(reason: Code) | CheckRaised

  function VerifySignature(cfg: Config, h: Host, e: Event, s: string, verdict: Verdict): (Host, Check)
    requires s in h.sessions
  {
    if !cfg.level2 then
      (h, Passed)
    else if e.signature.None? || e.keyId.None? || e.signerSeq.None? then
      (Flag(h, EventId(e), L2Unsigned), Unverified(L2Unsigned))
    else
      match verdict
      case VerifierRaised => (h, CheckRaised)
      case Refuses(reason) => (Flag(h, EventId(e), reason), Unverified(reason))
      case Verifies => (Receive(h, e, s), Passed)
  }

  /** The highest value received per key moves up; a value past the next one is flagged, not refused. */
  function Receive(h: Host, e: Event, s: string): Host
    requires s in h.sessions && e.keyId.Some? && e.signerSeq.Some?
  {
    var x := h.sessions[s];
    var k, n := e.keyId.value, e.signerSeq.value;
    var expected := if k in x.received then x.received[k] + 1 else 0;
    var g := if n > expected then Flag(h, EventId(e), SignerSeqGap) else h;
    if k !in x.received || n > x.received[k] then
      WithSession(g, s, x.(received := x.received[k := n]))
    else
      g
  }

  // ----- attempts -----

  function HandleAttempt(cfg: Config, h: Host, st: Store, e: Event, expected: Option<string>, env: Env)
    : (Host, Store, Answer)
  {
    if env.expired then
      (h, st, Unavailable)
    else
      var (g, settling) := SettleTail(cfg, h, st, env.reading);
      match settling
      case TailUnread => (g, st, Unavailable)
      case TailReadRaised => (g, st, Raised)
      case TailSettled => DecideAttempt(cfg, g, st, e, expected, env)
  }

  function DecideAttempt(cfg: Config, h: Host, st: Store, e: Event, expected: Option<string>, env: Env)
    : (Host, Store, Answer)
  {
    var (h1, admission) := Admit(h, e, expected, true);
    match admission
    case Declined(reason) => (h1, st, Reject(reason))
    case Admitted(s) =>
      var (h2, check) := VerifySignature(cfg, h1, e, s, env.verdict);
      match check
      case CheckRaised => (h2, st, Raised)
      case Unverified(reason) => (h2.(rejectedIds := h2.rejectedIds + {EventId(e)}), st, Reject(reason))
      case Passed => ConcludeAttempt(cfg, h2, st, e, s, env)
  }

  /** The attempt was admitted and its signature verifies: replay rules, then the seal. */
  function ConcludeAttempt(cfg: Config, h: Host, st: Store, e: Event, s: string, env: Env)
    : (Host, Store, Answer)
    requires s in h.sessions
  {
    var id := EventId(e);
    var x := h.sessions[s];
    if id in h.sealedAttempts && h.sealedAttempts[id].event == e then
      (WithSession(h, s, x.(accepted := x.accepted + {id})), st, AcceptOf(h.sealedAttempts[id]))
    else if id in h.sealedAttempts || id in x.outcomes || AlreadyDecided(cfg, x, e) then
      (RejectReplay(cfg, h, e, s), st, Reject(ReplayDetected))
    else if !env.persistenceAvailable then
      (h, st, Unavailable)
    else
      var (g, st', sealing) := Seal(cfg, h, st, e, env);
      match sealing
      case SealRaised => (g, st', Raised)
      case NotSealed => (g, st', Unavailable)
      case SealedAs(r) => (WithSession(g, s, AccountTo(cfg, x, e)), st', AcceptOf(r))
  }

  function RejectReplay(cfg: Config, h: Host, e: Event, s: string): Host
    requires s in h.sessions
  {
    var g := WithSession(h, s, Decide(cfg, h.sessions[s], e));
    Flag(g.(rejectedIds := g.rejectedIds + {EventId(e)}), EventId(e), ReplayDetected)
  }

  // ----- outcomes -----

  function RecordOutcome(cfg: Config, h: Host, st: Store, e: Event, expected: Option<string>, env: Env)
    : (Host, Store, Disposition)
  {
    var (g, settling) := SettleTail(cfg, h, st, env.reading);
    match settling
    case TailUnread => (g, st, NotRecorded)
    case TailReadRaised => (g, st, OutcomeRaised)
    case TailSettled => DecideOutcome(cfg, g, st, e, expected, env)
  }

  function DecideOutcome(cfg: Config, h: Host, st: Store, e: Event, expected: Option<string>, env: Env)
    : (Host, Store, Disposition)
  {
    var (h1, admission) := Admit(h, e, expected, false);
    match admission
    case Declined(_) => (h1, st, Refused)
    case Admitted(s) =>
      var (h2, check) := VerifySignature(cfg, h1, e, s, env.verdict);
      match check
      case CheckRaised => (h2, st, OutcomeRaised)
      case Unverified(_) => (h2, st, Refused)
      case Passed => ConcludeOutcome(cfg, h2, st, e, s, env)
  }

  function ConcludeOutcome(cfg: Config, h: Host, st: Store, e: Event, s: string, env: Env)
    : (Host, Store, Disposition)
    requires s in h.sessions
  {
    var id := EventId(e);
    var x := h.sessions[s];
    if (id in x.outcomes && x.outcomes[id] == e) || e in h.sealedDigests then
      (h, st, Repeat)
    else if id in x.outcomes then
      (Flag(WithSession(h, s, Decide(cfg, x, e)), id, ReplayDetected), st, Refused)
    else if AlreadyDecided(cfg, x, e) then
      (Flag(h, id, ReplayDetected), st, Refused)
    else if id !in x.accepted && e.outcome != Some(Aborted) then
      (Flag(WithSession(h, s, Decide(cfg, x, e)), id, OrphanedOutcome), st, Refused)
    else if !env.persistenceAvailable then
      (h, st, NotRecorded)
    else
      var (g, st', sealing) := Seal(cfg, h, st, e, env);
      match sealing
      case SealRaised => (g, st', OutcomeRaised)
      case NotSealed => (g, st', NotRecorded)
      case SealedAs(_) => (WithSession(g, s, AccountTo(cfg, x, e)), st', Sealed)
  }

  // ----- sessions -----

  function OpenNew(h: Host, s: string): Host {
    h.(issued := h.issued + {s}, sessions := h.sessions[s := EMPTY_SESSION])
  }

  function CloseSession(h: Host, s: string): Host {
    if s !in h.sessions then
      h
    else
      var x := h.sessions[s];
      h.(sessions := h.sessions - {s},
         anomalies := h.anomalies + multiset(Unresolved(x.accepted - x.resolved)))
  }

  function Unresolved(ids: set<string>): set<Anomaly> {
    set id | id in ids :: Anomaly(id, UnresolvedAttempt)
  }

  function TrackerOf(h: Host, s: string): Option<SignerTracker> {
    if s in h.sessions then Some(SignerTracker(h.sessions[s].decided, h.sessions[s].received)) else None
  }

  // ----- restart -----

  /** One record read back into the session it was sealed in. */
  function Restore(x: Session, e: Event): Session {
    var id := EventId(e);
    var y :=
      if e.keyId.Some? && e.signerSeq.Some? then
        x.(decided := x.decided + {(e.keyId.value, e.signerSeq.value)},
           received := Raise(x.received, e.keyId.value, e.signerSeq.value))
      else
        x;
    if IsAttempt(e) then
      y.(accepted := y.accepted + {id})
    else
      y.(outcomes := y.outcomes[id := e],
         resolved := if id in y.accepted then y.resolved + {id} else y.resolved)
  }

  function Raise(received: map<string, int>, k: string, n: int): map<string, int> {
    if k in received && n <= received[k] then received else received[k := n]
  }

  function RestoredSession(s: string, es: seq<Event>): Session {
    if es == [] then
      EMPTY_SESSION
    else
      var e := es[|es| - 1];
      var x := RestoredSession(s, es[..|es| - 1]);
      if e.session == Some(s) && e.version == Some(V04) then Restore(x, e) else x
  }

  /** A restored session with the tracker kept for it: decisions join, and the higher value received stands. */
  function Merge(x: Session, signers: Option<SignerTracker>): Session {
    match signers
    case None => x
    case Some(t) =>
      x.(decided := x.decided + t.decided,
         received := map k | k in x.received.Keys + t.received.Keys ::
           if k in x.received && (k !in t.received || t.received[k] <= x.received[k])
           then x.received[k] else t.received[k])
  }

  function RestoredSessions(opens: seq<OpenSession>, es: seq<Event>): map<string, Session> {
    if opens == [] then
      map[]
    else
      var o := opens[|opens| - 1];
      RestoredSessions(opens[..|opens| - 1], es)[o.sessionId := Merge(RestoredSession(o.sessionId, es), o.signers)]
  }

  function OpenIds(opens: seq<OpenSession>): set<string> {
    set o | o in opens :: o.sessionId
  }

  /** The sealed attempts by id, read back from the stored records. */
  function RememberedAttempts(records: seq<Record>): map<string, Record> {
    if records == [] then
      map[]
    else
      var r := records[|records| - 1];
      var m := RememberedAttempts(records[..|records| - 1]);
      if IsAttempt(r.event) then m[EventId(r.event) := r] else m
  }

  /** The attempts left without a terminal record, outside the sessions in `open`, in sealing order. */
  function OpenAttempts(es: seq<Event>, open: set<string>): seq<OpKey> {
    if es == [] then
      []
    else
      var e := es[|es| - 1];
      var ks := OpenAttempts(es[..|es| - 1], open);
      var k := OpKey(e.session, Some(EventId(e)));
      if e.session.None? || e.version != Some(V04) || e.session.value in open then
        ks
      else if IsAttempt(e) then
        if k in ks then ks else ks + [k]
      else
        Without(ks, k)
  }

  function Without(ks: seq<OpKey>, k: OpKey): (r: seq<OpKey>)
    ensures forall x :: x in r <==> x in ks && x != k
  {
    if ks == [] then
      []
    else if ks[0] == k then
      Without(ks[1..], k)
    else
      [ks[0]] + Without(ks[1..], k)
  }

  function UnresolvedOnRestart(ks: seq<OpKey>): seq<Anomaly> {
    seq(|ks|, i requires 0 <= i < |ks| =>
      Anomaly(if ks[i].id.Some? then ks[i].id.value else "<unknown>", UnresolvedAttempt))
  }

  function Resume(records: seq<Record>, opens: seq<OpenSession>): Host {
    var es := EventsOf(records);
    Host(
      ResumeFrom(records),
      RestoredSessions(opens, es),
      (set e | e in es && e.session.Some? :: e.session.value) + OpenIds(opens),
      false,
      RememberedAttempts(records),
      set e | e in es,
      {},
      multiset(UnresolvedOnRestart(OpenAttempts(es, OpenIds(opens)))))
  }
}
