/** The read-only auditor: it recomputes the chain from the record bodies. */
module Verifier {
  import opened Events
  import opened Chain
  import opened Reasons
  import opened GapAccounting

  datatype Issue = Issue(position: Option<int>, kind: Code)

  datatype Identity = Identity(logId: string, hostKeyIds: set<string>)

  /** What the caller supplies out of band. */
  datatype Options = Options(
    anchoredDigest: Option<Hash>,
    signatureChecker: Option<Event -> bool>,
    countersignatureChecker: Option<(string, string, Payload) -> bool>,
    expectedIdentity: Option<Identity>,
    countersignatureRequired: bool)

  datatype Report = Report(
    count: nat,
    computedDigest: Hash,
    issues: seq<Issue>,
    countersignatureUnchecked: bool,
    level2Unchecked: bool)

  // ----- one record -----

  /** The running hash: recomputed from the body, or the stored hash of a body that cannot be canonicalized. */
  function HashAfter(r: Record, previous: Hash): Hash {
    if r.event.canonical then HashOf(r.event, r.position, r.hostTs, previous) else r.recordHash
  }

  function Present(r: Record): nat {
    (if r.hostSignature.Some? then 1 else 0) + (if r.hostKeyId.Some? then 1 else 0) + (if r.logId.Some? then 1 else 0)
  }

  predicate Countersigned(r: Record) {
    r.hostSignature.Some? && r.hostKeyId.Some? && r.logId.Some?
  }

  /** Nothing is wrong with the record's countersignature. */
  predicate CountersignatureOk(r: Record, opts: Options) {
    if Countersigned(r) then
      r.event.canonical && opts.countersignatureChecker.Some? ==>
        opts.countersignatureChecker.value(r.hostKeyId.value, r.hostSignature.value, PayloadOf(r, r.logId.value))
    else
      Present(r) == 0 && !opts.countersignatureRequired
  }

  predicate SignatureOk(r: Record, opts: Options) {
    r.event.canonical && r.event.signature.Some? && opts.signatureChecker.Some? ==>
      opts.signatureChecker.value(r.event)
  }

  predicate IdentityOk(r: Record, opts: Options) {
    opts.expectedIdentity.Some? ==>
      && Countersigned(r)
      && r.logId.value == opts.expectedIdentity.value.logId
      && r.hostKeyId.value in opts.expectedIdentity.value.hostKeyIds
  }

  predicate Orphaned(e: Event, attempted: set<OpKey>) {
    e.id.Some? && !IsAttempt(e) && KeyOf(e) !in attempted && e.outcome != Some(Aborted)
  }

  predicate Replayed(e: Event, numbered: set<Number>) {
    NumberOf(e).Some? && NumberOf(e).value in numbered
  }

  function When(c: bool, position: int, kind: Code): seq<Issue> {
    if c then [Issue(Some(position), kind)] else []
  }

  /** What is found at one record, given what precedes it. */
  function RecordIssues(r: Record, index: nat, previous: Hash, attempted: set<OpKey>, numbered: set<Number>,
                        opts: Options): seq<Issue>
  {
    When(r.position != index, r.position, SeqGap)
    + When(!r.event.canonical, r.position, SchemaInvalid)
    + When(r.event.canonical && r.previousHash != previous, r.position, RecordHashMismatch)
    + When(r.event.canonical && r.recordHash != HashAfter(r, previous), r.position, RecordHashMismatch)
    + When(Orphaned(r.event, attempted), r.position, OrphanedOutcome)
    + When(Replayed(r.event, numbered), r.position, ReplayDetected)
    + When(!SignatureOk(r, opts), r.position, SignatureInvalid)
    + When(!CountersignatureOk(r, opts), r.position, Code.HostSignatureInvalid)
    + When(!IdentityOk(r, opts), r.position, PrincipalMismatch)
  }

  // ----- the chain -----

  function Recomputed(c: seq<Record>): Hash {
    if c == [] then Genesis else HashAfter(c[|c| - 1], Recomputed(c[..|c| - 1]))
  }

  ghost function IssuesAt(c: seq<Record>, i: nat, opts: Options): seq<Issue>
    requires i < |c|
  {
    RecordIssues(c[i], i, Recomputed(c[..i]), Attempts(EventsOf(c[..i])), Numbers(EventsOf(c[..i])), opts)
  }

  ghost function ChainIssues(c: seq<Record>, n: nat, opts: Options): seq<Issue>
    requires n <= |c|
  {
    if n == 0 then [] else ChainIssues(c, n - 1, opts) + IssuesAt(c, n - 1, opts)
  }

  function GapIssues(gaps: seq<Gap>): seq<Issue> {
    seq(|gaps|, i => Issue(None, SignerSeqGap))
  }

  function DigestIssue(opts: Options, computed: Hash): seq<Issue> {
    if opts.anchoredDigest.Some? && opts.anchoredDigest.value != computed then [Issue(None, DigestMismatch)] else []
  }

  /** Every issue a verification reports, in order. */
  ghost function Issues(c: seq<Record>, opts: Options): seq<Issue> {
    ChainIssues(c, |c|, opts)
    + GapIssues(AllGaps(EventsOf(c), Groups(EventsOf(c))))
    + DigestIssue(opts, Recomputed(c))
  }

  /** Everything the verification loop carries, one record further. */
  lemma Advance(c: seq<Record>, i: nat, opts: Options)
    requires i < |c|
    ensures Attempts(EventsOf(c[..i + 1])) ==
              Attempts(EventsOf(c[..i])) + if IsAttempt(c[i].event) then {KeyOf(c[i].event)} else {}
    ensures Numbers(EventsOf(c[..i + 1])) ==
              Numbers(EventsOf(c[..i])) + if NumberOf(c[i].event).Some? then {NumberOf(c[i].event).value} else {}
    ensures Recomputed(c[..i + 1]) == HashAfter(c[i], Recomputed(c[..i]))
    ensures ChainIssues(c, i + 1, opts) == ChainIssues(c, i, opts) + IssuesAt(c, i, opts)
  {
    hide RecordIssues, NumberOf, HashAfter;
    assert c[..i + 1] == c[..i] + [c[i]];
    EventsAfter(c[..i], c[i]);
    SetsAfter(EventsOf(c[..i]), c[i].event);
  }

  lemma AtGenesis(c: seq<Record>)
    ensures Attempts(EventsOf(c[..0])) == {} && Numbers(EventsOf(c[..0])) == {} && Recomputed(c[..0]) == Genesis
  {
    SetsOfNothing();
    assert EventsOf(c[..0]) == [];
  }

  method VerifyChain(c: seq<Record>, opts: Options) returns (report: Report)
    ensures report.count == |c|
    ensures report.computedDigest == Recomputed(c)
    ensures report.level2Unchecked <==>
              && opts.signatureChecker.None?
              && exists i :: 0 <= i < |c| && c[i].event.canonical && c[i].event.signature.Some?
    ensures report.countersignatureUnchecked <==>
              && opts.countersignatureChecker.None?
              && exists i :: 0 <= i < |c| && c[i].event.canonical
                   && c[i].hostSignature.Some? && c[i].hostKeyId.Some? && c[i].logId.Some?
    ensures report.issues == Issues(c, opts)
  {
    hide RecordIssues, Attempts, Numbers, AllGaps, Groups, NumberOf, HashAfter, GapIssues, DigestIssue, Recomputed,
         ChainIssues, EventsOf;
    var issues := [];
    var attempted: set<OpKey> := {};
    var numbered: set<Number> := {};
    var previous := Genesis;
    var countersignatureUnchecked, level2Unchecked := false, false;
    AtGenesis(c);
    NoIssuesYet(c, opts);
    var i := 0;
    while i < |c|
      invariant 0 <= i <= |c|
      invariant issues == ChainIssues(c, i, opts)
      invariant attempted == Attempts(EventsOf(c[..i])) && numbered == Numbers(EventsOf(c[..i]))
      invariant previous == Recomputed(c[..i])
      invariant level2Unchecked <==>
                  && opts.signatureChecker.None?
                  && exists j :: 0 <= j < i && c[j].event.canonical && c[j].event.signature.Some?
      invariant countersignatureUnchecked <==>
                  && opts.countersignatureChecker.None?
                  && exists j :: 0 <= j < i && c[j].event.canonical
                       && c[j].hostSignature.Some? && c[j].hostKeyId.Some? && c[j].logId.Some?
    {
      var r := c[i];
      Advance(c, i, opts);
      issues := issues + RecordIssues(r, i, previous, attempted, numbered, opts);
      if IsAttempt(r.event) {
        attempted := attempted + {KeyOf(r.event)};
      }
      if NumberOf(r.event).Some? {
        numbered := numbered + {NumberOf(r.event).value};
      }
      if r.event.canonical && r.event.signature.Some? && opts.signatureChecker.None? {
        level2Unchecked := true;
      }
      if r.event.canonical && Countersigned(r) && opts.countersignatureChecker.None? {
        countersignatureUnchecked := true;
      }
      previous := HashAfter(r, previous);
      i := i + 1;
    }
    assert c[..|c|] == c;
    var gaps := UnaccountedSignerSeq(EventsOf(c));
    issues := issues + GapIssues(gaps) + DigestIssue(opts, previous);
    report := Report(|c|, previous, issues, countersignatureUnchecked, level2Unchecked);
  }

  lemma NoIssuesYet(c: seq<Record>, opts: Options)
    ensures ChainIssues(c, 0, opts) == []
  {
  }

  // ----- what a clean verification means -----

  /** Nothing is found at record `i`. */
  ghost predicate CleanAt(c: seq<Record>, i: nat, opts: Options)
    requires i < |c|
  {
    var es := EventsOf(c[..i]);
    && c[i].position == i
    && c[i].event.canonical
    && c[i].previousHash == Recomputed(c[..i])
    && c[i].recordHash == HashOf(c[i].event, i, c[i].hostTs, Recomputed(c[..i]))
    && !Orphaned(c[i].event, Attempts(es))
    && !Replayed(c[i].event, Numbers(es))
    && SignatureOk(c[i], opts)
    && CountersignatureOk(c[i], opts)
    && IdentityOk(c[i], opts)
  }

  lemma CleanAtIffNoIssues(c: seq<Record>, i: nat, opts: Options)
    requires i < |c|
    ensures IssuesAt(c, i, opts) == [] <==> CleanAt(c, i, opts)
  {
    hide Orphaned, Replayed, SignatureOk, CountersignatureOk, IdentityOk;
  }

  lemma {:induction false} ChainIssuesEmpty(c: seq<Record>, n: nat, opts: Options)
    requires n <= |c|
    ensures ChainIssues(c, n, opts) == [] <==> forall i :: 0 <= i < n ==> CleanAt(c, i, opts)
  {
    hide CleanAt, IssuesAt;
    if n > 0 {
      ChainIssuesEmpty(c, n - 1, opts);
      CleanAtIffNoIssues(c, n - 1, opts);
    }
  }

  /** A report is clean exactly when every record is, no gap is left, and the digest is the anchored one. */
  lemma NoIssuesIff(c: seq<Record>, opts: Options)
    ensures Issues(c, opts) == [] <==>
              && (forall i :: 0 <= i < |c| ==> CleanAt(c, i, opts))
              && (forall g :: g in Groups(EventsOf(c)) ==> Unaccounted(EventsOf(c), g) == {})
              && (opts.anchoredDigest.Some? ==> opts.anchoredDigest.value == Recomputed(c))
  {
    hide CleanAt, Unaccounted;
    ChainIssuesEmpty(c, |c|, opts);
    NoGaps(EventsOf(c), Groups(EventsOf(c)));
  }

  // ----- what each kind of issue means -----

  /** An issue of the kind is reported at record `i`. */
  ghost predicate ReportedAt(c: seq<Record>, i: nat, kind: Code, opts: Options)
    requires i < |c|
  {
    Issue(Some(c[i].position), kind) in IssuesAt(c, i, opts)
  }

  /** Out of place, and not canonicalizable. */
  lemma PlaceIff(c: seq<Record>, i: nat, opts: Options)
    requires i < |c|
    ensures ReportedAt(c, i, SeqGap, opts) <==> c[i].position != i
    ensures ReportedAt(c, i, SchemaInvalid, opts) <==> !c[i].event.canonical
  {
    hide Orphaned, Replayed, SignatureOk, CountersignatureOk, IdentityOk, HashAfter, Recomputed, NumberOf;
  }

  /** An outcome of an action that was carried out, with no attempt of its operation sealed before it. */
  lemma OrphanIff(c: seq<Record>, i: nat, opts: Options)
    requires i < |c|
    ensures ReportedAt(c, i, OrphanedOutcome, opts) <==>
              && c[i].event.id.Some? && !IsAttempt(c[i].event) && c[i].event.outcome != Some(Aborted)
              && forall j :: 0 <= j < i && IsAttempt(c[j].event) ==> KeyOf(c[j].event) != KeyOf(c[i].event)
  {
    hide Replayed, SignatureOk, CountersignatureOk, IdentityOk, HashAfter, Recomputed, NumberOf;
    var es := EventsOf(c[..i]);
    forall j | 0 <= j < i ensures c[j].event in es {
      assert es[j] == c[j].event;
    }
    forall e | e in es ensures exists j :: 0 <= j < i && c[j].event == e {
      var j :| 0 <= j < i && es[j] == e;
    }
  }

  /** A number that a record before it carries. */
  lemma ReplayIff(c: seq<Record>, i: nat, opts: Options)
    requires i < |c|
    ensures ReportedAt(c, i, ReplayDetected, opts) <==>
              && NumberOf(c[i].event).Some?
              && exists j :: 0 <= j < i && NumberOf(c[j].event) == NumberOf(c[i].event)
  {
    hide Orphaned, SignatureOk, CountersignatureOk, IdentityOk, HashAfter, NumberOf;
    var es := EventsOf(c[..i]);
    forall j | 0 <= j < i ensures c[j].event in es {
      assert es[j] == c[j].event;
    }
    forall e | e in es ensures exists j :: 0 <= j < i && c[j].event == e {
      var j :| 0 <= j < i && es[j] == e;
    }
  }

  /** A signature the auditor's checker turns down. */
  lemma SignatureIff(c: seq<Record>, i: nat, opts: Options)
    requires i < |c|
    ensures ReportedAt(c, i, SignatureInvalid, opts) <==>
              && c[i].event.canonical && c[i].event.signature.Some?
              && opts.signatureChecker.Some? && !opts.signatureChecker.value(c[i].event)
  {
    hide Orphaned, Replayed, CountersignatureOk, IdentityOk, HashAfter, Recomputed, NumberOf;
  }

  /** No countersignature where one is required, part of one, or one the auditor's checker turns down. */
  lemma CountersignatureIff(c: seq<Record>, i: nat, opts: Options)
    requires i < |c|
    ensures var r := c[i];
            ReportedAt(c, i, Code.HostSignatureInvalid, opts) <==>
              || (r.hostSignature.None? && r.hostKeyId.None? && r.logId.None? && opts.countersignatureRequired)
              || ((r.hostSignature.Some? || r.hostKeyId.Some? || r.logId.Some?)
                  && !(r.hostSignature.Some? && r.hostKeyId.Some? && r.logId.Some?))
              || (r.hostSignature.Some? && r.hostKeyId.Some? && r.logId.Some? && r.event.canonical
                  && opts.countersignatureChecker.Some?
                  && !opts.countersignatureChecker.value(
                        r.hostKeyId.value, r.hostSignature.value,
                        Payload(r.position, r.hostTs, r.logId.value, r.previousHash, r.recordHash)))
  {
    hide Orphaned, Replayed, SignatureOk, IdentityOk, HashAfter, Recomputed, NumberOf;
  }

  /** A record bound to another log or key than expected, or to none. */
  lemma IdentityIff(c: seq<Record>, i: nat, opts: Options)
    requires i < |c|
    ensures var r := c[i];
            ReportedAt(c, i, PrincipalMismatch, opts) <==>
              && opts.expectedIdentity.Some?
              && (|| r.hostSignature.None? || r.hostKeyId.None? || r.logId.None?
                  || r.logId.value != opts.expectedIdentity.value.logId
                  || r.hostKeyId.value !in opts.expectedIdentity.value.hostKeyIds)
  {
    hide Orphaned, Replayed, SignatureOk, CountersignatureOk, HashAfter, Recomputed, NumberOf;
  }

  /** Every issue of the whole audit is of one of these kinds at one of the records, a gap or a wrong digest. */
  lemma IssueIff(c: seq<Record>, opts: Options, position: int, kind: Code)
    ensures Issue(Some(position), kind) in Issues(c, opts) <==>
              exists i :: 0 <= i < |c| && c[i].position == position && ReportedAt(c, i, kind, opts)
    ensures Issue(None, kind) in Issues(c, opts) <==>
              || (kind == SignerSeqGap && AllGaps(EventsOf(c), Groups(EventsOf(c))) != [])
              || (kind == DigestMismatch && opts.anchoredDigest.Some? && opts.anchoredDigest.value != Recomputed(c))
  {
    hide IssuesAt, AllGaps, Groups, Recomputed, ChainIssues;
    ChainIssueIff(c, |c|, opts, position, kind);
    var gaps := AllGaps(EventsOf(c), Groups(EventsOf(c)));
    if gaps != [] {
      assert GapIssues(gaps)[0] == Issue(None, SignerSeqGap);
    }
  }

  lemma {:induction false} ChainIssueIff(c: seq<Record>, n: nat, opts: Options, position: int, kind: Code)
    requires n <= |c|
    ensures Issue(Some(position), kind) in ChainIssues(c, n, opts) <==>
              exists i :: 0 <= i < n && c[i].position == position && ReportedAt(c, i, kind, opts)
    ensures Issue(None, kind) !in ChainIssues(c, n, opts)
  {
    hide IssuesAt;
    if n > 0 {
      ChainIssueIff(c, n - 1, opts, position, kind);
      IssuesNameTheRecord(c, n - 1, opts);
    }
  }

  lemma IssuesNameTheRecord(c: seq<Record>, i: nat, opts: Options)
    requires i < |c|
    ensures forall x :: x in IssuesAt(c, i, opts) ==> x.position == Some(c[i].position)
  {
    hide Orphaned, Replayed, SignatureOk, CountersignatureOk, IdentityOk, HashAfter;
  }

  /** Each kind is reported once at a record, but for the hash mismatch: once for its link, once for its own. */
  lemma ReportedOnce(c: seq<Record>, i: nat, opts: Options, kind: Code)
    requires i < |c|
    ensures multiset(IssuesAt(c, i, opts))[Issue(Some(c[i].position), kind)] <=
              if kind == RecordHashMismatch then 2 else 1
  {
    hide Orphaned, Replayed, SignatureOk, CountersignatureOk, IdentityOk, HashAfter, Recomputed, Attempts, Numbers,
         When;
    var r, es := c[i], EventsOf(c[..i]);
    NineKinds(r.position, r.position != i, !r.event.canonical,
              r.event.canonical && r.previousHash != Recomputed(c[..i]),
              r.event.canonical && r.recordHash != HashAfter(r, Recomputed(c[..i])),
              Orphaned(r.event, Attempts(es)), Replayed(r.event, Numbers(es)), !SignatureOk(r, opts),
              !CountersignatureOk(r, opts), !IdentityOk(r, opts), kind);
  }

  lemma NineKinds(at: int, a: bool, b: bool, c: bool, d: bool, e: bool, f: bool, g: bool, h: bool, k: bool, kind: Code)
    ensures multiset(When(a, at, SeqGap) + When(b, at, SchemaInvalid) + When(c, at, RecordHashMismatch)
                     + When(d, at, RecordHashMismatch) + When(e, at, OrphanedOutcome) + When(f, at, ReplayDetected)
                     + When(g, at, SignatureInvalid) + When(h, at, Code.HostSignatureInvalid)
                     + When(k, at, PrincipalMismatch))[Issue(Some(at), kind)]
              <= if kind == RecordHashMismatch then 2 else 1
  {
    hide When;
    var x := Issue(Some(at), kind);
    WhenIsOne(a, at, SeqGap, x);
    WhenIsOne(b, at, SchemaInvalid, x);
    WhenIsOne(c, at, RecordHashMismatch, x);
    WhenIsOne(d, at, RecordHashMismatch, x);
    WhenIsOne(e, at, OrphanedOutcome, x);
    WhenIsOne(f, at, ReplayDetected, x);
    WhenIsOne(g, at, SignatureInvalid, x);
    WhenIsOne(h, at, Code.HostSignatureInvalid, x);
    WhenIsOne(k, at, PrincipalMismatch, x);
    SumOfNine(When(a, at, SeqGap), When(b, at, SchemaInvalid), When(c, at, RecordHashMismatch),
              When(d, at, RecordHashMismatch), When(e, at, OrphanedOutcome), When(f, at, ReplayDetected),
              When(g, at, SignatureInvalid), When(h, at, Code.HostSignatureInvalid), When(k, at, PrincipalMismatch), x);
  }

  lemma WhenIsOne(b: bool, position: int, kind: Code, x: Issue)
    ensures multiset(When(b, position, kind))[x] <= if x == Issue(Some(position), kind) then 1 else 0
  {
  }

  lemma SumOfNine(a: seq<Issue>, b: seq<Issue>, c: seq<Issue>, d: seq<Issue>, e: seq<Issue>, f: seq<Issue>,
                  g: seq<Issue>, h: seq<Issue>, k: seq<Issue>, x: Issue)
    ensures multiset(a + b + c + d + e + f + g + h + k)[x] ==
              multiset(a)[x] + multiset(b)[x] + multiset(c)[x] + multiset(d)[x] + multiset(e)[x] + multiset(f)[x]
              + multiset(g)[x] + multiset(h)[x] + multiset(k)[x]
  {
  }

  /** The order in which a record is checked. */
  function Turn(kind: Code): nat {
    match kind
    case SeqGap => 0
    case SchemaInvalid => 1
    case RecordHashMismatch => 2
    case OrphanedOutcome => 3
    case ReplayDetected => 4
    case SignatureInvalid => 5
    case HostSignatureInvalid => 6
    case _ => 7
  }

  ghost predicate InTurn(xs: seq<Issue>, n: nat) {
    && (forall i :: 0 <= i < |xs| ==> Turn(xs[i].kind) <= n)
    && (forall i, j :: 0 <= i < j < |xs| ==> Turn(xs[i].kind) <= Turn(xs[j].kind))
  }

  lemma ThenTurn(xs: seq<Issue>, n: nat, b: bool, position: int, kind: Code)
    requires InTurn(xs, n) && n <= Turn(kind)
    ensures InTurn(xs + When(b, position, kind), Turn(kind))
  {
    hide Turn;
  }

  /** The issues of a record are reported in the order of its checks. */
  lemma RecordIssuesInOrder(c: seq<Record>, i: nat, opts: Options)
    requires i < |c|
    ensures InTurn(IssuesAt(c, i, opts), 7)
  {
    hide Orphaned, Replayed, SignatureOk, CountersignatureOk, IdentityOk, HashAfter, Recomputed, Attempts, Numbers,
         When, InTurn;
    var r, es, at := c[i], EventsOf(c[..i]), c[i].position;
    var x1 := When(r.position != i, at, SeqGap);
    assert InTurn(x1, 0) by {
      FirstTurn(r.position != i, at);
    }
    ThenTurn(x1, 0, !r.event.canonical, at, SchemaInvalid);
    var x2 := x1 + When(!r.event.canonical, at, SchemaInvalid);
    var link := r.event.canonical && r.previousHash != Recomputed(c[..i]);
    ThenTurn(x2, 1, link, at, RecordHashMismatch);
    var x3 := x2 + When(link, at, RecordHashMismatch);
    var own := r.event.canonical && r.recordHash != HashAfter(r, Recomputed(c[..i]));
    ThenTurn(x3, 2, own, at, RecordHashMismatch);
    var x4 := x3 + When(own, at, RecordHashMismatch);
    ThenTurn(x4, 2, Orphaned(r.event, Attempts(es)), at, OrphanedOutcome);
    var x5 := x4 + When(Orphaned(r.event, Attempts(es)), at, OrphanedOutcome);
    ThenTurn(x5, 3, Replayed(r.event, Numbers(es)), at, ReplayDetected);
    var x6 := x5 + When(Replayed(r.event, Numbers(es)), at, ReplayDetected);
    ThenTurn(x6, 4, !SignatureOk(r, opts), at, SignatureInvalid);
    var x7 := x6 + When(!SignatureOk(r, opts), at, SignatureInvalid);
    ThenTurn(x7, 5, !CountersignatureOk(r, opts), at, Code.HostSignatureInvalid);
    var x8 := x7 + When(!CountersignatureOk(r, opts), at, Code.HostSignatureInvalid);
    ThenTurn(x8, 6, !IdentityOk(r, opts), at, PrincipalMismatch);
  }

  lemma FirstTurn(b: bool, position: int)
    ensures InTurn(When(b, position, SeqGap), 0)
  {
  }

  /** The gaps are reported once each after what is found at the records, and a wrong digest last. */
  lemma LedgerIssuesInOrder(c: seq<Record>, opts: Options)
    ensures var gaps, found := AllGaps(EventsOf(c), Groups(EventsOf(c))), ChainIssues(c, |c|, opts);
            var wrong := opts.anchoredDigest.Some? && opts.anchoredDigest.value != Recomputed(c);
            && found <= Issues(c, opts) && |Issues(c, opts)| == |found| + |gaps| + (if wrong then 1 else 0)
            && (forall k :: |found| <= k < |found| + |gaps| ==> Issues(c, opts)[k] == Issue(None, SignerSeqGap))
            && (wrong ==> Issues(c, opts)[|found| + |gaps|] == Issue(None, DigestMismatch))
  {
    hide ChainIssues, AllGaps, Groups, Recomputed;
  }

  /** What is found at the first records does not depend on those that follow, and comes first. */
  lemma {:induction false} PrefixFindsPrefix(c: seq<Record>, m: nat, n: nat, opts: Options)
    requires m <= n <= |c|
    ensures ChainIssues(c[..n], m, opts) == ChainIssues(c, m, opts) <= ChainIssues(c, n, opts)
    decreases n + m
  {
    if m > 0 {
      PrefixFindsPrefix(c, m - 1, n, opts);
      assert c[..n][..m - 1] == c[..m - 1];
    }
    if m < n {
      PrefixFindsPrefix(c, m, n - 1, opts);
    }
    hide IssuesAt;
  }

  /** Past a record that cannot be canonicalized, the next is checked against the hash stored in it. */
  lemma CheckedPastUnhashable(c: seq<Record>, i: nat, opts: Options)
    requires i + 1 < |c| && !c[i].event.canonical
    ensures MismatchAt(c, i + 1, opts) <==>
              && c[i + 1].event.canonical
              && (|| c[i + 1].previousHash != c[i].recordHash
                  || c[i + 1].recordHash !=
                       HashOf(c[i + 1].event, c[i + 1].position, c[i + 1].hostTs, c[i].recordHash))
  {
    hide MismatchAt;
    MismatchIff(c, i + 1, opts);
    assert c[..i + 1] == c[..i] + [c[i]];
  }

  // ----- tamper evidence -----

  /** The digest of two chains of hashable records fixes their length and every body. */
  lemma {:induction false} DigestBindsBodies(a: seq<Record>, b: seq<Record>)
    requires forall i :: 0 <= i < |a| ==> a[i].event.canonical
    requires forall i :: 0 <= i < |b| ==> b[i].event.canonical
    requires Recomputed(a) == Recomputed(b)
    ensures |a| == |b|
    ensures forall i :: 0 <= i < |a| ==>
              a[i].event == b[i].event && a[i].position == b[i].position && a[i].hostTs == b[i].hostTs
  {
    if a != [] && b != [] {
      var c, d := a[..|a| - 1], b[..|b| - 1];
      DigestBindsBodies(c, d);
      forall i | 0 <= i < |c| ensures a[i] == c[i] && b[i] == d[i] {
      }
    }
  }

  /** Two ledgers that verify clean against one anchored digest hold the same records, whatever else each of the
      two auditors checked. */
  lemma AnchorBindsLedger(a: seq<Record>, b: seq<Record>, first: Options, second: Options)
    requires Issues(a, first) == [] && Issues(b, second) == []
    requires first.anchoredDigest.Some? && second.anchoredDigest == first.anchoredDigest
    ensures |a| == |b|
    ensures forall i :: 0 <= i < |a| ==>
              a[i].event == b[i].event && a[i].position == b[i].position && a[i].hostTs == b[i].hostTs
              && a[i].previousHash == b[i].previousHash && a[i].recordHash == b[i].recordHash
  {
    hide Issues, AllGaps, SignatureOk, CountersignatureOk, IdentityOk, Orphaned, Replayed, Unaccounted;
    NoIssuesIff(a, first);
    NoIssuesIff(b, second);
    forall i | 0 <= i < |a| ensures a[i].event.canonical {
      assert CleanAt(a, i, first);
    }
    forall i | 0 <= i < |b| ensures b[i].event.canonical {
      assert CleanAt(b, i, second);
    }
    DigestBindsBodies(a, b);
    forall i | 0 <= i < |a| ensures a[i].previousHash == b[i].previousHash && a[i].recordHash == b[i].recordHash {
      SameBodiesSameHash(a, b, i);
      assert CleanAt(a, i, first) && CleanAt(b, i, second);
    }
  }

  lemma {:induction false} SameBodiesSameHash(a: seq<Record>, b: seq<Record>, n: nat)
    requires n <= |a| && n <= |b|
    requires forall i :: 0 <= i < n ==>
               && a[i].event.canonical
               && a[i].event == b[i].event && a[i].position == b[i].position && a[i].hostTs == b[i].hostTs
    ensures Recomputed(a[..n]) == Recomputed(b[..n])
  {
    if n > 0 {
      SameBodiesSameHash(a, b, n - 1);
      assert a[..n][..n - 1] == a[..n - 1] && b[..n][..n - 1] == b[..n - 1];
    }
  }

  /** The record hash found wrong at record `i`. */
  ghost predicate MismatchAt(c: seq<Record>, i: nat, opts: Options)
    requires i < |c|
  {
    Issue(Some(c[i].position), RecordHashMismatch) in IssuesAt(c, i, opts)
  }

  lemma MismatchIff(c: seq<Record>, i: nat, opts: Options)
    requires i < |c|
    ensures MismatchAt(c, i, opts) <==>
              && c[i].event.canonical
              && (|| c[i].previousHash != Recomputed(c[..i])
                  || c[i].recordHash != HashOf(c[i].event, c[i].position, c[i].hostTs, Recomputed(c[..i])))
  {
    hide Orphaned, Replayed, SignatureOk, CountersignatureOk, IdentityOk;
  }

  /** Rewriting one event of a clean ledger puts the first hash mismatch exactly at that record. */
  lemma RewriteIsLocalized(c: seq<Record>, k: nat, e: Event, opts: Options)
    requires Issues(c, opts) == [] && k < |c|
    requires e.canonical && e != c[k].event
    ensures var d := c[k := c[k].(event := e)];
            MismatchAt(d, k, opts) && forall i :: 0 <= i < k ==> !MismatchAt(d, i, opts)
  {
    hide Issues, MismatchAt, SignatureOk, CountersignatureOk, IdentityOk, Orphaned, Replayed, Unaccounted;
    NoIssuesIff(c, opts);
    var d := c[k := c[k].(event := e)];
    forall i | 0 <= i <= k ensures MismatchAt(d, i, opts) <==> i == k {
      assert d[..i] == c[..i];
      assert CleanAt(c, i, opts);
      MismatchIff(d, i, opts);
    }
  }

  // ----- versions -----

  function Rank(v: Option<Version>): int {
    match v
    case None => -1
    case Some(V01) => 0
    case Some(V011) => 1
    case Some(V02) => 2
    case Some(V03) => 3
    case Some(V04) => 4
  }

  /** The positions of the records whose version is earlier than that of a record sealed before them. */
  method VersionRegressions(c: seq<Record>) returns (found: seq<nat>)
    ensures forall i :: i in found <==>
              0 <= i < |c| && c[i].event.version.Some?
              && exists j :: 0 <= j < i && Rank(c[j].event.version) > Rank(c[i].event.version)
    ensures forall i, j :: 0 <= i < j < |found| ==> found[i] < found[j]
  {
    found := [];
    var latest := -1;
    for i := 0 to |c|
      invariant -1 <= latest
      invariant forall j :: 0 <= j < i ==> Rank(c[j].event.version) <= latest
      invariant latest >= 0 ==> exists j :: 0 <= j < i && Rank(c[j].event.version) == latest
      invariant forall k :: k in found <==>
                  0 <= k < i && c[k].event.version.Some?
                  && exists j :: 0 <= j < k && Rank(c[j].event.version) > Rank(c[k].event.version)
      invariant forall a, b :: 0 <= a < b < |found| ==> found[a] < found[b]
      invariant forall a :: 0 <= a < |found| ==> found[a] < i
    {
      var rank := Rank(c[i].event.version);
      if c[i].event.version.Some? {
        if rank < latest {
          found := found + [i];
        } else {
          latest := rank;
        }
      }
    }
  }
}
