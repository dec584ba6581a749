/**
 * The accounting of missing `signer_seq` values: the value-by-value procedure the specification pins,
 * and the interval form that computes it.
 */
module GapAccounting {
  import opened Events
  import opened Chain
  import opened Sorting

  /** A run of values, both ends included. */
  datatype Interval = Interval(first: int, last: int)

  datatype Gap = Gap(keyId: string, session: string, first: int, last: int)

  // ----- the procedure, value by value -----

  function Top(present: set<int>): int {
    var q := Ascending(present);
    if q == [] then -1 else q[|q| - 1]
  }

  /** The values from 0 to the largest present that are not present. */
  function Missing(present: set<int>): set<int> {
    set v: int | 0 <= v < Top(present) && v !in present
  }

  function Below(missing: set<int>, r: int): set<int> {
    set v | v in missing && v < r
  }

  /** Each refusal in turn accounts for the smallest missing value below its own; what is left is returned. */
  function Account(missing: set<int>, refusals: seq<int>): set<int>
    decreases |refusals|
  {
    if refusals == [] then
      missing
    else if Below(missing, refusals[0]) == {} then
      Account(missing, refusals[1..])
    else
      Account(missing - {Min(Below(missing, refusals[0]))}, refusals[1..])
  }

  // ----- runs -----

  ghost predicate Covers(runs: seq<Interval>, v: int) {
    exists i :: 0 <= i < |runs| && runs[i].first <= v <= runs[i].last
  }

  /** `runs` are the maximal runs of `m`, ascending: no two touch. */
  ghost predicate MaximalRuns(runs: seq<Interval>, m: set<int>) {
    && (forall i :: 0 <= i < |runs| ==> runs[i].first <= runs[i].last)
    && (forall i, j :: 0 <= i < j < |runs| ==> runs[i].last + 1 < runs[j].first)
    && (forall v :: v in m <==> Covers(runs, v))
  }

  /** A set has one list of maximal runs. */
  lemma {:induction false} MaximalRunsUnique(a: seq<Interval>, b: seq<Interval>, m: set<int>)
    requires MaximalRuns(a, m) && MaximalRuns(b, m)
    ensures a == b
  {
    FirstIsSmallest(a, m);
    FirstIsSmallest(b, m);
    if a != [] {
      FirstRunsAgree(a, b, m);
      var rest := set v | v in m && v > a[0].last;
      TailRuns(a, m, rest);
      TailRuns(b, m, rest);
      MaximalRunsUnique(a[1..], b[1..], rest);
      assert a == [a[0]] + a[1..] && b == [b[0]] + b[1..];
    }
  }

  lemma FirstRunsAgree(a: seq<Interval>, b: seq<Interval>, m: set<int>)
    requires MaximalRuns(a, m) && MaximalRuns(b, m) && a != [] && b != []
    ensures a[0] == b[0]
  {
    assert Covers(a, a[0].first) && Covers(b, b[0].first);
    assert Covers(b, a[0].first) && Covers(a, b[0].first);
    assert a[0].first == b[0].first;
    FirstRunReaches(a, b, m);
    FirstRunReaches(b, a, m);
  }

  lemma FirstRunReaches(a: seq<Interval>, b: seq<Interval>, m: set<int>)
    requires MaximalRuns(a, m) && MaximalRuns(b, m) && a != [] && b != []
    requires a[0].first == b[0].first
    ensures a[0].last <= b[0].last
  {
    var v := b[0].last + 1;
    assert v in m ==> Covers(b, v);
    assert v <= a[0].last ==> Covers(a, v);
  }

  lemma TailRuns(a: seq<Interval>, m: set<int>, rest: set<int>)
    requires MaximalRuns(a, m) && a != []
    requires rest == set v | v in m && v > a[0].last
    ensures MaximalRuns(a[1..], rest)
  {
    forall v ensures v in rest <==> Covers(a[1..], v) {
      if v in rest {
        assert Covers(a, v);
        var i :| 0 <= i < |a| && a[i].first <= v <= a[i].last;
        assert a[1..][i - 1] == a[i];
      }
      if Covers(a[1..], v) {
        var i :| 0 <= i < |a[1..]| && a[1..][i].first <= v <= a[1..][i].last;
        assert a[i + 1] == a[1..][i];
        assert Covers(a, v);
      }
    }
  }

  // ----- the interval form -----

  /** The values missing from `present`, as maximal runs, from the gaps between its values. */
  method MissingRuns(present: set<int>) returns (runs: seq<Interval>)
    requires forall v :: v in present ==> 0 <= v
    ensures MaximalRuns(runs, Missing(present))
  {
    var q := Ascending(present);
    runs := [];
    var following := 0;
    var i := 0;
    NoRuns(present);
    hide MaximalRuns;
    while i < |q|
      invariant 0 <= i <= |q| && 0 <= following
      invariant following == if i == 0 then 0 else q[i - 1] + 1
      invariant MaximalRuns(runs, set v: int | 0 <= v < following && v !in present)
    {
      ghost var before := runs;
      assert q[i] in q;
      if q[i] > following {
        runs := runs + [Interval(following, q[i] - 1)];
      }
      ExtendRuns(before, runs, present, q, i, following);
      following := q[i] + 1;
      i := i + 1;
    }
    AllMissing(present, following);
  }

  lemma AllMissing(present: set<int>, following: int)
    requires following == Top(present) + 1
    ensures (set v: int | 0 <= v < following && v !in present) == Missing(present)
  {
    var q := Ascending(present);
    if q != [] {
      assert q[|q| - 1] in q;
    }
  }

  lemma NoRuns(present: set<int>)
    ensures MaximalRuns([], set v: int | 0 <= v < 0 && v !in present)
    ensures MaximalRuns([], {})
  {
  }

  lemma AppendRun(runs: seq<Interval>, m: set<int>, run: Interval, m': set<int>)
    requires MaximalRuns(runs, m) && run.first <= run.last
    requires forall v :: v in m ==> v + 1 < run.first
    requires forall v :: v in m' <==> v in m || run.first <= v <= run.last
    ensures MaximalRuns(runs + [run], m')
  {
    forall i | 0 <= i < |runs| ensures runs[i].last + 1 < run.first {
      assert Covers(runs, runs[i].last);
    }
    var r := runs + [run];
    forall v ensures v in m' <==> Covers(r, v) {
      if v in m {
        var i :| 0 <= i < |runs| && runs[i].first <= v <= runs[i].last;
        assert r[i].first <= v <= r[i].last;
      }
      if run.first <= v <= run.last {
        assert r[|runs|].first <= v <= r[|runs|].last;
      }
    }
  }

  lemma ExtendRuns(before: seq<Interval>, after: seq<Interval>, present: set<int>, q: seq<int>, i: nat, following: int)
    requires q == Ascending(present) && i < |q|
    requires following == if i == 0 then 0 else q[i - 1] + 1
    requires 0 <= following && 0 <= q[i]
    requires MaximalRuns(before, set v: int | 0 <= v < following && v !in present)
    requires after == if q[i] > following then before + [Interval(following, q[i] - 1)] else before
    ensures MaximalRuns(after, set v: int | 0 <= v < q[i] + 1 && v !in present)
  {
    hide MaximalRuns, Ascending;
    var m := set v: int | 0 <= v < following && v !in present;
    var m' := set v: int | 0 <= v < q[i] + 1 && v !in present;
    assert q[i] in present && (i > 0 ==> q[i - 1] in present);
    forall v | following <= v < q[i] ensures v !in present {
      assert v in present ==> v in q;
    }
    if q[i] > following {
      AppendRun(before, m, Interval(following, q[i] - 1), m');
    } else {
      assert m == m';
    }
  }

  /** One refusal moves the front of the first run up, or drops the run it exhausts. */
  method TakeFirst(runs: seq<Interval>, ghost missing: set<int>, refusal: int) returns (r: seq<Interval>)
    requires MaximalRuns(runs, missing)
    ensures MaximalRuns(r, Account(missing, [refusal]))
  {
    FirstIsSmallest(runs, missing);
    if runs == [] || runs[0].first >= refusal {
      assert Below(missing, refusal) == {};
      return runs;
    }
    ghost var v := runs[0].first;
    assert v in Below(missing, refusal);
    assert Min(Below(missing, refusal)) == v;
    assert [refusal][1..] == [];
    assert Account(missing, [refusal]) == Account(missing - {v}, []);
    r := [Interval(runs[0].first + 1, runs[0].last)] + runs[1..];
    if r[0].first > r[0].last {
      r := r[1..];
    }
    RunsWithoutFirst(runs, r, missing);
  }

  lemma FirstIsSmallest(runs: seq<Interval>, missing: set<int>)
    requires MaximalRuns(runs, missing)
    ensures runs == [] <==> missing == {}
    ensures runs != [] ==> runs[0].first in missing && forall v :: v in missing ==> runs[0].first <= v
  {
    if runs != [] {
      assert Covers(runs, runs[0].first);
    }
    forall v | v in missing ensures runs != [] && runs[0].first <= v {
      assert Covers(runs, v);
    }
  }

  lemma RunsWithoutFirst(runs: seq<Interval>, r: seq<Interval>, missing: set<int>)
    requires MaximalRuns(runs, missing) && runs != []
    requires r == if runs[0].first < runs[0].last
                  then [Interval(runs[0].first + 1, runs[0].last)] + runs[1..] else runs[1..]
    ensures MaximalRuns(r, missing - {runs[0].first})
  {
    var rest := set v | v in missing && v > runs[0].last;
    TailRuns(runs, missing, rest);
    FirstIsSmallest(runs, missing);
    if runs[0].first < runs[0].last {
      FirstRunShrinks(runs, r, missing);
    } else {
      assert rest == missing - {runs[0].first};
    }
  }

  lemma FirstRunShrinks(runs: seq<Interval>, r: seq<Interval>, missing: set<int>)
    requires MaximalRuns(runs, missing) && runs != [] && runs[0].first < runs[0].last
    requires r == [Interval(runs[0].first + 1, runs[0].last)] + runs[1..]
    ensures MaximalRuns(r, missing - {runs[0].first})
  {
    forall v ensures Covers(r, v) <==> Covers(runs, v) && v != runs[0].first {
      if Covers(runs, v) && v != runs[0].first {
        var i :| 0 <= i < |runs| && runs[i].first <= v <= runs[i].last;
        assert r[i].first <= v <= r[i].last;
      }
      if Covers(r, v) {
        var i :| 0 <= i < |r| && r[i].first <= v <= r[i].last;
        assert runs[i].first <= v <= runs[i].last;
      }
    }
  }

  lemma {:induction false} AccountSplits(missing: set<int>, a: seq<int>, b: seq<int>)
    ensures Account(missing, a + b) == Account(Account(missing, a), b)
    decreases |a|
  {
    if a == [] {
      assert a + b == b;
    } else {
      assert (a + b)[0] == a[0] && (a + b)[1..] == a[1..] + b;
      if Below(missing, a[0]) == {} {
        AccountSplits(missing, a[1..], b);
      } else {
        AccountSplits(missing - {Min(Below(missing, a[0]))}, a[1..], b);
      }
    }
  }

  /** The runs left when every refusal has taken its value. */
  method AccountRuns(runs: seq<Interval>, ghost missing: set<int>, refusals: seq<int>) returns (r: seq<Interval>)
    requires MaximalRuns(runs, missing)
    ensures MaximalRuns(r, Account(missing, refusals))
  {
    r := runs;
    var i := 0;
    while i < |refusals|
      invariant 0 <= i <= |refusals|
      invariant MaximalRuns(r, Account(missing, refusals[..i]))
    {
      r := TakeFirst(r, Account(missing, refusals[..i]), refusals[i]);
      assert refusals[..i + 1] == refusals[..i] + [refusals[i]];
      AccountSplits(missing, refusals[..i], [refusals[i]]);
      i := i + 1;
    }
    assert refusals[..|refusals|] == refusals;
  }

  // ----- no assignment does better -----

  /**
   * An assignment of refusals to missing values: `to[v]` is the index of the refusal that accounts for
   * `v`. Each refusal accounts for at most one value, and for one below its own.
   */
  ghost predicate Assignment(to: map<int, int>, missing: set<int>, refusals: seq<int>) {
    && to.Keys <= missing
    && (forall v :: v in to ==> 0 <= to[v] < |refusals| && v < refusals[to[v]])
    && (forall v, w :: v in to && w in to && to[v] == to[w] ==> v == w)
  }

  /** The same assignment once the first refusal is gone. */
  function Shifted(to: map<int, int>): map<int, int> {
    map v | v in to :: to[v] - 1
  }

  lemma ShiftedAssigns(to: map<int, int>, missing: set<int>, refusals: seq<int>, rest: set<int>)
    requires Assignment(to, missing, refusals) && refusals != []
    requires to.Keys <= rest && forall v :: v in to ==> to[v] != 0
    ensures Assignment(Shifted(to), rest, refusals[1..])
    ensures |Shifted(to)| == |to|
  {
    assert Shifted(to).Keys == to.Keys;
  }

  lemma FewerAssigned(to: map<int, int>, missing: set<int>, refusals: seq<int>, v: int)
    requires Assignment(to, missing, refusals)
    ensures Assignment(to - {v}, missing, refusals)
    ensures |to - {v}| + 1 >= |to|
  {
    assert (to - {v}).Keys == to.Keys - {v};
  }

  lemma Reassigned(to: map<int, int>, missing: set<int>, refusals: seq<int>, u: int, m: int)
    requires Assignment(to, missing, refusals) && NonDecreasing(refusals)
    requires u in to && m in to && u != m && to[u] == 0
    ensures Assignment((to - {m})[u := to[m]], missing, refusals)
    ensures |(to - {m})[u := to[m]]| + 1 == |to|
  {
    var ex := (to - {m})[u := to[m]];
    assert ex.Keys == to.Keys - {m};
    assert to[m] != 0 && refusals[0] <= refusals[to[m]];
  }

  /** Free `m` for the first refusal and give up what that accounted for, at the price of one value. */
  lemma Exchange(to: map<int, int>, missing: set<int>, refusals: seq<int>, m: int) returns (ex: map<int, int>)
    requires Assignment(to, missing, refusals) && refusals != [] && NonDecreasing(refusals)
    ensures Assignment(ex, missing, refusals)
    ensures m !in ex
    ensures forall v :: v in ex ==> ex[v] != 0
    ensures |ex| + 1 >= |to|
  {
    if u :| u in to && to[u] == 0 && u != m {
      if m in to {
        Reassigned(to, missing, refusals, u, m);
        ex := (to - {m})[u := to[m]];
      } else {
        FewerAssigned(to, missing, refusals, u);
        ex := to - {u};
      }
    } else {
      FewerAssigned(to, missing, refusals, m);
      ex := to - {m};
    }
  }

  lemma NothingBelow(missing: set<int>, refusals: seq<int>, to: map<int, int>)
    requires refusals != [] && Assignment(to, missing, refusals) && Below(missing, refusals[0]) == {}
    ensures forall v :: v in to ==> to[v] != 0
  {
    forall v | v in to ensures to[v] != 0 {
      assert v in missing && v !in Below(missing, refusals[0]);
    }
  }

  /** No assignment of refusals to smaller missing values leaves fewer values unaccounted. */
  lemma {:induction false} AccountIsOptimal(missing: set<int>, refusals: seq<int>, to: map<int, int>)
    requires NonDecreasing(refusals) && Assignment(to, missing, refusals)
    ensures |Account(missing, refusals)| <= |missing| - |to|
    decreases |refusals|
  {
    hide Assignment, Below, Shifted;
    if refusals == [] {
      NoRefusals(missing, to);
    } else {
      assert NonDecreasing(refusals[1..]);
      if Below(missing, refusals[0]) == {} {
        NothingBelow(missing, refusals, to);
        InMissing(missing, refusals, to);
        ShiftedAssigns(to, missing, refusals, missing);
        AccountIsOptimal(missing, refusals[1..], Shifted(to));
      } else {
        var m := Min(Below(missing, refusals[0]));
        var ex := Exchange(to, missing, refusals, m);
        InMissing(missing, refusals, ex);
        ShiftedAssigns(ex, missing, refusals, missing - {m});
        BelowIsMissing(missing, refusals[0]);
        AccountIsOptimal(missing - {m}, refusals[1..], Shifted(ex));
      }
    }
  }

  lemma NoRefusals(missing: set<int>, to: map<int, int>)
    requires Assignment(to, missing, [])
    ensures |to| == 0
  {
    if to.Keys != {} {
      SomeMember(to.Keys);
    }
  }

  lemma InMissing(missing: set<int>, refusals: seq<int>, to: map<int, int>)
    requires Assignment(to, missing, refusals)
    ensures to.Keys <= missing
  {
  }

  lemma BelowIsMissing(missing: set<int>, r: int)
    ensures forall v :: v in Below(missing, r) ==> v in missing
  {
  }

  /** The values accounted for are those of one assignment: the procedure attains the bound. */
  lemma {:induction false} AccountIsAttained(missing: set<int>, refusals: seq<int>) returns (to: map<int, int>)
    ensures Assignment(to, missing, refusals)
    ensures to.Keys == missing - Account(missing, refusals)
    ensures Account(missing, refusals) <= missing
    decreases |refusals|
  {
    if refusals == [] {
      to := map[];
    } else if Below(missing, refusals[0]) == {} {
      var rest := AccountIsAttained(missing, refusals[1..]);
      to := map v | v in rest :: rest[v] + 1;
    } else {
      var m := Min(Below(missing, refusals[0]));
      var rest := AccountIsAttained(missing - {m}, refusals[1..]);
      to := (map v | v in rest :: rest[v] + 1)[m := 0];
    }
  }

  // ----- one ledger -----

  /** The maximal runs of a set. */
  ghost function RunsOf(m: set<int>): (r: seq<Interval>)
    ensures MaximalRuns(r, m)
  {
    if m == {} then
      []
    else
      var v := Min(m);
      var rest := RunsOf(m - {v});
      PutFirst(rest, v, m);
      Prepended(rest, v)
  }

  function Prepended(rest: seq<Interval>, v: int): seq<Interval> {
    if rest != [] && rest[0].first == v + 1 then
      [Interval(v, rest[0].last)] + rest[1..]
    else
      [Interval(v, v)] + rest
  }

  lemma PutFirst(rest: seq<Interval>, v: int, m: set<int>)
    requires v in m && (forall w :: w in m ==> v <= w) && MaximalRuns(rest, m - {v})
    ensures MaximalRuns(Prepended(rest, v), m)
  {
    hide Covers;
    FirstIsSmallest(rest, m - {v});
    if rest != [] && rest[0].first == v + 1 {
      FirstRunGrows(rest, [Interval(v, rest[0].last)] + rest[1..]);
    } else {
      RunPutBefore(rest, Interval(v, v));
    }
  }

  lemma FirstRunGrows(rest: seq<Interval>, r: seq<Interval>)
    requires rest != [] && rest[0].first <= rest[0].last
    requires r == [Interval(rest[0].first - 1, rest[0].last)] + rest[1..]
    ensures forall w :: Covers(r, w) <==> w == rest[0].first - 1 || Covers(rest, w)
  {
    forall w ensures Covers(r, w) <==> w == rest[0].first - 1 || Covers(rest, w) {
      if Covers(rest, w) {
        var i :| 0 <= i < |rest| && rest[i].first <= w <= rest[i].last;
        assert r[i].first <= w <= r[i].last;
      }
      if w == rest[0].first - 1 {
        assert r[0].first <= w <= r[0].last;
      }
      if Covers(r, w) {
        var i :| 0 <= i < |r| && r[i].first <= w <= r[i].last;
        assert i > 0 ==> rest[i].first <= w <= rest[i].last;
        assert i == 0 ==> w == rest[0].first - 1 || rest[0].first <= w <= rest[0].last;
      }
    }
  }

  lemma RunPutBefore(rest: seq<Interval>, run: Interval)
    ensures forall w :: Covers([run] + rest, w) <==> run.first <= w <= run.last || Covers(rest, w)
  {
    var r := [run] + rest;
    forall w ensures Covers(r, w) <==> run.first <= w <= run.last || Covers(rest, w) {
      if Covers(rest, w) {
        var i :| 0 <= i < |rest| && rest[i].first <= w <= rest[i].last;
        assert r[i + 1].first <= w <= r[i + 1].last;
      }
      if run.first <= w <= run.last {
        assert r[0].first <= w <= r[0].last;
      }
      if Covers(r, w) {
        var i :| 0 <= i < |r| && r[i].first <= w <= r[i].last;
        assert i > 0 ==> rest[i - 1].first <= w <= rest[i - 1].last;
      }
    }
  }

  /** One numbered event, and whether an attempt sealed before it correlates with it. */
  datatype Entry = Entry(signerSeq: int, event: Event, correlated: bool)

  type Group = (string, string)

  function GroupOf(e: Event): Option<Group> {
    match NumberOf(e)
    case None => None
    case Some(n) => Some((n.keyId, n.session))
  }

  /** The events numbered under one key and session, in chain order. */
  ghost function Entries(es: seq<Event>, g: Group): seq<Entry> {
    if es == [] then
      []
    else
      var before, e := es[..|es| - 1], es[|es| - 1];
      if GroupOf(e) == Some(g) then
        Entries(before, g) + [Entry(NumberOf(e).value.signerSeq, e, KeyOf(e) in Attempts(before))]
      else
        Entries(before, g)
  }

  function Values(entries: seq<Entry>): set<int> {
    set x | x in entries :: x.signerSeq
  }

  /** The values of the refusals to which no sealed attempt correlates. */
  function Refusals(entries: seq<Entry>): seq<int> {
    if entries == [] then
      []
    else
      var x := entries[|entries| - 1];
      Refusals(entries[..|entries| - 1]) + if IsRefusal(x.event) && !x.correlated then [x.signerSeq] else []
  }

  /** The values of one key and session that nothing sealed accounts for. */
  ghost function Unaccounted(es: seq<Event>, g: Group): set<int> {
    var entries := Entries(es, g);
    Account(Missing(Values(entries)), Sort(Refusals(entries)))
  }

  /** The keys and sessions of a ledger, in order of first appearance. */
  function Groups(es: seq<Event>): seq<Group> {
    if es == [] then
      []
    else
      var gs := Groups(es[..|es| - 1]);
      var g := GroupOf(es[|es| - 1]);
      if g.Some? && g.value !in gs then gs + [g.value] else gs
  }

  function GapsIn(g: Group, runs: seq<Interval>): seq<Gap> {
    seq(|runs|, i requires 0 <= i < |runs| => Gap(g.0, g.1, runs[i].first, runs[i].last))
  }

  ghost function AllGaps(es: seq<Event>, gs: seq<Group>): seq<Gap> {
    if gs == [] then
      []
    else
      AllGaps(es, gs[..|gs| - 1]) + GapsIn(gs[|gs| - 1], RunsOf(Unaccounted(es, gs[|gs| - 1])))
  }

  lemma {:induction false} EntriesElsewhere(es: seq<Event>, g: Group)
    ensures g in Groups(es) <==> Entries(es, g) != []
    ensures forall v :: v in Values(Entries(es, g)) ==> 0 <= v
  {
    if es != [] {
      EntriesElsewhere(es[..|es| - 1], g);
      var before, e := es[..|es| - 1], es[|es| - 1];
      forall x | x in Entries(es, g) ensures 0 <= x.signerSeq {
        assert x in Entries(before, g) ==> x.signerSeq in Values(Entries(before, g));
      }
    }
  }

  /** The whole accounting: per key and session in order of first appearance, one entry per maximal run. */
  method UnaccountedSignerSeq(es: seq<Event>) returns (gaps: seq<Gap>)
    ensures gaps == AllGaps(es, Groups(es))
  {
    var order, groups := CollectGroups(es);
    gaps := [];
    var i := 0;
    while i < |order|
      invariant 0 <= i <= |order|
      invariant gaps == AllGaps(es, order[..i])
    {
      var g := order[i];
      var entries := groups[g];
      EntriesElsewhere(es, g);
      var missing := MissingRuns(Values(entries));
      var left := AccountRuns(missing, Missing(Values(entries)), Sort(Refusals(entries)));
      MaximalRunsUnique(left, RunsOf(Unaccounted(es, g)), Unaccounted(es, g));
      gaps := gaps + GapsIn(g, left);
      assert order[..i + 1][..i] == order[..i];
      i := i + 1;
    }
    assert order[..|order|] == order;
  }

  method CollectGroups(es: seq<Event>) returns (order: seq<Group>, groups: map<Group, seq<Entry>>)
    ensures order == Groups(es)
    ensures forall g :: g in order ==> g in groups && groups[g] == Entries(es, g)
  {
    order, groups := [], map[];
    var sealedAttempts: set<OpKey> := {};
    var i := 0;
    while i < |es|
      invariant 0 <= i <= |es|
      invariant order == Groups(es[..i])
      invariant sealedAttempts == Attempts(es[..i])
      invariant forall g :: g in groups <==> g in order
      invariant forall g :: g in groups ==> groups[g] == Entries(es[..i], g)
    {
      var e := es[i];
      assert es[..i + 1] == es[..i] + [e];
      SetsAfter(es[..i], e);
      var correlated := KeyOf(e) in sealedAttempts;
      if IsAttempt(e) {
        sealedAttempts := sealedAttempts + {KeyOf(e)};
      }
      var numbered := NumberOf(e);
      if numbered.Some? {
        var g := (numbered.value.keyId, numbered.value.session);
        EntriesElsewhere(es[..i], g);
        var entry := Entry(numbered.value.signerSeq, e, correlated);
        if g !in groups {
          order := order + [g];
          groups := groups[g := [entry]];
        } else {
          groups := groups[g := groups[g] + [entry]];
        }
      }
      i := i + 1;
    }
    assert es[..|es|] == es;
  }

  lemma {:induction false} NoGaps(es: seq<Event>, gs: seq<Group>)
    ensures AllGaps(es, gs) == [] <==> forall g :: g in gs ==> Unaccounted(es, g) == {}
  {
    hide Unaccounted, MaximalRuns, RunsOf;
    if gs != [] {
      var rest, g := gs[..|gs| - 1], gs[|gs| - 1];
      assert gs == rest + [g];
      NoGaps(es, rest);
      FirstIsSmallest(RunsOf(Unaccounted(es, g)), Unaccounted(es, g));
    }
  }

  /** Every gap listed is of a key and session with a value left unaccounted. */
  lemma {:induction false} GapsAreUnaccounted(es: seq<Event>, gs: seq<Group>, gap: Gap)
    requires gap in AllGaps(es, gs)
    ensures Unaccounted(es, (gap.keyId, gap.session)) != {}
  {
    hide Unaccounted, MaximalRuns, RunsOf;
    var rest, g := gs[..|gs| - 1], gs[|gs| - 1];
    if gap in AllGaps(es, rest) {
      GapsAreUnaccounted(es, rest, gap);
    } else {
      FirstIsSmallest(RunsOf(Unaccounted(es, g)), Unaccounted(es, g));
    }
  }
}
