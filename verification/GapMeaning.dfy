/** What the accounting of missing numbers says of a ledger, position by position. */
module GapMeaning {
  import opened Events
  import opened Chain
  import opened Sorting
  import opened GapAccounting

  /** A value is missing where a larger one is present and it is not. */
  lemma MissingIff(present: set<int>, v: int)
    ensures v in Missing(present) <==> 0 <= v && v !in present && exists p :: p in present && v < p
  {
    var q := Ascending(present);
    if p :| p in present && v < p {
      assert p in q;
    }
    if q != [] {
      assert q[|q| - 1] in present;
    }
  }

  /** The event at `k` is numbered `v` under this key and session. */
  predicate NumberedAt(es: seq<Event>, g: Group, v: int, k: nat) {
    k < |es| && NumberOf(es[k]) == Some(Number(g.0, g.1, v))
  }

  /** A refusal stands at `k` to which no attempt before it correlates. */
  ghost predicate RefusedAt(es: seq<Event>, g: Group, v: int, k: nat) {
    && NumberedAt(es, g, v, k) && IsRefusal(es[k])
    && forall i :: 0 <= i < k && IsAttempt(es[i]) ==> KeyOf(es[i]) != KeyOf(es[k])
  }

  lemma {:induction false} ValuesIff(es: seq<Event>, g: Group, v: int)
    ensures v in Values(Entries(es, g)) <==> exists k :: NumberedAt(es, g, v, k)
  {
    if es != [] {
      var n := |es| - 1;
      var before := es[..n];
      ValuesIff(before, g, v);
      assert es == before + [es[n]];
      forall k: nat | k < n ensures NumberedAt(es, g, v, k) <==> NumberedAt(before, g, v, k) {
      }
      LastValue(es, g, v);
    }
  }

  lemma LastValue(es: seq<Event>, g: Group, v: int)
    requires es != []
    ensures v in Values(Entries(es, g)) <==>
              v in Values(Entries(es[..|es| - 1], g)) || NumberedAt(es, g, v, |es| - 1)
  {
  }

  // ----- the refusals that count -----

  ghost function RefusedPlaces(es: seq<Event>, g: Group, v: int): set<nat> {
    set k: nat | k < |es| && RefusedAt(es, g, v, k)
  }

  /** How often each value is refused, counted position by position. */
  lemma {:induction false} RefusalsCount(es: seq<Event>, g: Group, v: int)
    ensures multiset(Refusals(Entries(es, g)))[v] == |RefusedPlaces(es, g, v)|
  {
    if es != [] {
      RefusalsCount(es[..|es| - 1], g, v);
      LastRefusal(es, g, v);
      LastPlace(es, g, v);
      hide Refusals, Entries, RefusedAt, RefusedPlaces;
    }
  }

  lemma LastPlace(es: seq<Event>, g: Group, v: int)
    requires es != []
    ensures var n, before := |es| - 1, es[..|es| - 1];
            && n !in RefusedPlaces(before, g, v)
            && RefusedPlaces(es, g, v) ==
                 RefusedPlaces(before, g, v) + if RefusedAt(es, g, v, n) then {n} else {}
  {
    forall k: nat | k + 1 < |es| ensures RefusedAt(es, g, v, k) <==> RefusedAt(es[..|es| - 1], g, v, k) {
      EarlierRefusal(es, g, v, k);
    }
    hide RefusedAt;
  }

  lemma EarlierRefusal(es: seq<Event>, g: Group, v: int, k: nat)
    requires k + 1 < |es|
    ensures RefusedAt(es, g, v, k) <==> RefusedAt(es[..|es| - 1], g, v, k)
  {
    var before := es[..|es| - 1];
    assert forall i :: 0 <= i <= k ==> es[i] == before[i];
  }

  lemma LastRefusal(es: seq<Event>, g: Group, v: int)
    requires es != []
    ensures multiset(Refusals(Entries(es, g)))[v] ==
              multiset(Refusals(Entries(es[..|es| - 1], g)))[v] + if RefusedAt(es, g, v, |es| - 1) then 1 else 0
  {
    var n := |es| - 1;
    var before, e := es[..n], es[n];
    CorrelatedIff(es, n);
    if GroupOf(e) == Some(g) {
      var x := Entry(NumberOf(e).value.signerSeq, e, KeyOf(e) in Attempts(before));
      var entries := Entries(before, g);
      assert Entries(es, g) == entries + [x];
      assert (entries + [x])[..|entries|] == entries;
      hide Entries, Attempts;
    }
  }

  lemma CorrelatedIff(es: seq<Event>, n: nat)
    requires n < |es|
    ensures KeyOf(es[n]) in Attempts(es[..n]) <==>
              exists i :: 0 <= i < n && IsAttempt(es[i]) && KeyOf(es[i]) == KeyOf(es[n])
  {
    if KeyOf(es[n]) in Attempts(es[..n]) {
      var e :| e in es[..n] && IsAttempt(e) && KeyOf(e) == KeyOf(es[n]);
      var i :| 0 <= i < n && es[..n][i] == e;
      assert es[i] == e;
    }
    if i :| 0 <= i < n && IsAttempt(es[i]) && KeyOf(es[i]) == KeyOf(es[n]) {
      assert es[i] in es[..n];
    }
  }

  // ----- the keys and sessions -----

  /** An event of the group stands at `k`, and none of the other before it or there. */
  ghost predicate FirstBefore(es: seq<Event>, a: Group, b: Group) {
    exists k :: 0 <= k < |es| && GroupOf(es[k]) == Some(a) && forall m :: 0 <= m <= k ==> GroupOf(es[m]) != Some(b)
  }

  /** Each key and session is listed once, in order of first appearance. */
  lemma {:induction false} GroupsAre(es: seq<Event>)
    ensures forall g :: g in Groups(es) <==> exists k :: 0 <= k < |es| && GroupOf(es[k]) == Some(g)
    ensures forall i, j :: 0 <= i < j < |Groups(es)| ==> FirstBefore(es, Groups(es)[i], Groups(es)[j])
  {
    if es != [] {
      var n := |es| - 1;
      var before := es[..n];
      GroupsAre(before);
      var gs := Groups(es);
      forall g ensures g in gs <==> exists k :: 0 <= k < |es| && GroupOf(es[k]) == Some(g) {
        if g in Groups(before) {
          var k :| 0 <= k < |before| && GroupOf(before[k]) == Some(g);
          assert GroupOf(es[k]) == Some(g);
        }
        if k :| 0 <= k < |es| && GroupOf(es[k]) == Some(g) {
          assert k < n ==> GroupOf(before[k]) == Some(g);
        }
      }
      forall i, j | 0 <= i < j < |gs| ensures FirstBefore(es, gs[i], gs[j]) {
        ListedFirst(es, i, j);
      }
    }
  }

  lemma ListedFirst(es: seq<Event>, i: nat, j: nat)
    requires es != [] && i < j < |Groups(es)|
    requires var before := es[..|es| - 1];
             && (forall g :: g in Groups(before) <==> exists k :: 0 <= k < |before| && GroupOf(before[k]) == Some(g))
             && forall a, b :: 0 <= a < b < |Groups(before)| ==>
                  FirstBefore(before, Groups(before)[a], Groups(before)[b])
    ensures FirstBefore(es, Groups(es)[i], Groups(es)[j])
  {
    var before := es[..|es| - 1];
    var a, b := Groups(es)[i], Groups(es)[j];
    if j < |Groups(before)| {
      assert FirstBefore(before, a, b);
      var k :| 0 <= k < |before| && GroupOf(before[k]) == Some(a)
               && forall m :: 0 <= m <= k ==> GroupOf(before[m]) != Some(b);
      assert GroupOf(es[k]) == Some(a) && forall m :: 0 <= m <= k ==> es[m] == before[m];
    } else {
      assert a in Groups(before) && b !in Groups(before);
      var k :| 0 <= k < |before| && GroupOf(before[k]) == Some(a);
      assert GroupOf(es[k]) == Some(a);
      forall m | 0 <= m <= k ensures GroupOf(es[m]) != Some(b) {
        assert es[m] == before[m];
      }
    }
  }

  // ----- the gaps listed -----

  /** The gap is a run of values left unaccounted, with neither neighbour among them. */
  ghost predicate IsGap(es: seq<Event>, gap: Gap) {
    var left := Unaccounted(es, (gap.keyId, gap.session));
    && gap.first <= gap.last && (forall v :: gap.first <= v <= gap.last ==> v in left)
    && gap.first - 1 !in left && gap.last + 1 !in left
  }

  lemma RunIff(runs: seq<Interval>, m: set<int>, x: Interval)
    requires MaximalRuns(runs, m)
    ensures x in runs <==>
              && x.first <= x.last && (forall v :: x.first <= v <= x.last ==> v in m)
              && x.first - 1 !in m && x.last + 1 !in m
  {
    if x in runs {
      var i :| 0 <= i < |runs| && runs[i] == x;
      forall v | x.first <= v <= x.last ensures v in m {
        assert Covers(runs, v);
      }
      NotCovered(runs, i, x.first - 1);
      NotCovered(runs, i, x.last + 1);
    } else if x.first <= x.last && (forall v :: x.first <= v <= x.last ==> v in m)
              && x.first - 1 !in m && x.last + 1 !in m {
      assert Covers(runs, x.first);
      var i :| 0 <= i < |runs| && runs[i].first <= x.first <= runs[i].last;
      RunEnds(runs, m, x, i);
    }
  }

  lemma NotCovered(runs: seq<Interval>, i: nat, v: int)
    requires forall j :: 0 <= j < |runs| ==> runs[j].first <= runs[j].last
    requires forall j, k :: 0 <= j < k < |runs| ==> runs[j].last + 1 < runs[k].first
    requires i < |runs| && (v == runs[i].first - 1 || v == runs[i].last + 1)
    ensures !Covers(runs, v)
  {
  }

  lemma RunEnds(runs: seq<Interval>, m: set<int>, x: Interval, i: nat)
    requires MaximalRuns(runs, m) && i < |runs| && runs[i].first <= x.first <= runs[i].last && x.first <= x.last
    requires forall v :: x.first <= v <= x.last ==> v in m
    requires x.first - 1 !in m && x.last + 1 !in m
    ensures runs[i] == x
  {
    var r := runs[i];
    if r.first < x.first {
      assert Covers(runs, x.first - 1);
    }
    if x.last < r.last {
      assert Covers(runs, x.last + 1);
    }
    if r.last < x.last {
      NotCovered(runs, i, r.last + 1);
    }
  }

  lemma {:induction false} GapsOver(es: seq<Event>, gs: seq<Group>, gap: Gap)
    ensures gap in AllGaps(es, gs) <==> (gap.keyId, gap.session) in gs && IsGap(es, gap)
  {
    hide Unaccounted, MaximalRuns, RunsOf;
    if gs != [] {
      var rest, g := gs[..|gs| - 1], gs[|gs| - 1];
      assert gs == rest + [g];
      GapsOver(es, rest, gap);
      var runs := RunsOf(Unaccounted(es, g));
      var x := Interval(gap.first, gap.last);
      RunIff(runs, Unaccounted(es, g), x);
      if gap in GapsIn(g, runs) {
        var i :| 0 <= i < |runs| && GapsIn(g, runs)[i] == gap;
        assert runs[i] == x;
      }
      if g == (gap.keyId, gap.session) && x in runs {
        var i :| 0 <= i < |runs| && runs[i] == x;
        assert GapsIn(g, runs)[i] == gap;
      }
    }
  }

  /** One of two gaps comes first: that of the group that appeared first, or the lower of one group. */
  ghost predicate Before(es: seq<Event>, a: Gap, b: Gap) {
    if (a.keyId, a.session) == (b.keyId, b.session) then
      a.last + 1 < b.first
    else
      FirstBefore(es, (a.keyId, a.session), (b.keyId, b.session))
  }

  lemma {:induction false} GapsInOrder(es: seq<Event>, gs: seq<Group>)
    requires forall i, j :: 0 <= i < j < |gs| ==> FirstBefore(es, gs[i], gs[j])
    ensures forall i, j :: 0 <= i < j < |AllGaps(es, gs)| ==> Before(es, AllGaps(es, gs)[i], AllGaps(es, gs)[j])
  {
    hide Unaccounted, RunsOf, FirstBefore;
    if gs != [] {
      var n := |gs| - 1;
      var rest, g := gs[..n], gs[n];
      GapsInOrder(es, rest);
      var a, b := AllGaps(es, rest), GapsIn(g, RunsOf(Unaccounted(es, g)));
      forall i, j | 0 <= i < j < |a + b| ensures Before(es, (a + b)[i], (a + b)[j]) {
        if i < |a| <= j {
          GapsOver(es, rest, a[i]);
          var k :| 0 <= k < n && gs[k] == (a[i].keyId, a[i].session);
          assert FirstBefore(es, gs[k], gs[n]);
          NotFirst(es, gs[k]);
        }
      }
    }
  }

  lemma NotFirst(es: seq<Event>, g: Group)
    ensures !FirstBefore(es, g, g)
  {
  }

  /**
   * The gaps listed for a ledger are, for each key and session numbered in it, the maximal runs of the values left
   * unaccounted; by order of first appearance, and within one by value.
   */
  lemma GapsListed(es: seq<Event>)
    ensures var gaps := AllGaps(es, Groups(es));
            && (forall gap :: gap in gaps <==>
                  && (exists k :: 0 <= k < |es| && GroupOf(es[k]) == Some((gap.keyId, gap.session)))
                  && IsGap(es, gap))
            && (forall i, j :: 0 <= i < j < |gaps| ==> Before(es, gaps[i], gaps[j]))
  {
    hide IsGap, Before, FirstBefore, AllGaps, Groups;
    GroupsAre(es);
    GapsInOrder(es, Groups(es));
    forall gap
      ensures gap in AllGaps(es, Groups(es)) <==> (gap.keyId, gap.session) in Groups(es) && IsGap(es, gap)
    {
      GapsOver(es, Groups(es), gap);
    }
  }
}
