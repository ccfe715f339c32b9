/**
 * The event-ordering family: a route is traversed out and back, and a satisfying valuation visits
 * the events of that traversal in order, with the dwell between edges and the running time on them.
 */
module Traversal {
  import opened Seqs
  import opened Network
  import opened Symbolic
  import opened Families
  import opened FamilyShape

  /** The inequalities the ordering loops state for route `rid` with edges `es`. */
  ghost predicate OrderedTraversal(a: Valuation, rid: string, es: seq<Edge>, dwell: real)
    requires |es| > 0
  {
    var n := |es|;
    && (forall i :: 0 <= i < n ==> a(Arr(rid, Forward, es[i])) >= a(Dep(rid, Forward, es[i])))
    && (forall i :: 0 < i < n ==> a(Dep(rid, Forward, es[i])) >= a(Arr(rid, Forward, es[i - 1])) + dwell)
    && a(Dep(rid, Reverse, es[n - 1])) >= a(Arr(rid, Forward, es[n - 1])) + dwell
    && (forall i :: 0 <= i < n - 1 ==> a(Dep(rid, Reverse, es[i])) >= a(Arr(rid, Reverse, es[i + 1])) + dwell)
    && (forall i :: 0 <= i < n ==> a(Arr(rid, Reverse, es[i])) >= a(Dep(rid, Reverse, es[i])))
  }

  lemma AfterMeaning(a: Valuation, dep: Var, arr: Var, dwell: real)
    ensures Holds(a, After(dep, arr, dwell)) <==> a(dep) >= a(arr) + dwell
  {
    assert Eval(a, Add(V(arr), Const(dwell))) == a(arr) + dwell;
  }

  lemma ForwardHolds(a: Valuation, r: Route, dwell: real)
    requires |r.edges| > 0 && SatisfiesAll(a, RouteOrdering(r, dwell))
    ensures forall i :: 0 <= i < |r.edges| ==>
      a(Arr(r.id, Forward, r.edges[i])) >= a(Dep(r.id, Forward, r.edges[i]))
    ensures forall i :: 0 < i < |r.edges| ==>
      a(Dep(r.id, Forward, r.edges[i])) >= a(Arr(r.id, Forward, r.edges[i - 1])) + dwell
  {
    var rid, es, n := r.id, r.edges, |r.edges|;
    forall i | 0 <= i < n ensures a(Arr(rid, Forward, es[i])) >= a(Dep(rid, Forward, es[i])) {
      var c := ArriveAfter(rid, Forward, es[i]);
      assert c in FwdStep(rid, es, dwell, i);
      FwdMember(rid, es, dwell, c);
      assert Holds(a, c);
    }
    forall i | 0 < i < n
      ensures a(Dep(rid, Forward, es[i])) >= a(Arr(rid, Forward, es[i - 1])) + dwell
    {
      var c := After(Dep(rid, Forward, es[i]), Arr(rid, Forward, es[i - 1]), dwell);
      assert c in FwdStep(rid, es, dwell, i);
      FwdMember(rid, es, dwell, c);
      assert Holds(a, c);
      AfterMeaning(a, Dep(rid, Forward, es[i]), Arr(rid, Forward, es[i - 1]), dwell);
    }
  }

  lemma ReverseHolds(a: Valuation, r: Route, dwell: real)
    requires |r.edges| > 0 && SatisfiesAll(a, RouteOrdering(r, dwell))
    ensures a(Dep(r.id, Reverse, r.edges[|r.edges| - 1])) >= a(Arr(r.id, Forward, r.edges[|r.edges| - 1])) + dwell
    ensures forall i :: 0 <= i < |r.edges| - 1 ==>
      a(Dep(r.id, Reverse, r.edges[i])) >= a(Arr(r.id, Reverse, r.edges[i + 1])) + dwell
    ensures forall i :: 0 <= i < |r.edges| ==>
      a(Arr(r.id, Reverse, r.edges[i])) >= a(Dep(r.id, Reverse, r.edges[i]))
  {
    var rid, es, n := r.id, r.edges, |r.edges|;
    assert Holds(a, Turnaround(rid, es, dwell));
    AfterMeaning(a, Dep(rid, Reverse, es[n - 1]), Arr(rid, Forward, es[n - 1]), dwell);
    forall i | 0 <= i < n - 1
      ensures a(Dep(rid, Reverse, es[i])) >= a(Arr(rid, Reverse, es[i + 1])) + dwell
    {
      var c := After(Dep(rid, Reverse, es[i]), Arr(rid, Reverse, es[i + 1]), dwell);
      assert c in RevStep(rid, es, dwell, i);
      RevMember(rid, es, dwell, c);
      assert Holds(a, c);
      AfterMeaning(a, Dep(rid, Reverse, es[i]), Arr(rid, Reverse, es[i + 1]), dwell);
    }
    forall i | 0 <= i < n ensures a(Arr(rid, Reverse, es[i])) >= a(Dep(rid, Reverse, es[i])) {
      var c := ArriveAfter(rid, Reverse, es[i]);
      assert c in RevStep(rid, es, dwell, i);
      RevMember(rid, es, dwell, c);
      assert Holds(a, c);
    }
  }

  lemma StepHolds(a: Valuation, rid: string, es: seq<Edge>, dwell: real, i: nat, c: Constraint)
    requires |es| > 0 && OrderedTraversal(a, rid, es, dwell) && i < |es|
    requires c in FwdStep(rid, es, dwell, i) || c in RevStep(rid, es, dwell, i)
    ensures Holds(a, c)
  {
    if i != 0 {
      AfterMeaning(a, Dep(rid, Forward, es[i]), Arr(rid, Forward, es[i - 1]), dwell);
    }
    if i != |es| - 1 {
      AfterMeaning(a, Dep(rid, Reverse, es[i]), Arr(rid, Reverse, es[i + 1]), dwell);
    }
  }

  lemma RouteOrderingMeaning(a: Valuation, r: Route, dwell: real)
    requires |r.edges| > 0
    ensures SatisfiesAll(a, RouteOrdering(r, dwell)) <==> OrderedTraversal(a, r.id, r.edges, dwell)
  {
    var rid, es, n := r.id, r.edges, |r.edges|;
    if SatisfiesAll(a, RouteOrdering(r, dwell)) {
      ForwardHolds(a, r, dwell);
      ReverseHolds(a, r, dwell);
    }
    if OrderedTraversal(a, rid, es, dwell) {
      forall c | c in RouteOrdering(r, dwell) ensures Holds(a, c) {
        if c in Concat(FwdBlocks(rid, es, dwell)) {
          FwdMember(rid, es, dwell, c);
          var i :| 0 <= i < n && c in FwdStep(rid, es, dwell, i);
          StepHolds(a, rid, es, dwell, i, c);
        } else if c in Concat(RevBlocks(rid, es, dwell)) {
          RevMember(rid, es, dwell, c);
          var i :| 0 <= i < n && c in RevStep(rid, es, dwell, i);
          StepHolds(a, rid, es, dwell, i, c);
        } else {
          assert c == Turnaround(rid, es, dwell);
          AfterMeaning(a, Dep(rid, Reverse, es[n - 1]), Arr(rid, Forward, es[n - 1]), dwell);
        }
      }
    }
  }

  lemma OrderingMeaning(a: Valuation, rs: seq<Route>, dwell: real)
    requires forall r :: r in rs ==> |r.edges| > 0
    ensures SatisfiesAll(a, Ordering(rs, dwell)) <==>
      forall r :: r in rs ==> OrderedTraversal(a, r.id, r.edges, dwell)
  {
    if SatisfiesAll(a, Ordering(rs, dwell)) {
      forall r | r in rs ensures OrderedTraversal(a, r.id, r.edges, dwell) {
        forall c | c in RouteOrdering(r, dwell) ensures Holds(a, c) {
          OrderingMember(rs, dwell, c);
        }
        RouteOrderingMeaning(a, r, dwell);
      }
    }
    if forall r :: r in rs ==> OrderedTraversal(a, r.id, r.edges, dwell) {
      forall c | c in Ordering(rs, dwell) ensures Holds(a, c) {
        OrderingMember(rs, dwell, c);
        var r :| r in rs && c in RouteOrdering(r, dwell);
        RouteOrderingMeaning(a, r, dwell);
      }
    }
  }

  // ---------------------------------------------------------------- the traversal as a timeline

  /**
   * Event `k` of the out-and-back traversal: dep_f[0], arr_f[0], ..., dep_f[n-1], arr_f[n-1], then
   * dep_r[n-1], arr_r[n-1], ..., dep_r[0], arr_r[0].
   */
  function EventVar(rid: string, es: seq<Edge>, k: nat): Var
    requires k < 4 * |es|
  {
    var n := |es|;
    if k < 2 * n then
      var e := es[k / 2];
      if k % 2 == 0 then Dep(rid, Forward, e) else Arr(rid, Forward, e)
    else
      var e := es[n - 1 - (k - 2 * n) / 2];
      if k % 2 == 0 then Dep(rid, Reverse, e) else Arr(rid, Reverse, e)
  }

  function Timeline(a: Valuation, rid: string, es: seq<Edge>): seq<real>
  {
    seq(4 * |es|, k requires 0 <= k < 4 * |es| => a(EventVar(rid, es, k)))
  }

  /** Consecutive events on the forward half: a run on edge `k/2`, or the dwell before the next edge. */
  lemma ForwardPair(rid: string, es: seq<Edge>, k: nat)
    requires k < 2 * |es| - 1
    ensures k % 2 == 0 ==>
      EventVar(rid, es, k) == Dep(rid, Forward, es[k / 2]) && EventVar(rid, es, k + 1) == Arr(rid, Forward, es[k / 2])
    ensures k % 2 == 1 ==> (k / 2 + 1 < |es| &&
      EventVar(rid, es, k) == Arr(rid, Forward, es[k / 2]) && EventVar(rid, es, k + 1) == Dep(rid, Forward, es[k / 2 + 1]))
  {
    if k % 2 == 0 {
      assert (k + 1) / 2 == k / 2 && (k + 1) % 2 == 1;
    } else {
      assert (k + 1) / 2 == k / 2 + 1 && (k + 1) % 2 == 0;
    }
  }

  /** Consecutive events on the reverse half, `j = (k - 2n) / 2` edges back from the last. */
  lemma ReversePair(rid: string, es: seq<Edge>, k: nat)
    requires 2 * |es| <= k < 4 * |es| - 1
    ensures var n, j := |es|, (k - 2 * |es|) / 2;
      && j < n
      && (k % 2 == 0 ==>
        EventVar(rid, es, k) == Dep(rid, Reverse, es[n - 1 - j]) && EventVar(rid, es, k + 1) == Arr(rid, Reverse, es[n - 1 - j]))
      && (k % 2 == 1 ==> (n - 2 - j >= 0 &&
        EventVar(rid, es, k) == Arr(rid, Reverse, es[n - 1 - j]) && EventVar(rid, es, k + 1) == Dep(rid, Reverse, es[n - 2 - j])))
  {
    var n := |es|;
    var m := k - 2 * n;
    assert (k + 1) - 2 * n == m + 1;
    if k % 2 == 0 {
      assert m % 2 == 0 && (m + 1) / 2 == m / 2 && (k + 1) % 2 == 1;
    } else {
      assert m % 2 == 1 && (m + 1) / 2 == m / 2 + 1 && (k + 1) % 2 == 0;
    }
  }

  /** One step of the timeline does not go back in time. */
  lemma TimelineStep(a: Valuation, rid: string, es: seq<Edge>, dwell: real, k: nat)
    requires |es| > 0 && dwell >= 0.0 && k < 4 * |es| - 1
    requires OrderedTraversal(a, rid, es, dwell)
    ensures a(EventVar(rid, es, k)) <= a(EventVar(rid, es, k + 1))
  {
    var n := |es|;
    if k < 2 * n - 1 {
      ForwardPair(rid, es, k);
      var i := k / 2;
      if k % 2 == 1 {
        assert 0 < i + 1 < n;
        assert a(Dep(rid, Forward, es[i + 1])) >= a(Arr(rid, Forward, es[i + 1 - 1])) + dwell;
      }
    } else if k == 2 * n - 1 {
      assert k / 2 == n - 1 && k % 2 == 1;
      assert (k + 1) % 2 == 0 && k + 1 - 2 * n == 0;
      assert EventVar(rid, es, k) == Arr(rid, Forward, es[n - 1]);
      assert EventVar(rid, es, k + 1) == Dep(rid, Reverse, es[n - 1]);
    } else {
      ReversePair(rid, es, k);
      var j := (k - 2 * n) / 2;
      if k % 2 == 1 {
        var i := n - 2 - j;
        assert 0 <= i < n - 1 && i + 1 == n - 1 - j;
        assert a(Dep(rid, Reverse, es[i])) >= a(Arr(rid, Reverse, es[i + 1])) + dwell;
      }
    }
  }

  lemma TimelineSteps(a: Valuation, rid: string, es: seq<Edge>, dwell: real)
    requires |es| > 0 && dwell >= 0.0
    requires OrderedTraversal(a, rid, es, dwell)
    ensures forall k :: 0 <= k < 4 * |es| - 1 ==> Timeline(a, rid, es)[k] <= Timeline(a, rid, es)[k + 1]
  {
    var tl := Timeline(a, rid, es);
    forall k | 0 <= k < 4 * |es| - 1 ensures tl[k] <= tl[k + 1] {
      TimelineStep(a, rid, es, dwell, k);
    }
  }

  lemma {:induction false} ChainUp(s: seq<real>, i: nat, j: nat)
    requires forall k :: 0 <= k < |s| - 1 ==> s[k] <= s[k + 1]
    requires i <= j < |s|
    ensures s[i] <= s[j]
    decreases j - i
  {
    if i < j {
      ChainUp(s, i, j - 1);
    }
  }

  /**
   * With a non-negative dwell, a valuation satisfying the ordering family is non-decreasing along the
   * whole out-and-back traversal, turnaround included.
   */
  lemma TimelineNonDecreasing(a: Valuation, r: Route, dwell: real)
    requires |r.edges| > 0 && dwell >= 0.0
    requires SatisfiesAll(a, RouteOrdering(r, dwell))
    ensures forall i, j :: 0 <= i <= j < |Timeline(a, r.id, r.edges)| ==>
      Timeline(a, r.id, r.edges)[i] <= Timeline(a, r.id, r.edges)[j]
  {
    RouteOrderingMeaning(a, r, dwell);
    TimelineSteps(a, r.id, r.edges, dwell);
    var tl := Timeline(a, r.id, r.edges);
    forall i, j | 0 <= i <= j < |tl| ensures tl[i] <= tl[j] {
      ChainUp(tl, i, j);
    }
  }

  // ---------------------------------------------------------------- lower bound on the round trip

  function PrefixSum(tr: seq<real>, m: nat): real
    requires m <= |tr|
  {
    if m == 0 then 0.0 else PrefixSum(tr, m - 1) + tr[m - 1]
  }

  /** Edge `i` takes at least `tr[i]` in either direction. */
  ghost predicate MinRunTimes(a: Valuation, rid: string, es: seq<Edge>, tr: seq<real>)
  {
    |tr| == |es| &&
    forall i, d :: 0 <= i < |es| ==> a(Arr(rid, d, es[i])) - a(Dep(rid, d, es[i])) >= tr[i]
  }

  lemma {:induction false} ForwardBound(a: Valuation, rid: string, es: seq<Edge>, dwell: real, tr: seq<real>, i: nat)
    requires |es| > 0 && OrderedTraversal(a, rid, es, dwell) && MinRunTimes(a, rid, es, tr)
    requires i < |es|
    ensures a(Arr(rid, Forward, es[i])) >= a(Dep(rid, Forward, es[0])) + (i as real) * dwell + PrefixSum(tr, i + 1)
  {
    assert a(Arr(rid, Forward, es[i])) - a(Dep(rid, Forward, es[i])) >= tr[i];
    if i > 0 {
      ForwardBound(a, rid, es, dwell, tr, i - 1);
      assert (i as real) * dwell == ((i - 1) as real) * dwell + dwell;
    }
  }

  /** The bound of the last edge's reverse arrival: the whole forward half, the turnaround and one run. */
  lemma TurnBound(a: Valuation, rid: string, es: seq<Edge>, dwell: real, tr: seq<real>)
    requires |es| > 0 && OrderedTraversal(a, rid, es, dwell) && MinRunTimes(a, rid, es, tr)
    ensures a(Arr(rid, Reverse, es[|es| - 1])) >= a(Dep(rid, Forward, es[0]))
      + ((2 * |es| - 1 - (|es| - 1)) as real) * dwell + 2.0 * PrefixSum(tr, |es|) - PrefixSum(tr, |es| - 1)
  {
    var n := |es|;
    var start, total := a(Dep(rid, Forward, es[0])), PrefixSum(tr, n);
    assert a(Arr(rid, Reverse, es[n - 1])) - a(Dep(rid, Reverse, es[n - 1])) >= tr[n - 1];
    ForwardBound(a, rid, es, dwell, tr, n - 1);
    DwellStep(n - 1, dwell);
    ChainStep(a(Arr(rid, Reverse, es[n - 1])), a(Dep(rid, Reverse, es[n - 1])), a(Arr(rid, Forward, es[n - 1])),
              start, ((n - 1) as real) * dwell, dwell, ((2 * n - 1 - (n - 1)) as real) * dwell,
              total, tr[n - 1], 2.0 * total - PrefixSum(tr, n - 1));
  }

  /** From the bound on the reverse arrival at edge `i + 1`, the bound at edge `i`: one dwell and one run more. */
  lemma ReverseStep(a: Valuation, rid: string, es: seq<Edge>, dwell: real, tr: seq<real>, i: nat)
    requires |es| > 0 && OrderedTraversal(a, rid, es, dwell) && MinRunTimes(a, rid, es, tr)
    requires i < |es| - 1
    requires a(Arr(rid, Reverse, es[i + 1])) >= a(Dep(rid, Forward, es[0]))
      + ((2 * |es| - 1 - (i + 1)) as real) * dwell + 2.0 * PrefixSum(tr, |es|) - PrefixSum(tr, i + 1)
    ensures a(Arr(rid, Reverse, es[i])) >= a(Dep(rid, Forward, es[0]))
      + ((2 * |es| - 1 - i) as real) * dwell + 2.0 * PrefixSum(tr, |es|) - PrefixSum(tr, i)
  {
    var n := |es|;
    var start, total := a(Dep(rid, Forward, es[0])), PrefixSum(tr, n);
    assert a(Arr(rid, Reverse, es[i])) - a(Dep(rid, Reverse, es[i])) >= tr[i];
    assert a(Dep(rid, Reverse, es[i])) >= a(Arr(rid, Reverse, es[i + 1])) + dwell;
    DwellStep(2 * n - 1 - (i + 1), dwell);
    ChainStep(a(Arr(rid, Reverse, es[i])), a(Dep(rid, Reverse, es[i])), a(Arr(rid, Reverse, es[i + 1])),
              start, ((2 * n - 1 - (i + 1)) as real) * dwell, dwell, ((2 * n - 1 - i) as real) * dwell,
              2.0 * total - PrefixSum(tr, i + 1), tr[i], 2.0 * total - PrefixSum(tr, i));
  }

  lemma {:induction false} ReverseBound(a: Valuation, rid: string, es: seq<Edge>, dwell: real, tr: seq<real>, i: nat)
    requires |es| > 0 && OrderedTraversal(a, rid, es, dwell) && MinRunTimes(a, rid, es, tr)
    requires i < |es|
    ensures a(Arr(rid, Reverse, es[i])) >= a(Dep(rid, Forward, es[0]))
      + ((2 * |es| - 1 - i) as real) * dwell + 2.0 * PrefixSum(tr, |es|) - PrefixSum(tr, i)
    decreases |es| - i
  {
    if i == |es| - 1 {
      TurnBound(a, rid, es, dwell, tr);
    } else {
      ReverseBound(a, rid, es, dwell, tr, i + 1);
      ReverseStep(a, rid, es, dwell, tr, i);
    }
  }

  /** Arriving a run after leaving, which is a dwell after an earlier event, adds both to its bound. */
  lemma ChainStep(arr: real, dep: real, prev: real, start: real,
                  waits: real, dwell: real, waits': real, runs: real, run: real, runs': real)
    requires arr - dep >= run && dep >= prev + dwell && prev >= start + waits + runs
    requires waits' == waits + dwell && runs' == runs + run
    ensures arr >= start + waits' + runs'
  {
  }

  lemma DwellStep(k: nat, dwell: real)
    ensures ((k + 1) as real) * dwell == (k as real) * dwell + dwell
  {
  }

  /**
   * The arrival back at the first station comes at least (2n-1) dwells and twice the total running
   * time after the first forward departure.
   */
  lemma TraversalBound(a: Valuation, rid: string, es: seq<Edge>, dwell: real, tr: seq<real>)
    requires |es| > 0 && OrderedTraversal(a, rid, es, dwell) && MinRunTimes(a, rid, es, tr)
    ensures a(Arr(rid, Reverse, es[0])) >= a(Dep(rid, Forward, es[0]))
      + ((2 * |es| - 1) as real) * dwell + 2.0 * PrefixSum(tr, |es|)
  {
    ReverseBound(a, rid, es, dwell, tr, 0);
  }
}
