/**
 * The selection engine: keep the eligible candidates, rank them by
 * efficiency, take them greedily toward the target tax amount inside a
 * band of plus or minus 5%, and finish with a refinement that may move one
 * invoice to the end of the selection.
 */
module InvoiceSelection {
  import opened Cells
  import opened TaxTypes

  /** The sum of the invoices' tax amounts, folded from the left. */
  function TaxSum(s: seq<Invoice>): real
  {
    if |s| == 0 then 0.0 else TaxSum(s[..|s| - 1]) + s[|s| - 1].taxAmount
  }

  lemma {:induction false} TaxSumAppend(a: seq<Invoice>, b: seq<Invoice>)
    ensures TaxSum(a + b) == TaxSum(a) + TaxSum(b)
    decreases |b|
  {
    if |b| == 0 {
      assert a + b == a;
    } else {
      assert (a + b)[..|a + b| - 1] == a + b[..|b| - 1];
      TaxSumAppend(a, b[..|b| - 1]);
    }
  }

  /** A sum of positive taxes is positive unless it is empty. */
  lemma {:induction false} TaxSumPositive(s: seq<Invoice>)
    requires forall i :: 0 <= i < |s| ==> s[i].taxAmount > 0.0
    ensures TaxSum(s) >= 0.0
    ensures |s| > 0 ==> TaxSum(s) > 0.0
  {
    if |s| > 0 {
      TaxSumPositive(s[..|s| - 1]);
    }
  }

  // ---------------------------------------------------------------- filter

  predicate Eligible(invoice: Invoice)
  {
    invoice.isValid && invoice.taxAmount > 0.0
  }

  /** filterValidInvoices: the eligible invoices, in input order. */
  function FilterValidInvoices(invoices: seq<Invoice>): (r: seq<Invoice>)
    ensures |r| <= |invoices|
    ensures forall i :: 0 <= i < |r| ==> Eligible(r[i])
  {
    if |invoices| == 0 then []
    else
      var last := invoices[|invoices| - 1];
      var p := invoices[..|invoices| - 1];
      assert invoices == p + [last];
      FilterValidInvoices(p) + (if Eligible(last) then [last] else [])
  }

  /** The kept invoices come from the input, and an invoice is kept exactly when it is in the input and eligible. */
  lemma {:induction false} FilterMembers(invoices: seq<Invoice>)
    ensures multiset(FilterValidInvoices(invoices)) <= multiset(invoices)
    ensures forall x :: x in FilterValidInvoices(invoices) <==> x in invoices && Eligible(x)
  {
    if |invoices| > 0 {
      var p := invoices[..|invoices| - 1];
      var last := invoices[|invoices| - 1];
      FilterMembers(p);
      assert invoices == p + [last];
      assert multiset(invoices) == multiset(p) + multiset{last};
    }
  }

  /** Filtering a concatenation filters each part, which is what keeping the input order means. */
  lemma {:induction false} FilterAppend(a: seq<Invoice>, b: seq<Invoice>)
    ensures FilterValidInvoices(a + b) == FilterValidInvoices(a) + FilterValidInvoices(b)
    decreases |b|
  {
    if |b| == 0 {
      assert a + b == a;
    } else {
      assert (a + b)[..|a + b| - 1] == a + b[..|b| - 1];
      FilterAppend(a, b[..|b| - 1]);
    }
  }

  /** Nothing is dropped from a list of eligible invoices. */
  lemma {:induction false} FilterKeepsEligible(invoices: seq<Invoice>)
    requires forall i :: 0 <= i < |invoices| ==> Eligible(invoices[i])
    ensures FilterValidInvoices(invoices) == invoices
  {
    if |invoices| > 0 {
      FilterKeepsEligible(invoices[..|invoices| - 1]);
    }
  }

  // ------------------------------------------------------------------ sort

  /**
   * The sort comparator: a positive value puts b before a. Scores more
   * than 0.1 apart decide; otherwise the larger tax amount comes first.
   */
  function Compare(a: Invoice, b: Invoice): real
  {
    var efficiencyDiff := b.efficiencyScore - a.efficiencyScore;
    if Abs(efficiencyDiff) > 0.1 then efficiencyDiff else b.taxAmount - a.taxAmount
  }

  /** The comparator is antisymmetric: swapping its arguments negates it. */
  lemma {:induction false} CompareAntisymmetric(a: Invoice, b: Invoice)
    ensures Compare(b, a) == -Compare(a, b)
  {
  }

  /** No neighbours the comparator would swap: each invoice may stay before the next. */
  predicate InOrder(s: seq<Invoice>)
  {
    forall i :: 0 < i < |s| ==> Compare(s[i - 1], s[i]) <= 0.0
  }

  /** Insert x into an already arranged list, behind every element the comparator does not move after it. */
  function Insert(sorted: seq<Invoice>, x: Invoice): (r: seq<Invoice>)
    ensures multiset(r) == multiset(sorted) + multiset{x}
    ensures |r| == |sorted| + 1
  {
    if |sorted| == 0 then [x]
    else
      var last := sorted[|sorted| - 1];
      var p := sorted[..|sorted| - 1];
      assert sorted == p + [last];
      if Compare(last, x) > 0.0 then Insert(p, x) + [last] else sorted + [x]
  }

  /**
   * Inserting into a list with no neighbours out of order leaves none out
   * of order; the new last element is x or the old last one.
   */
  lemma {:induction false} InsertKeepsOrder(sorted: seq<Invoice>, x: Invoice)
    requires InOrder(sorted)
    ensures InOrder(Insert(sorted, x))
    ensures var r := Insert(sorted, x);
      r[|r| - 1] == x || (|sorted| > 0 && r[|r| - 1] == sorted[|sorted| - 1])
  {
    if |sorted| > 0 {
      var last := sorted[|sorted| - 1];
      var p := sorted[..|sorted| - 1];
      if Compare(last, x) > 0.0 {
        assert InOrder(p) by {
          forall i | 0 < i < |p| ensures Compare(p[i - 1], p[i]) <= 0.0 {
            assert p[i - 1] == sorted[i - 1] && p[i] == sorted[i];
          }
        }
        InsertKeepsOrder(p, x);
        CompareAntisymmetric(last, x);
        var q := Insert(p, x);
        assert Insert(sorted, x) == q + [last];
        assert |p| > 0 ==> sorted[|sorted| - 2] == p[|p| - 1];
        assert q[|q| - 1] == x || (|p| > 0 && q[|q| - 1] == sorted[|sorted| - 2]);
        InOrderSnoc(q, last);
      } else {
        InOrderSnoc(sorted, x);
      }
    }
  }

  /** Appending an element that may follow the last one keeps a list in order. */
  lemma {:induction false} InOrderSnoc(s: seq<Invoice>, y: Invoice)
    requires InOrder(s)
    requires |s| > 0 ==> Compare(s[|s| - 1], y) <= 0.0
    ensures InOrder(s + [y])
  {
    var t := s + [y];
    forall i | 0 < i < |t| ensures Compare(t[i - 1], t[i]) <= 0.0 {
      if i < |s| {
        assert t[i - 1] == s[i - 1] && t[i] == s[i];
      }
    }
  }

  /**
   * sortByEfficiency, as a stable insertion sort with the source's
   * comparator: a permutation of the input in which no two neighbours are
   * out of order. The comparator is not transitive, so the order of
   * invoices further apart is not promised.
   */
  function SortByEfficiency(invoices: seq<Invoice>): (r: seq<Invoice>)
    ensures multiset(r) == multiset(invoices)
    ensures |r| == |invoices|
    ensures InOrder(r)
  {
    if |invoices| == 0 then []
    else
      var p := invoices[..|invoices| - 1];
      assert invoices == p + [invoices[|invoices| - 1]];
      InsertKeepsOrder(SortByEfficiency(p), invoices[|invoices| - 1]);
      Insert(SortByEfficiency(p), invoices[|invoices| - 1])
  }

  /** Whatever holds of every input invoice holds of every sorted one. */
  lemma {:induction false} SortedAreEligible(invoices: seq<Invoice>)
    requires forall i :: 0 <= i < |invoices| ==> Eligible(invoices[i])
    ensures forall i :: 0 <= i < |SortByEfficiency(invoices)| ==> Eligible(SortByEfficiency(invoices)[i])
  {
    var r := SortByEfficiency(invoices);
    forall i | 0 <= i < |r| ensures Eligible(r[i]) {
      assert r[i] in multiset(r);
      assert r[i] in multiset(invoices);
    }
  }

  // ----------------------------------------------------------------- greedy

  function Tolerance(target: real): real { target * 0.05 }

  function Upper(target: real): real { target + Tolerance(target) }

  function Lower(target: real): real { target - Tolerance(target) }

  /**
   * The state of the greedy loop after a prefix of the ranked list: what
   * it selected, the running total, whether it broke off, and which
   * positions it took.
   */
  datatype GreedyState = GreedyState(selected: seq<Invoice>, total: real, stopped: bool, picked: seq<bool>)

  /** The greedy loop of greedyKnapsack over s, one invoice at a time. */
  function Greedy(s: seq<Invoice>, target: real): (g: GreedyState)
    ensures |g.picked| == |s|
  {
    if |s| == 0 then GreedyState([], 0.0, false, [])
    else
      var g := Greedy(s[..|s| - 1], target);
      var invoice := s[|s| - 1];
      var newTotal := g.total + invoice.taxAmount;
      if g.stopped || newTotal > Upper(target) then GreedyState(g.selected, g.total, g.stopped, g.picked + [false])
      else GreedyState(g.selected + [invoice], newTotal, newTotal >= Lower(target), g.picked + [true])
  }

  /** The elements of s at the positions mask marks, in order. */
  function Picked(s: seq<Invoice>, mask: seq<bool>): (r: seq<Invoice>)
    requires |mask| == |s|
    ensures multiset(r) <= multiset(s)
  {
    if |s| == 0 then []
    else
      var p := s[..|s| - 1];
      assert s == p + [s[|s| - 1]];
      Picked(p, mask[..|s| - 1]) + (if mask[|s| - 1] then [s[|s| - 1]] else [])
  }

  /** Once the loop has broken off, later invoices change nothing. */
  lemma {:induction false} GreedyStaysStopped(s: seq<Invoice>, i: nat, target: real)
    requires i <= |s| && Greedy(s[..i], target).stopped
    ensures Greedy(s, target).selected == Greedy(s[..i], target).selected
    ensures Greedy(s, target).total == Greedy(s[..i], target).total
    ensures Greedy(s, target).stopped
    decreases |s|
  {
    if i < |s| {
      var p := s[..|s| - 1];
      assert p[..i] == s[..i];
      GreedyStaysStopped(p, i, target);
    } else {
      assert s[..i] == s;
    }
  }

  /** The selection consists of the marked positions: a subsequence of the ranked list. */
  lemma {:induction false} GreedySelectsPicked(s: seq<Invoice>, target: real)
    ensures Greedy(s, target).selected == Picked(s, Greedy(s, target).picked)
  {
    if |s| > 0 {
      var p := s[..|s| - 1];
      GreedySelectsPicked(p, target);
      assert Greedy(s, target).picked[..|s| - 1] == Greedy(p, target).picked;
    }
  }

  /** The running total is the tax sum of the selection. */
  lemma {:induction false} GreedyTotalIsSum(s: seq<Invoice>, target: real)
    ensures Greedy(s, target).total == TaxSum(Greedy(s, target).selected)
  {
    if |s| > 0 {
      var p := s[..|s| - 1];
      GreedyTotalIsSum(p, target);
      var g := Greedy(p, target);
      var x := s[|s| - 1];
      assert (g.selected + [x])[..|g.selected|] == g.selected;
    }
  }

  /** A non-empty selection never exceeds target + 5%. */
  lemma {:induction false} GreedyWithinUpperBound(s: seq<Invoice>, target: real)
    ensures Greedy(s, target).selected != [] ==> Greedy(s, target).total <= Upper(target)
  {
    if |s| > 0 {
      GreedyWithinUpperBound(s[..|s| - 1], target);
    }
  }

  /** With a non-positive target and positive taxes nothing is ever taken. */
  lemma {:induction false} GreedyEmptyForNonPositiveTarget(s: seq<Invoice>, target: real)
    requires target <= 0.0
    requires forall i :: 0 <= i < |s| ==> s[i].taxAmount > 0.0
    ensures Greedy(s, target).selected == []
    ensures Greedy(s, target).total == 0.0
  {
    if |s| > 0 {
      GreedyEmptyForNonPositiveTarget(s[..|s| - 1], target);
    }
  }

  /**
   * With a positive target the loop breaks exactly when the total reaches
   * target − 5%, and it breaks at the first invoice that gets there.
   */
  lemma {:induction false} GreedyStopsAtLowerBound(s: seq<Invoice>, target: real)
    requires target > 0.0
    ensures Greedy(s, target).stopped <==> Greedy(s, target).total >= Lower(target)
    ensures Greedy(s, target).stopped ==>
      var g := Greedy(s, target);
      g.selected != [] && g.total - g.selected[|g.selected| - 1].taxAmount < Lower(target)
  {
    if |s| > 0 {
      GreedyStopsAtLowerBound(s[..|s| - 1], target);
    }
  }

  /**
   * Maximality: when the total stays below target − 5%, every invoice the
   * loop passed over would push it above target + 5%.
   */
  lemma {:induction false} GreedyMaximal(s: seq<Invoice>, target: real)
    requires forall i :: 0 <= i < |s| ==> s[i].taxAmount >= 0.0
    ensures var g := Greedy(s, target);
      g.total < Lower(target) ==>
        forall j :: 0 <= j < |s| && !g.picked[j] ==> g.total + s[j].taxAmount > Upper(target)
  {
    if |s| > 0 {
      var p := s[..|s| - 1];
      GreedyMaximal(p, target);
      var g0 := Greedy(p, target);
      var g := Greedy(s, target);
      if g.total < Lower(target) {
        assert !g0.stopped by {
          StoppedMeansLower(p, target);
        }
        assert g.total >= g0.total;
        forall j | 0 <= j < |s| && !g.picked[j]
          ensures g.total + s[j].taxAmount > Upper(target)
        {
          if j < |p| {
            assert g.picked[j] == g0.picked[j];
            assert p[j] == s[j];
          }
        }
      }
    }
  }

  /** A stopped loop has reached the lower bound. */
  lemma {:induction false} StoppedMeansLower(s: seq<Invoice>, target: real)
    ensures Greedy(s, target).stopped ==> Greedy(s, target).total >= Lower(target)
  {
    if |s| > 0 {
      StoppedMeansLower(s[..|s| - 1], target);
    }
  }

  // ------------------------------------------------------------ refinement

  /** The candidates keep taxes up to twice the gap; the loop then wants 80% to 120% of it. */
  predicate Fits(invoice: Invoice, gap: real)
  {
    invoice.taxAmount <= gap * 2.0 && invoice.taxAmount >= gap * 0.8 && invoice.taxAmount <= gap * 1.2
  }

  /** The first position that fits, or -1. */
  function FirstFit(s: seq<Invoice>, gap: real): (k: int)
    ensures -1 <= k < |s|
    ensures k >= 0 ==> Fits(s[k], gap) && forall j :: 0 <= j < k ==> !Fits(s[j], gap)
    ensures k == -1 ==> forall j :: 0 <= j < |s| ==> !Fits(s[j], gap)
  {
    if |s| == 0 then -1
    else if Fits(s[0], gap) then 0
    else
      var k := FirstFit(s[1..], gap);
      if k == -1 then -1 else k + 1
  }

  /** The element at k taken out and appended: the removal is by position, not by value. */
  function MoveToEnd(s: seq<Invoice>, k: nat): (r: seq<Invoice>)
    requires k < |s|
    ensures |r| == |s|
    ensures r[|r| - 1] == s[k]
    ensures r[..|r| - 1] == s[..k] + s[k + 1..]
  {
    s[..k] + s[k + 1..] + [s[k]]
  }

  /** The list around position k, before and after the move. */
  lemma {:induction false} MoveToEndParts(s: seq<Invoice>, k: nat)
    requires k < |s|
    ensures s == s[..k] + [s[k]] + s[k + 1..]
    ensures MoveToEnd(s, k) == s[..k] + s[k + 1..] + [s[k]]
  {
    assert s == s[..k] + s[k..];
  }

  /** Moving one element to the end is a permutation. */
  lemma {:induction false} MoveToEndPermutes(s: seq<Invoice>, k: nat)
    requires k < |s|
    ensures multiset(MoveToEnd(s, k)) == multiset(s)
  {
    MoveToEndParts(s, k);
  }

  /** Taking x out of the middle and appending it keeps the tax sum. */
  lemma {:induction false} TaxSumSwap(a: seq<Invoice>, x: Invoice, b: seq<Invoice>)
    ensures TaxSum(a + [x] + b) == TaxSum(a + b + [x])
  {
    TaxSumAppend(a + [x], b);
    TaxSumAppend(a, [x]);
    TaxSumAppend(a, b);
    TaxSumAppend(a + b, [x]);
    assert [x][..0] == [];
  }

  /** Moving one element to the end keeps the tax sum. */
  lemma {:induction false} MoveToEndKeepsSum(s: seq<Invoice>, k: nat)
    requires k < |s|
    ensures TaxSum(MoveToEnd(s, k)) == TaxSum(s)
  {
    MoveToEndParts(s, k);
    TaxSumSwap(s[..k], s[k], s[k + 1..]);
  }

  /** What attemptBetterCombination returns; None stands for null. */
  function BetterCombination(selected: seq<Invoice>, target: real): Option<seq<Invoice>>
  {
    var gap := target - TaxSum(selected);
    if gap <= 0.0 then None
    else
      var k := FirstFit(selected, gap);
      if k < 0 then None else Some(MoveToEnd(selected, k))
  }

  /** attemptBetterCombination: a scan with an early return and no mutation. */
  method AttemptBetterCombination(selected: seq<Invoice>, target: real) returns (r: Option<seq<Invoice>>)
    ensures r == BetterCombination(selected, target)
  {
    var currentTotal := TaxSum(selected);
    var gap := target - currentTotal;
    if gap <= 0.0 {
      return None;
    }
    var i := 0;
    while i < |selected|
      invariant 0 <= i <= |selected|
      invariant forall j :: 0 <= j < i ==> !Fits(selected[j], gap)
    {
      var invoice := selected[i];
      if invoice.taxAmount <= gap * 2.0 && invoice.taxAmount >= gap * 0.8 && invoice.taxAmount <= gap * 1.2 {
        assert FirstFit(selected, gap) == i;
        return Some(MoveToEnd(selected, i));
      }
      i := i + 1;
    }
    return None;
  }

  /** What refineSelection returns. */
  function Refined(selected: seq<Invoice>, target: real): seq<Invoice>
  {
    if TaxSum(selected) >= target * 0.95 then selected
    else match BetterCombination(selected, target)
      case Some(c) => c
      case None => selected
  }

  method RefineSelection(selected: seq<Invoice>, target: real) returns (r: seq<Invoice>)
    ensures r == Refined(selected, target)
  {
    var currentTotal := TaxSum(selected);
    if currentTotal >= target * 0.95 {
      return selected;
    }
    var better := AttemptBetterCombination(selected, target);
    r := if better.Some? then better.value else selected;
  }

  /**
   * Refinement only reorders: the result is a permutation of the
   * selection, with the same length and tax sum, and it is the selection
   * itself once the total has reached 95% of the target.
   */
  lemma {:induction false} RefinedPermutes(selected: seq<Invoice>, target: real)
    ensures multiset(Refined(selected, target)) == multiset(selected)
    ensures |Refined(selected, target)| == |selected|
    ensures TaxSum(Refined(selected, target)) == TaxSum(selected)
    ensures TaxSum(selected) >= target * 0.95 ==> Refined(selected, target) == selected
  {
    var r := Refined(selected, target);
    var gap := target - TaxSum(selected);
    if TaxSum(selected) >= target * 0.95 || gap <= 0.0 {
      assert r == selected;
    } else {
      var k := FirstFit(selected, gap);
      if k < 0 {
        assert r == selected;
      } else {
        assert r == MoveToEnd(selected, k);
        MoveToEndPermutes(selected, k);
        MoveToEndKeepsSum(selected, k);
      }
    }
  }

  /** greedyKnapsack: the greedy loop, then the refinement. */
  method GreedyKnapsack(sortedInvoices: seq<Invoice>, targetAmount: real) returns (r: seq<Invoice>)
    ensures r == Refined(Greedy(sortedInvoices, targetAmount).selected, targetAmount)
  {
    var selected: seq<Invoice> := [];
    var currentTotal := 0.0;
    var tolerance := targetAmount * 0.05;
    var i := 0;
    while i < |sortedInvoices|
      invariant 0 <= i <= |sortedInvoices|
      invariant Greedy(sortedInvoices[..i], targetAmount).selected == selected
      invariant Greedy(sortedInvoices[..i], targetAmount).total == currentTotal
      invariant !Greedy(sortedInvoices[..i], targetAmount).stopped
    {
      var invoice := sortedInvoices[i];
      var newTotal := currentTotal + invoice.taxAmount;
      assert sortedInvoices[..i + 1][..i] == sortedInvoices[..i];
      if newTotal <= targetAmount + tolerance {
        selected := selected + [invoice];
        currentTotal := newTotal;
        if currentTotal >= targetAmount - tolerance {
          GreedyStaysStopped(sortedInvoices, i + 1, targetAmount);
          break;
        }
      }
      i := i + 1;
    }
    if i == |sortedInvoices| {
      assert sortedInvoices[..i] == sortedInvoices;
    }
    r := RefineSelection(selected, targetAmount);
  }

  /** What selectOptimalInvoices returns. */
  function Selection(invoices: seq<Invoice>, targetAmount: real): seq<Invoice>
  {
    Refined(Greedy(SortByEfficiency(FilterValidInvoices(invoices)), targetAmount).selected, targetAmount)
  }

  method SelectOptimalInvoices(invoices: seq<Invoice>, targetAmount: real) returns (r: seq<Invoice>)
    ensures r == Selection(invoices, targetAmount)
  {
    var validInvoices := FilterValidInvoices(invoices);
    var sortedInvoices := SortByEfficiency(validInvoices);
    r := GreedyKnapsack(sortedInvoices, targetAmount);
  }

  /** Eligibility carries over to any sub-multiset. */
  lemma {:induction false} SubmultisetEligible(r: seq<Invoice>, s: seq<Invoice>)
    requires multiset(r) <= multiset(s)
    requires forall i :: 0 <= i < |s| ==> Eligible(s[i])
    ensures forall i :: 0 <= i < |r| ==> Eligible(r[i])
  {
    forall i | 0 <= i < |r| ensures Eligible(r[i]) {
      assert r[i] in multiset(r);
      assert r[i] in multiset(s);
    }
  }

  /** The greedy selection of a ranked eligible list, once refined, is made of its eligible invoices. */
  lemma {:induction false} GreedyRefinedFromRanked(sorted: seq<Invoice>, targetAmount: real)
    requires forall i :: 0 <= i < |sorted| ==> Eligible(sorted[i])
    ensures multiset(Refined(Greedy(sorted, targetAmount).selected, targetAmount)) <= multiset(sorted)
    ensures var r := Refined(Greedy(sorted, targetAmount).selected, targetAmount);
      forall i :: 0 <= i < |r| ==> Eligible(r[i])
  {
    var selected := Greedy(sorted, targetAmount).selected;
    GreedySelectsPicked(sorted, targetAmount);
    RefinedPermutes(selected, targetAmount);
    SubmultisetEligible(Refined(selected, targetAmount), sorted);
  }

  /** The refined greedy selection stays under target + 5% for a non-negative target and is empty for a non-positive one. */
  lemma {:induction false} GreedyRefinedBounds(sorted: seq<Invoice>, targetAmount: real)
    requires forall i :: 0 <= i < |sorted| ==> sorted[i].taxAmount > 0.0
    ensures targetAmount >= 0.0 ==> TaxSum(Refined(Greedy(sorted, targetAmount).selected, targetAmount)) <= Upper(targetAmount)
    ensures targetAmount <= 0.0 ==> Refined(Greedy(sorted, targetAmount).selected, targetAmount) == []
  {
    var g := Greedy(sorted, targetAmount);
    RefinedPermutes(g.selected, targetAmount);
    GreedyTotalIsSum(sorted, targetAmount);
    GreedyWithinUpperBound(sorted, targetAmount);
    if targetAmount <= 0.0 {
      GreedyEmptyForNonPositiveTarget(sorted, targetAmount);
      assert |Refined(g.selected, targetAmount)| == 0;
    } else if g.selected == [] {
      assert TaxSum(g.selected) == 0.0;
    }
  }

  /**
   * Every invoice selectOptimalInvoices returns is valid with a positive
   * tax and comes from the input; the tax sum stays within target + 5% for
   * a non-negative target, and nothing is selected for a non-positive one.
   */
  lemma {:induction false} SelectionProperties(invoices: seq<Invoice>, targetAmount: real)
    ensures var r := Selection(invoices, targetAmount);
      forall i :: 0 <= i < |r| ==> Eligible(r[i])
    ensures multiset(Selection(invoices, targetAmount)) <= multiset(invoices)
    ensures targetAmount >= 0.0 ==> TaxSum(Selection(invoices, targetAmount)) <= Upper(targetAmount)
    ensures targetAmount <= 0.0 ==> Selection(invoices, targetAmount) == []
  {
    var valid := FilterValidInvoices(invoices);
    var sorted := SortByEfficiency(valid);
    FilterMembers(invoices);
    SortedAreEligible(valid);
    GreedyRefinedFromRanked(sorted, targetAmount);
    GreedyRefinedBounds(sorted, targetAmount);
  }

  /** The break condition in the terms of the refinement: 95% of the target. */
  lemma {:induction false} LowerIsNinetyFivePercent(target: real)
    ensures Lower(target) == target * 0.95
    ensures Upper(target) == target * 1.05
  {
  }
}
