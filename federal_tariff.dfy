/** The federal income tariff of app.py: a table of (threshold, base amount,
    additional percent) rows, sorted by threshold when loaded, and the
    bracket search `federal_income_tax` runs over it. */
module FederalTariff {
  import opened PyValues
  import opened Ordering

  /** One row: "Taxable income for federal tax", "Additional %",
      "Base amount CHF". */
  datatype FederalBracket = FederalBracket(threshold: real, ratePct: real, base: real)

  predicate ThresholdLe(a: FederalBracket, b: FederalBracket)
  {
    a.threshold <= b.threshold
  }

  predicate SortedByThreshold(t: seq<FederalBracket>)
  {
    forall i, j :: 0 <= i < j < |t| ==> t[i].threshold <= t[j].threshold
  }

  /** The table as loaded: the JSON rows sorted ascending by threshold. */
  function SortByThreshold(rows: seq<FederalBracket>): (t: seq<FederalBracket>)
    ensures SortedByThreshold(t)
    ensures multiset(t) == multiset(rows)
  {
    assert Total(ThresholdLe);
    var t := InsertionSort(rows, ThresholdLe);
    assert SortedByThreshold(t) by {
      forall i, j | 0 <= i < j < |t|
        ensures t[i].threshold <= t[j].threshold
      {
        SortedAllPairs(t, ThresholdLe, i, j);
      }
    }
    t
  }

  /** The row test of the loop: the taxable amount is at or below the
      row's threshold. */
  function Covering(taxable: real): FederalBracket -> bool
  {
    (b: FederalBracket) => taxable <= b.threshold
  }

  /** The threshold the within-table formula measures from: the previous
      row's, or 0 for the first row. */
  function PreviousThreshold(t: seq<FederalBracket>, k: nat): real
    requires k < |t|
  {
    if k == 0 then 0.0 else t[k - 1].threshold
  }

  function WithinTable(t: seq<FederalBracket>, k: nat, taxable: real): real
    requires k < |t|
  {
    t[k].base + (taxable - PreviousThreshold(t, k)) * (t[k].ratePct / 100.0)
  }

  function AboveTop(t: seq<FederalBracket>, taxable: real): real
    requires t != []
  {
    var top := t[|t| - 1];
    top.base + (taxable - top.threshold) * (top.ratePct / 100.0)
  }

  /** What `federal_income_tax` returns: the formula of the first row whose
      threshold is at or above the taxable amount, the top-row formula when
      there is none, and an IndexError (`[-1]`) on an empty table. */
  function FederalTax(t: seq<FederalBracket>, taxable: real): (r: Result<real>)
    ensures r.Err? <==> t == []
    ensures r.Err? ==> r.error == IndexError
  {
    if t == [] then Err(IndexError)
    else
      var k := FirstIndex(t, Covering(taxable));
      if k < |t| then Ok(WithinTable(t, k, taxable)) else Ok(AboveTop(t, taxable))
  }

  /** `federal_income_tax`: walks the rows, remembering the last threshold
      passed, and returns at the first row that covers the amount. */
  method FederalIncomeTax(t: seq<FederalBracket>, taxable: real) returns (r: Result<real>)
    ensures r == FederalTax(t, taxable)
  {
    var prev := 0.0;
    for i := 0 to |t|
      invariant forall j :: 0 <= j < i ==> taxable > t[j].threshold
      invariant prev == if i == 0 then 0.0 else t[i - 1].threshold
    {
      var b := t[i];
      if taxable > b.threshold {
        prev := b.threshold;
        continue;
      }
      FirstIndexUnique(t, Covering(taxable), i);
      assert FederalTax(t, taxable) == Ok(WithinTable(t, i, taxable));
      assert PreviousThreshold(t, i) == prev;
      assert WithinTable(t, i, taxable) == b.base + (taxable - prev) * (b.ratePct / 100.0);
      return Ok(b.base + (taxable - prev) * (b.ratePct / 100.0));
    }
    if t == [] {
      return Err(IndexError);
    }
    FirstIndexUnique(t, Covering(taxable), |t|);
    assert FederalTax(t, taxable) == Ok(AboveTop(t, taxable));
    var top := t[|t| - 1];
    assert AboveTop(t, taxable) == top.base + (taxable - top.threshold) * (top.ratePct / 100.0);
    return Ok(top.base + (taxable - top.threshold) * (top.ratePct / 100.0));
  }

  /** On a sorted table the row used is the one whose window
      (previous threshold, threshold] holds the taxable amount. */
  lemma FederalWithinWindow(t: seq<FederalBracket>, k: nat, taxable: real)
    requires SortedByThreshold(t)
    requires k < |t|
    requires k == 0 || t[k - 1].threshold < taxable
    requires taxable <= t[k].threshold
    ensures FederalTax(t, taxable)
            == Ok(t[k].base + (taxable - PreviousThreshold(t, k)) * (t[k].ratePct / 100.0))
  {
    forall j | 0 <= j < k
      ensures !Covering(taxable)(t[j])
    {
      assert t[j].threshold <= t[k - 1].threshold;
    }
    FirstIndexUnique(t, Covering(taxable), k);
    assert FederalTax(t, taxable) == Ok(WithinTable(t, k, taxable));
    assert WithinTable(t, k, taxable)
        == t[k].base + (taxable - PreviousThreshold(t, k)) * (t[k].ratePct / 100.0);
  }

  /** On a sorted table an amount above the top threshold uses the top
      row's base and rate, measured from the top threshold. */
  lemma FederalAboveTopThreshold(t: seq<FederalBracket>, taxable: real)
    requires SortedByThreshold(t)
    requires t != []
    requires taxable > t[|t| - 1].threshold
    ensures FederalTax(t, taxable)
            == Ok(t[|t| - 1].base + (taxable - t[|t| - 1].threshold) * (t[|t| - 1].ratePct / 100.0))
  {
    forall j | 0 <= j < |t|
      ensures !Covering(taxable)(t[j])
    {
      assert j == |t| - 1 || t[j].threshold <= t[|t| - 1].threshold;
    }
    FirstIndexUnique(t, Covering(taxable), |t|);
    assert FederalTax(t, taxable) == Ok(AboveTop(t, taxable));
  }

  /** At the top threshold the within-table formula (measured from the
      previous threshold) and the above-top formula (measured from the top
      threshold) disagree: an income `d` above the top threshold is taxed
      (top - previous - d) x top rate less than the top threshold itself. */
  lemma FederalTopThresholdStep(t: seq<FederalBracket>, d: real)
    requires SortedByThreshold(t)
    requires |t| >= 2
    requires t[|t| - 2].threshold < t[|t| - 1].threshold
    requires d > 0.0
    ensures FederalTax(t, t[|t| - 1].threshold).Ok?
    ensures FederalTax(t, t[|t| - 1].threshold + d).Ok?
    ensures FederalTax(t, t[|t| - 1].threshold).value - FederalTax(t, t[|t| - 1].threshold + d).value
            == (t[|t| - 1].threshold - t[|t| - 2].threshold - d) * (t[|t| - 1].ratePct / 100.0)
  {
    var n := |t|;
    FederalWithinWindow(t, n - 1, t[n - 1].threshold);
    FederalAboveTopThreshold(t, t[n - 1].threshold + d);
  }
}
