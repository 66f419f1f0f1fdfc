/** The cantonal income tariff of app.py: a canton's rows give marginal
    widths ("For the next CHF") and rates; `cantonal_income_tax` walks them
    with a `remaining` accumulator, taxes any excess at the last row's rate
    and scales the result by the canton and commune income multipliers. */
module CantonalTariff {
  import opened PyValues
  import opened Steuerfuesse

  /** One row: "For the next CHF" and "Additional %". */
  datatype CantonBracket = CantonBracket(width: real, ratePct: real)

  /** The two accumulators of the walk: the tax so far (`base`) and the
      income not yet taxed (`remaining`). */
  datatype Walked = Walked(tax: real, left: real)

  /** The bracket walk from `remaining` over `bs`: each row takes
      min(remaining, width) at its rate, and the walk stops as soon as
      nothing remains. Gives the tax so far and what is left. */
  function Walk(bs: seq<CantonBracket>, remaining: real): Walked
  {
    if bs == [] then Walked(0.0, remaining)
    else
      var chunk := Min(remaining, bs[0].width);
      var tax := chunk * (bs[0].ratePct / 100.0);
      var left := remaining - chunk;
      if left <= 0.0 then Walked(tax, left)
      else
        var w := Walk(bs[1..], left);
        Walked(tax + w.tax, w.left)
  }

  /** The cantonal base before multipliers: the walk's tax plus, when
      income is left over, that excess at the last row's rate; an empty
      table taxes nothing. */
  function CantonalBase(bs: seq<CantonBracket>, taxable: real): (r: real)
    ensures bs == [] ==> r == 0.0
  {
    var w := Walk(bs, taxable);
    if w.left > 0.0 && bs != [] then w.tax + w.left * (bs[|bs| - 1].ratePct / 100.0) else w.tax
  }

  /** The canton's table, `income_tax_cantons.get(kanton, [])`. */
  function TableOf(tables: map<string, seq<CantonBracket>>, kanton: string): seq<CantonBracket>
  {
    if kanton in tables then tables[kanton] else []
  }

  /** What `cantonal_income_tax` returns: base x canton multiplier + base x
      commune multiplier. */
  function CantonalTax(tables: map<string, seq<CantonBracket>>, rows: seq<MultiplierRow>,
                       taxable: real, kanton: string, gemeinde: string): real
  {
    var base := CantonalBase(TableOf(tables, kanton), taxable);
    var m := Multipliers(rows, kanton, gemeinde, Income);
    base * m.0 + base * m.1
  }

  /** The cantonal tax is the base scaled by the sum of the two income
      multipliers. */
  lemma CantonalTaxScaled(tables: map<string, seq<CantonBracket>>, rows: seq<MultiplierRow>,
                          taxable: real, kanton: string, gemeinde: string)
    ensures CantonalTax(tables, rows, taxable, kanton, gemeinde)
            == CantonalBase(TableOf(tables, kanton), taxable)
               * (Multipliers(rows, kanton, gemeinde, Income).0 + Multipliers(rows, kanton, gemeinde, Income).1)
  {
    var base := CantonalBase(TableOf(tables, kanton), taxable);
    var m := Multipliers(rows, kanton, gemeinde, Income);
    Distribute(base, m.0, m.1);
  }

  /** A canton without a tariff owes no cantonal income tax, whatever its
      multipliers. */
  lemma CantonalTaxNoTable(tables: map<string, seq<CantonBracket>>, rows: seq<MultiplierRow>,
                           taxable: real, kanton: string, gemeinde: string)
    requires kanton !in tables
    ensures CantonalTax(tables, rows, taxable, kanton, gemeinde) == 0.0
  {
    var base := CantonalBase(TableOf(tables, kanton), taxable);
    var m := Multipliers(rows, kanton, gemeinde, Income);
    assert base == 0.0;
    assert base * m.0 == 0.0 * m.0 && base * m.1 == 0.0 * m.1;
  }

  /** Without a row for the commune, the cantonal tax is the bare base
      (canton multiplier 1.0, commune multiplier 0.0). */
  lemma CantonalTaxNoMatch(tables: map<string, seq<CantonBracket>>, rows: seq<MultiplierRow>,
                           taxable: real, kanton: string, gemeinde: string)
    requires forall row <- rows :: !Matching(kanton, gemeinde)(row)
    ensures CantonalTax(tables, rows, taxable, kanton, gemeinde) == CantonalBase(TableOf(tables, kanton), taxable)
  {
    MultipliersNoMatch(rows, kanton, gemeinde, Income);
  }

  /** The bracket part of `cantonal_income_tax`: the loop over the rows
      with `remaining` and `base`, then the top-rate remainder. */
  method CantonalBaseWalk(brackets: seq<CantonBracket>, taxable: real) returns (base: real)
    ensures base == CantonalBase(brackets, taxable)
  {
    var remaining := taxable;
    base := 0.0;
    var i := 0;
    while i < |brackets|
      invariant 0 <= i <= |brackets|
      invariant Walk(brackets, taxable).tax == base + Walk(brackets[i..], remaining).tax
      invariant Walk(brackets, taxable).left == Walk(brackets[i..], remaining).left
    {
      var b := brackets[i];
      assert brackets[i..][0] == b && brackets[i..][1..] == brackets[i + 1..];
      var chunk := Min(remaining, b.width);
      WalkUnfold(brackets[i..], remaining, chunk);
      base := base + chunk * (b.ratePct / 100.0);
      remaining := remaining - chunk;
      if remaining <= 0.0 {
        break;
      }
      i := i + 1;
    }
    assert Walk(brackets, taxable).tax == base && Walk(brackets, taxable).left == remaining;
    if remaining > 0.0 {
      base := base + (if brackets != [] then remaining * (brackets[|brackets| - 1].ratePct / 100.0) else 0.0);
    }
  }

  /** `cantonal_income_tax`: the canton's base, scaled by the income
      multipliers of the first row naming the canton and commune. */
  method CantonalIncomeTax(tables: map<string, seq<CantonBracket>>, rows: seq<MultiplierRow>,
                           taxable: real, kanton: string, gemeinde: string)
    returns (tax: real)
    ensures tax == CantonalTax(tables, rows, taxable, kanton, gemeinde)
  {
    var brackets := if kanton in tables then tables[kanton] else [];
    var base := CantonalBaseWalk(brackets, taxable);
    var kantMult, commMult := LookupMultipliers(rows, kanton, gemeinde, Income);
    tax := base * kantMult + base * commMult;
  }

  /** One step of the walk, as the loop body takes it. */
  lemma WalkUnfold(bs: seq<CantonBracket>, remaining: real, chunk: real)
    requires bs != []
    requires chunk == Min(remaining, bs[0].width)
    ensures remaining - chunk <= 0.0 ==>
              Walk(bs, remaining).tax == chunk * (bs[0].ratePct / 100.0)
              && Walk(bs, remaining).left == remaining - chunk
    ensures remaining - chunk > 0.0 ==>
              Walk(bs, remaining).tax == chunk * (bs[0].ratePct / 100.0) + Walk(bs[1..], remaining - chunk).tax
              && Walk(bs, remaining).left == Walk(bs[1..], remaining - chunk).left
  {
  }

  predicate WidthsNonNegative(bs: seq<CantonBracket>)
  {
    forall i :: 0 <= i < |bs| ==> bs[i].width >= 0.0
  }

  predicate RatesNonNegative(bs: seq<CantonBracket>)
  {
    forall i :: 0 <= i < |bs| ==> bs[i].ratePct >= 0.0
  }

  function TotalWidth(bs: seq<CantonBracket>): real
  {
    if bs == [] then 0.0 else bs[0].width + TotalWidth(bs[1..])
  }

  /** The share of `amount` that falls in a band of width `w` starting at 0. */
  function Clamp(amount: real, w: real): real
  {
    Min(Max(amount, 0.0), w)
  }

  /** The reference definition: the amount of income that falls in each
      row's band, the bands laid end to end from 0. */
  function Chunks(bs: seq<CantonBracket>, taxable: real): (c: seq<real>)
    ensures |c| == |bs|
    ensures WidthsNonNegative(bs) ==> forall i :: 0 <= i < |c| ==> 0.0 <= c[i] <= bs[i].width
  {
    if bs == [] then []
    else [Clamp(taxable, bs[0].width)] + Chunks(bs[1..], taxable - bs[0].width)
  }

  function Sum(s: seq<real>): real
  {
    if s == [] then 0.0 else s[0] + Sum(s[1..])
  }

  /** The tax on the part of `taxable` that falls in row `b`'s band. */
  function BandTax(b: CantonBracket, taxable: real): real
  {
    Clamp(taxable, b.width) * (b.ratePct / 100.0)
  }

  /** The reference tax: every row's chunk at that row's rate. */
  function ChunkTax(bs: seq<CantonBracket>, taxable: real): real
  {
    if bs == [] then 0.0
    else BandTax(bs[0], taxable) + ChunkTax(bs[1..], taxable - bs[0].width)
  }

  /** `amount` taxed at row `b`'s rate. */
  function Charge(amount: real, b: CantonBracket): real
  {
    amount * (b.ratePct / 100.0)
  }

  /** Each amount of `c` taxed at the rate of the row in the same place. */
  function RatedSum(c: seq<real>, bs: seq<CantonBracket>): real
    requires |c| == |bs|
  {
    if c == [] then 0.0 else Charge(c[0], bs[0]) + RatedSum(c[1..], bs[1..])
  }

  /** The reference tax charges each row's chunk at that row's own rate. */
  lemma {:induction false} ChunkTaxIsRatedChunks(bs: seq<CantonBracket>, taxable: real)
    ensures ChunkTax(bs, taxable) == RatedSum(Chunks(bs, taxable), bs)
  {
    if bs != [] {
      var c := Chunks(bs, taxable);
      var rest := taxable - bs[0].width;
      ChunkTaxIsRatedChunks(bs[1..], rest);
      assert c[0] == Clamp(taxable, bs[0].width) && c[1..] == Chunks(bs[1..], rest);
      assert BandTax(bs[0], taxable) == Charge(c[0], bs[0]);
    }
  }

  lemma {:induction false} TotalWidthNonNegative(bs: seq<CantonBracket>)
    requires WidthsNonNegative(bs)
    ensures TotalWidth(bs) >= 0.0
  {
    if bs != [] {
      TotalWidthNonNegative(bs[1..]);
    }
  }

  /** Income at or below the start of the bands falls in none of them. */
  lemma {:induction false} NothingBelowZero(bs: seq<CantonBracket>, taxable: real)
    requires WidthsNonNegative(bs)
    requires taxable <= 0.0
    ensures Sum(Chunks(bs, taxable)) == 0.0
    ensures ChunkTax(bs, taxable) == 0.0
  {
    if bs != [] {
      NothingBelowZero(bs[1..], taxable - bs[0].width);
    }
  }

  /** The walk agrees with the reference: it taxes exactly the chunks, and
      what it leaves over is the income above the total width. */
  lemma {:induction false} WalkIsChunks(bs: seq<CantonBracket>, taxable: real)
    requires WidthsNonNegative(bs)
    requires taxable >= 0.0
    ensures Walk(bs, taxable).tax == ChunkTax(bs, taxable)
    ensures Walk(bs, taxable).left == Max(0.0, taxable - TotalWidth(bs))
    ensures Sum(Chunks(bs, taxable)) == Min(taxable, TotalWidth(bs))
  {
    if bs != [] {
      var chunk := Min(taxable, bs[0].width);
      var left := taxable - chunk;
      assert WidthsNonNegative(bs[1..]) by {
        forall i | 0 <= i < |bs[1..]|
          ensures bs[1..][i].width >= 0.0
        {
          assert bs[1..][i] == bs[i + 1];
        }
      }
      TotalWidthNonNegative(bs[1..]);
      WalkUnfold(bs, taxable, chunk);
      assert Clamp(taxable, bs[0].width) == chunk;
      assert BandTax(bs[0], taxable) == chunk * (bs[0].ratePct / 100.0);
      if left <= 0.0 {
        NothingBelowZero(bs[1..], taxable - bs[0].width);
      } else {
        WalkIsChunks(bs[1..], left);
      }
    }
  }

  /** Every franc of a non-negative income is taxed exactly once: the
      chunks, each within its row's width, and the excess above the table
      add up to the income. */
  lemma EveryFrancOnce(bs: seq<CantonBracket>, taxable: real)
    requires WidthsNonNegative(bs)
    requires taxable >= 0.0
    ensures Sum(Chunks(bs, taxable)) + Walk(bs, taxable).left == taxable
  {
    WalkIsChunks(bs, taxable);
  }

  /** The reference cantonal base: every row's chunk at its rate plus the
      income above the table at the last row's rate. */
  function ReferenceBase(bs: seq<CantonBracket>, taxable: real): real
    requires bs != []
  {
    ChunkTax(bs, taxable) + Max(0.0, taxable - TotalWidth(bs)) * (bs[|bs| - 1].ratePct / 100.0)
  }

  /** The walk computes the reference base. */
  lemma CantonalBaseIsReference(bs: seq<CantonBracket>, taxable: real)
    requires WidthsNonNegative(bs)
    requires taxable >= 0.0
    requires bs != []
    ensures CantonalBase(bs, taxable) == ReferenceBase(bs, taxable)
  {
    WalkIsChunks(bs, taxable);
  }

  lemma BandTaxMonotone(b: CantonBracket, x: real, y: real)
    requires b.ratePct >= 0.0
    requires x <= y
    ensures BandTax(b, x) <= BandTax(b, y)
  {
    MulMonotone(Clamp(x, b.width), Clamp(y, b.width), b.ratePct / 100.0);
  }

  lemma {:induction false} ChunkTaxMonotone(bs: seq<CantonBracket>, x: real, y: real)
    requires RatesNonNegative(bs)
    requires x <= y
    ensures ChunkTax(bs, x) <= ChunkTax(bs, y)
  {
    if bs != [] {
      var w := bs[0].width;
      assert RatesNonNegative(bs[1..]) by {
        forall i | 0 <= i < |bs[1..]|
          ensures bs[1..][i].ratePct >= 0.0
        {
          assert bs[1..][i] == bs[i + 1];
        }
      }
      ChunkTaxMonotone(bs[1..], x - w, y - w);
      BandTaxMonotone(bs[0], x, y);
    }
  }

  lemma ReferenceBaseMonotone(bs: seq<CantonBracket>, x: real, y: real)
    requires bs != [] && RatesNonNegative(bs)
    requires x <= y
    ensures ReferenceBase(bs, x) <= ReferenceBase(bs, y)
  {
    var r := bs[|bs| - 1].ratePct / 100.0;
    var ex, ey := Max(0.0, x - TotalWidth(bs)), Max(0.0, y - TotalWidth(bs));
    ChunkTaxMonotone(bs, x, y);
    MulMonotone(ex, ey, r);
    assert ReferenceBase(bs, x) == ChunkTax(bs, x) + ex * r;
    assert ReferenceBase(bs, y) == ChunkTax(bs, y) + ey * r;
  }

  /** With non-negative widths and rates a higher income never gets a
      lower cantonal base. */
  lemma CantonalBaseMonotone(bs: seq<CantonBracket>, x: real, y: real)
    requires WidthsNonNegative(bs) && RatesNonNegative(bs)
    requires 0.0 <= x <= y
    ensures CantonalBase(bs, x) <= CantonalBase(bs, y)
  {
    if bs != [] {
      CantonalBaseIsReference(bs, x);
      CantonalBaseIsReference(bs, y);
      ReferenceBaseMonotone(bs, x, y);
    }
  }

  /** A row of width 0 placed anywhere but last is skipped: the walk takes
      nothing from it and carries on, so the base is unchanged. */
  lemma {:induction false} ZeroWidthRowSkipped(bs: seq<CantonBracket>, i: nat, ratePct: real, taxable: real)
    requires i < |bs|
    requires taxable > 0.0
    ensures CantonalBase(bs[..i] + [CantonBracket(0.0, ratePct)] + bs[i..], taxable)
            == CantonalBase(bs, taxable)
  {
    WalkSkipsZeroWidth(bs, i, ratePct, taxable);
    var padded := bs[..i] + [CantonBracket(0.0, ratePct)] + bs[i..];
    assert padded[|padded| - 1] == bs[|bs| - 1];
  }

  /** Two tables with the same first row walk alike when their tails do. */
  lemma WalkSameHead(a: seq<CantonBracket>, b: seq<CantonBracket>, remaining: real)
    requires a != [] && b != [] && a[0] == b[0]
    requires var left := remaining - Min(remaining, a[0].width);
             left > 0.0 ==> Walk(a[1..], left) == Walk(b[1..], left)
    ensures Walk(a, remaining) == Walk(b, remaining)
  {
  }

  lemma {:induction false} WalkSkipsZeroWidth(bs: seq<CantonBracket>, i: nat, ratePct: real, remaining: real)
    requires i <= |bs|
    requires remaining > 0.0
    ensures Walk(bs[..i] + [CantonBracket(0.0, ratePct)] + bs[i..], remaining) == Walk(bs, remaining)
  {
    var zero := CantonBracket(0.0, ratePct);
    var padded := bs[..i] + [zero] + bs[i..];
    if i == 0 {
      assert padded[0] == zero && padded[1..] == bs;
      WalkUnfold(padded, remaining, 0.0);
      assert 0.0 * (ratePct / 100.0) == 0.0;
    } else {
      assert padded[0] == bs[0];
      assert padded[1..] == bs[1..][..i - 1] + [zero] + bs[1..][i - 1..];
      var left := remaining - Min(remaining, bs[0].width);
      if left > 0.0 {
        WalkSkipsZeroWidth(bs[1..], i - 1, ratePct, left);
      }
      WalkSameHead(padded, bs, remaining);
    }
  }
}
