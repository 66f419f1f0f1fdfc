/** The tax part of script.py, the spreadsheet-based engine: bracket tables
    tidied per canton, the progressive tariff over them, the multiplier
    rows, and the personal and corporate taxes built from them. */
module ExcelTariff {
  import opened PyValues
  import FederalTariff

  /** One row of an income-tax sheet: its canton, the bracket's upper end
      (sixth column), the marginal rate in percent (seventh column) and the
      "Base amount CHF" cell. */
  datatype RawBracket = RawBracket(canton: string, upper: real, margRate: real, baseAmount: Value)

  /** A tidied row: Lower, Upper, BaseCHF, MargRate. */
  datatype Bracket = Bracket(lower: real, upper: real, baseChf: real, margRate: real)

  /** `df[df["Canton"] == canton]`: the canton's rows, in sheet order. */
  function Select(rows: seq<RawBracket>, canton: string): (r: seq<RawBracket>)
    ensures |r| <= |rows|
    ensures forall b <- r :: b.canton == canton && b in rows
    ensures forall b <- rows :: b.canton == canton ==> b in r
  {
    if rows == [] then []
    else (if rows[0].canton == canton then [rows[0]] else []) + Select(rows[1..], canton)
  }

  /** Selection keeps the sheet order: selecting from two stretches of rows
      is selecting from each and putting the results one after the other. */
  lemma {:induction false} SelectConcat(a: seq<RawBracket>, b: seq<RawBracket>, canton: string)
    ensures Select(a + b, canton) == Select(a, canton) + Select(b, canton)
  {
    if a == [] {
      assert a + b == b;
    } else {
      assert (a + b)[0] == a[0];
      assert (a + b)[1..] == a[1..] + b;
      SelectConcat(a[1..], b, canton);
    }
  }

  /** The renaming, the `shift(fill_value=...)` of Upper into Lower and the
      `fillna(0)` of the base amount, applied to already selected rows;
      `prev` is the value shifted into the first row. */
  function TidyFrom(sel: seq<RawBracket>, prev: real): (t: seq<Bracket>)
    ensures |t| == |sel|
    ensures forall i {:trigger t[i]} :: 0 <= i < |t| ==>
              t[i].upper == sel[i].upper && t[i].margRate == sel[i].margRate
              && t[i].baseChf == NanToZero(sel[i].baseAmount)
    ensures forall i :: 0 <= i < |t| ==> t[i].lower == (if i == 0 then prev else sel[i - 1].upper)
  {
    if sel == [] then []
    else [Bracket(prev, sel[0].upper, NanToZero(sel[0].baseAmount), sel[0].margRate)]
         + TidyFrom(sel[1..], sel[0].upper)
  }

  /** `tidy_brackets(df, canton)`: the canton's rows in order, each bracket
      starting where the previous one ended and the first at 0, with a
      missing base amount read as 0. */
  function TidyBrackets(rows: seq<RawBracket>, canton: string): (t: seq<Bracket>)
    ensures |t| == |Select(rows, canton)|
    ensures forall i {:trigger t[i]} :: 0 <= i < |t| ==>
              var b := Select(rows, canton)[i];
              b.canton == canton && t[i].upper == b.upper && t[i].margRate == b.margRate
              && t[i].baseChf == NanToZero(b.baseAmount)
    ensures forall i :: 0 <= i < |t| ==>
              t[i].lower == if i == 0 then 0.0 else Select(rows, canton)[i - 1].upper
  {
    TidyFrom(Select(rows, canton), 0.0)
  }

  function CantonsOf(rows: seq<RawBracket>): set<string>
  {
    set b <- rows :: b.canton
  }

  /** `cant_tables`: one tidied table for every canton named in the sheet,
      and none for any other name. */
  function CantTables(rows: seq<RawBracket>): (m: map<string, seq<Bracket>>)
    ensures forall c :: c in m <==> (exists b <- rows :: b.canton == c)
    ensures forall c <- m :: m[c] == TidyBrackets(rows, c)
  {
    map c <- CantonsOf(rows) :: TidyBrackets(rows, c)
  }

  /** `fed_table`: the rows of the federal sheet labelled "Confederation". */
  function FedTable(rows: seq<RawBracket>): seq<Bracket>
  {
    TidyBrackets(rows, "Confederation")
  }

  /** The row test `table["Upper"].ge(income)`. */
  function Reaching(income: real): Bracket -> bool
  {
    (b: Bracket) => b.upper >= income
  }

  /** The formula of a bracket: its base amount plus the marginal rate, in
      percent, on the income above its lower end. */
  function BracketTax(base: real, lower: real, ratePct: real, income: real): real
  {
    base + (income - lower) * (ratePct / 100.0)
  }

  function RowTax(b: Bracket, income: real): real
  {
    BracketTax(b.baseChf, b.lower, b.margRate, income)
  }

  /** `progressive_tax`: the formula of the first row whose upper end is at
      or above the income; `.iloc[0]` on an empty selection is an
      IndexError, so an income above every bracket fails. */
  function ProgressiveTax(income: real, table: seq<Bracket>): (r: Result<real>)
    ensures r.Err? <==> forall b <- table :: b.upper < income
    ensures r.Err? ==> r.error == IndexError
  {
    var k := FirstIndex(table, Reaching(income));
    if k < |table| then Ok(RowTax(table[k], income))
    else
      assert forall b <- table :: b.upper < income by {
        forall b <- table ensures b.upper < income {
          var j :| 0 <= j < |table| && table[j] == b;
          assert !Reaching(income)(table[j]);
        }
      }
      Err(IndexError)
  }

  /** The row `progressive_tax` uses is the first one reaching the income. */
  lemma ProgressiveTaxAt(income: real, table: seq<Bracket>, k: nat)
    requires k < |table| && table[k].upper >= income
    requires forall j :: 0 <= j < k ==> table[j].upper < income
    ensures ProgressiveTax(income, table)
            == Ok(BracketTax(table[k].baseChf, table[k].lower, table[k].margRate, income))
  {
    FirstIndexUnique(table, Reaching(income), k);
  }

  /** On a tidied table the formula measures from the previous row's upper
      end, or from 0 in the first row. */
  lemma ProgressiveTaxOnTidied(rows: seq<RawBracket>, canton: string, income: real, k: nat)
    requires k < |TidyBrackets(rows, canton)|
    requires TidyBrackets(rows, canton)[k].upper >= income
    requires forall j :: 0 <= j < k ==> TidyBrackets(rows, canton)[j].upper < income
    ensures var t := TidyBrackets(rows, canton);
            var lower := if k == 0 then 0.0 else t[k - 1].upper;
            ProgressiveTax(income, t) == Ok(BracketTax(t[k].baseChf, lower, t[k].margRate, income))
  {
    var t := TidyBrackets(rows, canton);
    ProgressiveTaxAt(income, t, k);
    if k > 0 {
      assert t[k].lower == t[k - 1].upper;
    }
  }

  /** The federal table of app.py and a tidied table holding the same rows:
      Upper is the threshold, MargRate the additional percent, BaseCHF the
      base amount, and Lower the previous threshold (0 for the first). */
  predicate SameRows(t: seq<FederalTariff.FederalBracket>, tidy: seq<Bracket>)
  {
    |t| == |tidy|
    && forall i {:trigger tidy[i]} :: 0 <= i < |t| ==>
         tidy[i].upper == t[i].threshold && tidy[i].margRate == t[i].ratePct
         && tidy[i].baseChf == t[i].base && tidy[i].lower == FederalTariff.PreviousThreshold(t, i)
  }

  lemma WithinTableIsBracketTax(t: seq<FederalTariff.FederalBracket>, k: nat, income: real)
    requires k < |t|
    ensures FederalTariff.WithinTable(t, k, income)
            == BracketTax(t[k].base, FederalTariff.PreviousThreshold(t, k), t[k].ratePct, income)
  {
  }

  /** The two engines agree on an income inside the table: both take the
      first row whose upper end reaches it and measure from the row before. */
  lemma EnginesAgreeWithinTable(t: seq<FederalTariff.FederalBracket>, tidy: seq<Bracket>, income: real)
    requires SameRows(t, tidy)
    requires exists b <- t :: income <= b.threshold
    ensures FederalTariff.FederalTax(t, income) == ProgressiveTax(income, tidy)
  {
    var k := FirstIndex(t, FederalTariff.Covering(income));
    var b :| b in t && income <= b.threshold;
    var w :| 0 <= w < |t| && t[w] == b;
    assert FederalTariff.Covering(income)(t[w]);
    assert k < |t|;
    forall j | 0 <= j < |t|
      ensures FederalTariff.Covering(income)(t[j]) == Reaching(income)(tidy[j])
    {
    }
    FirstIndexUnique(tidy, Reaching(income), k);
    assert FederalTariff.FederalTax(t, income) == Ok(FederalTariff.WithinTable(t, k, income));
    assert ProgressiveTax(income, tidy) == Ok(RowTax(tidy[k], income));
    assert tidy[k].lower == FederalTariff.PreviousThreshold(t, k);
    assert tidy[k].baseChf == t[k].base && tidy[k].margRate == t[k].ratePct;
    WithinTableIsBracketTax(t, k, income);
  }

  /** Above the top row the engines part: app.py extends the top row's
      formula, `progressive_tax` fails. */
  lemma EnginesPartAboveTable(t: seq<FederalTariff.FederalBracket>, tidy: seq<Bracket>, income: real)
    requires SameRows(t, tidy)
    requires t != [] && forall b <- t :: b.threshold < income
    ensures FederalTariff.FederalTax(t, income).Ok?
    ensures ProgressiveTax(income, tidy) == Err(IndexError)
  {
    forall b <- tidy ensures b.upper < income {
      var j :| 0 <= j < |tidy| && tidy[j] == b;
      assert t[j] in t;
    }
  }

  /** A row of the "Steuerfüsse" sheet as read: the commune number and the
      four multipliers in percent. */
  datatype RawMultRow = RawMultRow(communeId: Value, incomeKanton: Value, incomeCommune: Value,
                                   corpKanton: Value, corpCommune: Value)

  /** A row of `mult`: a commune number and the multipliers as fractions. */
  datatype MultRow = MultRow(communeId: real, incomeKanton: Value, incomeCommune: Value,
                             corpKanton: Value, corpCommune: Value)

  /** `.div(100)` on one cell: a number is divided, an empty cell stays
      NaN. */
  function Percent(v: Value): (r: Value)
    ensures v.Num? ==> r == Num(v.v / 100.0)
    ensures !v.Num? ==> r == NaN
  {
    if v.Num? then Num(v.v / 100.0) else NaN
  }

  function Loaded(raw: RawMultRow): MultRow
    requires raw.communeId.Num?
  {
    MultRow(raw.communeId.v, Percent(raw.incomeKanton), Percent(raw.incomeCommune),
            Percent(raw.corpKanton), Percent(raw.corpCommune))
  }

  /** `mult` after loading: the rows with a commune number, in order, their
      four multipliers divided by 100. */
  function LoadMultipliers(raw: seq<RawMultRow>): (m: seq<MultRow>)
    ensures |m| <= |raw|
    ensures forall k :: 0 <= k < |raw| && raw[k].communeId.Num? ==> Loaded(raw[k]) in m
    ensures forall row <- m :: exists k :: 0 <= k < |raw| && raw[k].communeId.Num? && row == Loaded(raw[k])
  {
    if raw == [] then []
    else (if raw[0].communeId.Num? then [Loaded(raw[0])] else []) + LoadMultipliers(raw[1..])
  }

  /** Rows without a commune number are dropped and the others keep their
      order: loading two stretches is loading each in turn. */
  lemma {:induction false} LoadConcat(a: seq<RawMultRow>, b: seq<RawMultRow>)
    ensures LoadMultipliers(a + b) == LoadMultipliers(a) + LoadMultipliers(b)
  {
    if a == [] {
      assert a + b == b;
    } else {
      assert (a + b)[0] == a[0];
      assert (a + b)[1..] == a[1..] + b;
      LoadConcat(a[1..], b);
    }
  }

  /** Loading depends on the commune numbers alone for which rows survive:
      two sheets with the same commune numbers load to rows with the same
      commune numbers. */
  lemma {:induction false} LoadSameIds(a: seq<RawMultRow>, b: seq<RawMultRow>)
    requires |a| == |b|
    requires forall i :: 0 <= i < |a| ==> a[i].communeId == b[i].communeId
    ensures |LoadMultipliers(a)| == |LoadMultipliers(b)|
    ensures forall i :: 0 <= i < |LoadMultipliers(a)| ==>
              LoadMultipliers(a)[i].communeId == LoadMultipliers(b)[i].communeId
  {
    if a != [] {
      LoadSameIds(a[1..], b[1..]);
    }
  }

  function HasId(id: real): MultRow -> bool
  {
    (row: MultRow) => row.communeId == id
  }

  /** `mult.loc[mult["CommuneID"] == commune_id].iloc[0]`: the first row of
      the commune, or an IndexError when it has none. */
  function CommuneRow(m: seq<MultRow>, id: real): (r: Result<MultRow>)
    ensures r.Err? <==> forall row <- m :: row.communeId != id
    ensures r.Err? ==> r.error == IndexError
    ensures r.Ok? ==> r.value in m && r.value.communeId == id
    ensures r.Ok? ==> exists k :: 0 <= k < |m| && m[k] == r.value && forall j :: 0 <= j < k ==> m[j].communeId != id
  {
    var k := FirstIndex(m, HasId(id));
    if k < |m| then Ok(m[k])
    else
      assert forall row <- m :: row.communeId != id by {
        forall row <- m ensures row.communeId != id {
          var j :| 0 <= j < |m| && m[j] == row;
          assert !HasId(id)(m[j]);
        }
      }
      Err(IndexError)
  }

  /** Float arithmetic on cells: NaN, or an empty cell read as NaN, spreads
      to the result. */
  function Mul(a: Value, b: Value): (r: Value)
    ensures r.Num? <==> a.Num? && b.Num?
  {
    if a.Num? && b.Num? then Num(a.v * b.v) else NaN
  }

  function Add(a: Value, b: Value): (r: Value)
    ensures r.Num? <==> a.Num? && b.Num?
  {
    if a.Num? && b.Num? then Num(a.v + b.v) else NaN
  }

  /** The sheets script.py reads. */
  datatype ExcelConfig = ExcelConfig(
    cantRows: seq<RawBracket>,     // "Income Tax_Cantons"
    fedRows: seq<RawBracket>,      // "Income Tax_Confederation"
    multRows: seq<RawMultRow>,     // "Steuerfüsse"
    corpRate: map<string, real>)   // "Corporate Income Tax", by canton code

  /** The module-level tables built from the sheets at load time:
      `cant_tables`, `fed_table`, `mult` and `corp_rate`. */
  datatype Tables = Tables(cantTables: map<string, seq<Bracket>>, fedTable: seq<Bracket>,
                           mult: seq<MultRow>, corpRate: map<string, real>)

  function Load(cfg: ExcelConfig): Tables
  {
    Tables(CantTables(cfg.cantRows), FedTable(cfg.fedRows), LoadMultipliers(cfg.multRows), cfg.corpRate)
  }

  /** On the loaded tables, `personal_income_tax` raises KeyError exactly
      for a canton the cantonal sheet never names. */
  lemma LoadedKeyError(cfg: ExcelConfig, income: real, canton: string, communeId: real)
    ensures PersonalIncomeTax(Load(cfg), income, canton, communeId) == Err(KeyError)
            <==> forall b <- cfg.cantRows :: b.canton != canton
  {
    var tb := Load(cfg);
    if canton in tb.cantTables {
      var r := PersonalIncomeTax(tb, income, canton, communeId);
      assert r.Err? ==> r.error == IndexError;
    }
  }

  /** On the loaded tables, the commune lookup fails exactly when no row
      of the multiplier sheet carries that commune number. */
  lemma LoadedCommuneRow(cfg: ExcelConfig, communeId: real)
    ensures CommuneRow(Load(cfg).mult, communeId).Err?
            <==> forall k :: 0 <= k < |cfg.multRows| && cfg.multRows[k].communeId.Num?
                   ==> cfg.multRows[k].communeId.v != communeId
  {
    var m := Load(cfg).mult;
    if CommuneRow(m, communeId).Err? {
      forall k | 0 <= k < |cfg.multRows| && cfg.multRows[k].communeId.Num?
        ensures cfg.multRows[k].communeId.v != communeId
      {
        assert Loaded(cfg.multRows[k]) in m;
      }
    } else {
      var row := CommuneRow(m, communeId).value;
      var k :| 0 <= k < |cfg.multRows| && cfg.multRows[k].communeId.Num? && row == Loaded(cfg.multRows[k]);
      assert cfg.multRows[k].communeId.v == communeId;
    }
  }

  /** `personal_income_tax`: the cantonal tax (KeyError for a canton without
      a table), the commune's row, the federal tax, each failing in that
      order; the result is the federal tax plus the cantonal tax times the
      cantonal multiplier times the communal multiplier. */
  function PersonalIncomeTax(tb: Tables, income: real, canton: string, communeId: real): (r: Result<Value>)
    ensures canton !in tb.cantTables ==> r == Err(KeyError)
    ensures canton in tb.cantTables && r.Err? ==> r.error == IndexError
    ensures r.Ok? <==> canton in tb.cantTables
                       && ProgressiveTax(income, tb.cantTables[canton]).Ok?
                       && CommuneRow(tb.mult, communeId).Ok?
                       && ProgressiveTax(income, tb.fedTable).Ok?
  {
    if canton !in tb.cantTables then Err(KeyError)
    else match ProgressiveTax(income, tb.cantTables[canton])
      case Err(e) => Err(e)
      case Ok(cant) =>
        match CommuneRow(tb.mult, communeId)
        case Err(e) => Err(e)
        case Ok(row) =>
          match ProgressiveTax(income, tb.fedTable)
          case Err(e) => Err(e)
          case Ok(fed) => Ok(Add(Num(fed), Mul(Mul(Num(cant), row.incomeKanton), row.incomeCommune)))
  }

  /** The multipliers scale the cantonal tax by their product. */
  lemma PersonalIncomeTaxProduct(tb: Tables, income: real, canton: string, communeId: real,
                                 cant: real, fed: real, row: MultRow)
    requires canton in tb.cantTables
    requires ProgressiveTax(income, tb.cantTables[canton]) == Ok(cant)
    requires CommuneRow(tb.mult, communeId) == Ok(row)
    requires ProgressiveTax(income, tb.fedTable) == Ok(fed)
    requires row.incomeKanton.Num? && row.incomeCommune.Num?
    ensures PersonalIncomeTax(tb, income, canton, communeId)
            == Ok(Num(fed + cant * row.incomeKanton.v * row.incomeCommune.v))
  {
    var kanton := Mul(Num(cant), row.incomeKanton);
    assert kanton == Num(cant * row.incomeKanton.v);
    var scaled := Mul(kanton, row.incomeCommune);
    assert scaled == Num(cant * row.incomeKanton.v * row.incomeCommune.v);
  }

  /** Because the multipliers multiply, a commune multiplier of 0 removes
      the whole cantonal part, where app.py would still charge the
      cantonal share. */
  lemma CommuneMultiplierZero(tb: Tables, income: real, canton: string, communeId: real,
                              cant: real, fed: real, row: MultRow)
    requires canton in tb.cantTables
    requires ProgressiveTax(income, tb.cantTables[canton]) == Ok(cant)
    requires CommuneRow(tb.mult, communeId) == Ok(row)
    requires ProgressiveTax(income, tb.fedTable) == Ok(fed)
    requires row.incomeKanton.Num? && row.incomeCommune == Num(0.0)
    ensures PersonalIncomeTax(tb, income, canton, communeId) == Ok(Num(fed))
  {
    PersonalIncomeTaxProduct(tb, income, canton, communeId, cant, fed, row);
    assert cant * row.incomeKanton.v * 0.0 == 0.0;
  }

  /** `corporate_tax`: the canton's effective rate (KeyError when absent),
      the commune's row (IndexError when absent) and the profit times the
      canton's rate; the row is looked up but not used. */
  function CorporateTax(tb: Tables, profit: real, canton: string, communeId: real): (r: Result<real>)
    ensures canton !in tb.corpRate ==> r == Err(KeyError)
    ensures canton in tb.corpRate && r.Err? ==> r.error == IndexError
    ensures r.Ok? <==> canton in tb.corpRate && CommuneRow(tb.mult, communeId).Ok?
    ensures r.Ok? ==> r.value == profit * tb.corpRate[canton]
  {
    if canton !in tb.corpRate then Err(KeyError)
    else match CommuneRow(tb.mult, communeId)
      case Err(e) => Err(e)
      case Ok(_) => Ok(profit * tb.corpRate[canton])
  }

  /** The corporate tax is linear in the profit. */
  lemma CorporateTaxLinear(tb: Tables, p: real, q: real, a: real, canton: string, communeId: real)
    requires CorporateTax(tb, p, canton, communeId).Ok?
    ensures CorporateTax(tb, a * p + q, canton, communeId).Ok?
    ensures CorporateTax(tb, a * p + q, canton, communeId).value
            == a * CorporateTax(tb, p, canton, communeId).value + CorporateTax(tb, q, canton, communeId).value
  {
    var rate := tb.corpRate[canton];
    assert (a * p + q) * rate == a * (p * rate) + q * rate;
  }

  /** The commune multipliers never reach the corporate tax: multiplier
      rows that differ only in their multiplier cells (as sheets that do
      load to, by LoadSameIds) give the same result. */
  lemma CorporateTaxIgnoresMultipliers(tb: Tables, m: seq<MultRow>, profit: real,
                                       canton: string, communeId: real)
    requires |m| == |tb.mult|
    requires forall i :: 0 <= i < |m| ==> m[i].communeId == tb.mult[i].communeId
    ensures CorporateTax(tb.(mult := m), profit, canton, communeId)
            == CorporateTax(tb, profit, canton, communeId)
  {
    var k := FirstIndex(tb.mult, HasId(communeId));
    FirstIndexUnique(m, HasId(communeId), k);
    assert CommuneRow(tb.mult, communeId).Ok? <==> k < |tb.mult|;
    assert CommuneRow(m, communeId).Ok? <==> k < |m|;
    var r1, r2 := CorporateTax(tb, profit, canton, communeId), CorporateTax(tb.(mult := m), profit, canton, communeId);
    assert r1.Ok? == r2.Ok?;
    if r1.Ok? {
      assert r1.value == r2.value;
    } else {
      assert r1.error == r2.error;
    }
  }
}
