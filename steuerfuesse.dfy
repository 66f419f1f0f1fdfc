/** The tax multipliers ("Steuerfüsse") of app.py: one row per canton and
    commune, the first-match lookup of a canton/commune pair, and the
    canton-to-communes index the location pickers are filled from. */
module Steuerfuesse {
  import opened PyValues
  import opened Ordering

  /** One row of the multiplier table. `kanton`/`gemeinde` are None when
      the cell is null; a multiplier field is None when its key is absent
      from the row. */
  datatype MultiplierRow = MultiplierRow(
    kanton: Option<string>,
    gemeinde: Option<string>,
    einkommenKanton: Option<Value>,
    einkommenGemeinde: Option<Value>,
    gewinnKanton: Option<Value>,
    gewinnGemeinde: Option<Value>)

  /** Which pair of columns a lookup reads: the income-tax multipliers
      (Einkommen_*) or the profit-tax ones (Gewinn_*). */
  datatype Levy = Income | Profit

  function CantonField(row: MultiplierRow, levy: Levy): Option<Value>
  {
    if levy == Income then row.einkommenKanton else row.gewinnKanton
  }

  function CommuneField(row: MultiplierRow, levy: Levy): Option<Value>
  {
    if levy == Income then row.einkommenGemeinde else row.gewinnGemeinde
  }

  function Matching(kanton: string, gemeinde: string): MultiplierRow -> bool
  {
    (row: MultiplierRow) => row.kanton == Some(kanton) && row.gemeinde == Some(gemeinde)
  }

  /** A multiplier cell as the lookup reads it: an absent key gives the
      default, null or NaN gives 0, a number gives itself. */
  function CellOr(field: Option<Value>, default: real): (r: real)
    ensures field.None? ==> r == default
    ensures field.Some? && field.value.Num? ==> r == field.value.v
    ensures field.Some? && !field.value.Num? ==> r == 0.0
  {
    NanToZero(Get(field, default))
  }

  /** The (canton, commune) multipliers the lookup settles on: those of the
      first row naming the pair, or 1.0 and 0.0 when no row does. */
  function Multipliers(rows: seq<MultiplierRow>, kanton: string, gemeinde: string, levy: Levy): (real, real)
  {
    var i := FirstIndex(rows, Matching(kanton, gemeinde));
    if i < |rows| then
      (CellOr(CantonField(rows[i], levy), 1.0), CellOr(CommuneField(rows[i], levy), 0.0))
    else
      (1.0, 0.0)
  }

  /** When no row names the pair the multipliers are 1.0 and 0.0. */
  lemma MultipliersNoMatch(rows: seq<MultiplierRow>, kanton: string, gemeinde: string, levy: Levy)
    requires forall row <- rows :: !Matching(kanton, gemeinde)(row)
    ensures Multipliers(rows, kanton, gemeinde, levy) == (1.0, 0.0)
  {
    FirstIndexUnique(rows, Matching(kanton, gemeinde), |rows|);
  }

  /** Otherwise they are read from the first row naming the pair: an
      absent cell gives the default, a null or NaN cell gives 0. */
  lemma MultipliersFirstMatch(rows: seq<MultiplierRow>, kanton: string, gemeinde: string, levy: Levy, i: nat)
    requires i < |rows| && Matching(kanton, gemeinde)(rows[i])
    requires forall j :: 0 <= j < i ==> !Matching(kanton, gemeinde)(rows[j])
    ensures Multipliers(rows, kanton, gemeinde, levy)
            == (CellOr(CantonField(rows[i], levy), 1.0), CellOr(CommuneField(rows[i], levy), 0.0))
  {
    FirstIndexUnique(rows, Matching(kanton, gemeinde), i);
  }

  /** The lookup loop: start from 1.0 and 0.0 and overwrite both from the
      first row naming the pair. */
  method LookupMultipliers(rows: seq<MultiplierRow>, kanton: string, gemeinde: string, levy: Levy)
    returns (cantonMult: real, communeMult: real)
    ensures (cantonMult, communeMult) == Multipliers(rows, kanton, gemeinde, levy)
  {
    cantonMult, communeMult := 1.0, 0.0;
    for i := 0 to |rows|
      invariant forall j :: 0 <= j < i ==> !Matching(kanton, gemeinde)(rows[j])
    {
      var row := rows[i];
      if row.kanton == Some(kanton) && row.gemeinde == Some(gemeinde) {
        cantonMult := NanToZero(Get(CantonField(row, levy), 1.0));
        communeMult := NanToZero(Get(CommuneField(row, levy), 0.0));
        FirstIndexUnique(rows, Matching(kanton, gemeinde), i);
        return;
      }
    }
    FirstIndexUnique(rows, Matching(kanton, gemeinde), |rows|);
  }

  /** A row enters the index when it names a non-empty canton and commune
      and is not the repeated header row ("Kanton"). */
  predicate Listed(row: MultiplierRow)
  {
    row.kanton.Some? && row.kanton.value != "" && row.kanton.value != "Kanton"
    && row.gemeinde.Some? && row.gemeinde.value != ""
  }

  /** The communes of the listed rows of canton `k`, in row order. */
  function CommunesOf(rows: seq<MultiplierRow>, k: string): seq<string>
  {
    if rows == [] then []
    else
      var last := rows[|rows| - 1];
      CommunesOf(rows[..|rows| - 1], k)
        + (if Listed(last) && last.kanton.value == k then [last.gemeinde.value] else [])
  }

  /** A commune is in a canton's list exactly when some listed row pairs
      the two. */
  lemma {:induction false} CommunesOfMembers(rows: seq<MultiplierRow>, k: string, g: string)
    ensures g in CommunesOf(rows, k)
            <==> exists i :: 0 <= i < |rows| && Listed(rows[i])
                             && rows[i].kanton == Some(k) && rows[i].gemeinde == Some(g)
  {
    if rows != [] {
      var n := |rows| - 1;
      var init := rows[..n];
      CommunesOfMembers(init, k, g);
      if g in CommunesOf(rows, k) && g !in CommunesOf(init, k) {
        assert Listed(rows[n]) && rows[n].kanton == Some(k) && rows[n].gemeinde == Some(g);
      }
      if exists i :: 0 <= i < |rows| && Listed(rows[i])
                     && rows[i].kanton == Some(k) && rows[i].gemeinde == Some(g) {
        var i :| 0 <= i < |rows| && Listed(rows[i])
                 && rows[i].kanton == Some(k) && rows[i].gemeinde == Some(g);
        if i < n {
          assert init[i] == rows[i];
        }
      }
    }
  }

  /** No list is ever built for the header canton or the empty name. */
  lemma {:induction false} CommunesOfSkipped(rows: seq<MultiplierRow>)
    ensures CommunesOf(rows, "Kanton") == []
    ensures CommunesOf(rows, "") == []
  {
    if rows != [] {
      CommunesOfSkipped(rows[..|rows| - 1]);
    }
  }

  /** The first loop of `canton_to_communes`: append every listed row's
      commune to its canton's list (`setdefault(...).append`). */
  method GroupCommunes(rows: seq<MultiplierRow>) returns (m: map<string, seq<string>>)
    ensures forall k :: k in m <==> CommunesOf(rows, k) != []
    ensures forall k :: k in m ==> m[k] == CommunesOf(rows, k)
  {
    m := map[];
    for i := 0 to |rows|
      invariant forall k :: k in m <==> CommunesOf(rows[..i], k) != []
      invariant forall k :: k in m ==> m[k] == CommunesOf(rows[..i], k)
    {
      var row := rows[i];
      assert rows[..i + 1][..i] == rows[..i];
      if !Listed(row) {
        continue;
      }
      var k, g := row.kanton.value, row.gemeinde.value;
      m := m[k := (if k in m then m[k] else []) + [g]];
    }
    assert rows[..|rows|] == rows;
  }

  /** The second loop of `canton_to_communes`: sort every list in place. */
  method SortEachList(unsorted: map<string, seq<string>>) returns (m: map<string, seq<string>>)
    ensures m.Keys == unsorted.Keys
    ensures forall k :: k in m ==> Sorted(m[k], LexLe) && multiset(m[k]) == multiset(unsorted[k])
  {
    assert Total(LexLe) by {
      forall a: string, b: string
        ensures LexLe(a, b) || LexLe(b, a)
      {
        LexTotal(a, b);
      }
    }
    m := unsorted;
    var pending := m.Keys;
    while pending != {}
      invariant pending <= m.Keys && m.Keys == unsorted.Keys
      invariant forall k :: k in pending ==> m[k] == unsorted[k]
      invariant forall k :: k in m && k !in pending ==>
                  Sorted(m[k], LexLe) && multiset(m[k]) == multiset(unsorted[k])
      decreases pending
    {
      var k :| k in pending;
      m := m[k := InsertionSort(m[k], LexLe)];
      pending := pending - {k};
    }
  }

  /** `canton_to_communes`: every canton with a listed row has a list,
      holding exactly its communes (duplicates kept), sorted as Python
      sorts strings; the header canton and the empty name have none. */
  method BuildCantonToCommunes(rows: seq<MultiplierRow>) returns (m: map<string, seq<string>>)
    ensures forall k :: k in m <==> CommunesOf(rows, k) != []
    ensures forall k :: k in m ==> Sorted(m[k], LexLe)
    ensures forall k :: k in m ==> multiset(m[k]) == multiset(CommunesOf(rows, k))
    ensures "Kanton" !in m && "" !in m
  {
    var grouped := GroupCommunes(rows);
    m := SortEachList(grouped);
    CommunesOfSkipped(rows);
  }
}
