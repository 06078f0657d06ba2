/**
 * sumColumnValues: the sum of one column over a ledger in GTQ, converting
 * the rows whose currency cell reads "USD" (in any letter case) at the
 * exchange rate, with per-currency counts and the unconverted USD sum.
 * The tax calculation and the document classification each carry an
 * identical copy of it; both use this one. The per-currency sums below
 * are shared with the category and currency breakdowns.
 */
module CurrencyAggregation {
  import opened Text
  import opened Cells
  import opened NumericValue

  datatype ColumnSums = ColumnSums(total: real, usdCount: nat, gtqCount: nat, originalUsdTotal: real)

  const NO_SUMS: ColumnSums := ColumnSums(0.0, 0, 0, 0.0)

  /** The column's value on one row. */
  function ValueAt(row: Row, column: string): real
  {
    ParseNumericValue(Get(row, column))
  }

  /**
   * Where a row's currency is read: None when every row is taken as GTQ
   * (sumColumnValues without a currency column), Some(key) to read row[key].
   */
  function UsdKey(currencyColumn: Option<string>): Option<string>
  {
    if HasColumn(currencyColumn) then Some(currencyColumn.value) else None
  }

  predicate RowIsUsd(row: Row, usdKey: Option<string>)
  {
    usdKey.Some? && IsUsd(Get(row, usdKey.value))
  }

  /** The column value of one row in GTQ: a USD row's value times the rate, any other row's value. */
  function Converted(row: Row, column: string, usdKey: Option<string>, rate: real): real
  {
    if RowIsUsd(row, usdKey) then ValueAt(row, column) * rate else ValueAt(row, column)
  }

  /** The sums over the rows of data, reading the column named column. */
  function Accumulate(data: seq<Row>, column: string, usdKey: Option<string>, rate: real): (r: ColumnSums)
    ensures r.usdCount + r.gtqCount == |data|
  {
    if |data| == 0 then NO_SUMS
    else
      var acc := Accumulate(data[..|data| - 1], column, usdKey, rate);
      var row := data[|data| - 1];
      var total := acc.total + Converted(row, column, usdKey, rate);
      if RowIsUsd(row, usdKey) then
        ColumnSums(total, acc.usdCount + 1, acc.gtqCount, acc.originalUsdTotal + ValueAt(row, column))
      else
        ColumnSums(total, acc.usdCount, acc.gtqCount + 1, acc.originalUsdTotal)
  }

  /** One loop step: the sums over data[..i + 1] extend those over data[..i] by row i. */
  lemma {:induction false} AccumulateStep(data: seq<Row>, i: nat, column: string, usdKey: Option<string>, rate: real)
    requires i < |data|
    ensures Accumulate(data[..i + 1], column, usdKey, rate).usdCount
         == Accumulate(data[..i], column, usdKey, rate).usdCount + (if RowIsUsd(data[i], usdKey) then 1 else 0)
    ensures Accumulate(data[..i + 1], column, usdKey, rate).total
         == Accumulate(data[..i], column, usdKey, rate).total + Converted(data[i], column, usdKey, rate)
  {
    assert data[..i + 1][..i] == data[..i];
  }

  /** What sumColumnValues returns: all zeros when the column name is missing or empty. */
  function ColumnSum(data: seq<Row>, column: Option<string>, currencyColumn: Option<string>, rate: real): (r: ColumnSums)
    ensures !HasColumn(column) ==> r == NO_SUMS
    ensures HasColumn(column) ==> r.usdCount + r.gtqCount == |data|
  {
    if !HasColumn(column) then NO_SUMS else Accumulate(data, column.value, UsdKey(currencyColumn), rate)
  }

  method SumColumnValues(data: seq<Row>, column: Option<string>, currencyColumn: Option<string>, rate: real)
    returns (r: ColumnSums)
    ensures r == ColumnSum(data, column, currencyColumn, rate)
    ensures !HasColumn(column) ==> r == NO_SUMS
    ensures HasColumn(column) ==> r.usdCount + r.gtqCount == |data|
  {
    if !HasColumn(column) {
      return NO_SUMS;
    }
    var total := 0.0;
    var usdCount := 0;
    var gtqCount := 0;
    var originalUsdTotal := 0.0;
    var i := 0;
    while i < |data|
      invariant 0 <= i <= |data|
      invariant ColumnSums(total, usdCount, gtqCount, originalUsdTotal)
             == Accumulate(data[..i], column.value, UsdKey(currencyColumn), rate)
    {
      var row := data[i];
      var numericValue := ValueAt(row, column.value);
      assert data[..i + 1][..i] == data[..i];
      if RowIsUsd(row, UsdKey(currencyColumn)) {
        total := total + Converted(row, column.value, UsdKey(currencyColumn), rate);
        originalUsdTotal := originalUsdTotal + numericValue;
        usdCount := usdCount + 1;
      } else {
        total := total + numericValue;
        gtqCount := gtqCount + 1;
      }
      i := i + 1;
    }
    assert data[..i] == data;
    r := ColumnSums(total, usdCount, gtqCount, originalUsdTotal);
  }

  /** The GTQ rows' sum of the column. */
  function GtqTotal(data: seq<Row>, column: string, usdKey: Option<string>): real
  {
    if |data| == 0 then 0.0
    else
      var row := data[|data| - 1];
      GtqTotal(data[..|data| - 1], column, usdKey)
      + (if RowIsUsd(row, usdKey) then 0.0 else ValueAt(row, column))
  }

  /** The USD rows' sum of the column, before conversion. */
  function UsdOriginal(data: seq<Row>, column: string, usdKey: Option<string>): real
  {
    if |data| == 0 then 0.0
    else
      var row := data[|data| - 1];
      UsdOriginal(data[..|data| - 1], column, usdKey)
      + (if RowIsUsd(row, usdKey) then ValueAt(row, column) else 0.0)
  }

  /** The USD rows' sum of the column, each row converted at the rate. */
  function UsdConverted(data: seq<Row>, column: string, usdKey: Option<string>, rate: real): real
  {
    if |data| == 0 then 0.0
    else
      var row := data[|data| - 1];
      UsdConverted(data[..|data| - 1], column, usdKey, rate)
      + (if RowIsUsd(row, usdKey) then Converted(row, column, usdKey, rate) else 0.0)
  }

  /** One loop step of the per-currency sums. */
  lemma {:induction false} PerCurrencyStep(data: seq<Row>, i: nat, column: string, usdKey: Option<string>, rate: real)
    requires i < |data|
    ensures GtqTotal(data[..i + 1], column, usdKey)
         == GtqTotal(data[..i], column, usdKey) + (if RowIsUsd(data[i], usdKey) then 0.0 else ValueAt(data[i], column))
    ensures UsdOriginal(data[..i + 1], column, usdKey)
         == UsdOriginal(data[..i], column, usdKey) + (if RowIsUsd(data[i], usdKey) then ValueAt(data[i], column) else 0.0)
    ensures UsdConverted(data[..i + 1], column, usdKey, rate)
         == UsdConverted(data[..i], column, usdKey, rate) + (if RowIsUsd(data[i], usdKey) then Converted(data[i], column, usdKey, rate) else 0.0)
  {
    assert data[..i + 1][..i] == data[..i];
  }

  /** A row's share of the unconverted USD sum: its value when it is USD, 0 otherwise. */
  function UsdShare(row: Row, column: string, usdKey: Option<string>): real
  {
    if RowIsUsd(row, usdKey) then ValueAt(row, column) else 0.0
  }

  /** A row's share of the converted USD sum. */
  function ConvertedShare(row: Row, column: string, usdKey: Option<string>, rate: real): real
  {
    if RowIsUsd(row, usdKey) then Converted(row, column, usdKey, rate) else 0.0
  }

  /** Each row's unconverted USD share, in row order. */
  function UsdShares(data: seq<Row>, column: string, usdKey: Option<string>): (r: seq<real>)
    ensures |r| == |data|
  {
    seq(|data|, i requires 0 <= i < |data| => UsdShare(data[i], column, usdKey))
  }

  /** Each row's converted USD share, in row order. */
  function ConvertedShares(data: seq<Row>, column: string, usdKey: Option<string>, rate: real): (r: seq<real>)
    ensures |r| == |data|
  {
    seq(|data|, i requires 0 <= i < |data| => ConvertedShare(data[i], column, usdKey, rate))
  }

  function Sum(xs: seq<real>): real
  {
    if |xs| == 0 then 0.0 else Sum(xs[..|xs| - 1]) + xs[|xs| - 1]
  }

  /** One step of the scaling argument, on plain numbers. */
  lemma {:induction false} ScaleStep(sumYs: real, sumXs: real, x: real, y: real, rate: real)
    requires sumYs == rate * sumXs
    requires y == x * rate
    ensures sumYs + y == rate * (sumXs + x)
  {
  }

  /** Scaling every term scales the sum. */
  lemma {:induction false} SumScales(ys: seq<real>, xs: seq<real>, rate: real)
    requires |ys| == |xs|
    requires forall i :: 0 <= i < |xs| ==> ys[i] == xs[i] * rate
    ensures Sum(ys) == rate * Sum(xs)
  {
    if |xs| > 0 {
      var n := |xs| - 1;
      SumScales(ys[..n], xs[..n], rate);
      ScaleStep(Sum(ys[..n]), Sum(xs[..n]), xs[n], ys[n], rate);
    }
  }

  /** The unconverted USD sum adds up the rows' USD shares. */
  lemma {:induction false} UsdOriginalIsSum(data: seq<Row>, column: string, usdKey: Option<string>)
    ensures UsdOriginal(data, column, usdKey) == Sum(UsdShares(data, column, usdKey))
  {
    if |data| > 0 {
      var p := data[..|data| - 1];
      UsdOriginalIsSum(p, column, usdKey);
      assert UsdShares(data, column, usdKey)[..|p|] == UsdShares(p, column, usdKey);
    }
  }

  /** The converted USD sum adds up the rows' converted shares. */
  lemma {:induction false} UsdConvertedIsSum(data: seq<Row>, column: string, usdKey: Option<string>, rate: real)
    ensures UsdConverted(data, column, usdKey, rate) == Sum(ConvertedShares(data, column, usdKey, rate))
  {
    if |data| > 0 {
      var p := data[..|data| - 1];
      UsdConvertedIsSum(p, column, usdKey, rate);
      assert ConvertedShares(data, column, usdKey, rate)[..|p|] == ConvertedShares(p, column, usdKey, rate);
    }
  }

  /** A row's converted share is its unconverted share times the rate. */
  lemma {:induction false} ShareConverts(row: Row, column: string, usdKey: Option<string>, rate: real)
    ensures ConvertedShare(row, column, usdKey, rate) == UsdShare(row, column, usdKey) * rate
  {
  }

  /** Row by row, the converted shares are the unconverted ones times the rate. */
  lemma {:induction false} SharesConvert(data: seq<Row>, column: string, usdKey: Option<string>, rate: real)
    ensures forall i :: 0 <= i < |data| ==>
      ConvertedShares(data, column, usdKey, rate)[i] == UsdShares(data, column, usdKey)[i] * rate
  {
    forall i | 0 <= i < |data|
      ensures ConvertedShares(data, column, usdKey, rate)[i] == UsdShares(data, column, usdKey)[i] * rate
    {
      ShareConverts(data[i], column, usdKey, rate);
    }
  }

  /** The converted shares add up to the rate times the unconverted ones. */
  lemma {:induction false} SharesSumConverts(data: seq<Row>, column: string, usdKey: Option<string>, rate: real)
    ensures Sum(ConvertedShares(data, column, usdKey, rate)) == rate * Sum(UsdShares(data, column, usdKey))
  {
    SharesConvert(data, column, usdKey, rate);
    SumScales(ConvertedShares(data, column, usdKey, rate), UsdShares(data, column, usdKey), rate);
  }

  /** Converting row by row is converting the sum. */
  lemma {:induction false} ConvertedIsRateTimesOriginal(data: seq<Row>, column: string, usdKey: Option<string>, rate: real)
    ensures UsdConverted(data, column, usdKey, rate) == rate * UsdOriginal(data, column, usdKey)
  {
    SharesSumConverts(data, column, usdKey, rate);
    UsdOriginalIsSum(data, column, usdKey);
    UsdConvertedIsSum(data, column, usdKey, rate);
  }

  /** The accumulated sums are the per-currency sums. */
  lemma {:induction false} AccumulateSplitsByCurrency(data: seq<Row>, column: string, usdKey: Option<string>, rate: real)
    ensures Accumulate(data, column, usdKey, rate).originalUsdTotal == UsdOriginal(data, column, usdKey)
    ensures Accumulate(data, column, usdKey, rate).total
         == GtqTotal(data, column, usdKey) + UsdConverted(data, column, usdKey, rate)
  {
    if |data| > 0 {
      AccumulateSplitsByCurrency(data[..|data| - 1], column, usdKey, rate);
    }
  }

  /** The total is the GTQ sum plus the USD sum converted at the rate. */
  lemma {:induction false} TotalSplitsByCurrency(data: seq<Row>, column: string, usdKey: Option<string>, rate: real)
    ensures Accumulate(data, column, usdKey, rate).originalUsdTotal == UsdOriginal(data, column, usdKey)
    ensures Accumulate(data, column, usdKey, rate).total
         == GtqTotal(data, column, usdKey) + rate * UsdOriginal(data, column, usdKey)
  {
    AccumulateSplitsByCurrency(data, column, usdKey, rate);
    ConvertedIsRateTimesOriginal(data, column, usdKey, rate);
  }

  /** Taking the converted USD sum off the total leaves the GTQ rows' sum. */
  lemma {:induction false} GtqIsTotalLessConvertedUsd(data: seq<Row>, column: string, usdKey: Option<string>, rate: real)
    ensures Accumulate(data, column, usdKey, rate).total - Accumulate(data, column, usdKey, rate).originalUsdTotal * rate
         == GtqTotal(data, column, usdKey)
  {
    GtqOfSums(Accumulate(data, column, usdKey, rate), GtqTotal(data, column, usdKey), data, column, usdKey, rate);
  }

  /** The same, for the sums and the GTQ sum of data held as values. */
  lemma {:induction false} GtqOfSums(sums: ColumnSums, gtq: real, data: seq<Row>, column: string, usdKey: Option<string>, rate: real)
    requires sums == Accumulate(data, column, usdKey, rate) && gtq == GtqTotal(data, column, usdKey)
    ensures sums.total - sums.originalUsdTotal * rate == gtq
  {
    var original := UsdOriginal(data, column, usdKey);
    TotalSplitsByCurrency(data, column, usdKey, rate);
    SubtractConverted(sums.total, sums.originalUsdTotal, gtq, original, rate);
  }

  /** What remains of a total once the converted USD sum is taken off, on plain numbers. */
  lemma {:induction false} SubtractConverted(total: real, originalUsdTotal: real, gtq: real, original: real, rate: real)
    requires total == gtq + rate * original
    requires originalUsdTotal == original
    ensures total - originalUsdTotal * rate == gtq
  {
  }

  /** Sums over a concatenation add up. */
  lemma {:induction false} AccumulateAppend(a: seq<Row>, b: seq<Row>, column: string, usdKey: Option<string>, rate: real)
    ensures Accumulate(a + b, column, usdKey, rate).total
         == Accumulate(a, column, usdKey, rate).total + Accumulate(b, column, usdKey, rate).total
  {
    if |b| == 0 {
      assert a + b == a;
    } else {
      assert (a + b)[..|a + b| - 1] == a + b[..|b| - 1];
      AccumulateAppend(a, b[..|b| - 1], column, usdKey, rate);
    }
  }

  /** Without a currency key every row counts as GTQ, whatever the rate. */
  lemma {:induction false} AllGtqWithoutCurrency(data: seq<Row>, column: string, rate1: real, rate2: real)
    ensures Accumulate(data, column, None, rate1).usdCount == 0
    ensures Accumulate(data, column, None, rate1).originalUsdTotal == 0.0
    ensures Accumulate(data, column, None, rate1).total == Accumulate(data, column, None, rate2).total
  {
    if |data| > 0 {
      AllGtqWithoutCurrency(data[..|data| - 1], column, rate1, rate2);
    }
  }

  /**
   * sumColumnValues splits by currency: its unconverted USD total is the USD
   * rows' sum, and its total is the GTQ sum plus the rate times that sum.
   */
  lemma {:induction false} ColumnSumSplitsByCurrency(data: seq<Row>, column: Option<string>, currencyColumn: Option<string>, rate: real)
    ensures HasColumn(column) ==>
      ColumnSum(data, column, currencyColumn, rate).originalUsdTotal == UsdOriginal(data, column.value, UsdKey(currencyColumn))
    ensures HasColumn(column) ==>
      ColumnSum(data, column, currencyColumn, rate).total
      == GtqTotal(data, column.value, UsdKey(currencyColumn)) + rate * UsdOriginal(data, column.value, UsdKey(currencyColumn))
  {
    if HasColumn(column) {
      assert ColumnSum(data, column, currencyColumn, rate) == Accumulate(data, column.value, UsdKey(currencyColumn), rate);
      TotalSplitsByCurrency(data, column.value, UsdKey(currencyColumn), rate);
    }
  }

  /** Without a currency column sumColumnValues counts no USD row, and its total does not depend on the rate. */
  lemma {:induction false} ColumnSumWithoutCurrency(data: seq<Row>, column: Option<string>, currencyColumn: Option<string>, rate: real, otherRate: real)
    ensures !HasColumn(currencyColumn) ==> ColumnSum(data, column, currencyColumn, rate).usdCount == 0
    ensures !HasColumn(currencyColumn) ==>
      ColumnSum(data, column, currencyColumn, rate).total == ColumnSum(data, column, currencyColumn, otherRate).total
  {
    if HasColumn(column) && !HasColumn(currencyColumn) {
      AllGtqWithoutCurrency(data, column.value, rate, otherRate);
    }
  }

  /** 'usd', 'Usd' and 'USD' all mark a row as USD. */
  lemma {:induction false} UsdIsCaseInsensitive(row: Row, currencyColumn: string)
    ensures RowIsUsd(row[currencyColumn := Str("usd")], Some(currencyColumn))
    ensures RowIsUsd(row[currencyColumn := Str("Usd")], Some(currencyColumn))
    ensures RowIsUsd(row[currencyColumn := Str("USD")], Some(currencyColumn))
  {
    assert ToUpper("usd") == "USD";
    assert ToUpper("Usd") == "USD";
  }
}
