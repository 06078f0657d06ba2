/**
 * The VAT balance of a period: totals and taxes of the sales and purchase
 * ledgers in GTQ (the tax read from the ledgers' own tax columns), the tax
 * payable or the credit carried forward, and per-currency breakdowns of
 * the totals and of the taxes.
 */
module TaxCalculation {
  import opened Cells
  import opened TaxTypes
  import opened CurrencyAggregation

  /** The exchange rate calculateTax uses when the caller gives none. */
  const DEFAULT_EXCHANGE_RATE: real := 7.75

  /** calculateTaxPayable: the excess of sales tax over purchase tax, or 0. */
  function TaxPayable(salesTax: real, purchasesTax: real): (r: real)
    ensures r >= 0.0 && r >= salesTax - purchasesTax
    ensures r == 0.0 || r == salesTax - purchasesTax
  {
    var difference := salesTax - purchasesTax;
    if difference > 0.0 then difference else 0.0
  }

  /** calculateTaxCredit: the excess of purchase tax over sales tax, or 0. */
  function TaxCredit(salesTax: real, purchasesTax: real): (r: real)
    ensures r >= 0.0 && r >= purchasesTax - salesTax
    ensures r == 0.0 || r == purchasesTax - salesTax
  {
    var difference := salesTax - purchasesTax;
    if difference < 0.0 then -difference else 0.0
  }

  /**
   * At most one of the two is non-zero, and payable minus credit is the
   * difference of the taxes: tax is owed exactly when sales tax exceeds
   * purchase tax and a credit arises exactly when it falls short.
   */
  lemma {:induction false} PayableAndCredit(salesTax: real, purchasesTax: real)
    ensures TaxPayable(salesTax, purchasesTax) * TaxCredit(salesTax, purchasesTax) == 0.0
    ensures TaxPayable(salesTax, purchasesTax) - TaxCredit(salesTax, purchasesTax) == salesTax - purchasesTax
    ensures TaxPayable(salesTax, purchasesTax) > 0.0 <==> salesTax > purchasesTax
    ensures TaxCredit(salesTax, purchasesTax) > 0.0 <==> purchasesTax > salesTax
  {
    if salesTax - purchasesTax > 0.0 {
      assert TaxCredit(salesTax, purchasesTax) == 0.0;
    } else {
      assert TaxPayable(salesTax, purchasesTax) == 0.0;
    }
  }

  /**
   * One ledger's currency breakdown built from its sums: the USD part is
   * the unconverted USD sum times the rate, and the GTQ part is what is
   * left of the converted total.
   */
  function BreakdownOf(sums: ColumnSums, rate: real): CurrencyBreakdown
  {
    CurrencyBreakdown(
      UsdPart(sums.usdCount, sums.originalUsdTotal * rate, sums.originalUsdTotal),
      GtqPart(sums.gtqCount, sums.total - sums.originalUsdTotal * rate))
  }

  /** What calculateTax returns. */
  function CalculateTax(salesData: seq<Row>, purchasesData: seq<Row>, columnMappings: LedgerMappings, exchangeRate: real)
    : (r: TaxCalculationResult)
    ensures r.baseCurrency == BASE_CURRENCY && r.exchangeRate == exchangeRate
    ensures r.salesData == salesData && r.purchasesData == purchasesData && r.detectedColumns == columnMappings
  {
    var salesSummary := ColumnSum(salesData, columnMappings.sales.total, columnMappings.sales.currency, exchangeRate);
    var purchasesSummary := ColumnSum(purchasesData, columnMappings.purchases.total, columnMappings.purchases.currency, exchangeRate);
    var salesTaxSummary := ColumnSum(salesData, columnMappings.sales.tax, columnMappings.sales.currency, exchangeRate);
    var purchasesTaxSummary := ColumnSum(purchasesData, columnMappings.purchases.tax, columnMappings.purchases.currency, exchangeRate);
    var salesTax := salesTaxSummary.total;
    var purchasesTax := purchasesTaxSummary.total;
    TaxCalculationResult(
      salesSummary.total,
      purchasesSummary.total,
      salesTax,
      purchasesTax,
      TaxPayable(salesTax, purchasesTax),
      TaxCredit(salesTax, purchasesTax),
      salesData,
      purchasesData,
      columnMappings,
      exchangeRate,
      BASE_CURRENCY,
      LedgerBreakdowns(BreakdownOf(salesSummary, exchangeRate), BreakdownOf(purchasesSummary, exchangeRate)),
      LedgerBreakdowns(BreakdownOf(salesTaxSummary, exchangeRate), BreakdownOf(purchasesTaxSummary, exchangeRate)))
  }

  /** calculateTax called without an exchange rate. */
  function CalculateTaxWithDefaultRate(salesData: seq<Row>, purchasesData: seq<Row>, columnMappings: LedgerMappings)
    : (r: TaxCalculationResult)
    ensures r.exchangeRate == 7.75
  {
    CalculateTax(salesData, purchasesData, columnMappings, DEFAULT_EXCHANGE_RATE)
  }

  /** Any breakdown's parts add up to the converted total, and its USD part is the rate times the unconverted USD sum. */
  lemma {:induction false} BreakdownAddsUp(sums: ColumnSums, rate: real)
    ensures BreakdownOf(sums, rate).usd.total + BreakdownOf(sums, rate).gtq.total == sums.total
    ensures BreakdownOf(sums, rate).usd.total == BreakdownOf(sums, rate).usd.originalTotal * rate
    ensures BreakdownOf(sums, rate).usd.count == sums.usdCount && BreakdownOf(sums, rate).gtq.count == sums.gtqCount
  {
  }

  /**
   * One ledger's breakdown of a mapped column: every row is counted once,
   * the original USD total is the USD rows' sum, and the GTQ part,
   * computed by subtraction, is exactly the GTQ rows' sum.
   */
  lemma {:induction false} BreakdownProperties(data: seq<Row>, column: Option<string>, currencyColumn: Option<string>, rate: real)
    requires HasColumn(column)
    ensures var b := BreakdownOf(ColumnSum(data, column, currencyColumn, rate), rate);
      b.usd.count + b.gtq.count == |data|
      && b.usd.originalTotal == UsdOriginal(data, column.value, UsdKey(currencyColumn))
      && b.gtq.total == GtqTotal(data, column.value, UsdKey(currencyColumn))
  {
    assert ColumnSum(data, column, currencyColumn, rate) == Accumulate(data, column.value, UsdKey(currencyColumn), rate);
    BreakdownOfSums(data, column.value, UsdKey(currencyColumn), rate);
  }

  /** The breakdown of the accumulated sums: its USD original is the USD rows' sum, its GTQ part the GTQ rows' sum. */
  lemma {:induction false} BreakdownOfSums(data: seq<Row>, column: string, usdKey: Option<string>, rate: real)
    ensures BreakdownOf(Accumulate(data, column, usdKey, rate), rate).usd.originalTotal == UsdOriginal(data, column, usdKey)
    ensures BreakdownOf(Accumulate(data, column, usdKey, rate), rate).gtq.total == GtqTotal(data, column, usdKey)
  {
    AccumulateSplitsByCurrency(data, column, usdKey, rate);
    GtqPartIsGtqRows(data, column, usdKey, rate);
  }

  /** The GTQ part of the breakdown of the accumulated sums is the GTQ rows' sum. */
  lemma {:induction false} GtqPartIsGtqRows(data: seq<Row>, column: string, usdKey: Option<string>, rate: real)
    ensures BreakdownOf(Accumulate(data, column, usdKey, rate), rate).gtq.total == GtqTotal(data, column, usdKey)
  {
    var sums := Accumulate(data, column, usdKey, rate);
    GtqIsTotalLessConvertedUsd(data, column, usdKey, rate);
    GtqPartOf(sums, rate);
  }

  /** The GTQ part of a breakdown is its sums' total less the converted USD sum. */
  lemma {:induction false} GtqPartOf(sums: ColumnSums, rate: real)
    ensures BreakdownOf(sums, rate).gtq.total == sums.total - sums.originalUsdTotal * rate
  {
  }

  /** Without a mapped column the breakdown is all zeros. */
  lemma {:induction false} BreakdownWithoutColumn(data: seq<Row>, column: Option<string>, currencyColumn: Option<string>, rate: real)
    requires !HasColumn(column)
    ensures BreakdownOf(ColumnSum(data, column, currencyColumn, rate), rate)
         == CurrencyBreakdown(UsdPart(0, 0.0, 0.0), GtqPart(0, 0.0))
  {
  }

  /**
   * The taxes of calculateTax are the sums of the mapped tax columns, not a
   * rate applied to the totals; with no tax column there is no tax at all.
   */
  lemma {:induction false} CalculateTaxTaxes(salesData: seq<Row>, purchasesData: seq<Row>, columnMappings: LedgerMappings, exchangeRate: real)
    ensures var r := CalculateTax(salesData, purchasesData, columnMappings, exchangeRate);
      r.salesTax == ColumnSum(salesData, columnMappings.sales.tax, columnMappings.sales.currency, exchangeRate).total
      && r.purchasesTax == ColumnSum(purchasesData, columnMappings.purchases.tax, columnMappings.purchases.currency, exchangeRate).total
    ensures var r := CalculateTax(salesData, purchasesData, columnMappings, exchangeRate);
      !HasColumn(columnMappings.sales.tax) && !HasColumn(columnMappings.purchases.tax) ==>
        r.salesTax == 0.0 && r.purchasesTax == 0.0 && r.taxPayable == 0.0 && r.taxCredit == 0.0
  {
  }

  /** Payable and credit of calculateTax settle the difference of its taxes, and at most one is non-zero. */
  lemma {:induction false} CalculateTaxSettles(salesData: seq<Row>, purchasesData: seq<Row>, columnMappings: LedgerMappings, exchangeRate: real)
    ensures var r := CalculateTax(salesData, purchasesData, columnMappings, exchangeRate);
      r.taxPayable * r.taxCredit == 0.0 && r.taxPayable - r.taxCredit == r.salesTax - r.purchasesTax
      && r.taxPayable >= 0.0 && r.taxCredit >= 0.0
  {
    var r := CalculateTax(salesData, purchasesData, columnMappings, exchangeRate);
    PayableAndCredit(r.salesTax, r.purchasesTax);
  }

  /** Both breakdowns of both ledgers add up to the totals and taxes of calculateTax. */
  lemma {:induction false} CalculateTaxBreakdownsAddUp(salesData: seq<Row>, purchasesData: seq<Row>, columnMappings: LedgerMappings, exchangeRate: real)
    ensures var r := CalculateTax(salesData, purchasesData, columnMappings, exchangeRate);
      r.currencyBreakdown.sales.usd.total + r.currencyBreakdown.sales.gtq.total == r.totalSales
      && r.currencyBreakdown.purchases.usd.total + r.currencyBreakdown.purchases.gtq.total == r.totalPurchases
      && r.taxBreakdown.sales.usd.total + r.taxBreakdown.sales.gtq.total == r.salesTax
      && r.taxBreakdown.purchases.usd.total + r.taxBreakdown.purchases.gtq.total == r.purchasesTax
  {
    BreakdownAddsUp(ColumnSum(salesData, columnMappings.sales.total, columnMappings.sales.currency, exchangeRate), exchangeRate);
    BreakdownAddsUp(ColumnSum(purchasesData, columnMappings.purchases.total, columnMappings.purchases.currency, exchangeRate), exchangeRate);
    BreakdownAddsUp(ColumnSum(salesData, columnMappings.sales.tax, columnMappings.sales.currency, exchangeRate), exchangeRate);
    BreakdownAddsUp(ColumnSum(purchasesData, columnMappings.purchases.tax, columnMappings.purchases.currency, exchangeRate), exchangeRate);
  }
}
