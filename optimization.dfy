/**
 * The optimizer's front and back end: build one candidate invoice per
 * eligible purchase row (amounts converted to GTQ, tax ratio, efficiency
 * score), run the selection engine against the sales tax, and derive the
 * result record, the selection grouped by document type and summary
 * statistics.
 */
module InvoiceOptimization {
  import opened Cells
  import opened NumericValue
  import opened TaxTypes
  import opened InvoiceScore
  import opened InvoiceValidation
  import opened DocumentClassification
  import opened InvoiceSelection

  // ------------------------------------------------------ invoice creation

  /**
   * The string conversion of a truthy non-text cell: true, and a whole number
   * in decimal. A fractional number and a Date are rendered as the empty
   * text (JavaScript's number and date formatting is not modelled).
   */
  function OtherText(c: Cell): string
  {
    match c
    case Bool(b) => if b then "true" else "false"
    case Num(x) =>
      if x >= 0.0 && x.Floor as real == x then NatToText(x.Floor)
      else if x < 0.0 && (-x).Floor as real == -x then "-" + NatToText((-x).Floor)
      else ""
    case _ => ""
  }

  /** The text of a cell, or the fallback when the cell is falsy. */
  function TextOr(c: Cell, fallback: string): (r: string)
    ensures !Truthy(c) ==> r == fallback
    ensures c.Str? && c.s != "" ==> r == c.s
  {
    if !Truthy(c) then fallback
    else if c.Str? then c.s
    else OtherText(c)
  }

  /** The amount in GTQ: a USD amount times the exchange rate, any other amount as it is. */
  function ToGtq(amount: real, usd: bool, exchangeRate: real): real
  {
    if usd then amount * exchangeRate else amount
  }

  /** The converted tax over the converted total when the total is positive, 0 otherwise. */
  function TaxRatio(taxAmount: real, totalAmount: real): (r: real)
    ensures totalAmount > 0.0 ==> r * totalAmount == taxAmount
    ensures totalAmount <= 0.0 ==> r == 0.0
    ensures totalAmount > 0.0 && 0.0 <= taxAmount <= totalAmount ==> 0.0 <= r <= 1.0
  {
    if totalAmount > 0.0 then
      RatioWithinUnit(taxAmount, totalAmount);
      taxAmount / totalAmount
    else 0.0
  }

  /** A part of a positive whole, over that whole, lies between 0 and 1. */
  lemma {:induction false} RatioWithinUnit(part: real, whole: real)
    requires whole > 0.0
    ensures 0.0 <= part <= whole ==> 0.0 <= part / whole <= 1.0
  {
    var inverse := 1.0 / whole;
    assert inverse * whole == 1.0;
    assert inverse > 0.0;
    assert part / whole == part * inverse;
    assert (whole - part) * inverse == 1.0 - part * inverse;
    if 0.0 <= part <= whole {
      assert part * inverse >= 0.0;
      assert (whole - part) * inverse >= 0.0;
    }
  }

  /** The currency cell of a row: the mapped column, or the column literally named "GTQ" when none was mapped. */
  function CurrencyCell(row: Row, m: ColumnMapping): Cell
  {
    Get(row, KeyOr(m.currency, BASE_CURRENCY))
  }

  function RawTax(row: Row, m: ColumnMapping): real
  {
    ParseNumericValue(Get(row, KeyOr(m.tax, "")))
  }

  function RawTotal(row: Row, m: ColumnMapping): real
  {
    ParseNumericValue(Get(row, KeyOr(m.total, "")))
  }

  /** The invoice built for a row before it is scored: amounts in GTQ, score 0. */
  function Unscored(row: Row, m: ColumnMapping, exchangeRate: real): Invoice
  {
    var usd := IsUsd(CurrencyCell(row, m));
    var convertedTaxAmount := ToGtq(RawTax(row, m), usd, exchangeRate);
    var convertedTotalAmount := ToGtq(RawTotal(row, m), usd, exchangeRate);
    Invoice(
      TextOr(Get(row, KeyOr(m.invoiceNumber, "")), "N/A"),
      TextOr(Get(row, KeyOr(m.taxpayerName, "")), "N/A"),
      convertedTotalAmount,
      convertedTaxAmount,
      if usd then "USD" else "GTQ",
      ClassifyDocument(row),
      row,
      TaxRatio(convertedTaxAmount, convertedTotalAmount),
      0.0,
      true)
  }

  /** The invoice with its efficiency score set to the scorer's score of it. */
  function Scored(invoice: Invoice): (r: Invoice)
    ensures r == invoice.(efficiencyScore := r.efficiencyScore)
    ensures r.efficiencyScore == EfficiencyScore(r) && 0.23 <= r.efficiencyScore <= 1.0
  {
    var r := invoice.(efficiencyScore := EfficiencyScore(invoice));
    ScoreIgnoresOtherFields(invoice, r);
    r
  }

  /** The body of the createOptimizedInvoiceList loop for one row that passed validation. */
  function MakeInvoice(row: Row, m: ColumnMapping, exchangeRate: real): Invoice
  {
    Scored(Unscored(row, m, exchangeRate))
  }

  /** The created invoice agrees with the unscored one on every field but the score. */
  lemma {:induction false} MakeInvoiceFields(row: Row, m: ColumnMapping, exchangeRate: real)
    ensures MakeInvoice(row, m, exchangeRate)
         == Unscored(row, m, exchangeRate).(efficiencyScore := MakeInvoice(row, m, exchangeRate).efficiencyScore)
  {
  }

  /** A created invoice is marked valid, keeps its row, and is in USD exactly when the currency cell reads "USD", else in GTQ. */
  lemma {:induction false} MakeInvoiceCurrency(row: Row, m: ColumnMapping, exchangeRate: real)
    ensures var r := MakeInvoice(row, m, exchangeRate);
      r.isValid && r.originalRow == row && (r.currency == "USD" || r.currency == "GTQ")
    ensures MakeInvoice(row, m, exchangeRate).currency == "USD" <==> IsUsd(CurrencyCell(row, m))
  {
    MakeInvoiceFields(row, m, exchangeRate);
  }

  /** A USD invoice has both amounts multiplied by the rate; any other keeps them as parsed. */
  lemma {:induction false} MakeInvoiceAmounts(row: Row, m: ColumnMapping, exchangeRate: real)
    ensures var r := MakeInvoice(row, m, exchangeRate);
      IsUsd(CurrencyCell(row, m)) ==> r.taxAmount == RawTax(row, m) * exchangeRate && r.totalAmount == RawTotal(row, m) * exchangeRate
    ensures var r := MakeInvoice(row, m, exchangeRate);
      !IsUsd(CurrencyCell(row, m)) ==> r.taxAmount == RawTax(row, m) && r.totalAmount == RawTotal(row, m)
  {
    MakeInvoiceFields(row, m, exchangeRate);
  }

  /**
   * The ratio of a created invoice is TaxRatio of its own converted
   * amounts (so the ratio times a positive total is the tax, and a
   * non-positive total gives 0); its type is its row's and its score is
   * the scorer's.
   */
  lemma {:induction false} MakeInvoiceRatioAndScore(row: Row, m: ColumnMapping, exchangeRate: real)
    ensures var r := MakeInvoice(row, m, exchangeRate);
      r.taxRatio == TaxRatio(r.taxAmount, r.totalAmount)
    ensures var r := MakeInvoice(row, m, exchangeRate);
      r.documentType == ClassifyDocument(row) && r.efficiencyScore == EfficiencyScore(r)
  {
    MakeInvoiceFields(row, m, exchangeRate);
  }

  /** The rows that pass isValidInvoice, in input order. */
  function ValidRows(data: seq<Row>): (r: seq<Row>)
    ensures |r| <= |data|
    ensures forall i :: 0 <= i < |r| ==> IsValidInvoice(r[i])
  {
    if |data| == 0 then []
    else
      var row := data[|data| - 1];
      ValidRows(data[..|data| - 1]) + (if IsValidInvoice(row) then [row] else [])
  }

  /** What createOptimizedInvoiceList returns. */
  function OptimizedInvoices(data: seq<Row>, m: ColumnMapping, exchangeRate: real): seq<Invoice>
  {
    if |data| == 0 then []
    else
      var row := data[|data| - 1];
      OptimizedInvoices(data[..|data| - 1], m, exchangeRate)
      + (if IsValidInvoice(row) then [MakeInvoice(row, m, exchangeRate)] else [])
  }

  /** Exactly one invoice per row that passes validation, in input order. */
  lemma {:induction false} OneInvoicePerValidRow(data: seq<Row>, m: ColumnMapping, exchangeRate: real)
    ensures |OptimizedInvoices(data, m, exchangeRate)| == |ValidRows(data)| <= |data|
    ensures forall i :: 0 <= i < |ValidRows(data)| ==>
      OptimizedInvoices(data, m, exchangeRate)[i] == MakeInvoice(ValidRows(data)[i], m, exchangeRate)
  {
    if |data| > 0 {
      OneInvoicePerValidRow(data[..|data| - 1], m, exchangeRate);
    }
  }

  /** Every created invoice is marked valid and is in USD or GTQ. */
  lemma {:induction false} CreatedInvoicesAreValid(data: seq<Row>, m: ColumnMapping, exchangeRate: real)
    ensures forall i :: 0 <= i < |OptimizedInvoices(data, m, exchangeRate)| ==>
      OptimizedInvoices(data, m, exchangeRate)[i].isValid
      && (OptimizedInvoices(data, m, exchangeRate)[i].currency == "USD" || OptimizedInvoices(data, m, exchangeRate)[i].currency == "GTQ")
  {
    var s := OptimizedInvoices(data, m, exchangeRate);
    OneInvoicePerValidRow(data, m, exchangeRate);
    forall i | 0 <= i < |s| ensures s[i].isValid && (s[i].currency == "USD" || s[i].currency == "GTQ") {
      assert s[i] == MakeInvoice(ValidRows(data)[i], m, exchangeRate);
      MakeInvoiceCurrency(ValidRows(data)[i], m, exchangeRate);
    }
  }

  /**
   * When the mapped tax column is the fixed IVA column and the rate is
   * positive, every created invoice has a positive tax, so the selection's
   * filter keeps them all.
   */
  lemma {:induction false} CreatedInvoicesAreEligible(data: seq<Row>, m: ColumnMapping, exchangeRate: real)
    requires KeyOr(m.tax, "") == TAX_COLUMN && exchangeRate > 0.0
    ensures var s := OptimizedInvoices(data, m, exchangeRate);
      forall i :: 0 <= i < |s| ==> Eligible(s[i])
    ensures FilterValidInvoices(OptimizedInvoices(data, m, exchangeRate)) == OptimizedInvoices(data, m, exchangeRate)
  {
    var s := OptimizedInvoices(data, m, exchangeRate);
    OneInvoicePerValidRow(data, m, exchangeRate);
    forall i | 0 <= i < |s| ensures Eligible(s[i]) {
      assert s[i] == MakeInvoice(ValidRows(data)[i], m, exchangeRate);
      InvoiceOfValidRowIsEligible(ValidRows(data)[i], m, exchangeRate);
    }
    FilterKeepsEligible(s);
  }

  lemma {:induction false} InvoiceOfValidRowIsEligible(row: Row, m: ColumnMapping, exchangeRate: real)
    requires IsValidInvoice(row) && KeyOr(m.tax, "") == TAX_COLUMN && exchangeRate > 0.0
    ensures Eligible(MakeInvoice(row, m, exchangeRate))
  {
    MakeInvoiceTax(row, m, exchangeRate);
    assert RawTax(row, m) == TaxValue(row);
    ToGtqPositive(RawTax(row, m), IsUsd(CurrencyCell(row, m)), exchangeRate);
  }

  lemma {:induction false} MakeInvoiceTax(row: Row, m: ColumnMapping, exchangeRate: real)
    ensures MakeInvoice(row, m, exchangeRate).isValid
    ensures MakeInvoice(row, m, exchangeRate).taxAmount == ToGtq(RawTax(row, m), IsUsd(CurrencyCell(row, m)), exchangeRate)
  {
    MakeInvoiceFields(row, m, exchangeRate);
  }

  /** A positive amount stays positive in GTQ at a positive rate. */
  lemma {:induction false} ToGtqPositive(amount: real, usd: bool, exchangeRate: real)
    requires amount > 0.0 && exchangeRate > 0.0
    ensures ToGtq(amount, usd, exchangeRate) > 0.0
  {
    if usd {
      PositiveProduct(amount, exchangeRate);
    }
  }

  lemma {:induction false} PositiveProduct(x: real, y: real)
    requires x > 0.0 && y > 0.0
    ensures x * y > 0.0
  {
  }

  /**
   * Without a mapped currency column the currency is read from a column
   * named "GTQ"; a row without that column is a GTQ invoice with its
   * amounts as parsed.
   */
  lemma {:induction false} NoCurrencyColumnMeansGtq(row: Row, m: ColumnMapping, exchangeRate: real)
    requires !HasColumn(m.currency) && BASE_CURRENCY !in row
    ensures MakeInvoice(row, m, exchangeRate).currency == "GTQ"
    ensures MakeInvoice(row, m, exchangeRate).taxAmount == RawTax(row, m)
    ensures MakeInvoice(row, m, exchangeRate).totalAmount == RawTotal(row, m)
  {
    MakeInvoiceCurrency(row, m, exchangeRate);
    MakeInvoiceAmounts(row, m, exchangeRate);
  }

  /** Text identifiers fall back to "N/A" when their column is absent or empty. */
  lemma {:induction false} IdentifiersFallBack(row: Row, m: ColumnMapping, exchangeRate: real)
    requires !Truthy(Get(row, KeyOr(m.invoiceNumber, "")))
    ensures MakeInvoice(row, m, exchangeRate).invoiceNumber == "N/A"
  {
    assert Unscored(row, m, exchangeRate).invoiceNumber == "N/A";
  }

  /** createOptimizedInvoiceList. */
  method CreateOptimizedInvoiceList(purchasesData: seq<Row>, m: ColumnMapping, exchangeRate: real)
    returns (invoices: seq<Invoice>)
    ensures invoices == OptimizedInvoices(purchasesData, m, exchangeRate)
  {
    invoices := [];
    var i := 0;
    while i < |purchasesData|
      invariant 0 <= i <= |purchasesData|
      invariant invoices == OptimizedInvoices(purchasesData[..i], m, exchangeRate)
    {
      var row := purchasesData[i];
      assert purchasesData[..i + 1][..i] == purchasesData[..i];
      if IsValidInvoice(row) {
        var optimizedInvoice := MakeInvoice(row, m, exchangeRate);
        invoices := invoices + [optimizedInvoice];
      }
      i := i + 1;
    }
    assert purchasesData[..i] == purchasesData;
  }

  // -------------------------------------------------------------- result

  /** The achieved share of the target in percent, capped at 100, for a positive target; 0 otherwise. */
  function Coverage(achieved: real, target: real): (c: real)
    ensures target <= 0.0 ==> c == 0.0
    ensures c <= 100.0
    ensures target > 0.0 && achieved >= 0.0 ==> c >= 0.0
    ensures target > 0.0 ==> (c == 100.0 <==> achieved >= target)
  {
    if target > 0.0 then
      var percentage := (achieved / target) * 100.0;
      CoverageReachesFull(achieved, target);
      if percentage < 100.0 then percentage else 100.0
    else 0.0
  }

  lemma {:induction false} CoverageReachesFull(achieved: real, target: real)
    requires target > 0.0
    ensures (achieved / target) * 100.0 >= 100.0 <==> achieved >= target
    ensures achieved >= 0.0 ==> (achieved / target) * 100.0 >= 0.0
  {
    var q := achieved / target;
    assert q * target == achieved;
  }

  /** What is still missing of the target, never negative. */
  function RemainingGap(target: real, achieved: real): (g: real)
    ensures g >= 0.0 && g >= target - achieved
    ensures g == 0.0 || g == target - achieved
    ensures achieved + g >= target
  {
    if target - achieved > 0.0 then target - achieved else 0.0
  }

  /** The result record built from a selection. */
  function ResultOf(selected: seq<Invoice>, salesTaxAmount: real): (r: InvoiceOptimizationResult)
    ensures r.selectedInvoices == selected && r.totalSelectedInvoices == |selected|
    ensures r.targetTaxAmount == salesTaxAmount && r.achievedTaxAmount == TaxSum(selected)
  {
    var achievedTaxAmount := TaxSum(selected);
    InvoiceOptimizationResult(
      salesTaxAmount,
      achievedTaxAmount,
      Coverage(achievedTaxAmount, salesTaxAmount),
      selected,
      |selected|,
      RemainingGap(salesTaxAmount, achievedTaxAmount))
  }

  /** What optimizeInvoiceSelection returns. */
  function Optimization(purchasesData: seq<Row>, salesTaxAmount: real, m: ColumnMapping, exchangeRate: real)
    : InvoiceOptimizationResult
  {
    ResultOf(Selection(OptimizedInvoices(purchasesData, m, exchangeRate), salesTaxAmount), salesTaxAmount)
  }

  method OptimizeInvoiceSelection(purchasesData: seq<Row>, salesTaxAmount: real, m: ColumnMapping, exchangeRate: real)
    returns (r: InvoiceOptimizationResult)
    ensures r == Optimization(purchasesData, salesTaxAmount, m, exchangeRate)
  {
    var optimizedInvoices := CreateOptimizedInvoiceList(purchasesData, m, exchangeRate);
    var selectedInvoices := SelectOptimalInvoices(optimizedInvoices, salesTaxAmount);
    var achievedTaxAmount := TaxSum(selectedInvoices);
    var coveragePercentage := if salesTaxAmount > 0.0
      then (if (achievedTaxAmount / salesTaxAmount) * 100.0 < 100.0 then (achievedTaxAmount / salesTaxAmount) * 100.0 else 100.0)
      else 0.0;
    var remainingTaxGap := if salesTaxAmount - achievedTaxAmount > 0.0 then salesTaxAmount - achievedTaxAmount else 0.0;
    r := InvoiceOptimizationResult(salesTaxAmount, achievedTaxAmount, coveragePercentage,
      selectedInvoices, |selectedInvoices|, remainingTaxGap);
  }

  /**
   * The result of optimizeInvoiceSelection: the selected invoices are
   * created invoices with positive taxes; coverage lies in [0, 100] and is
   * 100 exactly when the target is met; the gap is what is missing; the
   * achieved tax stays within target + 5%; a non-positive target selects
   * nothing.
   */
  lemma {:induction false} OptimizationProperties(purchasesData: seq<Row>, salesTaxAmount: real, m: ColumnMapping, exchangeRate: real)
    ensures var r := Optimization(purchasesData, salesTaxAmount, m, exchangeRate);
      forall i :: 0 <= i < |r.selectedInvoices| ==> Eligible(r.selectedInvoices[i])
    ensures multiset(Optimization(purchasesData, salesTaxAmount, m, exchangeRate).selectedInvoices)
         <= multiset(OptimizedInvoices(purchasesData, m, exchangeRate))
    ensures var r := Optimization(purchasesData, salesTaxAmount, m, exchangeRate);
      0.0 <= r.coveragePercentage <= 100.0 && r.achievedTaxAmount >= 0.0
    ensures var r := Optimization(purchasesData, salesTaxAmount, m, exchangeRate);
      salesTaxAmount > 0.0 ==> (r.coveragePercentage == 100.0 <==> r.achievedTaxAmount >= salesTaxAmount)
    ensures var r := Optimization(purchasesData, salesTaxAmount, m, exchangeRate);
      r.remainingTaxGap >= 0.0 && r.achievedTaxAmount + r.remainingTaxGap >= salesTaxAmount
    ensures var r := Optimization(purchasesData, salesTaxAmount, m, exchangeRate);
      salesTaxAmount >= 0.0 ==> r.achievedTaxAmount <= salesTaxAmount * 1.05
    ensures var r := Optimization(purchasesData, salesTaxAmount, m, exchangeRate);
      salesTaxAmount <= 0.0 ==> r.selectedInvoices == [] && r.coveragePercentage == 0.0 && r.remainingTaxGap == 0.0
  {
    var invoices := OptimizedInvoices(purchasesData, m, exchangeRate);
    var selected := Selection(invoices, salesTaxAmount);
    SelectionProperties(invoices, salesTaxAmount);
    TaxSumPositive(selected);
    LowerIsNinetyFivePercent(salesTaxAmount);
    if salesTaxAmount <= 0.0 {
      assert TaxSum(selected) == 0.0;
    }
  }

  // ----------------------------------------------------- grouping, stats

  /** The invoices of s of type t, in order. */
  function InvoicesOfType(s: seq<Invoice>, t: DocumentType): (r: seq<Invoice>)
    ensures |r| <= |s|
    ensures forall i :: 0 <= i < |r| ==> r[i].documentType == t
  {
    if |s| == 0 then []
    else
      var x := s[|s| - 1];
      InvoicesOfType(s[..|s| - 1], t) + (if x.documentType == t then [x] else [])
  }

  /** One loop step: invoice i joins the group of its own type and no other. */
  lemma {:induction false} InvoicesOfTypeStep(s: seq<Invoice>, i: nat, t: DocumentType)
    requires i < |s|
    ensures InvoicesOfType(s[..i + 1], t) == InvoicesOfType(s[..i], t) + (if s[i].documentType == t then [s[i]] else [])
  {
    assert s[..i + 1][..i] == s[..i];
  }

  /** The four groups, each a list; the record always has all four keys. */
  function ByType(s: seq<Invoice>): map<DocumentType, seq<Invoice>>
  {
    map[FACT := InvoicesOfType(s, FACT), NDEB := InvoicesOfType(s, NDEB), NCRE := InvoicesOfType(s, NCRE), OTHER := InvoicesOfType(s, OTHER)]
  }

  lemma {:induction false} ByTypeEntries(s: seq<Invoice>)
    ensures forall t :: t in ByType(s) && ByType(s)[t] == InvoicesOfType(s, t)
  {
    forall t ensures t in ByType(s) && ByType(s)[t] == InvoicesOfType(s, t) {
      match t
      case FACT =>
      case NDEB =>
      case NCRE =>
      case OTHER =>
    }
  }

  /** Appending an invoice to the group of its type adds it once to the union of the groups. */
  lemma {:induction false} GroupStep(fact: seq<Invoice>, ndeb: seq<Invoice>, ncre: seq<Invoice>, other: seq<Invoice>,
                  fact': seq<Invoice>, ndeb': seq<Invoice>, ncre': seq<Invoice>, other': seq<Invoice>,
                  x: Invoice)
    requires fact' == if x.documentType == FACT then fact + [x] else fact
    requires ndeb' == if x.documentType == NDEB then ndeb + [x] else ndeb
    requires ncre' == if x.documentType == NCRE then ncre + [x] else ncre
    requires other' == if x.documentType == OTHER then other + [x] else other
    ensures multiset(fact') + multiset(ndeb') + multiset(ncre') + multiset(other')
         == multiset(fact) + multiset(ndeb) + multiset(ncre) + multiset(other) + multiset{x}
    ensures |fact'| + |ndeb'| + |ncre'| + |other'| == |fact| + |ndeb| + |ncre| + |other| + 1
  {
  }

  /** The groups partition the selection: every invoice lands in the group of its type, once. */
  lemma {:induction false} GroupsPartition(s: seq<Invoice>)
    ensures multiset(InvoicesOfType(s, FACT)) + multiset(InvoicesOfType(s, NDEB))
          + multiset(InvoicesOfType(s, NCRE)) + multiset(InvoicesOfType(s, OTHER)) == multiset(s)
    ensures |InvoicesOfType(s, FACT)| + |InvoicesOfType(s, NDEB)| + |InvoicesOfType(s, NCRE)| + |InvoicesOfType(s, OTHER)| == |s|
  {
    if |s| > 0 {
      var p := s[..|s| - 1];
      var x := s[|s| - 1];
      GroupsPartition(p);
      GroupStep(InvoicesOfType(p, FACT), InvoicesOfType(p, NDEB), InvoicesOfType(p, NCRE), InvoicesOfType(p, OTHER),
                InvoicesOfType(s, FACT), InvoicesOfType(s, NDEB), InvoicesOfType(s, NCRE), InvoicesOfType(s, OTHER),
                x);
      SplitLast(s);
      assert multiset(s) == multiset(p) + multiset{x};
    }
  }

  /** getInvoicesByDocumentType. */
  method GetInvoicesByDocumentType(result: InvoiceOptimizationResult) returns (byType: map<DocumentType, seq<Invoice>>)
    ensures byType == ByType(result.selectedInvoices)
  {
    var s := result.selectedInvoices;
    byType := map[FACT := [], NDEB := [], NCRE := [], OTHER := []];
    var i := 0;
    forall t ensures t in byType && byType[t] == InvoicesOfType(s[..0], t) {
      match t
      case FACT =>
      case NDEB =>
      case NCRE =>
      case OTHER =>
    }
    while i < |s|
      invariant 0 <= i <= |s|
      invariant forall t :: t in byType && byType[t] == InvoicesOfType(s[..i], t)
    {
      var invoice := s[i];
      byType := byType[invoice.documentType := byType[invoice.documentType] + [invoice]];
      forall t ensures t in byType && byType[t] == InvoicesOfType(s[..i + 1], t) {
        InvoicesOfTypeStep(s, i, t);
      }
      i := i + 1;
    }
    assert s[..i] == s;
    ByTypeEntries(s);
  }

  /** The number of invoices of s in currency c. */
  function CurrencyCount(s: seq<Invoice>, c: string): (n: nat)
    ensures n <= |s|
  {
    if |s| == 0 then 0
    else CurrencyCount(s[..|s| - 1], c) + (if s[|s| - 1].currency == c then 1 else 0)
  }

  /** The number of invoices per currency, counted over the invoices in order; a currency no invoice has is no key. */
  function CurrencyCounts(s: seq<Invoice>): map<string, nat>
  {
    if |s| == 0 then map[]
    else
      var counts := CurrencyCounts(s[..|s| - 1]);
      var c := s[|s| - 1].currency;
      counts[c := (if c in counts then counts[c] else 0) + 1]
  }

  /** One loop step: the count of invoice i's currency goes up by one, starting from 0 for a new currency. */
  lemma {:induction false} CurrencyCountsStep(s: seq<Invoice>, i: nat, counts: map<string, nat>, next: map<string, nat>)
    requires i < |s| && counts == CurrencyCounts(s[..i])
    requires next == counts[s[i].currency := (if s[i].currency in counts then counts[s[i].currency] else 0) + 1]
    ensures next == CurrencyCounts(s[..i + 1])
  {
    assert s[..i + 1][..i] == s[..i];
  }

  /** A currency has an entry exactly when some invoice uses it, and the entry counts those invoices. */
  lemma {:induction false} CurrencyCountsCount(s: seq<Invoice>)
    ensures forall c :: c in CurrencyCounts(s) <==> CurrencyCount(s, c) > 0
    ensures forall c :: c in CurrencyCounts(s) ==> CurrencyCounts(s)[c] == CurrencyCount(s, c)
  {
    if |s| > 0 {
      CurrencyCountsCount(s[..|s| - 1]);
    }
  }

  /** Counting two currencies that are the only ones in use counts every invoice. */
  lemma {:induction false} TwoCurrenciesCountAll(s: seq<Invoice>)
    requires forall i :: 0 <= i < |s| ==> s[i].currency == "USD" || s[i].currency == "GTQ"
    ensures CurrencyCount(s, "USD") + CurrencyCount(s, "GTQ") == |s|
  {
    if |s| > 0 {
      TwoCurrenciesCountAll(s[..|s| - 1]);
    }
  }

  /** The sum of the invoices' total amounts, folded from the left. */
  function TotalSum(s: seq<Invoice>): real
  {
    if |s| == 0 then 0.0 else TotalSum(s[..|s| - 1]) + s[|s| - 1].totalAmount
  }

  datatype OptimizationStats = OptimizationStats(
    averageInvoiceAmount: real,
    averageTaxAmount: real,
    documentTypeDistribution: map<DocumentType, nat>,
    currencyDistribution: map<string, nat>)

  /** The per-type counts, all four types present. */
  function TypeCounts(s: seq<Invoice>): map<DocumentType, nat>
  {
    map[FACT := |InvoicesOfType(s, FACT)|, NDEB := |InvoicesOfType(s, NDEB)|, NCRE := |InvoicesOfType(s, NCRE)|, OTHER := |InvoicesOfType(s, OTHER)|]
  }

  lemma {:induction false} TypeCountsEntries(s: seq<Invoice>)
    ensures forall t :: t in TypeCounts(s) && TypeCounts(s)[t] == |InvoicesOfType(s, t)|
  {
    forall t ensures t in TypeCounts(s) && TypeCounts(s)[t] == |InvoicesOfType(s, t)| {
      match t
      case FACT =>
      case NDEB =>
      case NCRE =>
      case OTHER =>
    }
  }

  /** Every type has an entry in the counts. */
  lemma {:induction false} TypeCountsHasType(s: seq<Invoice>, t: DocumentType)
    ensures t in TypeCounts(s)
  {
    match t
    case FACT =>
    case NDEB =>
    case NCRE =>
    case OTHER =>
  }

  /** One loop step: the count of invoice i's type goes up by one, the other counts stay. */
  lemma {:induction false} TypeCountsStep(s: seq<Invoice>, i: nat, counts: map<DocumentType, nat>, next: map<DocumentType, nat>)
    requires i < |s| && counts == TypeCounts(s[..i])
    requires s[i].documentType in counts && next == counts[s[i].documentType := counts[s[i].documentType] + 1]
    ensures next == TypeCounts(s[..i + 1])
  {
    InvoicesOfTypeStep(s, i, FACT);
    InvoicesOfTypeStep(s, i, NDEB);
    InvoicesOfTypeStep(s, i, NCRE);
    InvoicesOfTypeStep(s, i, OTHER);
  }

  /** The mean: the sum over the count, which times the count gives back the sum. */
  function Average(sum: real, n: nat): (a: real)
    requires n > 0
    ensures a * (n as real) == sum
  {
    sum / (n as real)
  }

  /** What calculateOptimizationStats returns; the empty selection gives zeros. */
  function Stats(s: seq<Invoice>): OptimizationStats
  {
    if |s| == 0 then OptimizationStats(0.0, 0.0, TypeCounts([]), map[])
    else OptimizationStats(Average(TotalSum(s), |s|), Average(TaxSum(s), |s|), TypeCounts(s), CurrencyCounts(s))
  }

  /** calculateOptimizationStats. */
  method CalculateOptimizationStats(result: InvoiceOptimizationResult) returns (stats: OptimizationStats)
    ensures stats == Stats(result.selectedInvoices)
  {
    var invoices := result.selectedInvoices;
    if |invoices| == 0 {
      return OptimizationStats(0.0, 0.0, map[FACT := 0, NDEB := 0, NCRE := 0, OTHER := 0], map[]);
    }
    var averageInvoiceAmount := TotalSum(invoices) / (|invoices| as real);
    var averageTaxAmount := TaxSum(invoices) / (|invoices| as real);
    var documentTypeDistribution: map<DocumentType, nat> := map[FACT := 0, NDEB := 0, NCRE := 0, OTHER := 0];
    var currencyDistribution: map<string, nat> := map[];
    var i := 0;
    assert invoices[..0] == [];
    while i < |invoices|
      invariant 0 <= i <= |invoices|
      invariant documentTypeDistribution == TypeCounts(invoices[..i])
      invariant currencyDistribution == CurrencyCounts(invoices[..i])
    {
      var invoice := invoices[i];
      var types, currencies := documentTypeDistribution, currencyDistribution;
      TypeCountsHasType(invoices[..i], invoice.documentType);
      documentTypeDistribution := documentTypeDistribution[invoice.documentType := documentTypeDistribution[invoice.documentType] + 1];
      var previous := if invoice.currency in currencyDistribution then currencyDistribution[invoice.currency] else 0;
      currencyDistribution := currencyDistribution[invoice.currency := previous + 1];
      TypeCountsStep(invoices, i, types, documentTypeDistribution);
      CurrencyCountsStep(invoices, i, currencies, currencyDistribution);
      i := i + 1;
    }
    assert invoices[..i] == invoices;
    stats := OptimizationStats(averageInvoiceAmount, averageTaxAmount, documentTypeDistribution, currencyDistribution);
  }

  /**
   * The statistics: the type counts add up to the number of invoices; each
   * currency entry counts its invoices; no invoices give zero averages and
   * no currency entry.
   */
  lemma {:induction false} StatsProperties(s: seq<Invoice>)
    ensures var st := Stats(s);
      st.documentTypeDistribution[FACT] + st.documentTypeDistribution[NDEB]
      + st.documentTypeDistribution[NCRE] + st.documentTypeDistribution[OTHER] == |s|
    ensures forall c :: c in Stats(s).currencyDistribution <==> CurrencyCount(s, c) > 0
    ensures forall c :: c in Stats(s).currencyDistribution ==> Stats(s).currencyDistribution[c] == CurrencyCount(s, c)
    ensures |s| == 0 ==> Stats(s).averageTaxAmount == 0.0 && Stats(s).averageInvoiceAmount == 0.0
  {
    GroupsPartition(s);
    CurrencyCountsCount(s);
    TypeCountsEntries(s);
  }

  /**
   * For a selection of created invoices the currency distribution has only
   * the keys "USD" and "GTQ", and their counts add up to the selection size.
   */
  lemma {:induction false} StatsOfOptimization(purchasesData: seq<Row>, salesTaxAmount: real, m: ColumnMapping, exchangeRate: real)
    ensures var s := Optimization(purchasesData, salesTaxAmount, m, exchangeRate).selectedInvoices;
      forall c :: c in Stats(s).currencyDistribution ==> c == "USD" || c == "GTQ"
    ensures var s := Optimization(purchasesData, salesTaxAmount, m, exchangeRate).selectedInvoices;
      CurrencyCount(s, "USD") + CurrencyCount(s, "GTQ") == |s|
  {
    var invoices := OptimizedInvoices(purchasesData, m, exchangeRate);
    var s := Selection(invoices, salesTaxAmount);
    SelectionProperties(invoices, salesTaxAmount);
    CreatedInvoicesAreValid(purchasesData, m, exchangeRate);
    SubmultisetCurrencies(s, invoices);
    TwoCurrenciesCountAll(s);
    CurrencyCountsCount(s);
    forall c | c in Stats(s).currencyDistribution ensures c == "USD" || c == "GTQ" {
      if c != "USD" && c != "GTQ" {
        NoCount(s, c);
      }
    }
  }

  /** Being in USD or GTQ carries over to any sub-multiset. */
  lemma {:induction false} SubmultisetCurrencies(r: seq<Invoice>, s: seq<Invoice>)
    requires multiset(r) <= multiset(s)
    requires forall i :: 0 <= i < |s| ==> s[i].currency == "USD" || s[i].currency == "GTQ"
    ensures forall i :: 0 <= i < |r| ==> r[i].currency == "USD" || r[i].currency == "GTQ"
  {
    forall i | 0 <= i < |r| ensures r[i].currency == "USD" || r[i].currency == "GTQ" {
      assert r[i] in multiset(r);
      assert r[i] in multiset(s);
    }
  }

  /** A currency no invoice uses has a count of 0. */
  lemma {:induction false} NoCount(s: seq<Invoice>, c: string)
    requires forall i :: 0 <= i < |s| ==> s[i].currency != c
    ensures CurrencyCount(s, c) == 0
  {
    if |s| > 0 {
      NoCount(s[..|s| - 1], c);
    }
  }
}
