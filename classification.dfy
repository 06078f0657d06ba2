/**
 * Document classification and the per-category and per-currency summaries
 * built on it: a row's document type comes from the text of its
 * "Tipo de DTE (nombre)" cell; regular invoices (FACT) and unrecognised
 * types (OTHER) are reported together, debit notes (NDEB) and credit
 * notes (NCRE) apart.
 */
module DocumentClassification {
  import opened Text
  import opened Cells
  import opened TaxTypes
  import opened CurrencyAggregation
  import InvoiceValidation

  /**
   * The code found in the upper-cased, trimmed text: NDEB before NCRE
   * before FACT, anything else OTHER. Trimming never changes the outcome
   * because the codes contain no white space.
   */
  function ClassifyText(s: string): (t: DocumentType)
    ensures t == NDEB <==> Contains(ToUpper(s), "NDEB")
    ensures t == NCRE <==> !Contains(ToUpper(s), "NDEB") && Contains(ToUpper(s), "NCRE")
    ensures t == FACT <==> !Contains(ToUpper(s), "NDEB") && !Contains(ToUpper(s), "NCRE") && Contains(ToUpper(s), "FACT")
  {
    var docType := Trim(ToUpper(s));
    ContainsTrim(ToUpper(s), "NDEB");
    ContainsTrim(ToUpper(s), "NCRE");
    ContainsTrim(ToUpper(s), "FACT");
    if Contains(docType, "NDEB") then NDEB
    else if Contains(docType, "NCRE") then NCRE
    else if Contains(docType, "FACT") then FACT
    else OTHER
  }

  /**
   * classifyDocument. A missing or falsy cell is OTHER; so is a number, a
   * boolean or a date, whose text never contains one of the codes.
   */
  function ClassifyDocument(row: Row): (t: DocumentType)
    ensures !Get(row, InvoiceValidation.DOCUMENT_TYPE_COLUMN).Str? ==> t == OTHER
    ensures Get(row, InvoiceValidation.DOCUMENT_TYPE_COLUMN).Str? ==> t == ClassifyText(Get(row, InvoiceValidation.DOCUMENT_TYPE_COLUMN).s)
  {
    var documentTypeValue := Get(row, InvoiceValidation.DOCUMENT_TYPE_COLUMN);
    EmptyTextIsOther();
    if !Truthy(documentTypeValue) then OTHER
    else if documentTypeValue.Str? then ClassifyText(documentTypeValue.s)
    else OTHER
  }

  /** The case of the text never matters. */
  lemma {:induction false} ClassificationIgnoresCase(s: string)
    ensures ClassifyText(ToUpper(s)) == ClassifyText(s)
    ensures ClassifyText(ToLower(s)) == ClassifyText(s)
  {
    ToUpperIdempotent(s);
    UpperOfLower(s);
  }

  /** Empty text carries no code. */
  lemma {:induction false} EmptyTextIsOther()
    ensures ClassifyText("") == OTHER
  {
    assert ToUpper("") == "";
    ShortTextContainsNothing("", "NDEB");
    ShortTextContainsNothing("", "NCRE");
    ShortTextContainsNothing("", "FACT");
  }

  /** A code is found inside a longer word, whatever its case. */
  lemma {:induction false} FacturaIsFact()
    ensures ClassifyText("Factura") == FACT
  {
    assert ToUpper("Factura") == "FACTURA";
    assert StartsWith("FACTURA", "FACT");
    MissingCharNotContained("FACTURA", "NDEB", 0);
    MissingCharNotContained("FACTURA", "NCRE", 0);
  }

  /** Surrounding white space and lower case do not hide a code. */
  lemma {:induction false} PaddedLowerCaseIsNcre()
    ensures ClassifyText(" ncre ") == NCRE
  {
    assert ToUpper(" ncre ") == " NCRE ";
    assert " NCRE "[1..] == "NCRE " && StartsWith("NCRE ", "NCRE");
    MissingCharNotContained(" NCRE ", "NDEB", 1);
  }

  /** NDEB wins over FACT when both occur. */
  lemma {:induction false} DebitNoteWins()
    ensures ClassifyText("NDEB-FACT") == NDEB
  {
    assert ToUpper("NDEB-FACT") == "NDEB-FACT";
    assert StartsWith("NDEB-FACT", "NDEB");
  }

  /** A receipt (RECI) is none of the three codes. */
  lemma {:induction false} ReceiptIsOther()
    ensures ClassifyText("RECI") == OTHER
  {
    assert ToUpper("RECI") == "RECI";
    MissingCharNotContained("RECI", "NDEB", 0);
    MissingCharNotContained("RECI", "NCRE", 0);
    MissingCharNotContained("RECI", "FACT", 0);
  }

  /** The rows of data of type t, in their original order. */
  function RowsOfType(data: seq<Row>, t: DocumentType): (r: seq<Row>)
    ensures |r| <= |data|
    ensures forall i :: 0 <= i < |r| ==> ClassifyDocument(r[i]) == t
  {
    if |data| == 0 then []
    else
      var row := data[|data| - 1];
      RowsOfType(data[..|data| - 1], t) + (if ClassifyDocument(row) == t then [row] else [])
  }

  /** The last row of data joins the bucket of its own type and no other. */
  lemma {:induction false} RowsOfTypeLast(data: seq<Row>, t: DocumentType)
    requires |data| > 0
    ensures ClassifyDocument(data[|data| - 1]) == t ==>
      RowsOfType(data, t) == RowsOfType(data[..|data| - 1], t) + [data[|data| - 1]]
    ensures ClassifyDocument(data[|data| - 1]) != t ==>
      RowsOfType(data, t) == RowsOfType(data[..|data| - 1], t)
  {
  }

  /** Appending a row to the one bucket of its type adds it once to the union of the buckets. */
  lemma {:induction false} BucketStep(fact: seq<Row>, ndeb: seq<Row>, ncre: seq<Row>, other: seq<Row>,
                   fact': seq<Row>, ndeb': seq<Row>, ncre': seq<Row>, other': seq<Row>, row: Row, t: DocumentType)
    requires fact' == if t == FACT then fact + [row] else fact
    requires ndeb' == if t == NDEB then ndeb + [row] else ndeb
    requires ncre' == if t == NCRE then ncre + [row] else ncre
    requires other' == if t == OTHER then other + [row] else other
    ensures multiset(fact') + multiset(ndeb') + multiset(ncre') + multiset(other')
         == multiset(fact) + multiset(ndeb) + multiset(ncre) + multiset(other) + multiset{row}
    ensures |fact'| + |ndeb'| + |ncre'| + |other'| == |fact| + |ndeb| + |ncre| + |other| + 1
  {
  }

  /** Every row lands in exactly the bucket of its type. */
  lemma {:induction false} RowsOfTypePartition(data: seq<Row>)
    ensures multiset(RowsOfType(data, FACT)) + multiset(RowsOfType(data, NDEB))
          + multiset(RowsOfType(data, NCRE)) + multiset(RowsOfType(data, OTHER)) == multiset(data)
    ensures |RowsOfType(data, FACT)| + |RowsOfType(data, NDEB)| + |RowsOfType(data, NCRE)| + |RowsOfType(data, OTHER)| == |data|
  {
    if |data| > 0 {
      var p := data[..|data| - 1];
      var row := data[|data| - 1];
      RowsOfTypePartition(p);
      RowsOfTypeLast(data, FACT);
      RowsOfTypeLast(data, NDEB);
      RowsOfTypeLast(data, NCRE);
      RowsOfTypeLast(data, OTHER);
      BucketStep(RowsOfType(p, FACT), RowsOfType(p, NDEB), RowsOfType(p, NCRE), RowsOfType(p, OTHER),
                 RowsOfType(data, FACT), RowsOfType(data, NDEB), RowsOfType(data, NCRE), RowsOfType(data, OTHER),
                 row, ClassifyDocument(row));
      SplitLast(data);
      assert multiset(data) == multiset(p) + multiset{row};
    }
  }

  /** The map classifyDocuments builds, one row at a time: a type's list is created on its first row. */
  function Classification(data: seq<Row>): map<DocumentType, seq<Row>>
  {
    if |data| == 0 then map[]
    else
      var m := Classification(data[..|data| - 1]);
      var row := data[|data| - 1];
      var docType := ClassifyDocument(row);
      var created := if docType !in m then m[docType := []] else m;
      created[docType := created[docType] + [row]]
  }

  /** The map holds an entry exactly for the types that occur, each listing that type's rows in order. */
  lemma {:induction false} ClassificationEntries(data: seq<Row>)
    ensures forall t :: t in Classification(data) <==> RowsOfType(data, t) != []
    ensures forall t :: t in Classification(data) ==> Classification(data)[t] == RowsOfType(data, t)
  {
    if |data| > 0 {
      var p := data[..|data| - 1];
      ClassificationEntries(p);
      forall t
        ensures t in Classification(data) <==> RowsOfType(data, t) != []
        ensures t in Classification(data) ==> Classification(data)[t] == RowsOfType(data, t)
      {
        RowsOfTypeLast(data, t);
      }
    }
  }

  /**
   * classifyDocuments: a map from each type that occurs to its rows, in
   * order; types with no row have no entry.
   */
  method ClassifyDocuments(data: seq<Row>) returns (classification: map<DocumentType, seq<Row>>)
    ensures classification == Classification(data)
    ensures forall t :: t in classification <==> RowsOfType(data, t) != []
    ensures forall t :: t in classification ==> classification[t] == RowsOfType(data, t)
  {
    classification := map[];
    var i := 0;
    while i < |data|
      invariant 0 <= i <= |data|
      invariant classification == Classification(data[..i])
    {
      var row := data[i];
      var docType := ClassifyDocument(row);
      assert data[..i + 1][..i] == data[..i];
      if docType !in classification {
        classification := classification[docType := []];
      }
      classification := classification[docType := classification[docType] + [row]];
      i := i + 1;
    }
    assert data[..i] == data;
    ClassificationEntries(data);
  }


  /** The keys the category totals read: an absent or empty column name reads the key ''. */
  function AmountKey(m: ColumnMapping): string { KeyOr(m.total, "") }

  function TaxKey(m: ColumnMapping): string { KeyOr(m.tax, "") }

  /** The breakdowns always read a currency cell, the one under '' when no currency column was detected. */
  function CurrencyKey(m: ColumnMapping): Option<string> { Some(KeyOr(m.currency, "")) }

  /** What calculateCategoryTotals returns: the count and the converted sums of the amount and tax columns. */
  function CategoryTotalsOf(documents: seq<Row>, m: ColumnMapping, rate: real): CategoryTotals
  {
    CategoryTotals(
      |documents|,
      Accumulate(documents, AmountKey(m), CurrencyKey(m), rate).total,
      Accumulate(documents, TaxKey(m), CurrencyKey(m), rate).total)
  }

  /** A category's amount is its GTQ rows' amounts plus the rate times its USD rows' amounts. */
  lemma {:induction false} CategoryAmountByCurrency(documents: seq<Row>, m: ColumnMapping, rate: real)
    ensures CategoryTotalsOf(documents, m, rate).totalAmount
         == GtqTotal(documents, AmountKey(m), CurrencyKey(m)) + rate * UsdOriginal(documents, AmountKey(m), CurrencyKey(m))
  {
    TotalSplitsByCurrency(documents, AmountKey(m), CurrencyKey(m), rate);
  }

  /** A category's tax is its GTQ rows' taxes plus the rate times its USD rows' taxes. */
  lemma {:induction false} CategoryTaxByCurrency(documents: seq<Row>, m: ColumnMapping, rate: real)
    ensures CategoryTotalsOf(documents, m, rate).totalTax
         == GtqTotal(documents, TaxKey(m), CurrencyKey(m)) + rate * UsdOriginal(documents, TaxKey(m), CurrencyKey(m))
  {
    TotalSplitsByCurrency(documents, TaxKey(m), CurrencyKey(m), rate);
  }

  method CalculateCategoryTotals(documents: seq<Row>, m: ColumnMapping, rate: real) returns (r: CategoryTotals)
    ensures r == CategoryTotalsOf(documents, m, rate)
  {
    var totalAmount := 0.0;
    var totalTax := 0.0;
    var i := 0;
    while i < |documents|
      invariant 0 <= i <= |documents|
      invariant totalAmount == Accumulate(documents[..i], AmountKey(m), CurrencyKey(m), rate).total
      invariant totalTax == Accumulate(documents[..i], TaxKey(m), CurrencyKey(m), rate).total
    {
      var doc := documents[i];
      AccumulateStep(documents, i, AmountKey(m), CurrencyKey(m), rate);
      AccumulateStep(documents, i, TaxKey(m), CurrencyKey(m), rate);
      var convertedAmount := Converted(doc, AmountKey(m), CurrencyKey(m), rate);
      var convertedTax := Converted(doc, TaxKey(m), CurrencyKey(m), rate);
      totalAmount := totalAmount + convertedAmount;
      totalTax := totalTax + convertedTax;
      i := i + 1;
    }
    assert documents[..i] == documents;
    r := CategoryTotals(|documents|, totalAmount, totalTax);
  }

  /** What calculateDocumentTypeBreakdown returns. */
  function DocumentTypeBreakdownOf(data: seq<Row>, m: ColumnMapping, rate: real): DocumentTypeBreakdown
  {
    DocumentTypeBreakdown(
      CategoryTotalsOf(RowsOfType(data, FACT) + RowsOfType(data, OTHER), m, rate),
      CategoryTotalsOf(RowsOfType(data, NDEB), m, rate),
      CategoryTotalsOf(RowsOfType(data, NCRE), m, rate))
  }

  /** The converted sum over all rows is the sum of the per-type sums. */
  lemma {:induction false} AccumulatePartition(data: seq<Row>, column: string, usdKey: Option<string>, rate: real)
    ensures Accumulate(data, column, usdKey, rate).total
         == Accumulate(RowsOfType(data, FACT), column, usdKey, rate).total
          + Accumulate(RowsOfType(data, NDEB), column, usdKey, rate).total
          + Accumulate(RowsOfType(data, NCRE), column, usdKey, rate).total
          + Accumulate(RowsOfType(data, OTHER), column, usdKey, rate).total
  {
    if |data| > 0 {
      var p := data[..|data| - 1];
      var row := data[|data| - 1];
      AccumulatePartition(p, column, usdKey, rate);
      SplitLast(data);
      AccumulateAppend(p, [row], column, usdKey, rate);
      var t := ClassifyDocument(row);
      RowsOfTypeLast(data, FACT);
      RowsOfTypeLast(data, NDEB);
      RowsOfTypeLast(data, NCRE);
      RowsOfTypeLast(data, OTHER);
      AccumulateAppend(RowsOfType(p, t), [row], column, usdKey, rate);
    }
  }

  /**
   * The three categories partition the rows: their counts add up to the
   * number of rows and their amounts and taxes to the sums over all rows.
   */
  lemma {:induction false} BreakdownPartitionsRows(data: seq<Row>, m: ColumnMapping, rate: real)
    ensures var b := DocumentTypeBreakdownOf(data, m, rate);
      b.regular.count + b.debitNotes.count + b.creditNotes.count == |data|
    ensures var b := DocumentTypeBreakdownOf(data, m, rate);
      b.regular.totalAmount + b.debitNotes.totalAmount + b.creditNotes.totalAmount
      == Accumulate(data, AmountKey(m), CurrencyKey(m), rate).total
    ensures var b := DocumentTypeBreakdownOf(data, m, rate);
      b.regular.totalTax + b.debitNotes.totalTax + b.creditNotes.totalTax
      == Accumulate(data, TaxKey(m), CurrencyKey(m), rate).total
  {
    RowsOfTypePartition(data);
    AccumulatePartition(data, AmountKey(m), CurrencyKey(m), rate);
    AccumulatePartition(data, TaxKey(m), CurrencyKey(m), rate);
    AccumulateAppend(RowsOfType(data, FACT), RowsOfType(data, OTHER), AmountKey(m), CurrencyKey(m), rate);
    AccumulateAppend(RowsOfType(data, FACT), RowsOfType(data, OTHER), TaxKey(m), CurrencyKey(m), rate);
  }

  method CalculateDocumentTypeBreakdown(data: seq<Row>, m: ColumnMapping, rate: real) returns (breakdown: DocumentTypeBreakdown)
    ensures breakdown == DocumentTypeBreakdownOf(data, m, rate)
    ensures breakdown.regular.count + breakdown.debitNotes.count + breakdown.creditNotes.count == |data|
  {
    var classified := ClassifyDocuments(data);
    var facts := if FACT in classified then classified[FACT] else [];
    var others := if OTHER in classified then classified[OTHER] else [];
    var debitNotes := if NDEB in classified then classified[NDEB] else [];
    var creditNotes := if NCRE in classified then classified[NCRE] else [];
    var regular := CalculateCategoryTotals(facts + others, m, rate);
    var debit := CalculateCategoryTotals(debitNotes, m, rate);
    var credit := CalculateCategoryTotals(creditNotes, m, rate);
    breakdown := DocumentTypeBreakdown(regular, debit, credit);
    BreakdownPartitionsRows(data, m, rate);
  }

  /** What calculateCurrencyBreakdown returns for the rows' column values. */
  function CurrencyBreakdownOf(data: seq<Row>, column: string, usdKey: Option<string>, rate: real): CurrencyBreakdown
  {
    var sums := Accumulate(data, column, usdKey, rate);
    CurrencyBreakdown(
      UsdPart(sums.usdCount, UsdConverted(data, column, usdKey, rate), UsdOriginal(data, column, usdKey)),
      GtqPart(sums.gtqCount, GtqTotal(data, column, usdKey)))
  }

  /**
   * Every row is counted once, under USD or GTQ; the USD total is the rate
   * times the original USD total (the sum of the USD rows' values), and the
   * two totals add up to the converted sum.
   */
  lemma {:induction false} CurrencyBreakdownProperties(data: seq<Row>, column: string, usdKey: Option<string>, rate: real)
    ensures CurrencyBreakdownOf(data, column, usdKey, rate).usd.count
          + CurrencyBreakdownOf(data, column, usdKey, rate).gtq.count == |data|
    ensures CurrencyBreakdownOf(data, column, usdKey, rate).usd.originalTotal == UsdOriginal(data, column, usdKey)
    ensures CurrencyBreakdownOf(data, column, usdKey, rate).usd.total == rate * UsdOriginal(data, column, usdKey)
    ensures CurrencyBreakdownOf(data, column, usdKey, rate).usd.total
          + CurrencyBreakdownOf(data, column, usdKey, rate).gtq.total == Accumulate(data, column, usdKey, rate).total
  {
    ConvertedIsRateTimesOriginal(data, column, usdKey, rate);
    AccumulateSplitsByCurrency(data, column, usdKey, rate);
  }

  /** The column calculateCurrencyBreakdown reads: tax or amount, '' when not detected. */
  function TargetKey(m: ColumnMapping, isForTax: bool): string
  {
    if isForTax then TaxKey(m) else AmountKey(m)
  }

  /** calculateCurrencyBreakdown, over the amount column or, for tax, the tax column. */
  method CalculateCurrencyBreakdown(data: seq<Row>, m: ColumnMapping, rate: real, isForTax: bool := false)
    returns (r: CurrencyBreakdown)
    ensures r == CurrencyBreakdownOf(data, TargetKey(m, isForTax), CurrencyKey(m), rate)
  {
    var targetColumn := TargetKey(m, isForTax);
    var usdCount := 0;
    var gtqCount := 0;
    var usdTotal := 0.0;
    var gtqTotal := 0.0;
    var originalUsdTotal := 0.0;
    var i := 0;
    while i < |data|
      invariant 0 <= i <= |data|
      invariant usdCount == Accumulate(data[..i], targetColumn, CurrencyKey(m), rate).usdCount
      invariant gtqCount == Accumulate(data[..i], targetColumn, CurrencyKey(m), rate).gtqCount
      invariant usdTotal == UsdConverted(data[..i], targetColumn, CurrencyKey(m), rate)
      invariant originalUsdTotal == UsdOriginal(data[..i], targetColumn, CurrencyKey(m))
      invariant gtqTotal == GtqTotal(data[..i], targetColumn, CurrencyKey(m))
    {
      var row := data[i];
      var value := ValueAt(row, targetColumn);
      AccumulateStep(data, i, targetColumn, CurrencyKey(m), rate);
      PerCurrencyStep(data, i, targetColumn, CurrencyKey(m), rate);
      if RowIsUsd(row, CurrencyKey(m)) {
        usdCount := usdCount + 1;
        originalUsdTotal := originalUsdTotal + value;
        usdTotal := usdTotal + Converted(row, targetColumn, CurrencyKey(m), rate);
      } else {
        gtqCount := gtqCount + 1;
        gtqTotal := gtqTotal + value;
      }
      i := i + 1;
    }
    assert data[..i] == data;
    r := CurrencyBreakdown(UsdPart(usdCount, usdTotal, originalUsdTotal), GtqPart(gtqCount, gtqTotal));
  }

  /** What createDetailedTaxSummary returns. */
  function DetailedTaxSummaryOf(data: seq<Row>, m: ColumnMapping, rate: real): DetailedTaxSummary
  {
    DetailedTaxSummary(
      |data|,
      ColumnSum(data, m.total, m.currency, rate).total,
      ColumnSum(data, m.tax, m.currency, rate).total,
      CurrencyBreakdownOf(data, AmountKey(m), CurrencyKey(m), rate),
      DocumentTypeBreakdownOf(data, m, rate))
  }

  /**
   * With the amount (or tax) and currency columns detected, the summary's
   * total agrees with both breakdowns: USD plus GTQ, and the three
   * document categories.
   */
  lemma {:induction false} SummaryAgreesWithBreakdowns(data: seq<Row>, m: ColumnMapping, rate: real)
    ensures HasColumn(m.total) && HasColumn(m.currency) ==>
      DetailedTaxSummaryOf(data, m, rate).totalAmount
      == DetailedTaxSummaryOf(data, m, rate).currencyBreakdown.usd.total
       + DetailedTaxSummaryOf(data, m, rate).currencyBreakdown.gtq.total
    ensures HasColumn(m.total) && HasColumn(m.currency) ==>
      DetailedTaxSummaryOf(data, m, rate).totalAmount
      == DetailedTaxSummaryOf(data, m, rate).documentBreakdown.regular.totalAmount
       + DetailedTaxSummaryOf(data, m, rate).documentBreakdown.debitNotes.totalAmount
       + DetailedTaxSummaryOf(data, m, rate).documentBreakdown.creditNotes.totalAmount
    ensures HasColumn(m.tax) && HasColumn(m.currency) ==>
      DetailedTaxSummaryOf(data, m, rate).totalTax
      == DetailedTaxSummaryOf(data, m, rate).documentBreakdown.regular.totalTax
       + DetailedTaxSummaryOf(data, m, rate).documentBreakdown.debitNotes.totalTax
       + DetailedTaxSummaryOf(data, m, rate).documentBreakdown.creditNotes.totalTax
    ensures DetailedTaxSummaryOf(data, m, rate).documentBreakdown.regular.count
          + DetailedTaxSummaryOf(data, m, rate).documentBreakdown.debitNotes.count
          + DetailedTaxSummaryOf(data, m, rate).documentBreakdown.creditNotes.count
         == DetailedTaxSummaryOf(data, m, rate).invoiceCount
  {
    BreakdownPartitionsRows(data, m, rate);
    if HasColumn(m.currency) {
      assert UsdKey(m.currency) == CurrencyKey(m);
      CurrencyBreakdownProperties(data, AmountKey(m), CurrencyKey(m), rate);
    }
  }

  /** createDetailedTaxSummary. */
  method CreateDetailedTaxSummary(data: seq<Row>, m: ColumnMapping, rate: real) returns (r: DetailedTaxSummary)
    ensures r == DetailedTaxSummaryOf(data, m, rate)
    ensures r.invoiceCount == |data|
  {
    var totalAmount := SumColumnValues(data, m.total, m.currency, rate);
    var totalTax := SumColumnValues(data, m.tax, m.currency, rate);
    var currencyBreakdown := CalculateCurrencyBreakdown(data, m, rate, false);
    var documentBreakdown := CalculateDocumentTypeBreakdown(data, m, rate);
    r := DetailedTaxSummary(|data|, totalAmount.total, totalTax.total, currencyBreakdown, documentBreakdown);
  }
}
