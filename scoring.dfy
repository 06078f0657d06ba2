/**
 * The efficiency score of a candidate invoice: a weighted blend of how
 * close its tax ratio is to the statutory 12%, a preference per document
 * type, and a band on the size of its tax amount.
 */
module InvoiceScore {
  import opened TaxTypes

  /** The ratio the scorer rewards, the 12% VAT rate. */
  const OPTIMAL_RATIO: real := 0.12

  const RATIO_WEIGHT: real := 0.5
  const TYPE_WEIGHT: real := 0.3
  const SIZE_WEIGHT: real := 0.2

  /** The per-type preference table. */
  const DOCUMENT_TYPE_SCORES: map<DocumentType, real> := map[FACT := 1.0, NDEB := 0.8, OTHER := 0.6, NCRE := 0.3]

  /** Every document type has a non-zero entry in the table. */
  lemma {:induction false} TableEntry(t: DocumentType)
    ensures t in DOCUMENT_TYPE_SCORES && DOCUMENT_TYPE_SCORES[t] in {1.0, 0.8, 0.6, 0.3}
    ensures t == FACT <==> DOCUMENT_TYPE_SCORES[t] == 1.0
  {
    match t
    case FACT => assert DOCUMENT_TYPE_SCORES[FACT] == 1.0;
    case NDEB => assert DOCUMENT_TYPE_SCORES[NDEB] == 0.8;
    case OTHER => assert DOCUMENT_TYPE_SCORES[OTHER] == 0.6;
    case NCRE => assert DOCUMENT_TYPE_SCORES[NCRE] == 0.3;
  }

  function RatioDistance(taxRatio: real): real
  {
    Abs(taxRatio - OPTIMAL_RATIO)
  }

  /** Banded by the distance of the ratio from 0.12. */
  function TaxRatioScore(taxRatio: real): (r: real)
    ensures r in {1.0, 0.8, 0.6, 0.4, 0.2}
    ensures r == 1.0 <==> RatioDistance(taxRatio) <= 0.005
  {
    var difference := RatioDistance(taxRatio);
    if difference <= 0.005 then 1.0
    else if difference <= 0.01 then 0.8
    else if difference <= 0.02 then 0.6
    else if difference <= 0.03 then 0.4
    else 0.2
  }

  /** The table entry, or 0.5 when the lookup is missing or falsy. */
  function DocumentTypeScore(documentType: DocumentType): (r: real)
    ensures r in {1.0, 0.8, 0.6, 0.3}
    ensures r == 1.0 <==> documentType == FACT
  {
    TableEntry(documentType);
    if documentType in DOCUMENT_TYPE_SCORES && DOCUMENT_TYPE_SCORES[documentType] != 0.0
    then DOCUMENT_TYPE_SCORES[documentType]
    else 0.5
  }

  /** Banded by the absolute tax amount. */
  function SizeScore(taxAmount: real): (r: real)
    ensures r in {1.0, 0.8, 0.6, 0.4, 0.2}
    ensures r == 1.0 <==> taxAmount >= 100.0
    ensures r == 0.2 <==> taxAmount < 5.0
  {
    if taxAmount >= 100.0 then 1.0
    else if taxAmount >= 50.0 then 0.8
    else if taxAmount >= 20.0 then 0.6
    else if taxAmount >= 5.0 then 0.4
    else 0.2
  }

  /**
   * calculateEfficiencyScore. The score always lies in [0.23, 1.0] and is
   * perfect exactly for a regular invoice, at the statutory ratio, of at
   * least 100 in tax.
   */
  function EfficiencyScore(invoice: Invoice): (r: real)
    ensures 0.23 <= r <= 1.0
    ensures r == 1.0 <==> invoice.documentType == FACT && RatioDistance(invoice.taxRatio) <= 0.005 && invoice.taxAmount >= 100.0
  {
    TaxRatioScore(invoice.taxRatio) * RATIO_WEIGHT
    + DocumentTypeScore(invoice.documentType) * TYPE_WEIGHT
    + SizeScore(invoice.taxAmount) * SIZE_WEIGHT
  }

  /** The score depends on nothing but the ratio, the type and the tax amount. */
  lemma {:induction false} ScoreIgnoresOtherFields(a: Invoice, b: Invoice)
    requires a.taxRatio == b.taxRatio && a.documentType == b.documentType && a.taxAmount == b.taxAmount
    ensures EfficiencyScore(a) == EfficiencyScore(b)
  {
  }

  /** The ratio score never increases as the ratio moves away from 0.12, and 0.12 itself scores 1. */
  lemma {:induction false} TaxRatioScoreMonotone(a: real, b: real)
    requires RatioDistance(a) <= RatioDistance(b)
    ensures TaxRatioScore(a) >= TaxRatioScore(b)
    ensures TaxRatioScore(OPTIMAL_RATIO) == 1.0
  {
  }

  /** FACT > NDEB > OTHER > NCRE, and the 0.5 fallback is never used. */
  lemma {:induction false} DocumentTypeScoreOrder()
    ensures DocumentTypeScore(FACT) == 1.0 && DocumentTypeScore(NDEB) == 0.8
    ensures DocumentTypeScore(OTHER) == 0.6 && DocumentTypeScore(NCRE) == 0.3
    ensures forall t :: t in DOCUMENT_TYPE_SCORES && DOCUMENT_TYPE_SCORES[t] != 0.0
  {
    forall t ensures t in DOCUMENT_TYPE_SCORES && DOCUMENT_TYPE_SCORES[t] != 0.0 {
      TableEntry(t);
    }
  }

  /** A larger tax amount never scores lower. */
  lemma {:induction false} SizeScoreMonotone(a: real, b: real)
    requires a <= b
    ensures SizeScore(a) <= SizeScore(b)
  {
  }
}
