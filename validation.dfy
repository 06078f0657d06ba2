/**
 * Eligibility of a purchase row for tax-credit selection. The rules read
 * fixed column names of the Guatemalan invoice export, not the detected
 * column mapping.
 */
module InvoiceValidation {
  import opened Text
  import opened Cells
  import opened NumericValue

  const GROSS_TOTAL_COLUMN: string := "Gran Total (Moneda Original)"
  const TAX_COLUMN: string := "IVA (monto de este impuesto)"
  const CANCELED_COLUMN: string := "Marca de anulado"
  const DOCUMENT_TYPE_COLUMN: string := "Tipo de DTE (nombre)"

  const REQUIRED_FIELDS: seq<string> := [GROSS_TOTAL_COLUMN, TAX_COLUMN]

  /** A value that is neither undefined nor null. */
  predicate Present(c: Cell)
  {
    c != Missing && c != Null
  }

  /** Each required column holds a value. */
  predicate HasRequiredFields(row: Row)
  {
    forall i :: 0 <= i < |REQUIRED_FIELDS| ==> Present(Get(row, REQUIRED_FIELDS[i]))
  }

  /** The cancellation flag is not 'Si', not 'YES' and not boolean true (strict equality). */
  predicate IsNotCanceled(row: Row)
  {
    var flag := Get(row, CANCELED_COLUMN);
    flag != Str("Si") && flag != Str("YES") && flag != Bool(true)
  }

  /**
   * The type's text, upper-cased, is "RECI". A falsy cell becomes
   * '', and the text of a number, a boolean or a date is never "RECI", so
   * only a string cell can denote a receipt.
   */
  predicate IsReceipt(row: Row)
  {
    var t := Get(row, DOCUMENT_TYPE_COLUMN);
    t.Str? && ToUpper(t.s) == "RECI"
  }

  function TaxValue(row: Row): real
  {
    ParseNumericValue(Get(row, TAX_COLUMN))
  }

  /** Receipts must carry a positive tax; every other type passes. */
  predicate IsNotExemptDocument(row: Row)
  {
    !IsReceipt(row) || TaxValue(row) > 0.0
  }

  predicate HasPositiveTax(row: Row)
  {
    TaxValue(row) > 0.0
  }

  /**
   * isValidInvoice: the conjunction of the four rules. Since a positive
   * tax already satisfies the receipt rule, that rule never decides.
   */
  function IsValidInvoice(row: Row): (ok: bool)
    ensures ok <==> HasRequiredFields(row) && IsNotCanceled(row) && HasPositiveTax(row)
    ensures ok ==> TaxValue(row) > 0.0
  {
    HasRequiredFields(row) && IsNotCanceled(row) && IsNotExemptDocument(row) && HasPositiveTax(row)
  }

  /** The required fields are the two fixed columns, and only undefined or null fails them. */
  lemma {:induction false} RequiredFieldsMeaning(row: Row)
    ensures HasRequiredFields(row) <==> Present(Get(row, GROSS_TOTAL_COLUMN)) && Present(Get(row, TAX_COLUMN))
    ensures Present(Str(""))
  {
    assert REQUIRED_FIELDS[0] == GROSS_TOTAL_COLUMN && REQUIRED_FIELDS[1] == TAX_COLUMN;
  }

  /** The cancellation test is case-sensitive: 'si' and 'yes' do not cancel; 'Si', 'YES' and true do. */
  lemma {:induction false} CancellationIsCaseSensitive(row: Row)
    ensures IsNotCanceled(row[CANCELED_COLUMN := Str("si")])
    ensures IsNotCanceled(row[CANCELED_COLUMN := Str("yes")])
    ensures !IsNotCanceled(row[CANCELED_COLUMN := Str("Si")])
    ensures !IsNotCanceled(row[CANCELED_COLUMN := Str("YES")])
    ensures !IsNotCanceled(row[CANCELED_COLUMN := Bool(true)])
  {
  }

  /** A row that is not a receipt always passes the exemption rule. */
  lemma {:induction false} NonReceiptNotExempt(row: Row)
    requires !IsReceipt(row)
    ensures IsNotExemptDocument(row)
  {
  }

  /** Tax text with no leading number reads as 0, so the row is never eligible. */
  lemma {:induction false} NonNumericTaxIsInvalid(row: Row, s: string)
    requires Get(row, TAX_COLUMN) == Str(s)
    requires var t := Strip(s);
             t == [] || (!IsDigit(t[0]) && t[0] != '-' && t[0] != '+' && t[0] != '.')
    ensures !IsValidInvoice(row)
  {
    NonNumericTextIsZero(s);
  }
}
