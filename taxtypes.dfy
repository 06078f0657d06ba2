/**
 * The records the services exchange, and the configuration constants of
 * the tax domain (Guatemalan VAT in quetzales, GTQ).
 */
module TaxTypes {
  import opened Cells

  /** Math.abs on amounts, used by the scorer and by the sort comparator. */
  function Abs(x: real): (r: real)
    ensures r >= 0.0 && (r == x || r == -x)
  {
    if x < 0.0 then -x else x
  }

  /** Document categories of the Guatemalan electronic-invoice system. */
  datatype DocumentType = FACT | NDEB | NCRE | OTHER

  /** A purchase row prepared for selection; amounts are already in GTQ. */
  datatype Invoice = Invoice(
    invoiceNumber: string,
    taxpayerName: string,
    totalAmount: real,
    taxAmount: real,
    currency: string,
    documentType: DocumentType,
    originalRow: Row,
    taxRatio: real,
    efficiencyScore: real,
    isValid: bool)

  /** Detected column names per role; None is both "undefined" and null. */
  datatype ColumnMapping = ColumnMapping(
    date: Option<string>,
    taxpayerNumber: Option<string>,
    taxpayerName: Option<string>,
    total: Option<string>,
    tax: Option<string>,
    invoiceNumber: Option<string>,
    currency: Option<string>)

  datatype CategoryTotals = CategoryTotals(count: nat, totalAmount: real, totalTax: real)

  datatype DocumentTypeBreakdown = DocumentTypeBreakdown(
    regular: CategoryTotals,
    debitNotes: CategoryTotals,
    creditNotes: CategoryTotals)

  datatype UsdPart = UsdPart(count: nat, total: real, originalTotal: real)

  datatype GtqPart = GtqPart(count: nat, total: real)

  datatype CurrencyBreakdown = CurrencyBreakdown(usd: UsdPart, gtq: GtqPart)

  datatype DetailedTaxSummary = DetailedTaxSummary(
    invoiceCount: nat,
    totalAmount: real,
    totalTax: real,
    currencyBreakdown: CurrencyBreakdown,
    documentBreakdown: DocumentTypeBreakdown)

  datatype InvoiceOptimizationResult = InvoiceOptimizationResult(
    targetTaxAmount: real,
    achievedTaxAmount: real,
    coveragePercentage: real,
    selectedInvoices: seq<Invoice>,
    totalSelectedInvoices: nat,
    remainingTaxGap: real)

  datatype LedgerMappings = LedgerMappings(sales: ColumnMapping, purchases: ColumnMapping)

  datatype LedgerBreakdowns = LedgerBreakdowns(sales: CurrencyBreakdown, purchases: CurrencyBreakdown)

  /**
   * What the tax calculation returns. The declared fields salesSummary,
   * purchasesSummary and invoiceOptimization are never filled in by the
   * calculation and are therefore absent here.
   */
  datatype TaxCalculationResult = TaxCalculationResult(
    totalSales: real,
    totalPurchases: real,
    salesTax: real,
    purchasesTax: real,
    taxPayable: real,
    taxCredit: real,
    salesData: seq<Row>,
    purchasesData: seq<Row>,
    detectedColumns: LedgerMappings,
    exchangeRate: real,
    baseCurrency: string,
    currencyBreakdown: LedgerBreakdowns,
    taxBreakdown: LedgerBreakdowns)

  datatype FileValidationResult = FileValidationResult(isValid: bool, errorMessage: Option<string>)

  /** Guatemala's VAT rate, 12%. */
  const TAX_RATE: real := 0.12

  /** 10 MiB. */
  const MAX_FILE_SIZE: nat := 10 * 1024 * 1024

  const ALLOWED_EXTENSIONS: seq<string> := [".xlsx", ".xls"]

  const BASE_CURRENCY: string := "GTQ"
}
