# iva-web VAT pipeline in Dafny

This project models the server side of iva-web, a tool for the monthly
Guatemalan VAT (IVA) return. It reads a sales ledger and a purchase ledger
exported as spreadsheets. It turns their rows into records, detects which
column holds what, and sums amounts and taxes in GTQ, converting USD rows
at an exchange rate. It then computes the tax payable or the credit carried
forward, with breakdowns by currency and by document type (invoice FACT,
debit note NDEB, credit note NCRE, anything else OTHER). Its optimizer
picks purchase invoices whose taxes together come close to the sales tax:
it validates rows, scores each invoice, ranks the candidates, selects
greedily inside a ±5 % band, and refines the selection.

Modules, one per service plus shared ones:

- `Text`: the string operations the services use (`toUpperCase`,
  `toLowerCase`, `trim`, `includes`, `lastIndexOf`, `substring`).
- `Cells`: a spreadsheet cell (`Missing | Null | Str | Num | Bool | DateVal`)
  and a row as `map<string, Cell>`.
- `NumericValue`: `parseNumericValue`, which appears identically in four
  services, and the `parseFloat` prefix parser under it.
- `TaxTypes`: the records and constants of `server/types/tax.types.ts`.
- `CurrencyAggregation`: `sumColumnValues`. It is shared by
  `DocumentClassification` and `TaxCalculation`, since the source carries
  two identical copies.
- `InvoiceValidation`, `InvoiceScore`, `InvoiceSelection`,
  `InvoiceOptimization`, `DocumentClassification`, `TaxCalculation`,
  `FileValidation`, `ExcelProcessing`: one per service. `ExcelProcessing`
  reads sheet rows whose positions are holes, explicit undefined elements,
  nulls or text rendered by the sheet reader
  (`Hole | Undefined | NullValue | Rendered`).

Amounts are `real`. Loops in the source become methods with `while` or
`for` loops. Each such method is proved equal to a specification function,
and the properties are proved about that function.

## Model

| member | source | states |
|---|---|---|
| Text.ToUpper | server/services/DocumentClassificationService.ts:18 | upper-casing keeps the length and maps each character by its ASCII upper-case letter |
| Text.ToLower | server/services/FileValidationService.ts:5 | lower-casing keeps the length and maps each character by its ASCII lower-case letter |
| Text.ToUpperIdempotent | server/services/DocumentClassificationService.ts:18 | upper-casing twice is upper-casing once |
| Text.UpperOfLower | server/services/DocumentClassificationService.ts:18 | upper-casing a lower-cased text is upper-casing the text itself |
| Text.TrimStart | server/services/ExcelProcessingService.ts:116 | the result is a suffix of the text that is empty or starts with a non-space |
| Text.TrimEnd | server/services/ExcelProcessingService.ts:116 | the result is a prefix of the text that is empty or ends with a non-space |
| Text.Trim | server/services/ExcelProcessingService.ts:116 | the result is no longer than the text and neither starts nor ends with white space |
| Text.ContainsTrim | server/services/DocumentClassificationService.ts:18-22 | trimming never changes whether a text contains a code that has no white space at either end |
| Text.ContainsTrimStart | server/services/DocumentClassificationService.ts:18-22 | dropping leading white space keeps exactly the same occurrences of such a code |
| Text.ContainsTrimEnd | server/services/DocumentClassificationService.ts:18-22 | dropping trailing white space keeps exactly the same occurrences of such a code |
| Text.ShortTextContainsNothing | server/services/DocumentClassificationService.ts:20-22 | a text shorter than a code never contains it |
| Text.MissingCharNotContained | server/services/DocumentClassificationService.ts:20-22 | a text lacking one character of a code never contains the code |
| Text.LastIndexOf | server/services/FileValidationService.ts:5 | the position of the last occurrence of the character (no later position holds it), or -1 when it does not occur |
| Text.SubstringFrom | server/services/FileValidationService.ts:5 | `substring(start)`: the whole text for a non-positive start, the suffix from start otherwise, empty past the end |
| Text.IsWhitespace | server/services/ExcelProcessingService.ts:116 | the white space of `trim` and of the regular-expression class for white space: the ECMAScript WhiteSpace characters (tab, vertical tab, form feed, space, no-break space, U+1680, U+2000 to U+200A, U+202F, U+205F, U+3000, the byte-order mark) and the LineTerminator characters (line feed, carriage return, U+2028, U+2029) |
| Text.StartsWith | server/services/ExcelProcessingService.ts:142 | the text begins with the given code, the step of the substring search |
| Text.Contains | server/services/DocumentClassificationService.ts:20-22 | `includes`: the code occurs at some position of the text, found by trying each start in turn |
| Cells.IsUsdIsUpperCaseUsd | server/services/TaxCalculationService.ts:18-21 | a cell counts as USD exactly when it is text whose upper-cased form is "USD" |
| Cells.IsUsd | server/services/TaxCalculationService.ts:18-21 | a cell is USD when it is text of three characters whose ASCII upper-case forms are U, S and D |
| Cells.Get | server/services/InvoiceValidationService.ts:13 | reading a row at a key: the stored cell, or undefined for a key the row lacks |
| Cells.Truthy | server/services/DocumentClassificationService.ts:16 | JavaScript truthiness of a cell: undefined, null, the empty text, 0 and false are falsy; a Date is truthy |
| Cells.KeyOr | server/services/DocumentClassificationService.ts:79-81 | `column || fallback`: the mapped column name when present and non-empty, else the fallback key |
| Cells.HasColumn | server/services/TaxCalculationService.ts:9 | a column name is truthy: present and not empty |
| NumericValue.Strip | server/services/InvoiceValidationService.ts:32 | the cleaned text is no longer than the input and holds no comma and no white space |
| NumericValue.DigitRun | server/services/InvoiceValidationService.ts:33 | the length of the leading digit run: all digits before it, a non-digit or the end after it |
| NumericValue.ParseFloat | server/services/InvoiceValidationService.ts:33 | an optional sign, then the unsigned reading of the rest, negated for a minus sign; None stands for NaN |
| NumericValue.ParseUnsigned | server/services/InvoiceValidationService.ts:33 | the leading digit run is the integer part, and the text after it is read as fraction and exponent |
| NumericValue.ParseMantissa | server/services/InvoiceValidationService.ts:33 | the integer digits, an optional fraction after a point and an optional exponent, read as the longest valid prefix; NaN when there is no digit before or after the point |
| NumericValue.ParseNumericValue | server/services/InvoiceValidationService.ts:30-35 | a number cell passes through unchanged; a missing, null, boolean or date cell is 0 |
| NumericValue.ParseNumericText | server/services/InvoiceValidationService.ts:30-35 | a text cell is stripped of commas and white space and read by parseFloat, NaN giving 0 |
| NumericValue.StripAndParseReads | server/services/InvoiceValidationService.ts:32-34 | examining the characters one at a time and reading the kept ones is reading the stripped text |
| NumericValue.NatToText | server/services/FileValidationService.ts:21 | the decimal text of a natural number is non-empty and all digits |
| NumericValue.DigitsValueOfNatToText | server/services/FileValidationService.ts:21 | reading back the decimal text of n gives n |
| NumericValue.ParseNatText | server/services/InvoiceValidationService.ts:30-35 | the decimal text of n parses as n |
| NumericValue.SeparatorIgnored | server/services/DocumentClassificationService.ts:188-190 | a comma or white space anywhere in the text never changes the parsed value |
| NumericValue.SameStripSameValue | server/services/DocumentClassificationService.ts:188-190 | texts that clean to the same text parse to the same value |
| NumericValue.StripAppend | server/services/DocumentClassificationService.ts:188 | cleaning distributes over concatenation |
| NumericValue.NonNumericTextIsZero | server/services/DocumentClassificationService.ts:189-192 | text whose cleaned form starts with no digit, sign or point parses to 0, without failing |
| NumericValue.ParseDecimal | server/services/DocumentClassificationService.ts:188-190 | text cleaning to digits, a point and digits parses to the whole part plus the fraction |
| NumericValue.ParsePlainDecimal | server/services/DocumentClassificationService.ts:186-193 | "1234.50" parses as 1234.5 |
| NumericValue.ParseThousands | server/services/DocumentClassificationService.ts:186-193 | "1,234.50" parses as 1234.5 |
| NumericValue.ParseThinSpaceGrouped | server/services/DocumentClassificationService.ts:186-193 | "1 234" grouped with a thin space (U+2009) parses as 1234 |
| NumericValue.ParseNotAvailable | server/services/DocumentClassificationService.ts:186-193 | "N/A" parses as 0 |
| NumericValue.FloatOrZero | server/services/DocumentClassificationService.ts:190-192 | the parseFloat reading of the cleaned text, with NaN (no leading number) replaced by 0 |
| NumericValue.StripAndParse | server/services/DocumentClassificationService.ts:189-192 | cleaning and reading in one pass: each comma or white-space character is dropped, every other character kept, and the kept text is read |
| InvoiceValidation.IsValidInvoice | server/services/InvoiceValidationService.ts:4-9 | a row is valid exactly when it has the required fields, is not cancelled and has a positive tax (the exemption rule never decides); a valid row's tax is positive |
| InvoiceValidation.HasRequiredFields | server/services/InvoiceValidationService.ts:11-14 | both required columns hold a value that is neither undefined nor null |
| InvoiceValidation.IsNotCanceled | server/services/InvoiceValidationService.ts:16-19 | the cancellation cell is, by strict equality, none of 'Si', 'YES' and true |
| InvoiceValidation.IsNotExemptDocument | server/services/InvoiceValidationService.ts:21-24 | a receipt (type text upper-casing to RECI) must carry a positive tax; any other row passes |
| InvoiceValidation.HasPositiveTax | server/services/InvoiceValidationService.ts:26-28 | the parsed tax cell is positive |
| InvoiceValidation.RequiredFieldsMeaning | server/services/InvoiceValidationService.ts:11-14 | the required fields are the two fixed columns "Gran Total (Moneda Original)" and "IVA (monto de este impuesto)"; only a missing or null cell fails them, so an empty text passes |
| InvoiceValidation.CancellationIsCaseSensitive | server/services/InvoiceValidationService.ts:16-19 | 'Si', 'YES' and boolean true cancel a row; 'si' and 'yes' do not |
| InvoiceValidation.NonReceiptNotExempt | server/services/InvoiceValidationService.ts:21-24 | every row whose type is not RECI passes the exemption rule |
| InvoiceValidation.NonNumericTaxIsInvalid | server/services/InvoiceValidationService.ts:26-35 | a tax cell of non-numeric text parses to 0, so the row is invalid |
| InvoiceValidation.Present | server/services/InvoiceValidationService.ts:13 | a cell that is neither undefined nor null; an empty text is present |
| InvoiceValidation.IsReceipt | server/services/InvoiceValidationService.ts:22-23 | the document-type cell is text whose upper-cased form is exactly RECI |
| InvoiceValidation.TaxValue | server/services/InvoiceValidationService.ts:26-27 | the parsed value of the fixed IVA column, 0 for non-numeric text |
| InvoiceScore.TaxRatioScore | server/services/InvoiceScoreService.ts:12-21 | the ratio score is one of 1, 0.8, 0.6, 0.4, 0.2, and is 1 exactly when the ratio is within 0.005 of 0.12 |
| InvoiceScore.TaxRatioScoreMonotone | server/services/InvoiceScoreService.ts:12-21 | the ratio score never rises as the distance from 0.12 grows, and the ratio 0.12 scores 1 |
| InvoiceScore.TableEntry | server/services/InvoiceScoreService.ts:24-30 | every document type has an entry in the score table, so the 0.5 fallback is unreachable; only FACT scores 1 |
| InvoiceScore.DocumentTypeScore | server/services/InvoiceScoreService.ts:23-31 | the type score is one of 1, 0.8, 0.6, 0.3, and is 1 exactly for FACT |
| InvoiceScore.DocumentTypeScoreOrder | server/services/InvoiceScoreService.ts:23-31 | FACT 1.0, NDEB 0.8, OTHER 0.6, NCRE 0.3, and no table entry is 0, so the fallback never applies |
| InvoiceScore.SizeScore | server/services/InvoiceScoreService.ts:33-39 | the size score is one of the five bands; it is 1 exactly for a tax of at least 100 and 0.2 exactly below 5 |
| InvoiceScore.SizeScoreMonotone | server/services/InvoiceScoreService.ts:33-39 | the size score never falls as the tax amount grows |
| InvoiceScore.EfficiencyScore | server/services/InvoiceScoreService.ts:4-39 | the weighted score lies in [0.23, 1] and is 1 exactly for a FACT within 0.005 of the optimal ratio with a tax of at least 100 |
| InvoiceScore.ScoreIgnoresOtherFields | server/services/InvoiceScoreService.ts:4-10 | the score depends only on the ratio, the type and the tax amount |
| InvoiceScore.RatioDistance | server/services/InvoiceScoreService.ts:13-14 | the absolute difference between the ratio and 0.12 |
| TaxTypes.Abs | server/services/InvoiceScoreService.ts:14 | `Math.abs`: a non-negative value equal to the argument or to its negation |
| InvoiceSelection.TaxSumAppend | server/services/OptimizedInvoiceSelectionService.ts:46 | the tax sum of a concatenation is the sum of the parts' tax sums |
| InvoiceSelection.TaxSum | server/services/OptimizedInvoiceSelectionService.ts:46 | the tax amounts added from the left, starting at 0 |
| InvoiceSelection.TaxSumPositive | server/services/OptimizedInvoiceSelectionService.ts:46 | positive taxes sum to a non-negative total, which is positive for a non-empty list |
| InvoiceSelection.FilterValidInvoices | server/services/OptimizedInvoiceSelectionService.ts:11-13 | every kept invoice is marked valid with a positive tax, and no more invoices come out than went in |
| InvoiceSelection.FilterMembers | server/services/OptimizedInvoiceSelectionService.ts:11-13 | the kept invoices are drawn from the input, and an invoice is kept exactly when it is in the input and eligible |
| InvoiceSelection.FilterAppend | server/services/OptimizedInvoiceSelectionService.ts:11-13 | filtering distributes over concatenation, so input order is kept |
| InvoiceSelection.FilterKeepsEligible | server/services/OptimizedInvoiceSelectionService.ts:11-13 | a list of valid invoices with positive taxes passes the filter unchanged |
| InvoiceSelection.Insert | server/services/OptimizedInvoiceSelectionService.ts:15-21 | inserting adds exactly the new invoice to the list's contents, and nothing else |
| InvoiceSelection.InsertKeepsOrder | server/services/OptimizedInvoiceSelectionService.ts:15-21 | inserting into a list with no neighbours the comparator would swap leaves none, and ends with the new or the old last invoice |
| InvoiceSelection.InOrderSnoc | server/services/OptimizedInvoiceSelectionService.ts:16-20 | an invoice the comparator lets follow the last one can be appended without breaking the order |
| InvoiceSelection.Compare | server/services/OptimizedInvoiceSelectionService.ts:16-21 | the score difference b − a when the scores are more than 0.1 apart, else the tax difference b − a; a positive value puts b first |
| InvoiceSelection.CompareAntisymmetric | server/services/OptimizedInvoiceSelectionService.ts:16-20 | swapping the comparator's arguments negates its result |
| InvoiceSelection.SortByEfficiency | server/services/OptimizedInvoiceSelectionService.ts:15-22 | the ranked list is a permutation of the input (same multiset, same length) with no neighbours the comparator would swap |
| InvoiceSelection.SortedAreEligible | server/services/OptimizedInvoiceSelectionService.ts:15-22 | ranking valid invoices with positive taxes yields only such invoices |
| InvoiceSelection.Greedy | server/services/OptimizedInvoiceSelectionService.ts:24-40 | the greedy scan records one picked flag per candidate |
| InvoiceSelection.Picked | server/services/OptimizedInvoiceSelectionService.ts:29-35 | the invoices a mask picks form a sub-multiset of the candidates |
| InvoiceSelection.GreedySelectsPicked | server/services/OptimizedInvoiceSelectionService.ts:29-40 | the selection is the sub-sequence of the ranked candidates whose flags are set |
| InvoiceSelection.GreedyTotalIsSum | server/services/OptimizedInvoiceSelectionService.ts:29-35 | the running total is the tax sum of the selection |
| InvoiceSelection.GreedyStaysStopped | server/services/OptimizedInvoiceSelectionService.ts:36-38 | once the loop breaks, later candidates change nothing |
| InvoiceSelection.GreedyWithinUpperBound | server/services/OptimizedInvoiceSelectionService.ts:27-35 | a non-empty selection never exceeds target + 5 % |
| InvoiceSelection.GreedyEmptyForNonPositiveTarget | server/services/OptimizedInvoiceSelectionService.ts:27-33 | with a non-positive target and positive taxes nothing is selected and the total is 0 |
| InvoiceSelection.GreedyStopsAtLowerBound | server/services/OptimizedInvoiceSelectionService.ts:36-38 | for a positive target the loop breaks exactly when the total reaches target − 5 %, and the total without the last pick was below it |
| InvoiceSelection.StoppedMeansLower | server/services/OptimizedInvoiceSelectionService.ts:36-38 | a stopped scan has reached target − 5 % |
| InvoiceSelection.GreedyMaximal | server/services/OptimizedInvoiceSelectionService.ts:29-40 | when the total stays below target − 5 %, every candidate passed over would push it above target + 5 % |
| InvoiceSelection.FirstFit | server/services/OptimizedInvoiceSelectionService.ts:63-67 | the index of the first invoice whose tax lies within 0.8–1.2 times the gap, or -1 when none does |
| InvoiceSelection.MoveToEnd | server/services/OptimizedInvoiceSelectionService.ts:65 | the invoice at the found index goes last and the others keep their order |
| InvoiceSelection.MoveToEndPermutes | server/services/OptimizedInvoiceSelectionService.ts:65 | moving one invoice to the end is a permutation |
| InvoiceSelection.MoveToEndKeepsSum | server/services/OptimizedInvoiceSelectionService.ts:65 | moving one invoice to the end keeps the tax sum |
| InvoiceSelection.AttemptBetterCombination | server/services/OptimizedInvoiceSelectionService.ts:55-70 | the scan returns null for a closed gap or when nothing fits, otherwise the selection with the first fitting invoice moved last |
| InvoiceSelection.BetterCombination | server/services/OptimizedInvoiceSelectionService.ts:55-70 | null when the gap to the target is closed or no invoice of 80 % to 120 % of the gap exists, else the selection with the first such invoice moved last |
| InvoiceSelection.RefineSelection | server/services/OptimizedInvoiceSelectionService.ts:45-53 | refinement keeps a selection that reached 95 % of the target, else takes the better combination when there is one |
| InvoiceSelection.Refined | server/services/OptimizedInvoiceSelectionService.ts:45-53 | the selection itself once it reaches 95 % of the target, else the better combination or, failing that, the selection |
| InvoiceSelection.RefinedPermutes | server/services/OptimizedInvoiceSelectionService.ts:45-70 | refinement only reorders: same multiset, length and tax sum, and no change at all once 95 % of the target is reached |
| InvoiceSelection.GreedyKnapsack | server/services/OptimizedInvoiceSelectionService.ts:24-43 | the loop with its early break computes the greedy selection, which is then refined |
| InvoiceSelection.GreedyRefinedFromRanked | server/services/OptimizedInvoiceSelectionService.ts:24-43 | the refined greedy result is drawn from the ranked candidates and keeps their validity |
| InvoiceSelection.GreedyRefinedBounds | server/services/OptimizedInvoiceSelectionService.ts:24-53 | the refined result stays within target + 5 % for a non-negative target and is empty for a non-positive one |
| InvoiceSelection.SelectOptimalInvoices | server/services/OptimizedInvoiceSelectionService.ts:4-9 | the pipeline is filter, then rank, then greedy selection with refinement |
| InvoiceSelection.Selection | server/services/OptimizedInvoiceSelectionService.ts:4-9 | the refined greedy selection over the ranked eligible invoices |
| InvoiceSelection.SelectionProperties | server/services/OptimizedInvoiceSelectionService.ts:4-9 | every returned invoice is valid with a positive tax and comes from the input; the sum stays within target + 5 %; a non-positive target selects nothing |
| InvoiceSelection.LowerIsNinetyFivePercent | server/services/OptimizedInvoiceSelectionService.ts:24-53 | the band's lower edge is 95 % and its upper edge 105 % of the target |
| InvoiceSelection.Eligible | server/services/OptimizedInvoiceSelectionService.ts:12 | the filter condition: the invoice is valid and its tax amount is positive |
| InvoiceSelection.InOrder | server/services/OptimizedInvoiceSelectionService.ts:16-21 | no two neighbours that the comparator would swap |
| InvoiceSelection.Tolerance | server/services/OptimizedInvoiceSelectionService.ts:27 | 5% of the target |
| InvoiceSelection.Upper | server/services/OptimizedInvoiceSelectionService.ts:32 | the target plus the tolerance, the most a running total may reach |
| InvoiceSelection.Lower | server/services/OptimizedInvoiceSelectionService.ts:36 | the target minus the tolerance, where the loop stops |
| InvoiceSelection.Fits | server/services/OptimizedInvoiceSelectionService.ts:61-64 | a tax amount of at most twice the gap and between 0.8 and 1.2 times the gap |
| DocumentClassification.ClassifyText | server/services/DocumentClassificationService.ts:18-24 | NDEB when the upper-cased text contains NDEB; otherwise NCRE, then FACT, by priority; otherwise OTHER |
| DocumentClassification.ClassifyDocument | server/services/DocumentClassificationService.ts:13-25 | a falsy or missing type cell, or any non-text cell, is OTHER; a text cell is classified by its text |
| DocumentClassification.ClassificationIgnoresCase | server/services/DocumentClassificationService.ts:18 | the letter case of the type text never changes its class |
| DocumentClassification.EmptyTextIsOther | server/services/DocumentClassificationService.ts:16 | empty text is OTHER |
| DocumentClassification.FacturaIsFact | server/services/DocumentClassificationService.ts:22 | "Factura" contains the code FACT, whatever the case |
| DocumentClassification.PaddedLowerCaseIsNcre | server/services/DocumentClassificationService.ts:18-21 | " ncre " is NCRE: padding and lower case do not hide a code |
| DocumentClassification.DebitNoteWins | server/services/DocumentClassificationService.ts:20-22 | "NDEB-FACT" is NDEB: NDEB takes priority over FACT |
| DocumentClassification.ReceiptIsOther | server/services/DocumentClassificationService.ts:20-24 | a receipt (RECI) is OTHER |
| DocumentClassification.RowsOfType | server/services/DocumentClassificationService.ts:30-38 | a bucket holds only rows of its type and is no longer than the data |
| DocumentClassification.RowsOfTypeLast | server/services/DocumentClassificationService.ts:37 | a new row is appended to its own bucket, in order, and to no other |
| DocumentClassification.BucketStep | server/services/DocumentClassificationService.ts:37 | pushing a row into one bucket adds it once to the union of the buckets |
| DocumentClassification.RowsOfTypePartition | server/services/DocumentClassificationService.ts:27-41 | the four buckets together hold exactly the rows, as multisets, and their sizes sum to the number of rows |
| DocumentClassification.ClassifyDocuments | server/services/DocumentClassificationService.ts:27-41 | the loop builds the map one row at a time; a type has a key exactly when it has rows, and its entry is its rows in input order |
| DocumentClassification.ClassificationEntries | server/services/DocumentClassificationService.ts:30-38 | in the map built row by row, a type is a key exactly when some row has that type, and its list holds that type's rows in input order |
| DocumentClassification.CalculateCategoryTotals | server/services/DocumentClassificationService.ts:70-95 | the loop computes the count and the converted amount and tax sums of the documents |
| DocumentClassification.CategoryTotalsOf | server/services/DocumentClassificationService.ts:70-95 | the number of documents and the converted sums of their amount and tax columns |
| DocumentClassification.CategoryAmountByCurrency | server/services/DocumentClassificationService.ts:83-86 | a category's amount is its GTQ rows' amounts plus the rate times its USD rows' amounts |
| DocumentClassification.CategoryTaxByCurrency | server/services/DocumentClassificationService.ts:84-87 | a category's tax is its GTQ rows' taxes plus the rate times its USD rows' taxes |
| DocumentClassification.AccumulatePartition | server/services/DocumentClassificationService.ts:56-65 | the converted sum over all rows is the sum of the per-type sums |
| DocumentClassification.BreakdownPartitionsRows | server/services/DocumentClassificationService.ts:56-65 | regular is FACT and OTHER together; the three counts add up to the number of rows, and the amounts and taxes to the sums over all rows |
| DocumentClassification.CalculateDocumentTypeBreakdown | server/services/DocumentClassificationService.ts:43-68 | the breakdown is built from the buckets, and its three counts add up to the number of rows |
| DocumentClassification.DocumentTypeBreakdownOf | server/services/DocumentClassificationService.ts:43-68 | regular is the totals of FACT and OTHER together, then the totals of NDEB and of NCRE |
| DocumentClassification.CurrencyBreakdownProperties | server/services/DocumentClassificationService.ts:111-135 | each row is counted once under USD or GTQ; the USD total is the rate times the original USD total; the two totals add up to the converted sum |
| DocumentClassification.CalculateCurrencyBreakdown | server/services/DocumentClassificationService.ts:97-136 | the loop over the amount column, or the tax column when asked, computes the currency breakdown |
| DocumentClassification.CurrencyBreakdownOf | server/services/DocumentClassificationService.ts:97-136 | the USD rows' count, converted and original sums, and the GTQ rows' count and sum |
| DocumentClassification.SummaryAgreesWithBreakdowns | server/services/DocumentClassificationService.ts:138-153 | with the columns detected, the summary's total equals USD plus GTQ and the sum of the three categories; its tax equals the categories' taxes; the category counts add up to the invoice count |
| DocumentClassification.CreateDetailedTaxSummary | server/services/DocumentClassificationService.ts:138-153 | the summary counts every row and is built from the sums and both breakdowns |
| DocumentClassification.DetailedTaxSummaryOf | server/services/DocumentClassificationService.ts:138-153 | the row count, the converted amount and tax sums, the currency breakdown of the amounts and the document-type breakdown |
| DocumentClassification.Classification | server/services/DocumentClassificationService.ts:27-41 | the Map the loop builds: a type's list is created on its first row and each row is appended to its own type's list |
| DocumentClassification.AmountKey | server/services/DocumentClassificationService.ts:79 | the key read for the amount: the total column, or '' when none was mapped |
| DocumentClassification.TaxKey | server/services/DocumentClassificationService.ts:80 | the key read for the tax: the tax column, or '' when none was mapped |
| DocumentClassification.CurrencyKey | server/services/DocumentClassificationService.ts:81 | the currency is always read, from the currency column or from '' when none was mapped |
| DocumentClassification.TargetKey | server/services/DocumentClassificationService.ts:109-112 | the tax key for a tax breakdown, the amount key otherwise |
| CurrencyAggregation.Accumulate | server/services/DocumentClassificationService.ts:166-181 | every row is counted once, as USD or as GTQ |
| CurrencyAggregation.AccumulateStep | server/services/DocumentClassificationService.ts:166-181 | one loop step adds one row's converted value, and one to the USD count for a USD row |
| CurrencyAggregation.ColumnSum | server/services/TaxCalculationService.ts:3-34 | a missing or empty column name gives all zeros; otherwise the two counts add up to the number of rows |
| CurrencyAggregation.SumColumnValues | server/services/DocumentClassificationService.ts:155-184 | the loop computes the column sums: zeros for a missing column, counts that add up to the number of rows otherwise |
| CurrencyAggregation.PerCurrencyStep | server/services/TaxCalculationService.ts:21-30 | one row extends the GTQ sum, or the original and converted USD sums, according to its currency |
| CurrencyAggregation.SharesSumConverts | server/services/TaxCalculationService.ts:23-25 | row by row a USD row's converted value is its value times the rate, so the converted USD values sum to the rate times the original ones |
| CurrencyAggregation.ConvertedIsRateTimesOriginal | server/services/TaxCalculationService.ts:23-24 | the converted USD sum is the rate times the original USD sum |
| CurrencyAggregation.AccumulateSplitsByCurrency | server/services/TaxCalculationService.ts:16-33 | the unconverted USD total is the USD rows' sum, and the total is the GTQ rows' sum plus the converted USD rows' sum |
| CurrencyAggregation.TotalSplitsByCurrency | server/services/TaxCalculationService.ts:16-33 | the total is the GTQ rows' sum plus the rate times the original USD total |
| CurrencyAggregation.GtqIsTotalLessConvertedUsd | server/services/TaxCalculationService.ts:127 | the total less the rate times the original USD total is exactly the GTQ rows' sum |
| CurrencyAggregation.AccumulateAppend | server/services/TaxCalculationService.ts:16-31 | the sums over a concatenation add up the sums over the parts |
| CurrencyAggregation.AllGtqWithoutCurrency | server/services/TaxCalculationService.ts:18 | without a currency column no row is USD, and the total does not depend on the rate |
| CurrencyAggregation.ColumnSumSplitsByCurrency | server/services/DocumentClassificationService.ts:161-183 | for a mapped column, sumColumnValues' unconverted USD total is the USD rows' sum and its total is the GTQ rows' sum plus the rate times that |
| CurrencyAggregation.ColumnSumWithoutCurrency | server/services/DocumentClassificationService.ts:161-183 | without a currency column sumColumnValues counts no USD row, and its total is the same at any rate |
| CurrencyAggregation.UsdIsCaseInsensitive | server/services/DocumentClassificationService.ts:170-172 | "usd", "Usd" and "USD" all count as USD |
| CurrencyAggregation.ValueAt | server/services/TaxCalculationService.ts:17-19 | the parsed value of a row's column, with an absent key reading as undefined and so as 0 |
| CurrencyAggregation.UsdKey | server/services/TaxCalculationService.ts:18 | where the currency is read: nowhere when the currency column is falsy (every row is GTQ), else that column |
| CurrencyAggregation.RowIsUsd | server/services/TaxCalculationService.ts:18-21 | a row is USD when a currency column is given and its cell upper-cases to USD |
| CurrencyAggregation.Converted | server/services/TaxCalculationService.ts:21-30 | a row's contribution to the total: its value times the rate for a USD row, its value otherwise |
| CurrencyAggregation.GtqTotal | server/services/TaxCalculationService.ts:26-30 | the sum of the values of the rows that are not USD |
| CurrencyAggregation.UsdOriginal | server/services/TaxCalculationService.ts:24 | the sum of the unconverted values of the USD rows |
| CurrencyAggregation.UsdConverted | server/services/TaxCalculationService.ts:23 | the sum of the converted values of the USD rows |
| InvoiceOptimization.TextOr | server/services/InvoiceOptimizationService.ts:69-70 | a falsy cell gives the fallback; a non-empty text gives that text |
| InvoiceOptimization.OtherText | server/services/InvoiceOptimizationService.ts:69-70 | the text of a truthy non-text cell: true, or a whole number's decimal digits with its sign |
| InvoiceOptimization.TaxRatio | server/services/InvoiceOptimizationService.ts:72 | for a positive total the ratio times the total is the tax, and otherwise it is 0; a tax within the total gives a ratio in [0, 1] |
| InvoiceOptimization.RatioWithinUnit | server/services/InvoiceOptimizationService.ts:72 | a part between 0 and a positive whole, over that whole, lies in [0, 1] |
| InvoiceOptimization.Scored | server/services/InvoiceOptimizationService.ts:87 | setting the score changes no other field, and the stored score is the scorer's score of the invoice |
| InvoiceOptimization.Unscored | server/services/InvoiceOptimizationService.ts:62-85 | the invoice record of a row before scoring: identifiers with their "N/A" fallbacks, amounts in GTQ, USD or GTQ as currency, the row's class, its ratio, score 0, valid |
| InvoiceOptimization.MakeInvoice | server/services/InvoiceOptimizationService.ts:62-88 | the record of the row with its efficiency score set |
| InvoiceOptimization.MakeInvoiceFields | server/services/InvoiceOptimizationService.ts:74-87 | the created invoice agrees with the unscored one on every field except the score |
| InvoiceOptimization.MakeInvoiceCurrency | server/services/InvoiceOptimizationService.ts:64-84 | an invoice is marked valid, keeps its row, and is in USD exactly when its currency cell reads USD, else in GTQ |
| InvoiceOptimization.MakeInvoiceAmounts | server/services/InvoiceOptimizationService.ts:62-67 | a USD row has both amounts multiplied by the rate; any other row keeps them as parsed |
| InvoiceOptimization.MakeInvoiceRatioAndScore | server/services/InvoiceOptimizationService.ts:71-87 | the ratio is TaxRatio of the invoice's own converted tax and total (tax over total for a positive total, 0 otherwise); the type is the row's class; the score is the scorer's |
| InvoiceOptimization.ValidRows | server/services/InvoiceOptimizationService.ts:59-60 | only rows that pass validation remain, and there are no more of them than rows |
| InvoiceOptimization.OneInvoicePerValidRow | server/services/InvoiceOptimizationService.ts:59-88 | exactly one invoice per valid row, in input order, so no more invoices than rows |
| InvoiceOptimization.CreatedInvoicesAreValid | server/services/InvoiceOptimizationService.ts:79-84 | every created invoice is marked valid and is in USD or GTQ |
| InvoiceOptimization.CreatedInvoicesAreEligible | server/services/InvoiceOptimizationService.ts:62-66 | when the tax column is the fixed IVA column and the rate is positive, every created invoice has a positive tax and the selection's filter keeps them all |
| InvoiceOptimization.NoCurrencyColumnMeansGtq | server/services/InvoiceOptimizationService.ts:64-67 | without a currency column, and no column named GTQ, an invoice is in GTQ with its amounts unconverted |
| InvoiceOptimization.IdentifiersFallBack | server/services/InvoiceOptimizationService.ts:69 | a falsy invoice-number cell gives "N/A" |
| InvoiceOptimization.CreateOptimizedInvoiceList | server/services/InvoiceOptimizationService.ts:52-92 | the loop builds exactly the invoices of the valid rows, in order |
| InvoiceOptimization.Coverage | server/services/InvoiceOptimizationService.ts:36-38 | 0 for a non-positive target; never above 100; non-negative for a non-negative achievement; 100 exactly when the target is met |
| InvoiceOptimization.RemainingGap | server/services/InvoiceOptimizationService.ts:40 | the gap is never negative, is 0 or target − achieved, and closes the target |
| InvoiceOptimization.ResultOf | server/services/InvoiceOptimizationService.ts:31-49 | the result carries the selection, its size, the target and the sum of the selected taxes |
| InvoiceOptimization.OptimizeInvoiceSelection | server/services/InvoiceOptimizationService.ts:14-50 | builds the candidates, selects against the sales tax and derives the result |
| InvoiceOptimization.Optimization | server/services/InvoiceOptimizationService.ts:14-50 | the result derived from the selection over the invoices created for the purchases |
| InvoiceOptimization.OptimizationProperties | server/services/InvoiceOptimizationService.ts:14-50 | selected invoices are created invoices with positive taxes; coverage is in [0, 100] and 100 exactly when the target is met; the gap closes the target; achieved stays within target + 5 %; a non-positive target selects nothing |
| InvoiceOptimization.InvoicesOfType | server/services/InvoiceOptimizationService.ts:105-107 | a group holds only invoices of its type and is no longer than the selection |
| InvoiceOptimization.GroupStep | server/services/InvoiceOptimizationService.ts:106 | pushing an invoice into one group adds it once to the union of the groups |
| InvoiceOptimization.GroupsPartition | server/services/InvoiceOptimizationService.ts:95-110 | the four groups together hold exactly the selected invoices, and their sizes sum to the selection's size |
| InvoiceOptimization.GetInvoicesByDocumentType | server/services/InvoiceOptimizationService.ts:95-110 | the loop builds all four groups, each type's invoices in order |
| InvoiceOptimization.CurrencyCount | server/services/InvoiceOptimizationService.ts:139 | a currency's count never exceeds the number of invoices |
| InvoiceOptimization.CurrencyCountsCount | server/services/InvoiceOptimizationService.ts:135-140 | a currency is a key exactly when some invoice has it, and its entry is its count |
| InvoiceOptimization.TwoCurrenciesCountAll | server/services/InvoiceOptimizationService.ts:137-140 | when every invoice is in USD or GTQ the two counts add up to the number of invoices |
| InvoiceOptimization.Average | server/services/InvoiceOptimizationService.ts:131-132 | the average times the count is the sum |
| InvoiceOptimization.CalculateOptimizationStats | server/services/InvoiceOptimizationService.ts:112-148 | the loop computes the averages, the type counts and the currency counts |
| InvoiceOptimization.Stats | server/services/InvoiceOptimizationService.ts:112-148 | zero averages, zero type counts and no currency for no invoices; otherwise the two averages, the type counts and the currency counts |
| InvoiceOptimization.StatsProperties | server/services/InvoiceOptimizationService.ts:112-148 | the type counts add up to the number of invoices; the currency entries count their invoices; an empty selection gives zero averages |
| InvoiceOptimization.StatsOfOptimization | server/services/InvoiceOptimizationService.ts:135-140 | for an optimizer's selection the only currencies are USD and GTQ, and their counts add up to the selection's size |
| InvoiceOptimization.RawTax | server/services/InvoiceOptimizationService.ts:62 | the parsed tax cell under the mapped tax column, or under '' |
| InvoiceOptimization.RawTotal | server/services/InvoiceOptimizationService.ts:63 | the parsed total cell under the mapped total column, or under '' |
| InvoiceOptimization.CurrencyCell | server/services/InvoiceOptimizationService.ts:64 | the currency cell under the mapped currency column, or under the key 'GTQ' when none was mapped |
| InvoiceOptimization.ToGtq | server/services/InvoiceOptimizationService.ts:66-67 | an amount times the rate for a USD row, unchanged otherwise |
| InvoiceOptimization.OptimizedInvoices | server/services/InvoiceOptimizationService.ts:57-91 | the invoices the loop pushes: one per valid row, in row order |
| InvoiceOptimization.ByType | server/services/InvoiceOptimizationService.ts:98-109 | the record with all four type keys, each listing the selected invoices of that type |
| InvoiceOptimization.TotalSum | server/services/InvoiceOptimizationService.ts:131 | the reduce over the invoices' total amounts, from 0 |
| InvoiceOptimization.TypeCounts | server/services/InvoiceOptimizationService.ts:134-138 | all four type keys, each with the number of invoices of that type |
| InvoiceOptimization.CurrencyCounts | server/services/InvoiceOptimizationService.ts:135-139 | a key per currency in use, counting its invoices, starting from 0 for a currency seen the first time |
| TaxCalculation.TaxPayable | server/services/TaxCalculationService.ts:50-53 | never negative, at least the difference, and either 0 or the difference |
| TaxCalculation.TaxCredit | server/services/TaxCalculationService.ts:55-58 | never negative, at least the negated difference, and either 0 or the negated difference |
| TaxCalculation.PayableAndCredit | server/services/TaxCalculationService.ts:50-58 | at most one of payable and credit is non-zero; payable minus credit is the difference; tax is owed exactly when sales tax exceeds purchase tax |
| TaxCalculation.CalculateTax | server/services/TaxCalculationService.ts:61-117 | the result echoes the ledgers, the mappings, the rate and the base currency GTQ |
| TaxCalculation.CalculateTaxWithDefaultRate | server/services/TaxCalculationService.ts:68 | the default exchange rate is 7.75 |
| TaxCalculation.CalculateTaxTaxes | server/services/TaxCalculationService.ts:84-101 | the taxes are the sums of the mapped tax columns, not a rate times the totals; with no tax column everything is 0 |
| TaxCalculation.CalculateTaxSettles | server/services/TaxCalculationService.ts:100-104 | payable times credit is 0; payable minus credit is sales tax minus purchase tax; both are non-negative |
| TaxCalculation.BreakdownAddsUp | server/services/TaxCalculationService.ts:118-165 | a breakdown's parts add up to its total, and the USD part is the rate times the original USD total |
| TaxCalculation.BreakdownOf | server/services/TaxCalculationService.ts:118-140 | the USD part holds the USD count, the original USD total times the rate and the original total; the GTQ part holds the GTQ count and the total less the converted USD total |
| TaxCalculation.CalculateTaxBreakdownsAddUp | server/services/TaxCalculationService.ts:118-165 | in all four breakdowns USD plus GTQ equals the matching total or tax |
| TaxCalculation.BreakdownProperties | server/services/TaxCalculationService.ts:118-128 | with a mapped column, every row is counted once, the original USD total is the USD rows' sum, and the subtracted GTQ part is the GTQ rows' sum |
| TaxCalculation.BreakdownOfSums | server/services/TaxCalculationService.ts:122-127 | the GTQ part, computed by subtraction, is exactly the GTQ rows' sum |
| TaxCalculation.GtqPartIsGtqRows | server/services/TaxCalculationService.ts:125-127 | the GTQ part of a ledger's breakdown, total less converted USD, equals the sum over its GTQ rows |
| TaxCalculation.BreakdownWithoutColumn | server/services/TaxCalculationService.ts:9 | without a mapped column the breakdown is all zeros |
| FileValidation.ValidateFileExtension | server/services/FileValidationService.ts:4-15 | valid exactly when the text after the last dot, lower-cased, is an allowed extension; an error message exactly when invalid, naming the file |
| FileValidation.Extension | server/services/FileValidationService.ts:5 | the lower-cased name from its last dot on, or the whole lower-cased name when it has no dot |
| FileValidation.ValidateFileSize | server/services/FileValidationService.ts:17-26 | valid exactly at or below 10·1024·1024 bytes, so exactly 10 MiB passes; an error message exactly when invalid |
| FileValidation.ValidateExcelFile | server/services/FileValidationService.ts:29-41 | valid exactly when both checks pass; a bad extension returns the extension result whatever the size; a message exactly when invalid |
| FileValidation.ExtensionIsSuffix | server/services/FileValidationService.ts:5 | for a one-dot extension, the text after the last dot is that extension exactly when the lower-cased name ends in it |
| FileValidation.ExtensionAcceptedIff | server/services/FileValidationService.ts:4-15 | a name passes exactly when, lower-cased, it ends in .xlsx or .xls |
| FileValidation.ExcelFileAcceptedIff | server/services/FileValidationService.ts:4-41 | a file is accepted exactly when its lower-cased name ends in .xlsx or .xls and its size is at most 10 MiB |
| FileValidation.ExtensionCheckIgnoresCase | server/services/FileValidationService.ts:5 | names differing only in letter case are judged alike |
| FileValidation.NameWithoutDotRejected | server/services/FileValidationService.ts:5-7 | a name with no dot is rejected |
| FileValidation.UpperCaseExtensionAccepted | server/services/FileValidationService.ts:5-7 | "A.XLSX" is accepted |
| FileValidation.OnlyLastDotCounts | server/services/FileValidationService.ts:5-7 | "x.xlsx.bak" is rejected |
| FileValidation.SizeMessageText | server/services/FileValidationService.ts:21 | the size message reads "File size must not exceed 10MB" |
| FileValidation.ExtensionMessage | server/services/FileValidationService.ts:10 | the extension error text naming the file |
| FileValidation.SizeMessage | server/services/FileValidationService.ts:21 | the size error text, with the limit written in MiB |
| ExcelProcessing.HeaderNames | server/services/ExcelProcessingService.ts:104 | position by position, the key each header cell names, and none for a hole |
| ExcelProcessing.HeaderKey | server/services/ExcelProcessingService.ts:114-116 | no key exactly for a hole, which forEach skips; otherwise the property key: the text, "undefined" for an undefined element and "null" for a null |
| ExcelProcessing.AbsentHeaderKeys | server/services/ExcelProcessingService.ts:114-116 | a hole names no key; a null header and a header reading "null" name the same key, as do an undefined element and "undefined"; undefined and null name different keys |
| ExcelProcessing.CellText | server/services/ExcelProcessingService.ts:115-116 | the stored value is never padded with white space and is no longer than the cell's text; a hole, an undefined, a null or a position past the row's end gives '' |
| ExcelProcessing.RowObject | server/services/ExcelProcessingService.ts:112-119 | each header in order is assigned its position's value, so a later duplicate header overwrites an earlier one; a header hole assigns nothing, and neither does a header named `__proto__`, whose assignment goes to the inherited accessor and creates no own property |
| ExcelProcessing.LastIndex | server/services/ExcelProcessingService.ts:114-117 | the last position of a header, or -1 exactly when it is absent |
| ExcelProcessing.CreateRowObject | server/services/ExcelProcessingService.ts:112-119 | the forEach loop, skipping header holes and `__proto__`, builds the row object of the headers |
| ExcelProcessing.RowObjectEntries | server/services/ExcelProcessingService.ts:112-119 | the keys are exactly the header names other than `__proto__` (holes name none); each value is the trimmed text of the cell under the name's last occurrence, '' for a missing cell |
| ExcelProcessing.RowKeptIff | server/services/ExcelProcessingService.ts:121-123 | a row object is non-empty exactly when some header name other than `__proto__` has non-blank text in the column of its last occurrence |
| ExcelProcessing.IsRowNotEmpty | server/services/ExcelProcessingService.ts:121-123 | some value of the row object differs from '' |
| ExcelProcessing.BlankRowDropped | server/services/ExcelProcessingService.ts:121-123 | a row of blank cells gives an empty row object |
| ExcelProcessing.KeepNonEmpty | server/services/ExcelProcessingService.ts:109 | only non-empty row objects remain |
| ExcelProcessing.KeepNonEmptyAppend | server/services/ExcelProcessingService.ts:109 | dropping empty rows distributes over concatenation, so order is kept |
| ExcelProcessing.KeepNonEmptyMembers | server/services/ExcelProcessingService.ts:109 | a row object is kept exactly when it is in the input and non-empty |
| ExcelProcessing.KeepNonEmptyIdentity | server/services/ExcelProcessingService.ts:109 | rows that are all non-empty are all kept |
| ExcelProcessing.RowObjects | server/services/ExcelProcessingService.ts:108 | one row object per data row, in order |
| ExcelProcessing.ConvertToObjects | server/services/ExcelProcessingService.ts:101-110 | no records for an empty sheet; otherwise at most one record per data row, each non-empty (its keys are stated by ConvertToObjectsProperties) |
| ExcelProcessing.ConvertToObjectsProperties | server/services/ExcelProcessingService.ts:101-110 | the records are exactly the non-empty row objects of the data rows, and each is keyed by exactly the header names other than `__proto__` |
| ExcelProcessing.ConversionKeepsOrder | server/services/ExcelProcessingService.ts:105-109 | conversion of concatenated rows is the concatenation of the conversions |
| ExcelProcessing.RowObjectsAppend | server/services/ExcelProcessingService.ts:108 | building row objects distributes over concatenation of the data rows, so the mapping keeps row order |
| ExcelProcessing.NoHeadersNoRows | server/services/ExcelProcessingService.ts:101-123 | a header row that is empty or holds only holes yields no records |
| ExcelProcessing.ConvertedColumns | server/services/ExcelProcessingService.ts:104-128 | the first record's keys are exactly the header names other than `__proto__`, which detectColumns reads |
| ExcelProcessing.FindColumn | server/services/ExcelProcessingService.ts:142-143 | a found column is a header that matches the role's pattern |
| ExcelProcessing.FindColumnIsFirstMatch | server/services/ExcelProcessingService.ts:142-143 | null exactly when no header matches; otherwise the first header, in header order, that matches |
| ExcelProcessing.DetectColumns | server/services/ExcelProcessingService.ts:125-147 | the forEach loop builds the detected mapping |
| ExcelProcessing.RolesDistinct | server/services/ExcelProcessingService.ts:130-137 | the six roles are distinct keys |
| ExcelProcessing.DetectionEntries | server/services/ExcelProcessingService.ts:141-144 | after n roles, the keys are exactly those roles, each mapped to its first matching header |
| ExcelProcessing.DetectedColumnsProperties | server/services/ExcelProcessingService.ts:125-147 | {} for no data; otherwise exactly the six roles, each mapped to its first matching header or null; never a currency key |
| ExcelProcessing.ContainsAt | server/services/ExcelProcessingService.ts:142 | a keyword occurring at some position is contained |
| ExcelProcessing.TotalIvaFillsTwoRoles | server/services/ExcelProcessingService.ts:134-142 | "Total IVA" matches both the total and the tax patterns and is detected for both |
| ExcelProcessing.HeaderHoleSkipped | server/services/ExcelProcessingService.ts:114-116 | a header row [hole, "Total"] over ["5", ""] stores only Total, with ''; the cell under the hole is not stored |
| ExcelProcessing.SingleEmptyRowDropped | server/services/ExcelProcessingService.ts:101-110 | a sheet with one data row whose row object has no non-blank value converts to no record |
| ExcelProcessing.HeaderHoleRowDropped | server/services/ExcelProcessingService.ts:101-123 | that sheet converts to no record, because the only stored value is blank |
| ExcelProcessing.ProtoHeaderRowDropped | server/services/ExcelProcessingService.ts:101-123 | a sheet whose only header is `__proto__`, over a row ["x"], converts to no record, because the assignment creates no key |
| ExcelProcessing.KeepNonEmptyNone | server/services/ExcelProcessingService.ts:109 | rows that are all empty are all dropped |
| ExcelProcessing.Matches | server/services/ExcelProcessingService.ts:131-142 | a role's pattern tests a header: the lower-cased header contains one of the role's keywords |
| ExcelProcessing.Detection | server/services/ExcelProcessingService.ts:139-144 | the detected mapping after the first n roles, each set to its found column or null |
| ExcelProcessing.DetectedColumns | server/services/ExcelProcessingService.ts:125-147 | {} for no data, else the mapping after all six roles |

## Left out

- Spreadsheet I/O: `processExcelFile`, `streamToBuffer`, `readWorkbook` and `extractDataFromWorkbook` stream a file and call into the XLSX library. Their output, rows of cell texts, is the input of `ExcelProcessing.ConvertToObjects`.
- The HTTP endpoint, the Vue composable (reactive state, `$fetch`, currency formatting, downloads) and the build configuration are not part of this model.
- Floating point: amounts are exact reals. IEEE rounding, NaN, Infinity and overflow are not modelled.
- NumericValue.ParseNumericValue: `parseFloat` is modelled for an optional sign, digits, an optional fraction and an optional exponent. "Infinity" and other special spellings are not modelled. `String(value)` of a Date cell is treated as non-numeric, giving 0.
- Text.ToUpper, Text.ToLower: only ASCII letters change case. JavaScript's Unicode case mapping, which can change a text's length, is not modelled. The same holds for the `/i` flag of the column patterns.
- InvoiceOptimization.OtherText: `String(value)` of a whole number is its decimal text, which holds only below 10^21, where JavaScript switches to exponent notation ("1e+21"); the floating-point line above applies. A fractional number or a Date renders as "". This matters only for the identifier fields of an invoice.
- InvoiceSelection.SortByEfficiency: `Array.prototype.sort` is modelled as a stable insertion sort with the source's comparator. The comparator is not transitive, so the engine's exact output order is not specified. The model promises a permutation with no neighbours out of order, not a global order.
- InvoiceSelection.AttemptBetterCombination: the source removes the moved invoice by object identity, which drops every occurrence of that object. The model removes only the position the scan found. The two agree only because each invoice object occurs once in the selection: createOptimizedInvoiceList builds a fresh object per row, so the selection never holds one object twice.
- ExcelProcessing.DetectColumns: `Object.keys(data[0])` is given as a parameter, in `Object.keys` order; the model requires only that it holds exactly the first row's keys. JavaScript's reordering of integer-like keys is not modelled.
- ExcelProcessing.HeaderKey: a number or date header arrives as the text the sheet reader renders for it, so its key is that text. An explicit undefined or null header becomes the key "undefined" or "null"; a hole in the header row names no key, because forEach skips it.
- FileValidation.File: a browser `File` is modelled as its name and its size in bytes.
- TaxCalculation.CalculateTax: `salesSummary`, `purchasesSummary` and `invoiceOptimization` are declared in the result type but never computed, so the model leaves them out. `TAX_RATE` is declared but no longer used by the calculation.
- InvoiceOptimization.Average: the averages are stated through `Average` (average times count is the sum). `StatsProperties` does not repeat this fact.
