/**
 * Upload checks on a spreadsheet file: its name must carry an Excel
 * extension (judged on the text after the last dot, ignoring case) and its
 * size must not exceed 10 MiB; the extension is checked first.
 */
module FileValidation {
  import opened Text
  import opened Cells
  import opened NumericValue
  import opened TaxTypes

  /** The parts of an uploaded File the checks read. */
  datatype File = File(name: string, size: int)

  predicate EndsWith(s: string, suffix: string)
  {
    |suffix| <= |s| && s[|s| - |suffix|..] == suffix
  }

  /** The lower-cased name from its last dot on (the last dot is found in the name before lower-casing); the whole name when there is no dot. */
  function Extension(fileName: string): string
  {
    SubstringFrom(ToLower(fileName), LastIndexOf(fileName, '.'))
  }

  function ExtensionMessage(fileName: string): string
  {
    "File " + fileName + ": must be Excel format (.xlsx or .xls)"
  }

  /** validateFileExtension. */
  function ValidateFileExtension(fileName: string): (r: FileValidationResult)
    ensures r.isValid <==> Extension(fileName) in ALLOWED_EXTENSIONS
    ensures r.isValid <==> r.errorMessage == None
    ensures !r.isValid ==> r.errorMessage == Some(ExtensionMessage(fileName))
  {
    if Extension(fileName) !in ALLOWED_EXTENSIONS then
      FileValidationResult(false, Some(ExtensionMessage(fileName)))
    else
      FileValidationResult(true, None)
  }

  /** The size limit in the message, written in MiB. */
  function SizeMessage(): string
  {
    "File size must not exceed " + NatToText(MAX_FILE_SIZE / (1024 * 1024)) + "MB"
  }

  /** validateFileSize: only a size strictly above the limit fails, so exactly the limit passes. */
  function ValidateFileSize(fileSize: int): (r: FileValidationResult)
    ensures r.isValid <==> fileSize <= 10 * 1024 * 1024
    ensures r.isValid <==> r.errorMessage == None
    ensures !r.isValid ==> r.errorMessage == Some(SizeMessage())
  {
    if fileSize > MAX_FILE_SIZE then
      FileValidationResult(false, Some(SizeMessage()))
    else
      FileValidationResult(true, None)
  }

  /** validateExcelFile: the first failing check's result, else valid. */
  function ValidateExcelFile(file: File): (r: FileValidationResult)
    ensures r.isValid <==> ValidateFileExtension(file.name).isValid && file.size <= MAX_FILE_SIZE
    ensures r.isValid <==> r.errorMessage == None
    ensures !ValidateFileExtension(file.name).isValid ==> r == ValidateFileExtension(file.name)
    ensures ValidateFileExtension(file.name).isValid && file.size > MAX_FILE_SIZE
            ==> r.errorMessage == Some(SizeMessage())
  {
    var extensionValidation := ValidateFileExtension(file.name);
    if !extensionValidation.isValid then extensionValidation
    else
      var sizeValidation := ValidateFileSize(file.size);
      if !sizeValidation.isValid then sizeValidation
      else FileValidationResult(true, None)
  }

  /** Lower-casing neither creates nor removes a dot. */
  lemma {:induction false} LowerDot(c: char)
    ensures LowerChar(c) == '.' <==> c == '.'
  {
  }

  /**
   * For an extension that starts with its only dot, the text after the
   * name's last dot is that extension exactly when the lower-cased name
   * ends with it.
   */
  lemma {:induction false} ExtensionIsSuffix(fileName: string, ext: string)
    requires |ext| > 0 && ext[0] == '.'
    requires forall j :: 0 < j < |ext| ==> ext[j] != '.'
    ensures Extension(fileName) == ext <==> EndsWith(ToLower(fileName), ext)
  {
    var lower := ToLower(fileName);
    var k := LastIndexOf(fileName, '.');
    if Extension(fileName) == ext {
      if k >= 0 {
        assert lower[k..] == ext;
        assert lower[|lower| - |ext|..] == lower[k..];
      }
      assert EndsWith(lower, ext);
    }
    if EndsWith(lower, ext) {
      var p := |lower| - |ext|;
      assert lower[p] == ext[0];
      LowerDot(fileName[p]);
      assert fileName[p] == '.';
      forall j | p < j < |fileName|
        ensures fileName[j] != '.'
      {
        assert lower[j] == ext[j - p];
        LowerDot(fileName[j]);
      }
      assert k == p;
    }
  }

  /** A name passes the extension check exactly when, lower-cased, it ends in `.xlsx` or `.xls`. */
  lemma {:induction false} ExtensionAcceptedIff(fileName: string)
    ensures ValidateFileExtension(fileName).isValid
        <==> EndsWith(ToLower(fileName), ".xlsx") || EndsWith(ToLower(fileName), ".xls")
  {
    ExtensionIsSuffix(fileName, ".xlsx");
    ExtensionIsSuffix(fileName, ".xls");
  }

  /** A file is accepted exactly when its lower-cased name ends in `.xlsx` or `.xls` and it holds at most 10 MiB. */
  lemma {:induction false} ExcelFileAcceptedIff(file: File)
    ensures ValidateExcelFile(file).isValid
        <==> (EndsWith(ToLower(file.name), ".xlsx") || EndsWith(ToLower(file.name), ".xls"))
             && file.size <= 10 * 1024 * 1024
  {
    ExtensionAcceptedIff(file.name);
  }

  /** Names that differ only in the case of their letters are judged alike. */
  lemma {:induction false} ExtensionCheckIgnoresCase(a: string, b: string)
    requires ToLower(a) == ToLower(b)
    ensures ValidateFileExtension(a).isValid == ValidateFileExtension(b).isValid
  {
    ExtensionAcceptedIff(a);
    ExtensionAcceptedIff(b);
  }

  /** A name without any dot is rejected. */
  lemma {:induction false} NameWithoutDotRejected(fileName: string)
    requires forall i :: 0 <= i < |fileName| ==> fileName[i] != '.'
    ensures !ValidateFileExtension(fileName).isValid
  {
    ExtensionAcceptedIff(fileName);
    forall i | 0 <= i < |fileName|
      ensures ToLower(fileName)[i] != '.'
    {
      LowerDot(fileName[i]);
    }
    var lower := ToLower(fileName);
    if |lower| >= 4 {
      assert lower[|lower| - 4..][0] == lower[|lower| - 4];
    }
    if |lower| >= 5 {
      assert lower[|lower| - 5..][0] == lower[|lower| - 5];
    }
  }

  /** Upper-case extensions pass: `A.XLSX` is accepted. */
  lemma {:induction false} UpperCaseExtensionAccepted(fileName: string)
    requires fileName == "A.XLSX"
    ensures ValidateFileExtension(fileName).isValid
  {
    ExtensionAcceptedIff(fileName);
    assert ToLower(fileName)[1..] == ".xlsx";
  }

  /** Only the last dot counts: `x.xlsx.bak` is rejected. */
  lemma {:induction false} OnlyLastDotCounts(fileName: string)
    requires fileName == "x.xlsx.bak"
    ensures !ValidateFileExtension(fileName).isValid
  {
    ExtensionAcceptedIff(fileName);
    assert ToLower(fileName)[|fileName| - 1] == 'k';
  }

  /** The size message states the limit as 10MB. */
  lemma {:induction false} SizeMessageText()
    ensures SizeMessage() == "File size must not exceed 10MB"
  {
    assert MAX_FILE_SIZE / (1024 * 1024) == 10;
    assert NatToText(10) == NatToText(1) + ['0'];
  }
}
