/**
 * The part of spreadsheet ingestion that does not touch the file: turning
 * the sheet's rows of cell texts (first row = headers) into row objects,
 * dropping the rows whose values are all blank, and guessing which column
 * plays which role from keywords in the header names.
 */
module ExcelProcessing {
  import opened Text
  import opened Cells

  /**
   * One position of a sheet row as the sheet reader hands it over: a hole
   * (a position the array never had, which forEach skips), an explicit
   * undefined element, a null, or a value already rendered as text.
   */
  datatype SheetCell = Hole | Undefined | NullValue | Rendered(text: string)

  /** A sheet row; positions past its end read as undefined. */
  type SheetRow = seq<SheetCell>

  /**
   * The property key a header position names, or None for a hole, which
   * the header loop never visits. Any other header is converted to a
   * string: an undefined header is the key "undefined" and a null one the
   * key "null".
   */
  function HeaderKey(c: SheetCell): (k: Option<string>)
    ensures k.None? <==> c.Hole?
    ensures c.Rendered? ==> k == Some(c.text)
  {
    match c
    case Hole => None
    case Undefined => Some("undefined")
    case NullValue => Some("null")
    case Rendered(t) => Some(t)
  }

  /**
   * A header hole names no key at all. An explicit undefined or null header
   * is not told apart from a header spelling its conversion: a null header
   * and a header reading "null" name the same column, as do an undefined
   * header and one reading "undefined", while an undefined and a null
   * header name two.
   */
  lemma {:induction false} AbsentHeaderKeys()
    ensures HeaderKey(Hole) == None
    ensures HeaderKey(NullValue) == HeaderKey(Rendered("null"))
    ensures HeaderKey(Undefined) == HeaderKey(Rendered("undefined"))
    ensures HeaderKey(Undefined) != HeaderKey(NullValue)
  {
    assert |HeaderKey(Undefined).value| != |HeaderKey(NullValue).value|;
  }

  /** The key each header position names, position by position; None where the header row has a hole. */
  function HeaderNames(headerRow: SheetRow): (names: seq<Option<string>>)
    ensures |names| == |headerRow|
    ensures forall i :: 0 <= i < |headerRow| ==> names[i] == HeaderKey(headerRow[i])
  {
    seq(|headerRow|, i requires 0 <= i < |headerRow| => HeaderKey(headerRow[i]))
  }

  /**
   * The value stored for the position index of a row: the trimmed text of a
   * rendered cell, and the empty text for a hole, an undefined, a null or a
   * position past the end of the row.
   */
  function CellText(row: SheetRow, index: nat): (t: string)
    ensures t == "" || (!IsWhitespace(t[0]) && !IsWhitespace(t[|t| - 1]))
    ensures index < |row| && row[index].Rendered? ==> |t| <= |row[index].text|
    ensures index >= |row| || !row[index].Rendered? ==> t == ""
  {
    if index < |row| && row[index].Rendered? then Trim(row[index].text) else ""
  }

  /** The index of the last occurrence of x in s, or -1. */
  function LastIndex<T(==)>(s: seq<T>, x: T): (r: int)
    ensures -1 <= r < |s|
    ensures r >= 0 ==> s[r] == x
    ensures r < 0 <==> x !in s
    ensures forall j :: r < j < |s| ==> s[j] != x
  {
    if |s| == 0 then -1
    else if s[|s| - 1] == x then |s| - 1
    else LastIndex(s[..|s| - 1], x)
  }

  /**
   * The one key a plain JavaScript object will not take by assignment:
   * obj["__proto__"] = text goes to the inherited __proto__ accessor, which
   * ignores a value that is not an object, so no own property appears.
   */
  const PROTO_KEY: string := "__proto__"

  /** A header that creates a key when assigned: a name other than __proto__. */
  predicate Assigns(header: Option<string>)
  {
    header.Some? && header.value != PROTO_KEY
  }

  /**
   * The object createRowObject builds: the headers assigned in order, so a
   * later header overwrites an earlier one; a hole in the header row, and a
   * header named __proto__, assign nothing.
   */
  function RowObject(headers: seq<Option<string>>, row: SheetRow): Row
  {
    if |headers| == 0 then map[]
    else
      var obj := RowObject(headers[..|headers| - 1], row);
      var header := headers[|headers| - 1];
      if Assigns(header) then obj[header.value := Str(CellText(row, |headers| - 1))] else obj
  }

  /** createRowObject: each header in order, skipping holes and __proto__, is assigned the text of the cell at its position. */
  method CreateRowObject(headers: seq<Option<string>>, row: SheetRow) returns (obj: Row)
    ensures obj == RowObject(headers, row)
  {
    obj := map[];
    for i := 0 to |headers|
      invariant obj == RowObject(headers[..i], row)
    {
      assert headers[..i + 1][..i] == headers[..i];
      if headers[i].Some? && headers[i].value != PROTO_KEY {
        obj := obj[headers[i].value := Str(CellText(row, i))];
      }
    }
    assert headers[..|headers|] == headers;
  }

  /**
   * The row object has exactly one key per distinct header name other than
   * __proto__, and each key holds the trimmed text of the cell under the
   * name's last occurrence.
   */
  lemma {:induction false} RowObjectEntries(headers: seq<Option<string>>, row: SheetRow)
    ensures forall k :: k in RowObject(headers, row) <==> Some(k) in headers && k != PROTO_KEY
    ensures forall k :: k in RowObject(headers, row) ==> RowObject(headers, row)[k] == Str(CellText(row, LastIndex(headers, Some(k))))
    decreases |headers|
  {
    if |headers| > 0 {
      var n := |headers| - 1;
      var front, h := headers[..n], headers[n];
      RowObjectEntries(front, row);
      assert headers == front + [h];
      var obj, prev := RowObject(headers, row), RowObject(front, row);
      assert obj == if Assigns(h) then prev[h.value := Str(CellText(row, n))] else prev;
      forall k
        ensures k in obj <==> Some(k) in headers && k != PROTO_KEY
      {
        assert Some(k) in headers <==> Some(k) in front || Some(k) == h;
      }
      forall k | k in obj
        ensures obj[k] == Str(CellText(row, LastIndex(headers, Some(k))))
      {
        if h != Some(k) {
          assert LastIndex(headers, Some(k)) == LastIndex(front, Some(k));
        }
      }
    }
  }

  /** isRowNotEmpty: some value differs from ''. */
  predicate IsRowNotEmpty(row: Row)
  {
    exists k :: k in row && row[k] != Str("")
  }

  /**
   * A row object is kept exactly when some header name other than __proto__,
   * at its last occurrence, sits over a cell with non-blank text.
   */
  lemma {:induction false} RowKeptIff(headers: seq<Option<string>>, row: SheetRow)
    ensures IsRowNotEmpty(RowObject(headers, row))
        <==> exists i :: 0 <= i < |headers| && Assigns(headers[i]) && LastIndex(headers, headers[i]) == i && CellText(row, i) != ""
  {
    var obj := RowObject(headers, row);
    RowObjectEntries(headers, row);
    if IsRowNotEmpty(obj) {
      var k :| k in obj && obj[k] != Str("");
      var i := LastIndex(headers, Some(k));
      assert LastIndex(headers, headers[i]) == i;
    }
    if exists i :: 0 <= i < |headers| && Assigns(headers[i]) && LastIndex(headers, headers[i]) == i && CellText(row, i) != "" {
      var i :| 0 <= i < |headers| && Assigns(headers[i]) && LastIndex(headers, headers[i]) == i && CellText(row, i) != "";
      assert obj[headers[i].value] != Str("");
    }
  }

  /** A row whose every position below a header is absent, null or blank is dropped. */
  lemma {:induction false} BlankRowDropped(headers: seq<Option<string>>, row: SheetRow)
    requires forall i :: 0 <= i < |headers| ==> CellText(row, i) == ""
    ensures !IsRowNotEmpty(RowObject(headers, row))
  {
    RowKeptIff(headers, row);
  }

  /** The filter of convertToObjects: the non-empty row objects, in order. */
  function KeepNonEmpty(rows: seq<Row>): (r: seq<Row>)
    ensures |r| <= |rows|
    ensures forall i :: 0 <= i < |r| ==> IsRowNotEmpty(r[i])
  {
    if |rows| == 0 then []
    else KeepNonEmpty(rows[..|rows| - 1]) + (if IsRowNotEmpty(rows[|rows| - 1]) then [rows[|rows| - 1]] else [])
  }

  /** The filter keeps the order: filtering a concatenation concatenates the filtered parts. */
  lemma {:induction false} KeepNonEmptyAppend(a: seq<Row>, b: seq<Row>)
    ensures KeepNonEmpty(a + b) == KeepNonEmpty(a) + KeepNonEmpty(b)
    decreases |b|
  {
    if |b| == 0 {
      assert a + b == a;
    } else {
      var front := b[..|b| - 1];
      assert (a + b)[..|a + b| - 1] == a + front;
      KeepNonEmptyAppend(a, front);
    }
  }

  /** A row survives the filter exactly when it was there and is not empty. */
  lemma {:induction false} KeepNonEmptyMembers(rows: seq<Row>)
    ensures forall o :: o in KeepNonEmpty(rows) <==> o in rows && IsRowNotEmpty(o)
    decreases |rows|
  {
    if |rows| > 0 {
      var front := rows[..|rows| - 1];
      KeepNonEmptyMembers(front);
      assert rows == front + [rows[|rows| - 1]];
    }
  }

  /** Rows that are all empty are all dropped. */
  lemma {:induction false} KeepNonEmptyNone(rows: seq<Row>)
    requires forall i :: 0 <= i < |rows| ==> !IsRowNotEmpty(rows[i])
    ensures KeepNonEmpty(rows) == []
    decreases |rows|
  {
    if |rows| > 0 {
      KeepNonEmptyNone(rows[..|rows| - 1]);
    }
  }

  /** Rows that are all non-empty pass the filter unchanged, so filtering twice is filtering once. */
  lemma {:induction false} KeepNonEmptyIdentity(rows: seq<Row>)
    requires forall i :: 0 <= i < |rows| ==> IsRowNotEmpty(rows[i])
    ensures KeepNonEmpty(rows) == rows
    decreases |rows|
  {
    if |rows| > 0 {
      KeepNonEmptyIdentity(rows[..|rows| - 1]);
      assert rows == rows[..|rows| - 1] + [rows[|rows| - 1]];
    }
  }

  /** The row object of each data row, in order. */
  function RowObjects(headers: seq<Option<string>>, rows: seq<SheetRow>): (objs: seq<Row>)
    ensures |objs| == |rows|
    ensures forall i :: 0 <= i < |rows| ==> objs[i] == RowObject(headers, rows[i])
  {
    seq(|rows|, i requires 0 <= i < |rows| => RowObject(headers, rows[i]))
  }

  /** convertToObjects: the first row names the columns, the others become row objects, and empty ones are dropped. */
  function ConvertToObjects(jsonData: seq<SheetRow>): (objs: seq<Row>)
    ensures |jsonData| == 0 ==> objs == []
    ensures |jsonData| > 0 ==> |objs| <= |jsonData| - 1
    ensures forall i :: 0 <= i < |objs| ==> IsRowNotEmpty(objs[i])
  {
    if |jsonData| == 0 then []
    else KeepNonEmpty(RowObjects(HeaderNames(jsonData[0]), jsonData[1..]))
  }

  /**
   * The converted rows are exactly the non-empty row objects of the data
   * rows, and each is keyed by exactly the header names other than __proto__.
   */
  lemma {:induction false} ConvertToObjectsProperties(jsonData: seq<SheetRow>)
    ensures |jsonData| > 0 ==> forall o :: (o in ConvertToObjects(jsonData)
              <==> o in RowObjects(HeaderNames(jsonData[0]), jsonData[1..]) && IsRowNotEmpty(o))
    ensures |jsonData| > 0 ==> forall i, k :: 0 <= i < |ConvertToObjects(jsonData)| ==>
              (k in ConvertToObjects(jsonData)[i] <==> Some(k) in HeaderNames(jsonData[0]) && k != PROTO_KEY)
  {
    if |jsonData| > 0 {
      var headers := HeaderNames(jsonData[0]);
      var objs := RowObjects(headers, jsonData[1..]);
      KeepNonEmptyMembers(objs);
      forall i | 0 <= i < |ConvertToObjects(jsonData)|
        ensures forall k :: k in ConvertToObjects(jsonData)[i] <==> Some(k) in headers && k != PROTO_KEY
      {
        var o := ConvertToObjects(jsonData)[i];
        assert o in objs;
        var j :| 0 <= j < |objs| && objs[j] == o;
        RowObjectEntries(headers, jsonData[1..][j]);
      }
    }
  }

  /** A header row with a hole over a data cell: the hole names no key, so the cell is not stored. */
  lemma {:induction false} HeaderHoleSkipped(headerRow: SheetRow, row: SheetRow)
    requires headerRow == [Hole, Rendered("Total")] && row == [Rendered("5"), Rendered("")]
    ensures RowObject(HeaderNames(headerRow), row) == map["Total" := Str("")]
  {
    var headers := HeaderNames(headerRow);
    assert headers[0] == None && headers[1] == Some("Total");
    assert |"Total"| != |PROTO_KEY|;
    assert Assigns(headers[1]);
    var front := headers[..1];
    assert |front| == 1 && front[0] == None && front[..0] == [];
    var prev := RowObject(front, row);
    assert prev == RowObject([], row);
    var blank := CellText(row, 1);
    assert blank == Trim("");
    assert blank == "";
    assert headers[..|headers| - 1] == front;
    assert RowObject(headers, row) == prev["Total" := Str(blank)];
  }

  /** A sheet with one data row whose row object is empty converts to no record. */
  lemma {:induction false} SingleEmptyRowDropped(jsonData: seq<SheetRow>)
    requires |jsonData| == 2 && !IsRowNotEmpty(RowObject(HeaderNames(jsonData[0]), jsonData[1]))
    ensures ConvertToObjects(jsonData) == []
  {
    var headers, rows := HeaderNames(jsonData[0]), jsonData[1..];
    assert rows[0] == jsonData[1];
    KeepNonEmptyNone(RowObjects(headers, rows));
  }

  /** The same sheet converts to no record at all: the only stored value is blank, so the row is dropped. */
  lemma {:induction false} HeaderHoleRowDropped(jsonData: seq<SheetRow>)
    requires jsonData == [[Hole, Rendered("Total")], [Rendered("5"), Rendered("")]]
    ensures ConvertToObjects(jsonData) == []
  {
    var headerRow, row := jsonData[0], jsonData[1];
    HeaderHoleSkipped(headerRow, row);
    var obj := RowObject(HeaderNames(headerRow), row);
    assert obj == map["Total" := Str("")];
    assert !IsRowNotEmpty(obj);
    SingleEmptyRowDropped(jsonData);
  }

  /** A header named __proto__ creates no key, so a sheet whose only header is __proto__ converts to no record. */
  lemma {:induction false} ProtoHeaderRowDropped(jsonData: seq<SheetRow>)
    requires jsonData == [[Rendered("__proto__")], [Rendered("x")]]
    ensures ConvertToObjects(jsonData) == []
  {
    var headers, row := HeaderNames(jsonData[0]), jsonData[1];
    assert headers[0] == Some(PROTO_KEY) && !Assigns(headers[0]);
    assert headers[..|headers| - 1] == [];
    assert RowObject(headers, row) == RowObject([], row);
    SingleEmptyRowDropped(jsonData);
  }

  /** Data rows are converted in order: the rows of a concatenation are the rows of its parts, one after the other. */
  lemma {:induction false} ConversionKeepsOrder(headers: seq<Option<string>>, a: seq<SheetRow>, b: seq<SheetRow>)
    ensures KeepNonEmpty(RowObjects(headers, a + b)) == KeepNonEmpty(RowObjects(headers, a)) + KeepNonEmpty(RowObjects(headers, b))
  {
    var objsA, objsB := RowObjects(headers, a), RowObjects(headers, b);
    RowObjectsAppend(headers, a, b);
    KeepNonEmptyAppend(objsA, objsB);
  }

  /** The row objects of a concatenation are the row objects of its parts, one after the other. */
  lemma {:induction false} RowObjectsAppend(headers: seq<Option<string>>, a: seq<SheetRow>, b: seq<SheetRow>)
    ensures RowObjects(headers, a + b) == RowObjects(headers, a) + RowObjects(headers, b)
  {
    var whole, objsA, objsB := RowObjects(headers, a + b), RowObjects(headers, a), RowObjects(headers, b);
    assert |whole| == |objsA + objsB|;
    forall i | 0 <= i < |whole|
      ensures whole[i] == (objsA + objsB)[i]
    {
      if i < |a| {
        assert (a + b)[i] == a[i];
      } else {
        assert (a + b)[i] == b[i - |a|];
      }
    }
  }

  /**
   * With no header, or a header row of holes only, the objects have no
   * keys, so every data row is dropped.
   */
  lemma {:induction false} NoHeadersNoRows(jsonData: seq<SheetRow>)
    requires |jsonData| > 0 && forall i :: 0 <= i < |jsonData[0]| ==> jsonData[0][i].Hole?
    ensures ConvertToObjects(jsonData) == []
  {
    var headers := HeaderNames(jsonData[0]);
    var objs := RowObjects(headers, jsonData[1..]);
    forall i | 0 <= i < |objs|
      ensures !IsRowNotEmpty(objs[i])
    {
      RowObjectEntries(headers, jsonData[1..][i]);
    }
    KeepNonEmptyNone(objs);
  }

  /** The roles detectColumns fills, in the order of its patterns. */
  const ROLES: seq<string> := ["date", "taxpayerNumber", "taxpayerName", "total", "tax", "invoiceNumber"]

  /** The alternatives of each role's pattern, in ROLES order. */
  const KEYWORDS: seq<seq<string>> := [
    ["fecha", "date", "fch"],
    ["nit", "ruc", "identificacion", "taxpayer"],
    ["nombre", "razon", "client", "proveedor", "empresa", "name", "company"],
    ["total", "monto", "importe", "valor", "amount"],
    ["iva", "impuesto", "tax"],
    ["serie", "correlativo", "numero", "factura", "invoice"]]

  /** A role's pattern matches a header when the lower-cased header contains one of its lower-case words. */
  predicate Matches(col: string, keywords: seq<string>)
  {
    exists j :: 0 <= j < |keywords| && Contains(ToLower(col), keywords[j])
  }

  /** The first header the role's pattern matches; None (null) when none does, or when the match is the empty header, which is falsy. */
  function FindColumn(columns: seq<string>, keywords: seq<string>): (r: Option<string>)
    ensures r.Some? ==> r.value in columns && Matches(r.value, keywords)
  {
    if |columns| == 0 then None
    else if Matches(columns[0], keywords) then (if columns[0] != "" then Some(columns[0]) else None)
    else FindColumn(columns[1..], keywords)
  }

  /**
   * A role gets the first column, in header order, that mentions one of
   * its keywords, and null when none does.
   */
  lemma {:induction false} FindColumnIsFirstMatch(columns: seq<string>, keywords: seq<string>)
    requires forall j :: 0 <= j < |keywords| ==> |keywords[j]| > 0
    ensures FindColumn(columns, keywords).None? <==> forall i :: 0 <= i < |columns| ==> !Matches(columns[i], keywords)
    ensures forall i :: 0 <= i < |columns| && Matches(columns[i], keywords)
              && (forall j :: 0 <= j < i ==> !Matches(columns[j], keywords))
              ==> FindColumn(columns, keywords) == Some(columns[i])
    decreases |columns|
  {
    if |columns| > 0 {
      FindColumnIsFirstMatch(columns[1..], keywords);
      if columns[0] == "" {
        forall j | 0 <= j < |keywords|
          ensures !Contains(ToLower(columns[0]), keywords[j])
        {
          ShortTextContainsNothing(ToLower(columns[0]), keywords[j]);
        }
      }
      forall i | 0 < i < |columns| && Matches(columns[i], keywords)
               && (forall j :: 0 <= j < i ==> !Matches(columns[j], keywords))
        ensures FindColumn(columns, keywords) == Some(columns[i])
      {
        assert !Matches(columns[0], keywords);
        assert columns[1..][i - 1] == columns[i];
        assert forall j :: 0 <= j < i - 1 ==> columns[1..][j] == columns[j + 1];
      }
    }
  }

  /** The detections of the first n roles, as the forEach has filled them. */
  function Detection(columns: seq<string>, n: nat): map<string, Option<string>>
    requires n <= |ROLES|
  {
    if n == 0 then map[]
    else Detection(columns, n - 1)[ROLES[n - 1] := FindColumn(columns, KEYWORDS[n - 1])]
  }

  /** What detectColumns returns: nothing at all for no data, else one entry per role. */
  function DetectedColumns(data: seq<Row>, columns: seq<string>): map<string, Option<string>>
  {
    if |data| == 0 then map[] else Detection(columns, |ROLES|)
  }

  /**
   * detectColumns. columns lists the keys of the first row in Object.keys
   * order, which the map-valued rows here do not record; it is taken as
   * given, and must hold exactly the first row's key set.
   */
  method DetectColumns(data: seq<Row>, columns: seq<string>) returns (detected: map<string, Option<string>>)
    requires |data| > 0 ==> forall c :: c in columns <==> c in data[0]
    ensures detected == DetectedColumns(data, columns)
  {
    if |data| == 0 {
      return map[];
    }
    detected := map[];
    for i := 0 to |ROLES|
      invariant detected == Detection(columns, i)
    {
      detected := detected[ROLES[i] := FindColumn(columns, KEYWORDS[i])];
    }
  }

  /** The six role names are pairwise different (their lengths already are). */
  lemma {:induction false} RolesDistinct()
    ensures forall i, j :: 0 <= i < j < |ROLES| ==> ROLES[i] != ROLES[j]
  {
    assert |ROLES[0]| == 4 && |ROLES[1]| == 14 && |ROLES[2]| == 12;
    assert |ROLES[3]| == 5 && |ROLES[4]| == 3 && |ROLES[5]| == 13;
  }

  lemma {:induction false} DetectionEntries(columns: seq<string>, n: nat)
    requires n <= |ROLES|
    ensures forall k :: k in Detection(columns, n) <==> exists i :: 0 <= i < n && ROLES[i] == k
    ensures forall i :: 0 <= i < n ==> Detection(columns, n)[ROLES[i]] == FindColumn(columns, KEYWORDS[i])
  {
    if n > 0 {
      DetectionEntries(columns, n - 1);
      RolesDistinct();
    }
  }

  /**
   * With data, the detection has exactly the six roles as keys, each
   * holding the first column matching that role's keywords; there is never
   * a currency entry. Without data it is empty.
   */
  lemma {:induction false} DetectedColumnsProperties(data: seq<Row>, columns: seq<string>)
    ensures |data| == 0 ==> DetectedColumns(data, columns) == map[]
    ensures |data| > 0 ==> forall k :: k in DetectedColumns(data, columns) <==> k in ROLES
    ensures |data| > 0 ==> forall i :: 0 <= i < |ROLES| ==> DetectedColumns(data, columns)[ROLES[i]] == FindColumn(columns, KEYWORDS[i])
    ensures "currency" !in DetectedColumns(data, columns)
  {
    DetectionEntries(columns, |ROLES|);
    assert |"currency"| == 8;
    assert forall i :: 0 <= i < |ROLES| ==> |ROLES[i]| != 8;
  }

  /** Rows converted from one sheet all have the header names as keys, so those names may serve as the column list. */
  lemma {:induction false} ConvertedColumns(jsonData: seq<SheetRow>)
    requires |ConvertToObjects(jsonData)| > 0
    ensures forall c :: Some(c) in HeaderNames(jsonData[0]) && c != PROTO_KEY <==> c in ConvertToObjects(jsonData)[0]
  {
    ConvertToObjectsProperties(jsonData);
  }

  /** A match at position k is a match. */
  lemma {:induction false} ContainsAt(s: string, sub: string, k: nat)
    requires k <= |s| && StartsWith(s[k..], sub)
    ensures Contains(s, sub)
    decreases k
  {
    if k > 0 {
      assert s[1..][k - 1..] == s[k..];
      ContainsAt(s[1..], sub, k - 1);
    }
  }

  /** The same header can fill two roles: "Total IVA" is both the total and the tax column. */
  lemma {:induction false} TotalIvaFillsTwoRoles(col: string)
    requires col == "Total IVA"
    ensures Matches(col, KEYWORDS[3]) && Matches(col, KEYWORDS[4])
    ensures FindColumn([col], KEYWORDS[3]) == Some(col) && FindColumn([col], KEYWORDS[4]) == Some(col)
  {
    var lower := ToLower(col);
    assert lower[..5] == "total";
    ContainsAt(lower, "total", 0);
    assert lower[6..][..3] == "iva";
    ContainsAt(lower, "iva", 6);
    assert Contains(lower, KEYWORDS[3][0]) && Contains(lower, KEYWORDS[4][0]);
  }
}
