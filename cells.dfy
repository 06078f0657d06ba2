/**
 * Spreadsheet cells and rows as the services see them: a row maps column
 * names to cell values, and reading an absent column yields `undefined`.
 */
module Cells {
  import opened Text

  datatype Option<+T> = None | Some(value: T)

  /**
   * One cell value. `Missing` is JavaScript's `undefined` (also what reading
   * an absent key gives), `Null` is `null`, `DateVal` a Date object whose
   * contents the services never inspect numerically.
   */
  datatype Cell = Missing | Null | Str(s: string) | Num(r: real) | Bool(b: bool) | DateVal

  type Row = map<string, Cell>

  /** row[key]: an absent key reads as undefined. */
  function Get(row: Row, key: string): Cell
  {
    if key in row then row[key] else Missing
  }

  /** JavaScript truthiness of a cell value. */
  predicate Truthy(c: Cell)
  {
    match c
    case Missing => false
    case Null => false
    case Str(s) => s != ""
    case Num(r) => r != 0.0
    case Bool(b) => b
    case DateVal => true
  }

  /**
   * A cell whose text, upper-cased, is "USD". Only a string cell can render
   * as "USD": numbers, booleans, dates, undefined and null render as other text.
   */
  predicate IsUsd(c: Cell)
  {
    c.Str? && |c.s| == 3 && UpperChar(c.s[0]) == 'U' && UpperChar(c.s[1]) == 'S' && UpperChar(c.s[2]) == 'D'
  }

  /** IsUsd, spelled letter by letter above, is the upper-cased comparison with "USD". */
  lemma {:induction false} IsUsdIsUpperCaseUsd(c: Cell)
    ensures IsUsd(c) <==> c.Str? && ToUpper(c.s) == "USD"
  {
    if c.Str? && |c.s| == 3 {
      var u := ToUpper(c.s);
      assert u == "USD" <==> u[0] == 'U' && u[1] == 'S' && u[2] == 'D';
    }
  }

  /** The key actually read from a row for an optional column name: the name, or the fallback when it is absent or empty. */
  function KeyOr(col: Option<string>, fallback: string): string
  {
    if col.Some? && col.value != "" then col.value else fallback
  }

  /** Whether an optional column name is truthy: present and not empty. */
  predicate HasColumn(col: Option<string>)
  {
    col.Some? && col.value != ""
  }

  /** A non-empty sequence is its front followed by its last element. */
  lemma {:induction false} SplitLast<T>(s: seq<T>)
    requires |s| > 0
    ensures s == s[..|s| - 1] + [s[|s| - 1]]
  {
  }
}
