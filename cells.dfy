/**
 * Spreadsheet cells as the sheet reader hands them over: a string, a number, or nothing
 * (`null`/`undefined`). JavaScript's number-to-text and text-to-number conversions are not
 * reproduced; they are supplied as a `NumberText` value.
 */
module Cells {
  import opened Wrappers
  import opened Strings

  datatype Cell = Str(s: string) | Num(n: real) | Empty

  type Row = seq<Cell>

  /** `String(n)` and `Number(s)` (None standing for NaN). */
  datatype NumberText = NumberText(show: real -> string, parse: string -> Option<real>)

  /** `cell !== null && cell !== '' && cell !== undefined`: a numeric 0 counts as content. */
  predicate IsFilled(c: Cell) {
    c.Num? || (c.Str? && c.s != "")
  }

  /** `row.some(cell => cell !== null && cell !== '' && cell !== undefined)` */
  predicate HasContent(row: Row) {
    exists c :: c in row && IsFilled(c)
  }

  /** `String(cell || '')`: every falsy cell, numeric 0 included, becomes "". */
  function Text(nt: NumberText, c: Cell): (r: string)
    ensures c == Num(0.0) ==> r == ""
    ensures !IsFilled(c) ==> r == ""
  {
    match c
    case Str(s) => s
    case Num(n) => if n == 0.0 then "" else nt.show(n)
    case Empty => ""
  }

  /** How `Array.prototype.join` renders one element: null/undefined as "", numbers via `String`. */
  function JoinText(nt: NumberText, c: Cell): string {
    match c
    case Str(s) => s
    case Num(n) => nt.show(n)
    case Empty => ""
  }

  /** `row.join(sep)` */
  function JoinRow(nt: NumberText, row: Row, sep: string): string {
    Join(seq(|row|, i requires 0 <= i < |row| => JoinText(nt, row[i])), sep)
  }

  /** `row[i]`, which is `undefined` past the end of the row. */
  function CellAt(row: Row, i: int): (c: Cell)
    ensures !(0 <= i < |row|) ==> c == Empty
  {
    if 0 <= i < |row| then row[i] else Empty
  }

  /** The rows' cells in order (`rows.flat()`). */
  function Flatten(rows: seq<Row>): (r: Row)
    ensures |rows| == 0 ==> r == []
  {
    if |rows| == 0 then [] else Flatten(rows[..|rows| - 1]) + rows[|rows| - 1]
  }

  /** The goods extractor's `parseNumber`: empty cells give no number, never 0. */
  function ParseNumber(nt: NumberText, c: Cell): (r: Option<real>)
    ensures !IsFilled(c) ==> r.None?
    ensures c.Num? ==> r == Some(c.n)
  {
    match c
    case Empty => None
    case Str(s) => if s == "" then None else nt.parse(s)
    case Num(n) => Some(n)
  }
}
