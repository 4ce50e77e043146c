/** The A1 cell notation that cmd/hsrtctsheets/main.go uses to address
    spreadsheet cells: a zero-based (row, column) pair becomes the column in
    bijective base-26 letters ("A" to "Z", then "AA", "AB", ...) followed by
    the one-based row number in decimal. */
module Sheets {

  predicate IsLetter(ch: char) {
    'A' <= ch <= 'Z'
  }

  predicate IsDigit(ch: char) {
    '0' <= ch <= '9'
  }

  predicate AllLetters(s: string) {
    forall i :: 0 <= i < |s| ==> IsLetter(s[i])
  }

  predicate AllDigits(s: string) {
    forall i :: 0 <= i < |s| ==> IsDigit(s[i])
  }

  /** The letter for a base-26 digit: 0 is 'A', 25 is 'Z'. */
  function Letter(d: int): (ch: char)
    requires 0 <= d < 26
    ensures IsLetter(ch)
  {
    (('A' as int) + d) as char
  }

  /** The letters of the one-based column number `n`; none for `n <= 0`. */
  function ColumnLetters(n: int): (s: string)
    ensures |s| == 0 <==> n <= 0
    decreases n
  {
    if n <= 0 then "" else ColumnLetters((n - 1) / 26) + [Letter((n - 1) % 26)]
  }

  /** The number that a column's letters spell, reading 'A' as 1 through
      'Z' as 26 in base 26. */
  function ColumnNumber(s: string): (n: int)
    requires AllLetters(s)
    ensures n >= 0 && (n == 0 <==> s == "")
  {
    if s == [] then 0
    else ColumnNumber(s[..|s| - 1]) * 26 + ((s[|s| - 1] as int) - ('A' as int) + 1)
  }

  /** The decimal digit for 0..9. */
  function Digit(d: int): (ch: char)
    requires 0 <= d < 10
    ensures IsDigit(ch)
  {
    (('0' as int) + d) as char
  }

  /** The decimal digits of `n`, most significant first, without leading
      zeros. */
  function DecimalDigits(n: nat): (s: string)
    ensures |s| >= 1
  {
    if n < 10 then [Digit(n)] else DecimalDigits(n / 10) + [Digit(n % 10)]
  }

  /** The number that decimal digits spell. */
  function DecimalValue(s: string): int
    requires AllDigits(s)
  {
    if s == [] then 0
    else DecimalValue(s[..|s| - 1]) * 10 + ((s[|s| - 1] as int) - ('0' as int))
  }

  /** An integer in decimal, with a leading '-' when negative, as `%d`
      prints it. */
  function FormatInt(i: int): string {
    if i < 0 then "-" + DecimalDigits(-i) else DecimalDigits(i)
  }

  /** The A1 coordinate of the zero-based `row` and `col`. */
  function Coordinate(row: int, col: int): string {
    ColumnLetters(col + 1) + FormatInt(row + 1)
  }

  /** `spreadsheetCoordinate`: peel base-26 digits off the one-based column
      number, least significant first, prepending each letter. */
  method SpreadsheetCoordinate(row: int, col: int) returns (coordinate: string)
    ensures coordinate == Coordinate(row, col)
  {
    var columnLetters := "";
    var c := col + 1;
    while c > 0
      invariant ColumnLetters(col + 1) == ColumnLetters(c) + columnLetters
      decreases c
    {
      ghost var lettersBefore := columnLetters;
      ColumnLettersStep(c);
      c := c - 1;
      ghost var letter := Letter(c % 26);
      columnLetters := [Letter(c % 26)] + columnLetters;
      c := c / 26;
      assert ColumnLetters(c) + [letter] + lettersBefore == ColumnLetters(c) + columnLetters;
    }
    coordinate := columnLetters + FormatInt(row + 1);
  }

  /** The least significant letter of a positive column number. */
  lemma ColumnLettersStep(n: int)
    requires n > 0
    ensures ColumnLetters(n) == ColumnLetters((n - 1) / 26) + [Letter((n - 1) % 26)]
  {
  }

  /** Column letters are letters 'A' to 'Z', and reading them back gives
      the column number: the one-based column, so the zero-based `col` is
      that number less one. */
  lemma {:induction false} ColumnNumberOfLetters(n: int)
    requires n >= 0
    ensures AllLetters(ColumnLetters(n)) && ColumnNumber(ColumnLetters(n)) == n
    decreases n
  {
    if n > 0 {
      var s := ColumnLetters(n);
      ColumnNumberOfLetters((n - 1) / 26);
      assert s[..|s| - 1] == ColumnLetters((n - 1) / 26);
    }
  }

  /** Every non-empty run of letters is the column letters of the number it
      spells: the notation is a bijection between positive numbers and
      non-empty letter strings. */
  lemma {:induction false} LettersOfColumnNumber(s: string)
    requires AllLetters(s)
    ensures ColumnLetters(ColumnNumber(s)) == s
    decreases |s|
  {
    if s != [] {
      var init, d := s[..|s| - 1], (s[|s| - 1] as int) - ('A' as int);
      LettersOfColumnNumber(init);
      var n := ColumnNumber(s);
      DivModDigit(ColumnNumber(init), d);
      assert n - 1 == ColumnNumber(init) * 26 + d;
      assert s == init + [s[|s| - 1]];
    }
  }

  /** Division by 26 undoes appending a base-26 digit. */
  lemma DivModDigit(q: int, d: int)
    requires 0 <= d < 26
    ensures (q * 26 + d) / 26 == q && (q * 26 + d) % 26 == d
  {
  }

  /** Columns 0 to 25 take one letter and columns 26 to 701 take two. */
  lemma ColumnWidth(col: int)
    requires col >= 0
    ensures col < 26 ==> |ColumnLetters(col + 1)| == 1
    ensures 26 <= col < 702 ==> |ColumnLetters(col + 1)| == 2
  {
    if 26 <= col < 702 {
      assert 1 <= col / 26 <= 26;
      assert |ColumnLetters(col / 26)| == 1;
    }
  }

  /** Reading the digits back gives the number. */
  lemma {:induction false} DecimalValueOfDigits(n: nat)
    ensures AllDigits(DecimalDigits(n)) && DecimalValue(DecimalDigits(n)) == n
  {
    if n >= 10 {
      var s := DecimalDigits(n);
      DecimalValueOfDigits(n / 10);
      assert s[..|s| - 1] == DecimalDigits(n / 10);
    }
  }

  /** For cells in the sheet the coordinate decodes: its leading run of
      letters spells the one-based column and the digits after it spell the
      one-based row. */
  lemma CoordinateShape(row: int, col: int)
    requires row >= 0 && col >= 0
    ensures var s, k := Coordinate(row, col), |ColumnLetters(col + 1)|;
      0 < k < |s| && AllLetters(s[..k]) && !IsLetter(s[k])
      && ColumnNumber(s[..k]) == col + 1 && AllDigits(s[k..]) && DecimalValue(s[k..]) == row + 1
  {
    var letters, digits := ColumnLetters(col + 1), DecimalDigits(row + 1);
    ColumnNumberOfLetters(col + 1);
    DecimalValueOfDigits(row + 1);
    var s := Coordinate(row, col);
    assert s == letters + digits;
    assert s[..|letters|] == letters;
    assert s[|letters|..] == digits;
    assert s[|letters|] == digits[0];
  }

  /** A string has one longest leading run of letters. */
  lemma LetterRunUnique(s: string, k1: nat, k2: nat)
    requires k1 < |s| && AllLetters(s[..k1]) && !IsLetter(s[k1])
    requires k2 < |s| && AllLetters(s[..k2]) && !IsLetter(s[k2])
    ensures k1 == k2
  {
  }

  /** Distinct cells have distinct coordinates. */
  lemma CoordinateInjective(row1: int, col1: int, row2: int, col2: int)
    requires row1 >= 0 && col1 >= 0 && row2 >= 0 && col2 >= 0
    requires Coordinate(row1, col1) == Coordinate(row2, col2)
    ensures row1 == row2 && col1 == col2
  {
    CoordinateShape(row1, col1);
    CoordinateShape(row2, col2);
    LetterRunUnique(Coordinate(row1, col1), |ColumnLetters(col1 + 1)|, |ColumnLetters(col2 + 1)|);
  }

  /** Worked examples: the first and last one-letter columns, the first
      two-letter columns, the last two-letter and the first three-letter
      column. */
  lemma ColumnExamples()
    ensures ColumnLetters(0 + 1) == "A" && ColumnLetters(25 + 1) == "Z"
    ensures ColumnLetters(26 + 1) == "AA" && ColumnLetters(27 + 1) == "AB"
    ensures ColumnLetters(701 + 1) == "ZZ" && ColumnLetters(702 + 1) == "AAA"
  {
    ColumnLettersStep(1);
    ColumnLettersStep(26);
    ColumnLettersStep(27);
    ColumnLettersStep(28);
    ColumnLettersStep(702);
    ColumnLettersStep(703);
  }

  /** Worked examples of whole coordinates: the top-left cell, and row 9 of
      column 27. */
  lemma CoordinateExamples()
    ensures Coordinate(0, 0) == "A1" && Coordinate(9, 27) == "AB10"
  {
    ColumnExamples();
    assert DecimalDigits(1) == "1";
    assert DecimalDigits(10) == DecimalDigits(1) + "0";
  }
}
