/**
 * The backend's cell lookup: given the sheet's raw values, find the A1
 * coordinate of the cell that receives a logged weight, RPE or note for one
 * lift of one day of one week.
 *
 * The sheet is a sequence of rows, each a sequence of string cells (the
 * Sheets API returns every value as a string, and trailing empty cells are
 * dropped, so rows have different lengths). Python raises IndexError where
 * a row is too short for the column it reads and where the column has no
 * letter; those are the Failure cases of the results below.
 */
module WriteBack {
  import opened Wrappers
  import opened Text

  type Row = seq<string>
  type Sheet = seq<Row>

  /** Where Python raises IndexError. */
  datatype LookupError =
    | RowTooShort(row: nat)           // row[colOffset] on a non-empty row with too few cells
    | ColumnOutOfRange(column: int)   // string.ascii_uppercase[colNumber - 1] past 'Z'

  // ------------------------------------------------------------ A1 notation

  /** The 1-based column of a column letter: 'A' is 1, 'Z' is 26. */
  function LetterColumn(c: char): int
  {
    c as int - 'A' as int + 1
  }

  /** convertToIndex: the column's letter followed by the row's decimal numeral. */
  function ConvertToIndex(rowNumber: nat, colNumber: int): (s: string)
    requires 1 <= colNumber <= 26
    ensures |s| >= 2 && 'A' <= s[0] <= 'Z' && AllDigits(s[1..])
    ensures LetterColumn(s[0]) == colNumber && DigitsValue(s[1..]) == rowNumber
    ensures s[1..] == NatToString(rowNumber) && (|s| == 2 || s[1] != '0')
  {
    NatToStringRoundTrip(rowNumber);
    [('A' as int + colNumber - 1) as char] + NatToString(rowNumber)
  }

  /** Reading an A1 reference back: (row, column). */
  function ParseA1(s: string): (int, int)
    requires |s| >= 1 && AllDigits(s[1..])
  {
    (DigitsValue(s[1..]), LetterColumn(s[0]))
  }

  /** Reading a reference back gives its row and column. */
  lemma A1RoundTrip(rowNumber: nat, colNumber: int)
    requires 1 <= colNumber <= 26
    ensures ParseA1(ConvertToIndex(rowNumber, colNumber)) == (rowNumber, colNumber)
  {
  }

  // ------------------------------------------------------------ left margin

  /** No non-empty row has a first cell other than "". */
  predicate LeftIsBlank(rawData: Sheet)
  {
    forall r :: 0 <= r < |rawData| && |rawData[r]| > 0 ==> rawData[r][0] == ""
  }

  /** The scan for a blank left margin: the column offset is 1 exactly when the margin is blank. */
  method DetectColOffset(rawData: Sheet) returns (colOffset: nat)
    ensures colOffset == (if LeftIsBlank(rawData) then 1 else 0)
  {
    var leftIsBlank := true;
    for r := 0 to |rawData|
      invariant leftIsBlank
      invariant forall r' :: 0 <= r' < r && |rawData[r']| > 0 ==> rawData[r'][0] == ""
    {
      var row := rawData[r];
      if |row| > 0 && row[0] != "" {
        leftIsBlank := false;
        break;
      }
    }
    colOffset := if leftIsBlank then 1 else 0;
  }

  // ----------------------------------------------------------- week headers

  predicate IsWeekHeader(cell: string)
  {
    StartsWith(cell, "Week")
  }

  /** The number of week headers in a row. */
  function WeekCount(row: Row): nat
  {
    if row == [] then 0
    else WeekCount(row[..|row| - 1]) + (if IsWeekHeader(row[|row| - 1]) then 1 else 0)
  }

  /** The inner loop: each header cell maps to its 0-based column, later cells overwriting earlier ones. */
  function RowWeeks(positions: map<string, nat>, row: Row): map<string, nat>
  {
    if row == [] then positions
    else
      var before := RowWeeks(positions, row[..|row| - 1]);
      var cell := row[|row| - 1];
      if IsWeekHeader(cell) then before[cell := |row| - 1] else before
  }

  /** The outer loop over a run of rows, later rows overwriting earlier ones. */
  function FoldRows(rows: Sheet): map<string, nat>
  {
    if rows == [] then map[]
    else RowWeeks(FoldRows(rows[..|rows| - 1]), rows[|rows| - 1])
  }

  /** How many rows the header scan reads: up to and including the first row with more than one week header. */
  function ScanEnd(rows: Sheet): (end: nat)
    ensures end <= |rows|
    ensures forall r :: 0 <= r < end - 1 ==> WeekCount(rows[r]) <= 1
    ensures end == |rows| || (0 < end && WeekCount(rows[end - 1]) > 1)
  {
    if rows == [] then 0
    else if WeekCount(rows[0]) > 1 then 1
    else
      var e := ScanEnd(rows[1..]);
      assert forall r :: 1 <= r < e ==> rows[r] == rows[1..][r - 1];
      1 + e
  }

  /** The weekPositions dictionary. */
  function WeekPositions(rawData: Sheet): map<string, nat>
  {
    FoldRows(rawData[..ScanEnd(rawData)])
  }

  /** The header scan, filling the dictionary in place and stopping after the header row. */
  method FindWeekPositions(rawData: Sheet) returns (weekPositions: map<string, nat>)
    ensures weekPositions == WeekPositions(rawData)
  {
    weekPositions := map[];
    var r := 0;
    while r < |rawData|
      invariant 0 <= r <= |rawData|
      invariant forall r' :: 0 <= r' < r ==> WeekCount(rawData[r']) <= 1
      invariant weekPositions == FoldRows(rawData[..r])
    {
      var row := rawData[r];
      assert rawData[..r + 1][..r] == rawData[..r];
      if |row| > 0 {
        var weekCount := 0;
        for c := 0 to |row|
          invariant weekPositions == RowWeeks(FoldRows(rawData[..r]), row[..c])
          invariant weekCount == WeekCount(row[..c])
        {
          assert row[..c + 1][..c] == row[..c];
          if StartsWith(row[c], "Week") {
            weekPositions := weekPositions[row[c] := c];
            weekCount := weekCount + 1;
          }
        }
        assert row[..|row|] == row;
        if weekCount > 1 {
          assert ScanEnd(rawData) == r + 1;
          break;
        }
      } else {
        assert row == row[..0];
      }
      r := r + 1;
    }
  }

  /** `c` is the last column of row `r` holding `k`, and no later row of the first `end` holds it. */
  predicate LastAt(rows: Sheet, end: int, r: int, c: int, k: string)
    requires 0 <= r < end <= |rows|
  {
    && 0 <= c < |rows[r]| && rows[r][c] == k
    && (forall c' :: c < c' < |rows[r]| ==> rows[r][c'] != k)
    && (forall r' :: r < r' < end ==> k !in rows[r'])
  }

  /** One row of the scan: its headers map to their last column, other keys keep their entries. */
  lemma {:induction false} RowWeeksSpec(positions: map<string, nat>, row: Row)
    ensures forall k :: IsWeekHeader(k) && k in row ==>
              && k in RowWeeks(positions, row)
              && RowWeeks(positions, row)[k] < |row|
              && row[RowWeeks(positions, row)[k]] == k
              && (forall c :: RowWeeks(positions, row)[k] < c < |row| ==> row[c] != k)
    ensures forall k :: !(IsWeekHeader(k) && k in row) ==>
              && (k in RowWeeks(positions, row) <==> k in positions)
              && (k in positions ==> RowWeeks(positions, row)[k] == positions[k])
  {
    if row != [] {
      var init := row[..|row| - 1];
      var cell := row[|row| - 1];
      RowWeeksSpec(positions, init);
      assert row == init + [cell];
      forall k | IsWeekHeader(k) && k in row && k != cell
        ensures k in init
      {
      }
    }
  }

  /** The rows of a run: the keys are the headers of any row, each at its last occurrence. */
  lemma {:induction false} FoldRowsSpec(rows: Sheet)
    ensures forall k :: k in FoldRows(rows) <==>
              IsWeekHeader(k) && exists r :: 0 <= r < |rows| && k in rows[r]
    ensures forall k :: k in FoldRows(rows) ==>
              exists r :: 0 <= r < |rows| && LastAt(rows, |rows|, r, FoldRows(rows)[k], k)
  {
    if rows != [] {
      var n := |rows| - 1;
      var init := rows[..n];
      var last := rows[n];
      FoldRowsSpec(init);
      RowWeeksSpec(FoldRows(init), last);
      var m := FoldRows(rows);
      forall k | k in m
        ensures exists r :: 0 <= r < |rows| && LastAt(rows, |rows|, r, m[k], k)
      {
        if IsWeekHeader(k) && k in last {
          assert LastAt(rows, |rows|, n, m[k], k);
        } else {
          var r :| 0 <= r < n && LastAt(init, n, r, FoldRows(init)[k], k);
          assert LastAt(rows, |rows|, r, m[k], k);
        }
      }
      forall k | IsWeekHeader(k) && exists r :: 0 <= r < |rows| && k in rows[r]
        ensures k in m
      {
        var r :| 0 <= r < |rows| && k in rows[r];
        if r < n {
          assert k in init[r];
        }
      }
    }
  }

  /**
   * weekPositions holds exactly the week headers of the scanned rows (up to
   * and including the first row with more than one header), each at the
   * column of its last occurrence in row order.
   */
  lemma WeekPositionsSpec(rawData: Sheet)
    ensures forall k :: k in WeekPositions(rawData) <==>
              IsWeekHeader(k) && exists r :: 0 <= r < ScanEnd(rawData) && k in rawData[r]
    ensures forall k :: k in WeekPositions(rawData) ==>
              exists r :: 0 <= r < ScanEnd(rawData) &&
                LastAt(rawData, ScanEnd(rawData), r, WeekPositions(rawData)[k], k)
  {
    var e := ScanEnd(rawData);
    var rows := rawData[..e];
    FoldRowsSpec(rows);
    forall k | k in WeekPositions(rawData)
      ensures exists r :: 0 <= r < e && LastAt(rawData, e, r, WeekPositions(rawData)[k], k)
    {
      var r :| 0 <= r < e && LastAt(rows, e, r, WeekPositions(rawData)[k], k);
      assert rows[r] == rawData[r];
      assert forall r' :: r < r' < e ==> rows[r'] == rawData[r'];
      assert LastAt(rawData, e, r, WeekPositions(rawData)[k], k);
    }
    forall k | IsWeekHeader(k) && exists r :: 0 <= r < e && k in rawData[r]
      ensures k in WeekPositions(rawData)
    {
      var r :| 0 <= r < e && k in rawData[r];
      assert rows[r] == rawData[r];
    }
  }

  /** With "Week 1" and "Week 2" in the top row, the scan stops there and finds both. */
  lemma WeekPositionsExample(rest: Sheet)
    ensures WeekPositions([["Week 1", "Week 2"]] + rest) == map["Week 1" := 0, "Week 2" := 1]
  {
    var row := ["Week 1", "Week 2"];
    var rows := [row] + rest;
    assert row[..1] == ["Week 1"] && row[..1][..0] == [];
    assert IsWeekHeader("Week 1") && IsWeekHeader("Week 2");
    assert WeekCount(row) == 2;
    assert ScanEnd(rows) == 1;
    assert rows[..1] == [row] && rows[..1][..0] == [];
    assert RowWeeks(map[], row[..1]) == map["Week 1" := 0];
    assert RowWeeks(map[], row) == map["Week 1" := 0, "Week 2" := 1];
    assert FoldRows(rows[..1]) == RowWeeks(FoldRows([]), row);
  }

  /** weekStartCol: the week header's 0-based index, or one past the offset when the week was not found. */
  function WeekStartCol(colOffset: nat, weekPositions: map<string, nat>, week: string): nat
  {
    if week in weekPositions then weekPositions[week] else colOffset + 1
  }

  /**
   * The field's jump: 4 for the RPE, 5 for notes, 3 otherwise (writeBack.py:45-50).
   * It is added to the header's 0-based index to give a 1-based column number,
   * so the field's cell is jump - 1 columns right of the week header.
   */
  function FieldJump(field: string): (jump: nat)
    ensures 3 <= jump <= 5
    ensures jump == 4 <==> field == "actual_rpe"
    ensures jump == 5 <==> field == "notes"
  {
    if field == "weightTaken" then 3
    else if field == "actual_rpe" then 4
    else if field == "notes" then 5
    else 3
  }

  // ---------------------------------------------------------- row search

  /**
   * The row loop from row i on, with `seenDay` the day flag: the 1-based number of
   * the first row, at or after the day's row, whose lift and prescribed cells
   * match; 0 when there is none.
   */
  function RowSearch(rows: Sheet, colOffset: nat, prescribedColumn: nat, day: string, lift: string,
                     prescribed: string, i: nat, seenDay: bool): Result<nat, LookupError>
    decreases |rows| - i
  {
    if i >= |rows| then Success(0)
    else
      var row := rows[i];
      if |row| == 0 then RowSearch(rows, colOffset, prescribedColumn, day, lift, prescribed, i + 1, seenDay)
      else if |row| <= colOffset then Failure(RowTooShort(i))
      else
        var seen := seenDay || row[colOffset] == day;
        if seen && row[colOffset] == lift && |row| > prescribedColumn && row[prescribedColumn] == prescribed
        then Success(i + 1)
        else RowSearch(rows, colOffset, prescribedColumn, day, lift, prescribed, i + 1, seen)
  }

  /** The row loop, with its day flag that once set stays set and its break on the first match. */
  method FindRowNumber(rawData: Sheet, colOffset: nat, prescribedColumn: nat, day: string, lift: string,
                       prescribed: string) returns (r: Result<nat, LookupError>)
    ensures r == RowSearch(rawData, colOffset, prescribedColumn, day, lift, prescribed, 0, false)
  {
    var currentDay := false;
    var rowNumber := 0;
    var i := 0;
    while i < |rawData|
      invariant 0 <= i <= |rawData|
      invariant RowSearch(rawData, colOffset, prescribedColumn, day, lift, prescribed, i, currentDay)
                == RowSearch(rawData, colOffset, prescribedColumn, day, lift, prescribed, 0, false)
      invariant rowNumber == 0
    {
      var row := rawData[i];
      if |row| > 0 {
        if |row| <= colOffset {
          return Failure(RowTooShort(i));
        }
        if row[colOffset] == day {
          currentDay := true;
        }
        if currentDay {
          if row[colOffset] == lift {
            if |row| > prescribedColumn && row[prescribedColumn] == prescribed {
              rowNumber := i + 1;
              break;
            }
          }
        }
      }
      i := i + 1;
    }
    return Success(rowNumber);
  }

  /** Every non-empty row has a cell at the offset column. */
  predicate RowsReach(rows: Sheet, colOffset: nat)
  {
    forall r :: 0 <= r < |rows| && |rows[r]| > 0 ==> |rows[r]| > colOffset
  }

  /** Some row up to i is the day's row. */
  predicate DaySeen(rows: Sheet, colOffset: nat, day: string, i: int)
  {
    exists d :: 0 <= d <= i && d < |rows| && |rows[d]| > colOffset && rows[d][colOffset] == day
  }

  /** Row i has the lift and the prescribed text and lies at or after the day's row. */
  predicate Candidate(rows: Sheet, colOffset: nat, prescribedColumn: nat, day: string, lift: string,
                      prescribed: string, i: int)
    requires 0 <= i < |rows|
  {
    && |rows[i]| > colOffset && rows[i][colOffset] == lift
    && |rows[i]| > prescribedColumn && rows[i][prescribedColumn] == prescribed
    && DaySeen(rows, colOffset, day, i)
  }

  /** n is 0 when no row is a candidate, else the 1-based number of the first candidate. */
  predicate IsFirstMatch(rows: Sheet, colOffset: nat, prescribedColumn: nat, day: string, lift: string,
                         prescribed: string, n: nat)
  {
    && (n == 0 <==> forall j :: 0 <= j < |rows| ==> !Candidate(rows, colOffset, prescribedColumn, day, lift, prescribed, j))
    && (n > 0 ==> n - 1 < |rows| && Candidate(rows, colOffset, prescribedColumn, day, lift, prescribed, n - 1))
    && (forall j :: 0 <= j < n - 1 && j < |rows| ==> !Candidate(rows, colOffset, prescribedColumn, day, lift, prescribed, j))
  }

  lemma {:induction false} RowSearchFrom(rows: Sheet, colOffset: nat, prescribedColumn: nat, day: string,
                                         lift: string, prescribed: string, i: nat, seenDay: bool)
    requires i <= |rows| && RowsReach(rows, colOffset)
    requires seenDay == DaySeen(rows, colOffset, day, i - 1)
    requires forall j :: 0 <= j < i ==> !Candidate(rows, colOffset, prescribedColumn, day, lift, prescribed, j)
    ensures var n := RowSearch(rows, colOffset, prescribedColumn, day, lift, prescribed, i, seenDay);
            n.Success? && IsFirstMatch(rows, colOffset, prescribedColumn, day, lift, prescribed, n.value)
    decreases |rows| - i
  {
    if i < |rows| {
      var row := rows[i];
      var seen := if |row| == 0 then seenDay else seenDay || row[colOffset] == day;
      assert seen == DaySeen(rows, colOffset, day, i) by {
        if seen && !seenDay {
          assert |rows[i]| > colOffset && rows[i][colOffset] == day;
        }
        if DaySeen(rows, colOffset, day, i) && !seenDay {
          var d :| 0 <= d <= i && d < |rows| && |rows[d]| > colOffset && rows[d][colOffset] == day;
          assert d == i;
        }
      }
      if !Candidate(rows, colOffset, prescribedColumn, day, lift, prescribed, i) {
        RowSearchFrom(rows, colOffset, prescribedColumn, day, lift, prescribed, i + 1, seen);
      }
    }
  }

  /**
   * When every non-empty row reaches the offset column, the search succeeds:
   * 0 exactly when no row is a candidate, otherwise the 1-based number of the
   * first candidate.
   */
  lemma RowSearchFindsFirst(rows: Sheet, colOffset: nat, prescribedColumn: nat, day: string,
                            lift: string, prescribed: string)
    requires RowsReach(rows, colOffset)
    ensures var n := RowSearch(rows, colOffset, prescribedColumn, day, lift, prescribed, 0, false);
            n.Success? && IsFirstMatch(rows, colOffset, prescribedColumn, day, lift, prescribed, n.value)
  {
    RowSearchFrom(rows, colOffset, prescribedColumn, day, lift, prescribed, 0, false);
  }

  /** A row above every day row is never chosen, even when its lift and prescribed cells match. */
  lemma RowBeforeDayIgnored(colOffset: nat, prescribedColumn: nat, day: string, lift: string, prescribed: string,
                            before: Row, dayRow: Row)
    requires |before| > colOffset && |before| > prescribedColumn
    requires before[colOffset] == lift && before[prescribedColumn] == prescribed && lift != day
    requires |dayRow| > colOffset && dayRow[colOffset] == day
    ensures RowSearch([before, dayRow], colOffset, prescribedColumn, day, lift, prescribed, 0, false) == Success(0)
  {
    var rows := [before, dayRow];
    assert RowSearch(rows, colOffset, prescribedColumn, day, lift, prescribed, 2, true) == Success(0);
    assert RowSearch(rows, colOffset, prescribedColumn, day, lift, prescribed, 1, false) == Success(0);
  }

  // ------------------------------------------------------------ coordinate

  /** findCoordinate as a value: the weight that will be written plays no part in it. */
  function Coordinate(field: string, day: string, week: string, lift: string, prescribed: string,
                      rawData: Sheet): Result<string, LookupError>
  {
    var colOffset := if LeftIsBlank(rawData) then 1 else 0;
    var weekStartCol := WeekStartCol(colOffset, WeekPositions(rawData), week);
    var colNumber := weekStartCol + FieldJump(field);
    var prescribedColumn := weekStartCol + 1;
    match RowSearch(rawData, colOffset, prescribedColumn, day, lift, prescribed, 0, false)
    case Failure(e) => Failure(e)
    case Success(rowNumber) =>
      if colNumber > 26 then Failure(ColumnOutOfRange(colNumber))
      else Success(ConvertToIndex(rowNumber, colNumber))
  }

  method FindCoordinate(field: string, weight: string, day: string, week: string, lift: string,
                        prescribed: string, rawData: Sheet) returns (r: Result<string, LookupError>)
    ensures r == Coordinate(field, day, week, lift, prescribed, rawData)
  {
    var colOffset := DetectColOffset(rawData);
    var weekStartCol := colOffset + 1;
    var weekPositions := FindWeekPositions(rawData);
    if week in weekPositions {
      weekStartCol := weekPositions[week];
    }
    var fieldJump := FieldJump(field);
    var colNumber := weekStartCol + fieldJump;
    var prescribedColumn := weekStartCol + 1;
    var rowNumber := FindRowNumber(rawData, colOffset, prescribedColumn, day, lift, prescribed);
    if rowNumber.Failure? {
      return Failure(rowNumber.error);
    }
    if colNumber > 26 {
      return Failure(ColumnOutOfRange(colNumber));
    }
    r := Success(ConvertToIndex(rowNumber.value, colNumber));
  }

  /**
   * A successful lookup names the field's column, counted from the week's
   * header (or from the fallback column), and the first matching row at or
   * after the day's row, or row 0 when none matches.
   */
  lemma CoordinateSpec(field: string, day: string, week: string, lift: string, prescribed: string,
                       rawData: Sheet)
    requires RowsReach(rawData, if LeftIsBlank(rawData) then 1 else 0)
    ensures var colOffset := if LeftIsBlank(rawData) then 1 else 0;
            var weekStartCol := if week in WeekPositions(rawData) then WeekPositions(rawData)[week] else colOffset + 1;
            var r := Coordinate(field, day, week, lift, prescribed, rawData);
            && (r.Failure? <==> weekStartCol + FieldJump(field) > 26)
            && (r.Success? ==>
                  && LetterColumn(r.value[0]) == weekStartCol + FieldJump(field)
                  && IsFirstMatch(rawData, colOffset, weekStartCol + 1, day, lift, prescribed, DigitsValue(r.value[1..])))
  {
    var colOffset := if LeftIsBlank(rawData) then 1 else 0;
    var weekStartCol := WeekStartCol(colOffset, WeekPositions(rawData), week);
    RowSearchFindsFirst(rawData, colOffset, weekStartCol + 1, day, lift, prescribed);
  }

  /**
   * With the "Week 1" header in column B (0-based index 1), a logged weight
   * goes to column D, two columns right of the header, and the prescribed
   * text is read from column C, one column right of it.
   */
  lemma WeightColumnExample()
    ensures Coordinate("weightTaken", "Mon", "Week 1", "Squat", "3x5",
                       [["", "Week 1", "Week 2"], ["", "Mon"], ["", "Squat", "3x5"]]) == Success("D3")
  {
    var header: Row := ["", "Week 1", "Week 2"];
    var rows: Sheet := [header, ["", "Mon"], ["", "Squat", "3x5"]];
    assert LeftIsBlank(rows) by {
      assert forall r | 0 <= r < |rows| :: rows[r][0] == "";
    }
    assert WeekPositions(rows) == map["Week 1" := 1, "Week 2" := 2] by {
      assert header[..2] == ["", "Week 1"] && header[..2][..1] == [""] && header[..2][..1][..0] == [];
      assert !IsWeekHeader("") && IsWeekHeader("Week 1") && IsWeekHeader("Week 2");
      assert WeekCount(header[..2][..1]) == 0;
      assert WeekCount(header[..2]) == 1;
      assert WeekCount(header) == 2;
      assert ScanEnd(rows) == 1;
      assert rows[..1] == [header] && rows[..1][..0] == [];
      assert RowWeeks(map[], header[..2][..1]) == map[];
      assert RowWeeks(map[], header[..2]) == map["Week 1" := 1];
      assert RowWeeks(map[], header) == map["Week 1" := 1, "Week 2" := 2];
      assert FoldRows(rows[..1]) == RowWeeks(FoldRows([]), header);
    }
    assert RowSearch(rows, 1, 2, "Mon", "Squat", "3x5", 0, false) == Success(3) by {
      assert RowSearch(rows, 1, 2, "Mon", "Squat", "3x5", 2, true) == Success(3);
      assert RowSearch(rows, 1, 2, "Mon", "Squat", "3x5", 1, false) == Success(3);
    }
    assert WeekStartCol(1, WeekPositions(rows), "Week 1") == 1;
    assert FieldJump("weightTaken") == 3;
    assert NatToString(3) == "3";
    assert ConvertToIndex(3, 4) == "D3";
  }

  // ------------------------------------------------------ lift normalisation

  /** Every occurrence of p removed, scanning left to right without overlap, as Python's string replacement with "" does. */
  function RemoveAll(s: string, p: string): (r: string)
    requires |p| > 0
    ensures |r| <= |s|
    decreases |s|
  {
    if |s| < |p| then s
    else if s[..|p|] == p then RemoveAll(s[|p|..], p)
    else [s[0]] + RemoveAll(s[1..], p)
  }

  /** A string with no occurrence of p is left as it is. */
  lemma {:induction false} RemoveAllAbsent(s: string, p: string)
    requires |p| > 0 && !Contains(s, p)
    ensures RemoveAll(s, p) == s
    decreases |s|
  {
    if |s| >= |p| {
      assert !OccursAt(s, p, 0);
      assert !Contains(s[1..], p) by {
        forall i | 0 <= i <= |s[1..]| - |p|
          ensures !OccursAt(s[1..], p, i)
        {
          assert !OccursAt(s, p, i + 1);
          assert s[1..][i..i + |p|] == s[i + 1..i + 1 + |p|];
        }
      }
      RemoveAllAbsent(s[1..], p);
    }
  }

  /** The first k characters pass through untouched when p occurs at none of their positions. */
  lemma {:induction false} RemoveAllSkipsFree(s: string, k: nat, p: string)
    requires |p| > 0 && k <= |s| && forall i :: 0 <= i < k ==> !OccursAt(s, p, i)
    ensures RemoveAll(s, p) == s[..k] + RemoveAll(s[k..], p)
    decreases k
  {
    if k == 0 {
      assert s[..0] + RemoveAll(s[0..], p) == RemoveAll(s, p);
    } else if |s| < |p| {
      assert RemoveAll(s[k..], p) == s[k..];
      assert s[..k] + s[k..] == s;
    } else {
      var x, rest := s[1..][..k - 1], RemoveAll(s[k..], p);
      assert RemoveAll(s, p) == [s[0]] + RemoveAll(s[1..], p) by {
        RemoveAllKeepsFirst(s, p);
      }
      assert RemoveAll(s[1..], p) == x + rest by {
        FreeTail(s, k, p);
        RemoveAllSkipsFree(s[1..], k - 1, p);
        assert s[1..][k - 1..] == s[k..];
      }
      assert [s[0]] + x == s[..k];
      assert [s[0]] + (x + rest) == ([s[0]] + x) + rest;
    }
  }

  /** Where p does not occur at the start, the first character is kept. */
  lemma RemoveAllKeepsFirst(s: string, p: string)
    requires |p| > 0 && |s| >= |p| && !OccursAt(s, p, 0)
    ensures RemoveAll(s, p) == [s[0]] + RemoveAll(s[1..], p)
  {
    assert s[..|p|] != p;
  }

  lemma FreeTail(s: string, k: nat, p: string)
    requires 0 < k <= |s| && forall i :: 0 <= i < k ==> !OccursAt(s, p, i)
    ensures forall i :: 0 <= i < k - 1 ==> !OccursAt(s[1..], p, i)
  {
    forall i | 0 <= i < k - 1
      ensures !OccursAt(s[1..], p, i)
    {
      OccursAtTail(s, p, i);
    }
  }

  lemma OccursAtTail(s: string, p: string, i: nat)
    requires |s| > 0
    ensures OccursAt(s[1..], p, i) <==> OccursAt(s, p, i + 1)
  {
    if i + |p| <= |s[1..]| {
      assert s[1..][i..i + |p|] == s[i + 1..i + 1 + |p|];
    }
  }

  /** The first occurrence of p is removed, what precedes it is kept, and the scan resumes after it. */
  lemma RemoveAllFirstOccurrence(a: string, p: string, b: string)
    requires |p| > 0 && forall i :: 0 <= i < |a| ==> !OccursAt(a + p + b, p, i)
    ensures RemoveAll(a + p + b, p) == a + RemoveAll(b, p)
  {
    var s := a + p + b;
    RemoveAllSkipsFree(s, |a|, p);
    assert s[..|a|] == a && s[|a|..] == p + b;
    assert (p + b)[..|p|] == p && (p + b)[|p|..] == b;
  }

  /** Python's lstrip(): the leading whitespace removed. */
  function StripLeft(s: string): (r: string)
    ensures |r| <= |s| && r == s[|s| - |r|..] && AllSpace(s[..|s| - |r|])
    ensures r == [] || !IsSpace(r[0])
  {
    if s != [] && IsSpace(s[0]) then
      var r := StripLeft(s[1..]);
      assert s[..|s| - |r|] == [s[0]] + s[1..][..|s[1..]| - |r|];
      r
    else s
  }

  /** Python's rstrip(): the trailing whitespace removed. */
  function StripRight(s: string): (r: string)
    ensures |r| <= |s| && r == s[..|r|] && AllSpace(s[|r|..])
    ensures r == [] || !IsSpace(r[|r| - 1])
  {
    if s != [] && IsSpace(s[|s| - 1]) then
      var r := StripRight(s[..|s| - 1]);
      assert s[|r|..] == s[..|s| - 1][|r|..] + [s[|s| - 1]];
      r
    else s
  }

  predicate IsStripped(s: string)
  {
    s == [] || (!IsSpace(s[0]) && !IsSpace(s[|s| - 1]))
  }

  /** Python's strip(): s without its leading and trailing whitespace. */
  function Strip(s: string): (r: string)
    ensures IsStripped(r)
    ensures exists i, j :: 0 <= i <= j <= |s| && r == s[i..j] && AllSpace(s[..i]) && AllSpace(s[j..])
  {
    var left := StripLeft(s);
    var r := StripRight(left);
    assert r != [] ==> r[0] == left[0];
    var i := |s| - |left|;
    var j := i + |r|;
    assert r == s[i..j];
    assert s[j..] == left[|r|..];
    r
  }

  /** The lift name used for the lookup: every "(Backdown)" tag removed, then surrounding whitespace stripped (writeBack.py:84). */
  function NormaliseLift(exercise: string): string
  {
    Strip(RemoveAll(exercise, "(Backdown)"))
  }

  /** A normalised name has no whitespace at either end. */
  lemma NormaliseLiftStripped(exercise: string)
    ensures IsStripped(NormaliseLift(exercise))
  {
  }

  /** Normalising a stripped name without the tag changes nothing. */
  lemma NormaliseUntagged(exercise: string)
    requires !Contains(exercise, "(Backdown)") && IsStripped(exercise)
    ensures NormaliseLift(exercise) == exercise
  {
    RemoveAllAbsent(exercise, "(Backdown)");
    assert StripLeft(exercise) == exercise;
  }

  /**
   * The name of a backdown entry, "<lift> (Backdown)", is looked up as
   * "<lift>", the name of the top set's row, also when the lift's own name
   * has parentheses, as in "Bench (Paused) (Backdown)".
   */
  lemma NormaliseBackdownName(lift: string)
    requires IsStripped(lift) && !Contains(lift, "(Backdown)")
    ensures NormaliseLift(lift + " (Backdown)") == lift
  {
    var p := "(Backdown)";
    var spaced := lift + " ";
    var s := lift + " (Backdown)";
    assert s == spaced + p + [];
    forall i | 0 <= i < |spaced|
      ensures !OccursAt(s, p, i)
    {
      TagNotBeforeSpace(lift, i);
    }
    RemoveAllFirstOccurrence(spaced, p, []);
    assert RemoveAll([], p) == [];
    assert RemoveAll(s, p) == spaced;
    assert spaced[..|spaced| - 1] == lift;
    if lift == [] {
      assert StripLeft(spaced) == [];
    } else {
      assert spaced[0] == lift[0];
      assert StripLeft(spaced) == spaced;
      assert StripRight(spaced) == StripRight(lift) == lift;
    }
    assert Strip(spaced) == StripRight(StripLeft(spaced));
  }

  /** In "<lift> (Backdown)", the tag cannot start inside the lift nor at the space. */
  lemma TagNotBeforeSpace(lift: string, i: nat)
    requires !Contains(lift, "(Backdown)") && i <= |lift|
    ensures !OccursAt(lift + " (Backdown)", "(Backdown)", i)
  {
    var p := "(Backdown)";
    var s := lift + " (Backdown)";
    if i + |p| <= |lift| {
      assert s[i..i + |p|] == lift[i..i + |p|];
      assert !OccursAt(lift, p, i);
    } else {
      var k := |lift| - i;
      assert s[i..i + |p|][k] == s[|lift|] == ' ';
      assert forall j :: 0 <= j < |p| ==> p[j] != ' ';
    }
  }

  /** The name with parentheses of its own: "Bench (Paused) (Backdown)" is looked up as "Bench (Paused)". */
  lemma NormalisePausedBackdown()
    ensures NormaliseLift("Bench (Paused) (Backdown)") == "Bench (Paused)"
  {
    var lift := "Bench (Paused)";
    assert !Contains(lift, "(Backdown)") by {
      forall i | 0 <= i <= |lift| - 10
        ensures !OccursAt(lift, "(Backdown)", i)
      {
        assert lift[..5] == "Bench" && lift[i..i + 10][0] == lift[i];
        assert lift[i] != '(';
      }
    }
    assert lift + " (Backdown)" == "Bench (Paused) (Backdown)";
    NormaliseBackdownName(lift);
  }

  /** writeData up to the write: the exercise name is normalised before the lookup. */
  method WriteCoordinate(field: string, newValue: string, day: string, week: string, exercise: string,
                         prescribed: string, rawData: Sheet) returns (coordinate: Result<string, LookupError>)
    ensures coordinate == Coordinate(field, day, week, NormaliseLift(exercise), prescribed, rawData)
  {
    var lift := NormaliseLift(exercise);
    coordinate := FindCoordinate(field, newValue, day, week, lift, prescribed, rawData);
  }
}
