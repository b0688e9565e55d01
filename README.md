# Powerlifting workout tracker: verified model of its core logic

This project models the computational core of a powerlifting workout tracker.
In the tracker, a lifter's programme lives in a Google Sheet, a Flask backend
turns it into a nested week → day → exercise object, and a React front end
shows each day's exercises and lets the lifter log what they actually lifted.
Logged values are written back into the sheet. The model covers three parts:

- **Plate calculator** (`weight_calculator.dfy`, module `WeightCalculator`).
  For a target total, it subtracts the 20 kg bar (plus two 2.5 kg collars when
  they are on) and halves the rest. It loads that per-side weight greedily with
  the plates 25, 20, 15, 10, 5, 2.5 and 1.25 kg. It then derives the achieved
  total, the signed difference from the target, its label, and the flattened
  plate list that the bar drawing iterates over. Weights are whole eighths of a
  kilogram, so every quantity the calculator handles is an exact integer.
- **Workout hooks** (`workout_hooks.dfy`, module `WorkoutHooks`). This part
  parses prescribed schemes such as `3x5`. It converts one day of the backend
  object into an ordered list of entries. It updates and looks up entries by
  id, keeping the state in the class `WorkoutData`: the memoised entries and
  the editable local copy. It splits entries into top sets and backdown sets,
  and computes the day's statistics.
- **Sheet write-back** (`write_back.dfy`, module `WriteBack`). This part finds
  the A1 cell that receives a logged value:
  - it detects a blank left margin;
  - it finds the week header columns;
  - it maps the field to a column offset from its week;
  - it searches for the lift's row at or after the day's row;
  - it normalises the lift name first, removing the `(Backdown)` tag and
    surrounding whitespace.

Support modules: `Wrappers` (Option, Result), `Text` (digits, numerals,
prefixes, substring search, ASCII lower-casing, whitespace) and `Arithmetic`
(monotonicity of multiplication, uniqueness of Euclidean quotients).

JavaScript objects are sequences of (key, value) pairs in `Object.keys`
order, and a missing property is `None`. Python's `IndexError`s are the
`Failure` cases of `WriteBack.LookupError`.

### Categories

`useExerciseCategorization` has exactly two buckets: everything that is not
a backdown, `Rest` included, goes to the top sets.

### Behaviour the proofs make explicit

- A freshly loaded entry's actual weight starts as its planned weight. As a
  result, the completion statistics count every non-rest entry that already
  has a weight in the sheet as completed, before anything is logged
  (`WorkoutHooks.FreshEntriesCompletion`). `completedSets` also counts
  entries, while `totalSets` sums sets.
- When no row matches, `findCoordinate` returns a reference in row 0 (for
  example `D0`), which is not a valid A1 cell. The model returns that
  reference as the source does (`WriteBack.CoordinateSpec`).
- The day flag in the row search is never reset. A lift missing from the
  selected day is matched in a later day's rows. A matching row above the
  day's row is never chosen (`WriteBack.RowBeforeDayIgnored`).
- The week header's column comes from a 0-based index, while `convertToIndex`
  reads the column number as 1-based. Adding the field's jump of 3, 4 or 5 to
  the index therefore lands 2, 3 or 4 columns right of the header, although
  the comments beside the jumps (writeBack.py:46-48) say 3, 4 and 5 positions
  after it. The prescribed text is read from the column 1 right of the header
  (`WriteBack.WeightColumnExample`: the header in column B gives the weight
  cell in column D).

## Model

| member | source | states |
|---|---|---|
| WeightCalculator.PlateWeightsWellFormed | frontend/src/components/workout/WeightCalculator.jsx:6-8 | the plate list is positive and strictly descending, ends in 1.25 kg, and every plate is a multiple of 1.25 kg |
| WeightCalculator.TotalBarbellWeight | frontend/src/components/workout/WeightCalculator.jsx:25 | the bar is 20 kg, 25 kg with both collars; `NoPlatesAtOrBelowBar` states what it decides |
| WeightCalculator.Load | frontend/src/components/workout/WeightCalculator.jsx:48 | the weight on one side, the sum of weight times count; `FlattenedSum` and `PerSideBounds` state its properties |
| WeightCalculator.Greedy | frontend/src/components/workout/WeightCalculator.jsx:35-44 | the greedy loading as a value; its contract is in `GreedyIsGreedyFit`, `GreedyBounds`, `GreedyExact` and `GreedyFollowsOrder` |
| WeightCalculator.WeightPerSide | frontend/src/components/workout/WeightCalculator.jsx:31 | half of what the target exceeds the bar by; `PerSideBounds` bounds the load against it |
| WeightCalculator.Plates | frontend/src/components/workout/WeightCalculator.jsx:24-46 | the calculator's breakdown as a value; its contract is in `NoPlatesAtOrBelowBar`, `PlatesAreGreedy` and `PlatesFollowOrder` |
| WeightCalculator.ActualWeight | frontend/src/components/workout/WeightCalculator.jsx:48 | the bar plus twice the per-side load; `PerSideBounds` and `ExactWhenMultiple` bound it by the target |
| WeightCalculator.WeightDifference | frontend/src/components/workout/WeightCalculator.jsx:49 | the target minus the achieved total; `PerSideBounds` puts it in [0, 2.5 kg) above the bar |
| WeightCalculator.Flattened | frontend/src/components/workout/WeightCalculator.jsx:53-58 | the drawn plate list as a value; `FlattenedLength`, `FlattenedSum` and `FlattenedCounts` state its length, sum and counts |
| WeightCalculator.CalculatePlates | frontend/src/components/workout/WeightCalculator.jsx:24-46 | returns the greedy breakdown; empty at or below the bar; heaviest first; each plate at most once; the per-side load never exceeds the per-side target and falls short by less than 1.25 kg |
| WeightCalculator.LoadGreedily | frontend/src/components/workout/WeightCalculator.jsx:32-44 | the loop over the plate list computes the greedy loading of the per-side weight for any positive list of denominations |
| WeightCalculator.FloorIsMaximal | frontend/src/components/workout/WeightCalculator.jsx:36 | Math.floor(remaining / plate) is the largest count that fits, and the only such count |
| WeightCalculator.GreedyIsGreedyFit | frontend/src/components/workout/WeightCalculator.jsx:35-44 | a breakdown is the greedy one exactly when it skips every plate that does not fit and takes every plate that fits in its largest count (both directions) |
| WeightCalculator.GreedyFollowsOrder | frontend/src/components/workout/WeightCalculator.jsx:35-44 | greedy loading with strictly descending denominations lists them heaviest first, each at most once, with counts of at least one |
| WeightCalculator.GreedyBounds | frontend/src/components/workout/WeightCalculator.jsx:35-44 | greedy loading never overshoots, and what it leaves is below the smallest denomination |
| WeightCalculator.GreedyExact | frontend/src/components/workout/WeightCalculator.jsx:35-44 | a remainder that is a whole number of the smallest plates is loaded exactly |
| WeightCalculator.GreedyOfZero | frontend/src/components/workout/WeightCalculator.jsx:37 | nothing left gives no plates |
| WeightCalculator.NoPlatesAtOrBelowBar | frontend/src/components/workout/WeightCalculator.jsx:25-29 | the bar is 20 kg (25 kg with collars); at or below it there are no plates, the achieved total is the bar and the difference is not positive |
| WeightCalculator.PlatesFollowOrder | frontend/src/components/workout/WeightCalculator.jsx:35-45 | the calculator's breakdown is heaviest first, one entry per plate, counts at least one |
| WeightCalculator.PlatesAreGreedy | frontend/src/components/workout/WeightCalculator.jsx:35-44 | every stack in the breakdown is the largest count of its plate that fits what is left |
| WeightCalculator.PerSideBounds | frontend/src/components/workout/WeightCalculator.jsx:31-49 | above the bar, the bar is under-loaded by at least 0 and less than 2.5 kg, so never over-loaded |
| WeightCalculator.ExactWhenMultiple | frontend/src/components/workout/WeightCalculator.jsx:31-49 | when the weight above the bar is a multiple of 2.5 kg, the achieved total is the target and the difference is 0 |
| WeightCalculator.Example220 | frontend/src/components/workout/WeightCalculator.jsx:24-49 | 220 kg without collars is four 25 kg plates per side, exactly |
| WeightCalculator.FlattenPlates | frontend/src/components/workout/WeightCalculator.jsx:53-58 | the nested loops emit each stack's weight count times, in stack order; the list is as long as the plate count and sums to the per-side load |
| WeightCalculator.FlattenedAppend | frontend/src/components/workout/WeightCalculator.jsx:54-58 | flattening distributes over concatenation of stack lists |
| WeightCalculator.FlattenedLength | frontend/src/components/workout/WeightCalculator.jsx:54-58 | the flattened list has one element per plate |
| WeightCalculator.FlattenedSum | frontend/src/components/workout/WeightCalculator.jsx:54-58 | the flattened list sums to the load of the stacks |
| WeightCalculator.FlattenedCounts | frontend/src/components/workout/WeightCalculator.jsx:54-58 | with strictly descending stack weights, each weight occurs in the flattened list exactly as often as its stack's count |
| WeightCalculator.Label | frontend/src/components/workout/WeightCalculator.jsx:85-87 | no label exactly when the difference is 0; "-x kg" when under-loaded, "+x kg" with x > 0 when over-loaded |
| WeightCalculator.NeverOverLoaded | frontend/src/components/workout/WeightCalculator.jsx:85-87 | above the bar the green over-loaded label never appears |
| Text.DigitsValue | frontend/src/hooks/workoutHooks.js:173 | the decimal value of a digit run, as `parseInt` gives it; `NatToStringRoundTrip` makes it the inverse of `NatToString` |
| Text.LeadingDigits | frontend/src/hooks/workoutHooks.js:172 | the longest prefix of decimal digits, as `^(\d+)` captures |
| Text.NatToString | writeBack.py:10 | a non-empty run of digits with no leading zero, as Python's decimal formatting of an int |
| Text.NatToStringRoundTrip | writeBack.py:10 | the decimal numeral of a row number reads back as that number |
| WorkoutHooks.Lookup | frontend/src/hooks/workoutHooks.js:57-61 | property access: None exactly when no pair has the key, otherwise a value stored under it |
| WorkoutHooks.FindXDigit | frontend/src/hooks/workoutHooks.js:178 | the first position where `x\d` matches, and no match before it |
| WorkoutHooks.DayOf | frontend/src/hooks/workoutHooks.js:57-61 | `flaskData?.[selectedWeek]?.[selectedDay]`: nothing when the week or the day is missing; `Lookup` states its contract |
| WorkoutHooks.Falsy | frontend/src/hooks/workoutHooks.js:171 | a missing or empty scheme; `NoSchemeParsesToZero` states what it decides |
| WorkoutHooks.OrEmpty | frontend/src/hooks/workoutHooks.js:91-94 | a missing record field reads as ""; `EntryShape` states its use |
| WorkoutHooks.ParseSets | frontend/src/hooks/workoutHooks.js:170-174 | 0 for no scheme or "Rest", the leading digits when "x" follows them, 1 otherwise; its contract is in `NoSchemeParsesToZero` and `ParseSetsOfScheme` |
| WorkoutHooks.ParseReps | frontend/src/hooks/workoutHooks.js:176-180 | 0 for no scheme or "Rest", the digits after the first `x\d`, 1 otherwise; its contract is in `NoSchemeParsesToZero` and `ParseRepsOfScheme` |
| WorkoutHooks.NoSchemeParsesToZero | frontend/src/hooks/workoutHooks.js:170-180 | a missing, empty or "Rest" scheme has 0 sets and 0 reps |
| WorkoutHooks.ParseSchemeRoundTrip | frontend/src/hooks/workoutHooks.js:170-180 | "NxM" with digit runs N and M parses to N sets and M reps |
| WorkoutHooks.ParseSetsOfScheme | frontend/src/hooks/workoutHooks.js:170-174 | a digit run followed by "x" gives its value as the sets, whatever follows |
| WorkoutHooks.ParseRepsOfScheme | frontend/src/hooks/workoutHooks.js:176-180 | after a digit run and "x", the following digit run is the reps |
| WorkoutHooks.ParseNumeralScheme | frontend/src/hooks/workoutHooks.js:170-180 | the numerals of any two whole numbers joined by "x" parse back to those numbers |
| WorkoutHooks.MakeEntry | frontend/src/hooks/workoutHooks.js:69-103 | the entry built for one key; `EntryShape`, `EntryParsesScheme` and `EntryIdsDiffer` state its contract |
| WorkoutHooks.DayEntries | frontend/src/hooks/workoutHooks.js:56-107 | the memo as a value; `ConvertWorkout` is proved equal to it and states its shape |
| WorkoutHooks.ConvertWorkout | frontend/src/hooks/workoutHooks.js:56-107 | [] when the week or day is missing; otherwise one entry per key in key order, named after the key, with originalIndex its position; distinct keys give distinct ids |
| WorkoutHooks.EntryShape | frontend/src/hooks/workoutHooks.js:69-103 | a "Rest" key gives the rest entry (0 sets, 0 reps, "Rest", "Rest Day", id week-day-rest); other keys copy the record with "" for missing fields and seed the actual fields with the planned ones |
| WorkoutHooks.EntryParsesScheme | frontend/src/hooks/workoutHooks.js:95-97 | a non-rest key prescribed "NxM" gives an entry of N sets of M reps |
| WorkoutHooks.EntryIdsDiffer | frontend/src/hooks/workoutHooks.js:71-89 | entries at different positions have different ids unless both are rest entries |
| WorkoutHooks.Apply | frontend/src/hooks/workoutHooks.js:119 | the spread `{ ...exercise, ...updates }`: each field the update sets, else the entry's; `ApplyIdempotent` and `FindAfterUpdate` state its contract |
| WorkoutHooks.ApplyIdempotent | frontend/src/hooks/workoutHooks.js:119 | merging the same update twice is merging it once |
| WorkoutHooks.UpdateExercises | frontend/src/hooks/workoutHooks.js:115-123 | same length and order; entries with another id unchanged; entries with the id get the update's fields and keep the rest |
| WorkoutHooks.FindById | frontend/src/hooks/workoutHooks.js:126-128 | None exactly when no entry has the id; otherwise the first entry with it |
| WorkoutHooks.FindAfterUpdate | frontend/src/hooks/workoutHooks.js:115-128 | after an update that keeps the id, looking the id up gives the updated entry (or still nothing) |
| WorkoutHooks.FindOtherAfterUpdate | frontend/src/hooks/workoutHooks.js:115-128 | an update that sets no id, or sets the entry's own id as the app's updates do, does not change what other ids find |
| WorkoutHooks.UpdateAbsentId | frontend/src/hooks/workoutHooks.js:115-123 | updating an id no entry has changes nothing |
| WorkoutHooks.UpdateIdempotent | frontend/src/hooks/workoutHooks.js:115-123 | repeating an update that keeps the id changes nothing more |
| WorkoutHooks.WorkoutData.constructor | frontend/src/hooks/workoutHooks.js:52-112 | on the first render the memo holds the day's entries and the effect copies them into the local state |
| WorkoutHooks.WorkoutData.Select | frontend/src/hooks/workoutHooks.js:56-112 | a new selection recomputes the memo and resets the local copy to it |
| WorkoutHooks.WorkoutData.HandleExerciseUpdate | frontend/src/hooks/workoutHooks.js:115-123 | the local entries become the updated list; the memo is unchanged |
| WorkoutHooks.WorkoutData.GetExerciseById | frontend/src/hooks/workoutHooks.js:126-128 | nothing exactly when no local entry has the id; otherwise the first local entry with the id, as `find` returns |
| WorkoutHooks.WorkoutData.ResetExercises | frontend/src/hooks/workoutHooks.js:131-133 | the local entries become the memo again, which is unchanged |
| WorkoutHooks.IsBackdown | frontend/src/hooks/workoutHooks.js:151-153 | the three-way backdown test; `BackdownTagSubsumed`, `RestIsTopSet` and `CategoryExamples` state its contract |
| WorkoutHooks.TopSets | frontend/src/hooks/workoutHooks.js:149-161 | the top-set list as a value; `TopSetsMembers`, `CategoriesPartition` and `CategoriesKeepOrder` state its contract |
| WorkoutHooks.BackdownSets | frontend/src/hooks/workoutHooks.js:149-161 | the backdown list as a value; `BackdownSetsMembers`, `CategoriesPartition` and `CategoriesKeepOrder` state its contract |
| WorkoutHooks.BackdownTagSubsumed | frontend/src/hooks/workoutHooks.js:151-153 | an entry is a backdown exactly when its lower-cased name contains "backdown" or "back down"; the "(Backdown)" test adds nothing |
| WorkoutHooks.RestIsTopSet | frontend/src/hooks/workoutHooks.js:155-157 | "Rest" is not a backdown, so it goes to the top sets |
| WorkoutHooks.CategoryExamples | frontend/src/hooks/workoutHooks.js:149-160 | "Comp Squat" is a top set and "Comp Squat (Backdown)" a backdown |
| WorkoutHooks.Categorize | frontend/src/hooks/workoutHooks.js:144-164 | the loop's two lists together are a permutation of the input, the top sets hold only non-backdowns from the input and the backdown sets only backdowns |
| WorkoutHooks.CategoriesPartition | frontend/src/hooks/workoutHooks.js:149-163 | every entry lands in exactly one list: the multisets add up to the input's |
| WorkoutHooks.TopSetsMembers | frontend/src/hooks/workoutHooks.js:149-160 | an entry is in the top sets exactly when it is in the input and is not a backdown |
| WorkoutHooks.BackdownSetsMembers | frontend/src/hooks/workoutHooks.js:149-154 | an entry is in the backdown sets exactly when it is in the input and is a backdown |
| WorkoutHooks.CategoriesKeepOrder | frontend/src/hooks/workoutHooks.js:149-161 | input order is kept in each list: categorising a concatenation concatenates the results |
| WorkoutHooks.CountNonRest | frontend/src/hooks/workoutHooks.js:185 | at most the number of entries, and all of them exactly when none is "Rest" |
| WorkoutHooks.SumSets | frontend/src/hooks/workoutHooks.js:186 | the total is 0 exactly when every entry has 0 sets |
| WorkoutHooks.CountCompleted | frontend/src/hooks/workoutHooks.js:187 | at most the number of entries, and 0 exactly when no entry has an actual weight |
| WorkoutHooks.AnyRest | frontend/src/hooks/workoutHooks.js:188 | true exactly when some entry is named "Rest" |
| WorkoutHooks.RoundedPercentage | frontend/src/hooks/workoutHooks.js:194 | Math.round(100 c / t) in exact arithmetic: the nearest whole percentage, halves rounded up |
| WorkoutHooks.Stats | frontend/src/hooks/workoutHooks.js:183-199 | it is a rest day exactly when fewer exercises than entries are counted; no sets gives 0 percent; completed entries are at most all entries |
| WorkoutHooks.CompletionExtremes | frontend/src/hooks/workoutHooks.js:194 | as many completed entries as sets is 100 percent; none is 0 percent |
| WorkoutHooks.FreshEntriesCompletion | frontend/src/hooks/workoutHooks.js:99-101 | a freshly loaded entry counts as completed exactly when it is not the rest entry and the sheet already has a weight for it |
| WriteBack.ConvertToIndex | writeBack.py:8-10 | the reference's letter is the column (A = 1 ... Z = 26) and the rest is the row's decimal numeral, with no leading zero, which reads back as the row |
| WriteBack.A1RoundTrip | writeBack.py:8-10 | reading a reference back gives its (row, column) |
| WriteBack.LeftIsBlank | writeBack.py:14-20 | no non-empty row has a non-empty first cell; `DetectColOffset` is proved to decide it |
| WriteBack.DetectColOffset | writeBack.py:14-20 | the offset is 1 exactly when no non-empty row has a non-empty first cell |
| WriteBack.WeekCount | writeBack.py:29-35 | the number of week headers in a row; `ScanEnd` stops after the first row where it exceeds 1 |
| WriteBack.RowWeeks | writeBack.py:30-33 | the inner loop as a value; `RowWeeksSpec` states its contract |
| WriteBack.FoldRows | writeBack.py:27-33 | the outer loop as a value; `FoldRowsSpec` states its contract |
| WriteBack.ScanEnd | writeBack.py:27-36 | the header scan reads the rows up to and including the first with more than one week header, or all rows when there is none |
| WriteBack.FindWeekPositions | writeBack.py:24-36 | the nested loops, with their break, fill the dictionary of the scanned rows |
| WriteBack.RowWeeksSpec | writeBack.py:30-33 | within a row, each week header maps to its last column, and other keys are untouched |
| WriteBack.FoldRowsSpec | writeBack.py:27-33 | over a run of rows, the keys are the week headers of any row, each at its last occurrence in row order |
| WriteBack.WeekPositions | writeBack.py:24-36 | the dictionary as a value; `WeekPositionsSpec` states its contract and `FindWeekPositions` is proved equal to it |
| WriteBack.WeekPositionsSpec | writeBack.py:24-36 | weekPositions holds exactly the week headers of the scanned rows, each at the column of its last occurrence |
| WriteBack.WeekPositionsExample | writeBack.py:24-36 | a first row with "Week 1" and "Week 2" ends the scan and gives columns 0 and 1 |
| WriteBack.WeekStartCol | writeBack.py:23-39 | the week's header column when the week was found, else the fallback one right of the offset; `CoordinateSpec` states it |
| WriteBack.FieldJump | writeBack.py:45-50 | the jump added to the header's 0-based index to give the 1-based column number: 4 exactly for actual_rpe, 5 exactly for notes, 3 otherwise; the cell is jump - 1 columns right of the header |
| WriteBack.RowSearch | writeBack.py:56-73 | the row search as a value; `RowSearchFindsFirst` and `RowBeforeDayIgnored` state its contract |
| WriteBack.FindRowNumber | writeBack.py:56-73 | the loop with its sticky day flag and its break gives the row-search result, failing at the first non-empty row too short for the offset column |
| WriteBack.RowSearchFindsFirst | writeBack.py:56-73 | when rows reach the offset column, the search gives the 1-based number of the first row at or after the day's row whose lift and prescribed cells match, or 0 when none does |
| WriteBack.RowBeforeDayIgnored | writeBack.py:60-66 | a matching row above every day row is not chosen |
| WriteBack.Coordinate | writeBack.py:12-75 | findCoordinate as a value; `CoordinateSpec` states its contract |
| WriteBack.FindCoordinate | writeBack.py:12-75 | the coordinate of the field, day, week, lift and prescribed text in the sheet; the weight has no effect on it |
| WriteBack.CoordinateSpec | writeBack.py:38-75 | when every non-empty row reaches the offset column, the lookup fails only when the column passes Z; it names the field's column counted from the week's header (or the fallback), and the first candidate row (0 if none) |
| WriteBack.WeightColumnExample | writeBack.py:38-75 | with the header in column B, the weight for the lift in the third row is written to D3, two columns right of the header |
| WriteBack.RemoveAll | writeBack.py:84 | `str.replace(p, "")` never lengthens the name; `RemoveAllAbsent`, `RemoveAllSkipsFree` and `RemoveAllFirstOccurrence` state which characters it removes |
| WriteBack.RemoveAllAbsent | writeBack.py:84 | a name without the tag is left as it is |
| WriteBack.RemoveAllSkipsFree | writeBack.py:84 | characters before the first occurrence pass through untouched |
| WriteBack.RemoveAllFirstOccurrence | writeBack.py:84 | the first occurrence is removed, what precedes it is kept, and the rest is scanned after it |
| WriteBack.StripLeft | writeBack.py:84 | removes exactly the leading whitespace |
| WriteBack.StripRight | writeBack.py:84 | removes exactly the trailing whitespace |
| WriteBack.Strip | writeBack.py:84 | the result is the name with a whitespace-only prefix and a whitespace-only suffix removed, and it neither starts nor ends with whitespace |
| WriteBack.NormaliseLift | writeBack.py:84 | the lift name as looked up; `NormaliseLiftStripped`, `NormaliseUntagged` and `NormaliseBackdownName` state its contract |
| WriteBack.NormaliseLiftStripped | writeBack.py:84 | a normalised lift name has no surrounding whitespace |
| WriteBack.NormaliseUntagged | writeBack.py:84 | a stripped name without the tag is its own normalisation |
| WriteBack.NormaliseBackdownName | writeBack.py:84 | "<lift> (Backdown)" is looked up as "<lift>", the top set's name, for every stripped lift name without the tag, parentheses allowed |
| WriteBack.NormalisePausedBackdown | writeBack.py:84 | "Bench (Paused) (Backdown)" is looked up as "Bench (Paused)" |
| WriteBack.WriteCoordinate | writeBack.py:77-87 | writeData looks up the coordinate of the normalised exercise name |

## Left out

- Google identity and OAuth flow, the fetch calls to the Sheets API and the backend, the JSON download, and the Flask routes: these are I/O with external services. `parseData.py` is not part of this model.
- The Sheets write at writeBack.py:89-97 is a foreign API call. `WriteBack.WriteCoordinate` stops at the coordinate.
- React rendering, effect scheduling and the navigation hook (frontend/src/hooks/workoutHooks.js:4-49) depend on React's runtime. `WorkoutData` models the memo and the local state as two fields. Its constructor and `Select` play the part of the effect that copies the memo.
- Print statements in findCoordinate: console output only.
- IEEE floating point: weights are exact eighths of a kilogram, and `Math.round` is exact rounding of a rational.
- WeightCalculator.CalculatePlates: only targets that are whole quarter kilograms are modelled (`WholeQuarterKg`). Any other target makes the per-side weight a non-multiple of 1/8 kg, which the eighth-kilogram unit cannot represent. The input coercion `Number(v) || 0` belongs to the input field.
- Unicode: the model's `ToLower` maps only A-Z, while JavaScript's `toLowerCase` also lowers non-ASCII letters. The model's `Strip` removes only the ASCII characters for which `str.isspace()` holds, while Python's `strip()` also removes Unicode whitespace such as U+00A0.
- `WorkoutHooks.ParseSets` / `WorkoutHooks.ParseReps`: `parseInt` returns a double, so a digit run above 2^53 is rounded in JavaScript; the model's `DigitsValue` is exact.
- Object.keys order: a day is a sequence of pairs in the order `Object.keys` yields, with duplicate keys impossible. The model does not reorder integer-like keys; `DistinctKeys` is assumed only where ids are compared.
- WorkoutHooks.ExerciseUpdate: an update may set only the entry's own fields. Extra keys in an `updates` object, and keys explicitly set to `undefined`, are not modelled.
- WorkoutHooks.SumSets: `ex.sets || 0` for a missing `sets` cannot arise, because every entry's `sets` is a whole number here.
- WriteBack.FindCoordinate: every cell is a string, as the Sheets API returns values, so `isinstance(cell, str)` always holds.
- WriteBack.ConvertToIndex: Python's negative indexing for column 0 cannot be reached, because colNumber is at least 3. A column past Z is the `ColumnOutOfRange` failure rather than an unhandled exception.
