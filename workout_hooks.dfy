/**
 * The workout hooks, as plain functions and methods of their arguments:
 * parsing a prescribed scheme such as "3x5", turning the backend's nested
 * week -> day -> exercise -> {Prescribed, Weight, RPE, Notes} object into an
 * ordered list of exercise entries, updating and looking up entries by id,
 * splitting the list into top sets and backdown sets, and the day's
 * statistics.
 *
 * A JavaScript object is a sequence of (key, value) pairs in key order; a
 * missing property is None.
 */
module WorkoutHooks {
  import opened Wrappers
  import opened Text
  import opened Arithmetic

  // ------------------------------------------------------------ data model

  /** The backend's record for one exercise. */
  datatype ExerciseData = ExerciseData(
    prescribed: Option<string>,
    weight: Option<string>,
    rpe: Option<string>,
    notes: Option<string>)

  /** exercise name -> record, one day. */
  type Day = seq<(string, ExerciseData)>
  /** day label -> exercises, one week. */
  type Week = seq<(string, Day)>
  /** week label -> days: the object the backend returns. */
  type FlaskData = seq<(string, Week)>

  /** One entry of the exercise list. */
  datatype Exercise = Exercise(
    id: string,
    exercise: string,
    sets: nat,
    reps: nat,
    prescribed: string,
    weight: string,
    rpe: string,
    notes: string,
    actualWeight: string,
    actualRpe: string,
    actualNotes: string,
    originalIndex: nat)

  /** An object's keys are distinct. */
  predicate DistinctKeys<V>(pairs: seq<(string, V)>)
  {
    forall i, j :: 0 <= i < j < |pairs| ==> pairs[i].0 != pairs[j].0
  }

  /** Property access obj[key]: None when the key is missing. */
  function Lookup<V>(pairs: seq<(string, V)>, key: string): (r: Option<V>)
    ensures r.None? <==> forall i :: 0 <= i < |pairs| ==> pairs[i].0 != key
    ensures r.Some? ==> exists i :: 0 <= i < |pairs| && pairs[i] == (key, r.value)
  {
    if pairs == [] then None
    else if pairs[0].0 == key then Some(pairs[0].1)
    else Lookup(pairs[1..], key)
  }

  /** The selected day of the selected week, or None when either is missing (workoutHooks.js:57). */
  function DayOf(flaskData: FlaskData, selectedWeek: string, selectedDay: string): Option<Day>
  {
    match Lookup(flaskData, selectedWeek)
    case None => None
    case Some(week) => Lookup(week, selectedDay)
  }

  /** A string property, or the empty string when it is missing (workoutHooks.js:91-94). */
  function OrEmpty(value: Option<string>): string
  {
    match value
    case None => ""
    case Some(s) => s
  }

  /** `!prescribed`: missing or the empty string. */
  predicate Falsy(value: Option<string>)
  {
    value.None? || value.value == ""
  }

  // ------------------------------------------------------ scheme parsing

  /** parseSets: the digits of /^(\d+)x/, 1 when there is no such match, 0 for no scheme or "Rest". */
  function ParseSets(prescribed: Option<string>): nat
  {
    if Falsy(prescribed) || prescribed.value == "Rest" then 0
    else
      var s := prescribed.value;
      var digits := LeadingDigits(s);
      if |digits| > 0 && |digits| < |s| && s[|digits|] == 'x' then DigitsValue(digits) else 1
  }

  /** /x\d/ matches at position j. */
  predicate XDigitAt(s: string, j: int)
  {
    0 <= j && j + 1 < |s| && s[j] == 'x' && IsDigit(s[j + 1])
  }

  /** The first position at or after i holding an 'x' followed by a digit: where /x(\d+)/ matches. */
  function FindXDigit(s: string, i: nat): (k: Option<nat>)
    ensures k.Some? ==> i <= k.value && XDigitAt(s, k.value)
    ensures forall j :: i <= j < |s| && (k.None? || j < k.value) ==> !XDigitAt(s, j)
    decreases |s| - i
  {
    if i + 1 >= |s| then None
    else if s[i] == 'x' && IsDigit(s[i + 1]) then Some(i)
    else FindXDigit(s, i + 1)
  }

  /** parseReps: the digits of /x(\d+)/, 1 when there is no such match, 0 for no scheme or "Rest". */
  function ParseReps(prescribed: Option<string>): nat
  {
    if Falsy(prescribed) || prescribed.value == "Rest" then 0
    else
      var s := prescribed.value;
      match FindXDigit(s, 0)
      case None => 1
      case Some(k) => DigitsValue(LeadingDigits(s[k + 1..]))
  }

  /** Missing, empty and "Rest" schemes have neither sets nor reps. */
  lemma NoSchemeParsesToZero(prescribed: Option<string>)
    requires Falsy(prescribed) || prescribed == Some("Rest")
    ensures ParseSets(prescribed) == 0 && ParseReps(prescribed) == 0
  {
  }

  /** After a run of digits, the first 'x' followed by a digit is the one that ends the run. */
  lemma FindXAfterDigits(s: string, n: nat)
    requires XDigitAt(s, n)
    requires forall j :: 0 <= j < n ==> IsDigit(s[j])
    ensures FindXDigit(s, 0) == Some(n)
  {
  }

  /** A scheme "NxM" with decimal digit runs N and M parses to N sets of M reps. */
  lemma ParseSchemeRoundTrip(n: string, m: string)
    requires |n| > 0 && AllDigits(n) && |m| > 0 && AllDigits(m)
    ensures ParseSets(Some(n + "x" + m)) == DigitsValue(n)
    ensures ParseReps(Some(n + "x" + m)) == DigitsValue(m)
  {
    var s := n + "x" + m;
    ParseSetsOfScheme(n, m, s);
    ParseRepsOfScheme(n, m, s);
  }

  lemma ParseSetsOfScheme(n: string, m: string, s: string)
    requires |n| > 0 && AllDigits(n) && s == n + "x" + m
    ensures ParseSets(Some(s)) == DigitsValue(n)
  {
    SchemeRun(n, m, s);
    ParseSetsOfRun(s, n);
  }

  /** In "NxM", the leading digit run is N and the "x" follows it. */
  lemma SchemeRun(n: string, m: string, s: string)
    requires |n| > 0 && AllDigits(n) && s == n + "x" + m
    ensures LeadingDigits(s) == n && 0 < |n| < |s| && s[|n|] == 'x'
  {
    assert s[|n|] == 'x';
    assert forall j :: 0 <= j < |n| ==> s[j] == n[j];
    LeadingDigitsUpTo(s, |n|);
    assert s[..|n|] == n;
  }

  lemma ParseSetsOfRun(s: string, n: string)
    requires LeadingDigits(s) == n && 0 < |n| < |s| && s[|n|] == 'x'
    ensures ParseSets(Some(s)) == DigitsValue(n)
  {
    assert s != "Rest" by { assert IsDigit(s[0]) && !IsDigit('R'); }
  }

  lemma ParseRepsOfScheme(n: string, m: string, s: string)
    requires AllDigits(n) && |m| > 0 && AllDigits(m) && s == n + "x" + m
    ensures ParseReps(Some(s)) == DigitsValue(m)
  {
    assert s[|n|] == 'x' && s[|n| + 1] == m[0];
    assert forall j :: 0 <= j < |n| ==> s[j] == n[j];
    FindXAfterDigits(s, |n|);
    assert s[|n| + 1..] == m + [];
    LeadingDigitsOfDigits(m, []);
    ParseRepsOfMatch(s, |n|);
  }

  lemma ParseRepsOfMatch(s: string, k: nat)
    requires FindXDigit(s, 0) == Some(k) && (IsDigit(s[0]) || s[0] == 'x')
    ensures ParseReps(Some(s)) == DigitsValue(LeadingDigits(s[k + 1..]))
  {
    assert s != "Rest" by { assert s[0] != 'R'; }
  }

  /** The same for the numerals of whole numbers: "3x5" is 3 sets of 5 reps. */
  lemma ParseNumeralScheme(sets: nat, reps: nat)
    ensures ParseSets(Some(NatToString(sets) + "x" + NatToString(reps))) == sets
    ensures ParseReps(Some(NatToString(sets) + "x" + NatToString(reps))) == reps
  {
    ParseSchemeRoundTrip(NatToString(sets), NatToString(reps));
    NatToStringRoundTrip(sets);
    NatToStringRoundTrip(reps);
  }

  // ------------------------------------------------- building the entries

  /** The entry built for the exercise key `name` at position `index` of the day. */
  function MakeEntry(week: string, day: string, name: string, data: ExerciseData, index: nat): Exercise
  {
    if name == "Rest" then
      Exercise(week + "-" + day + "-rest", "Rest", 0, 0, "Rest", "", "", "Rest Day", "", "", "", index)
    else
      Exercise(
        week + "-" + day + "-" + name + "-" + NatToString(index),
        name,
        ParseSets(data.prescribed),
        ParseReps(data.prescribed),
        OrEmpty(data.prescribed),
        OrEmpty(data.weight),
        OrEmpty(data.rpe),
        OrEmpty(data.notes),
        OrEmpty(data.weight),
        OrEmpty(data.rpe),
        OrEmpty(data.notes),
        index)
  }

  /** The workoutExercises memo as a value: [] when the week or the day is missing. */
  function DayEntries(flaskData: FlaskData, selectedWeek: string, selectedDay: string): seq<Exercise>
  {
    match DayOf(flaskData, selectedWeek, selectedDay)
    case None => []
    case Some(day) =>
      seq(|day|, i requires 0 <= i < |day| => MakeEntry(selectedWeek, selectedDay, day[i].0, day[i].1, i))
  }

  /** The forEach over Object.keys(dayExercises) that pushes one entry per key. */
  method ConvertWorkout(flaskData: FlaskData, selectedWeek: string, selectedDay: string)
    returns (exercises: seq<Exercise>)
    ensures exercises == DayEntries(flaskData, selectedWeek, selectedDay)
    ensures DayOf(flaskData, selectedWeek, selectedDay).None? ==> exercises == []
    ensures DayOf(flaskData, selectedWeek, selectedDay).Some? ==>
              var day := DayOf(flaskData, selectedWeek, selectedDay).value;
              && |exercises| == |day|
              && forall i :: 0 <= i < |day| ==>
                   exercises[i].exercise == day[i].0 && exercises[i].originalIndex == i
    ensures DayOf(flaskData, selectedWeek, selectedDay).Some? &&
            DistinctKeys(DayOf(flaskData, selectedWeek, selectedDay).value) ==>
              forall i, j :: 0 <= i < j < |exercises| ==> exercises[i].id != exercises[j].id
  {
    var found := DayOf(flaskData, selectedWeek, selectedDay);
    if found.None? {
      return [];
    }
    var dayExercises := found.value;
    exercises := [];
    for index := 0 to |dayExercises|
      invariant |exercises| == index
      invariant forall i :: 0 <= i < index ==>
                  exercises[i] == MakeEntry(selectedWeek, selectedDay, dayExercises[i].0, dayExercises[i].1, i)
    {
      var (exerciseName, exerciseData) := dayExercises[index];
      if exerciseName == "Rest" {
        exercises := exercises + [Exercise(selectedWeek + "-" + selectedDay + "-rest", "Rest", 0, 0,
                                           "Rest", "", "", "Rest Day", "", "", "", index)];
      } else {
        exercises := exercises + [Exercise(
          selectedWeek + "-" + selectedDay + "-" + exerciseName + "-" + NatToString(index),
          exerciseName,
          ParseSets(exerciseData.prescribed),
          ParseReps(exerciseData.prescribed),
          OrEmpty(exerciseData.prescribed),
          OrEmpty(exerciseData.weight),
          OrEmpty(exerciseData.rpe),
          OrEmpty(exerciseData.notes),
          OrEmpty(exerciseData.weight),
          OrEmpty(exerciseData.rpe),
          OrEmpty(exerciseData.notes),
          index)];
      }
    }
    if DistinctKeys(dayExercises) {
      forall i, j | 0 <= i < j < |exercises|
        ensures exercises[i].id != exercises[j].id
      {
        EntryIdsDiffer(selectedWeek, selectedDay, dayExercises[i].0, dayExercises[i].1, i,
                       dayExercises[j].0, dayExercises[j].1, j);
      }
    }
  }

  /**
   * The shape of an entry: a "Rest" key gives a rest entry with no sets or
   * reps; any other key copies the record's fields (missing ones as ""),
   * seeds the actual-performance fields with the planned ones and parses the
   * scheme.
   */
  lemma EntryShape(week: string, day: string, name: string, data: ExerciseData, index: nat)
    ensures var e := MakeEntry(week, day, name, data, index);
            && e.exercise == name && e.originalIndex == index
            && (name == "Rest" ==>
                  && e.id == week + "-" + day + "-rest"
                  && e.sets == 0 && e.reps == 0 && e.prescribed == "Rest" && e.notes == "Rest Day"
                  && e.weight == "" && e.rpe == "" && e.actualWeight == "" && e.actualRpe == "" && e.actualNotes == "")
            && (name != "Rest" ==>
                  && e.prescribed == OrEmpty(data.prescribed) && e.weight == OrEmpty(data.weight)
                  && e.rpe == OrEmpty(data.rpe) && e.notes == OrEmpty(data.notes)
                  && e.actualWeight == e.weight && e.actualRpe == e.rpe && e.actualNotes == e.notes
                  && e.sets == ParseSets(data.prescribed) && e.reps == ParseReps(data.prescribed))
  {
  }

  /** A prescribed "NxM" on a non-rest key gives an entry of N sets of M reps. */
  lemma EntryParsesScheme(week: string, day: string, name: string, data: ExerciseData, index: nat, sets: nat, reps: nat)
    requires name != "Rest"
    requires data.prescribed == Some(NatToString(sets) + "x" + NatToString(reps))
    ensures MakeEntry(week, day, name, data, index).sets == sets
    ensures MakeEntry(week, day, name, data, index).reps == reps
  {
    ParseNumeralScheme(sets, reps);
  }

  /**
   * Entries at different positions have different ids unless both are rest
   * entries: a regular id ends in "-" and its position's numeral, a rest id in "rest".
   */
  lemma EntryIdsDiffer(week: string, day: string, n1: string, d1: ExerciseData, i: nat,
                       n2: string, d2: ExerciseData, j: nat)
    requires i != j && !(n1 == "Rest" && n2 == "Rest")
    ensures MakeEntry(week, day, n1, d1, i).id != MakeEntry(week, day, n2, d2, j).id
  {
    var id1 := MakeEntry(week, day, n1, d1, i).id;
    var id2 := MakeEntry(week, day, n2, d2, j).id;
    if n1 != "Rest" {
      TrailingDigitsOfDigits(week + "-" + day + "-" + n1 + "-", NatToString(i));
    } else {
      assert TrailingDigits(id1) == [];
    }
    if n2 != "Rest" {
      TrailingDigitsOfDigits(week + "-" + day + "-" + n2 + "-", NatToString(j));
    } else {
      assert TrailingDigits(id2) == [];
    }
    if id1 == id2 {
      if n1 != "Rest" && n2 != "Rest" {
        NatToStringInjective(i, j);
      }
    }
  }

  // ------------------------------------------------- update and lookup

  /** An `updates` object: the entry properties it sets. */
  datatype ExerciseUpdate = ExerciseUpdate(
    id: Option<string>,
    exercise: Option<string>,
    sets: Option<nat>,
    reps: Option<nat>,
    prescribed: Option<string>,
    weight: Option<string>,
    rpe: Option<string>,
    notes: Option<string>,
    actualWeight: Option<string>,
    actualRpe: Option<string>,
    actualNotes: Option<string>,
    originalIndex: Option<nat>)

  function Override<T>(update: Option<T>, current: T): T
  {
    match update
    case None => current
    case Some(v) => v
  }

  /** The entry with every field the update sets replaced by the update's value (workoutHooks.js:119). */
  function Apply(e: Exercise, u: ExerciseUpdate): Exercise
  {
    Exercise(
      Override(u.id, e.id),
      Override(u.exercise, e.exercise),
      Override(u.sets, e.sets),
      Override(u.reps, e.reps),
      Override(u.prescribed, e.prescribed),
      Override(u.weight, e.weight),
      Override(u.rpe, e.rpe),
      Override(u.notes, e.notes),
      Override(u.actualWeight, e.actualWeight),
      Override(u.actualRpe, e.actualRpe),
      Override(u.actualNotes, e.actualNotes),
      Override(u.originalIndex, e.originalIndex))
  }

  /** Applying the same update twice is applying it once. */
  lemma ApplyIdempotent(e: Exercise, u: ExerciseUpdate)
    ensures Apply(Apply(e, u), u) == Apply(e, u)
  {
  }

  /** The map in handleExerciseUpdate: entries with the id get the update, the others stay. */
  function UpdateExercises(exercises: seq<Exercise>, exerciseId: string, u: ExerciseUpdate): (r: seq<Exercise>)
    ensures |r| == |exercises|
    ensures forall i :: 0 <= i < |exercises| && exercises[i].id != exerciseId ==> r[i] == exercises[i]
    ensures forall i :: 0 <= i < |exercises| && exercises[i].id == exerciseId ==> r[i] == Apply(exercises[i], u)
  {
    seq(|exercises|, i requires 0 <= i < |exercises| =>
      if exercises[i].id == exerciseId then Apply(exercises[i], u) else exercises[i])
  }

  /** The find in getExerciseById: the first entry with the id. */
  function FindById(exercises: seq<Exercise>, exerciseId: string): (r: Option<Exercise>)
    ensures r.None? <==> forall i :: 0 <= i < |exercises| ==> exercises[i].id != exerciseId
    ensures r.Some? ==> r.value.id == exerciseId
    ensures r.Some? ==>
              exists i :: 0 <= i < |exercises| && exercises[i] == r.value &&
                (forall j :: 0 <= j < i ==> exercises[j].id != exerciseId)
  {
    if exercises == [] then None
    else if exercises[0].id == exerciseId then Some(exercises[0])
    else
      var r := FindById(exercises[1..], exerciseId);
      assert r.Some? ==>
               exists i :: 0 <= i < |exercises[1..]| && exercises[1..][i] == r.value &&
                 (forall j :: 0 <= j < i ==> exercises[1..][j].id != exerciseId);
      r
  }

  /** Looking an entry up after updating it finds the updated entry, when the update keeps the id. */
  lemma {:induction false} FindAfterUpdate(exercises: seq<Exercise>, exerciseId: string, u: ExerciseUpdate)
    requires u.id.None? || u.id == Some(exerciseId)
    ensures FindById(UpdateExercises(exercises, exerciseId, u), exerciseId) ==
              match FindById(exercises, exerciseId)
              case None => None
              case Some(e) => Some(Apply(e, u))
  {
    if exercises != [] {
      var rest := exercises[1..];
      assert UpdateExercises(exercises, exerciseId, u)[1..] == UpdateExercises(rest, exerciseId, u);
      FindAfterUpdate(rest, exerciseId, u);
    }
  }

  /** Updating an id that no entry has changes nothing. */
  lemma UpdateAbsentId(exercises: seq<Exercise>, exerciseId: string, u: ExerciseUpdate)
    requires FindById(exercises, exerciseId).None?
    ensures UpdateExercises(exercises, exerciseId, u) == exercises
  {
  }

  /** Entries with other ids are found unchanged after an update that keeps ids. */
  lemma {:induction false} FindOtherAfterUpdate(exercises: seq<Exercise>, exerciseId: string, otherId: string, u: ExerciseUpdate)
    requires (u.id.None? || u.id == Some(exerciseId)) && otherId != exerciseId
    ensures FindById(UpdateExercises(exercises, exerciseId, u), otherId) == FindById(exercises, otherId)
  {
    if exercises != [] {
      var rest := exercises[1..];
      assert UpdateExercises(exercises, exerciseId, u)[1..] == UpdateExercises(rest, exerciseId, u);
      FindOtherAfterUpdate(rest, exerciseId, otherId, u);
    }
  }

  /** Repeating an update that keeps the id changes nothing more. */
  lemma UpdateIdempotent(exercises: seq<Exercise>, exerciseId: string, u: ExerciseUpdate)
    requires u.id.None? || u.id == Some(exerciseId)
    ensures UpdateExercises(UpdateExercises(exercises, exerciseId, u), exerciseId, u)
            == UpdateExercises(exercises, exerciseId, u)
  {
    var once := UpdateExercises(exercises, exerciseId, u);
    var twice := UpdateExercises(once, exerciseId, u);
    forall i | 0 <= i < |exercises|
      ensures twice[i] == once[i]
    {
      if exercises[i].id == exerciseId {
        ApplyIdempotent(exercises[i], u);
      }
    }
  }

  /**
   * The state of useWorkoutData: the memoised conversion of the selected day
   * and the local, editable copy that the effect resets to it.
   */
  class WorkoutData {
    var workoutExercises: seq<Exercise>
    var localExercises: seq<Exercise>

    /** The first render: the memo is computed and the effect copies it into the local state. */
    constructor (flaskData: FlaskData, selectedWeek: string, selectedDay: string)
      ensures workoutExercises == DayEntries(flaskData, selectedWeek, selectedDay)
      ensures localExercises == workoutExercises
    {
      var converted := ConvertWorkout(flaskData, selectedWeek, selectedDay);
      workoutExercises := converted;
      localExercises := converted;
    }

    /** A new selection or new data: the memo is recomputed and the effect resets the local state. */
    method Select(flaskData: FlaskData, selectedWeek: string, selectedDay: string)
      modifies this
      ensures workoutExercises == DayEntries(flaskData, selectedWeek, selectedDay)
      ensures localExercises == workoutExercises
    {
      var converted := ConvertWorkout(flaskData, selectedWeek, selectedDay);
      workoutExercises := converted;
      localExercises := converted;
    }

    method HandleExerciseUpdate(exerciseId: string, updates: ExerciseUpdate)
      modifies this
      ensures localExercises == UpdateExercises(old(localExercises), exerciseId, updates)
      ensures workoutExercises == old(workoutExercises)
    {
      localExercises := UpdateExercises(localExercises, exerciseId, updates);
    }

    function GetExerciseById(exerciseId: string): (r: Option<Exercise>)
      reads this
      ensures r.None? <==> forall i :: 0 <= i < |localExercises| ==> localExercises[i].id != exerciseId
      ensures r.Some? ==> r.value.id == exerciseId
      ensures r.Some? ==>
                exists i :: 0 <= i < |localExercises| && localExercises[i] == r.value &&
                  (forall j :: 0 <= j < i ==> localExercises[j].id != exerciseId)
    {
      FindById(localExercises, exerciseId)
    }

    /** Back to the prescribed values: the local copy is the memo again. */
    method ResetExercises()
      modifies this
      ensures localExercises == workoutExercises
      ensures workoutExercises == old(workoutExercises)
    {
      localExercises := workoutExercises;
    }
  }

  // ------------------------------------------------------ categorisation

  /** The backdown test: "backdown" or "back down" in the lower-cased name, or "(Backdown)" in the name. */
  predicate IsBackdown(name: string)
  {
    || Contains(ToLower(name), "backdown")
    || Contains(ToLower(name), "back down")
    || Contains(name, "(Backdown)")
  }

  /** The "(Backdown)" test adds nothing: such a name already contains "backdown" once lower-cased. */
  lemma BackdownTagSubsumed(name: string)
    ensures IsBackdown(name) <==> Contains(ToLower(name), "backdown") || Contains(ToLower(name), "back down")
  {
    if Contains(name, "(Backdown)") {
      var i :| 0 <= i <= |name| - 10 && OccursAt(name, "(Backdown)", i);
      var lower := ToLower(name);
      assert name[i..i + 10] == "(Backdown)";
      assert name[i + 1..i + 9] == name[i..i + 10][1..9];
      assert "(Backdown)"[1..9] == "Backdown";
      ToLowerSlice(name, i + 1, i + 9);
      assert ToLower("Backdown") == "backdown";
      assert OccursAt(lower, "backdown", i + 1);
    }
  }

  /** "Rest" goes to the top sets. */
  lemma RestIsTopSet()
    ensures !IsBackdown("Rest")
  {
    assert |ToLower("Rest")| == 4;
  }

  /** A plain lift goes to the top sets, its "(Backdown)" variant to the backdown sets. */
  lemma CategoryExamples()
    ensures !IsBackdown("Comp Squat")
    ensures IsBackdown("Comp Squat (Backdown)")
  {
    var plain := "Comp Squat";
    var lower := ToLower(plain);
    assert forall i :: 0 <= i < |plain| ==> plain[i] != 'b' && plain[i] != 'B' && plain[i] != '(';
    assert "backdown"[0] == 'b' && "back down"[0] == 'b';
    forall i | 0 <= i < |lower|
      ensures lower[i] != 'b'
    {
      assert lower[i] == LowerChar(plain[i]);
    }
    forall i | 0 <= i <= |lower| - 8
      ensures !OccursAt(lower, "backdown", i) && !OccursAt(lower, "back down", i)
    {
      assert lower[i..i + 8][0] == lower[i];
      if i + 9 <= |lower| {
        assert lower[i..i + 9][0] == lower[i];
      }
    }
    forall i | 0 <= i <= |plain| - 10
      ensures !OccursAt(plain, "(Backdown)", i)
    {
      assert plain[i..i + 10][0] == plain[i] != '(';
    }
    var tagged := "Comp Squat (Backdown)";
    assert OccursAt(tagged, "(Backdown)", 11);
  }

  /** The top sets in input order: every entry that is not a backdown. */
  function TopSets(exercises: seq<Exercise>): seq<Exercise>
  {
    if exercises == [] then []
    else
      var last := exercises[|exercises| - 1];
      TopSets(exercises[..|exercises| - 1]) + (if IsBackdown(last.exercise) then [] else [last])
  }

  /** The backdown sets in input order. */
  function BackdownSets(exercises: seq<Exercise>): seq<Exercise>
  {
    if exercises == [] then []
    else
      var last := exercises[|exercises| - 1];
      BackdownSets(exercises[..|exercises| - 1]) + (if IsBackdown(last.exercise) then [last] else [])
  }

  /** useExerciseCategorization: one pass that pushes each entry into one of two lists. */
  method Categorize(exercises: seq<Exercise>) returns (topSets: seq<Exercise>, backdownSets: seq<Exercise>)
    ensures topSets == TopSets(exercises) && backdownSets == BackdownSets(exercises)
    ensures multiset(topSets) + multiset(backdownSets) == multiset(exercises)
    ensures forall e :: e in topSets ==> e in exercises && !IsBackdown(e.exercise)
    ensures forall e :: e in backdownSets ==> e in exercises && IsBackdown(e.exercise)
  {
    var top: seq<Exercise> := [];
    var backdown: seq<Exercise> := [];
    for k := 0 to |exercises|
      invariant top == TopSets(exercises[..k]) && backdown == BackdownSets(exercises[..k])
    {
      var exercise := exercises[k];
      assert exercises[..k + 1][..k] == exercises[..k];
      if Contains(ToLower(exercise.exercise), "backdown")
         || Contains(ToLower(exercise.exercise), "back down")
         || Contains(exercise.exercise, "(Backdown)") {
        backdown := backdown + [exercise];
      } else if exercise.exercise == "Rest" {
        top := top + [exercise];
      } else {
        top := top + [exercise];
      }
    }
    assert exercises[..|exercises|] == exercises;
    topSets, backdownSets := top, backdown;
    CategoriesPartition(exercises);
    forall e | e in topSets ensures e in exercises && !IsBackdown(e.exercise) {
      TopSetsMembers(exercises, e);
    }
    forall e | e in backdownSets ensures e in exercises && IsBackdown(e.exercise) {
      BackdownSetsMembers(exercises, e);
    }
  }

  /** Every entry lands in exactly one of the two lists. */
  lemma {:induction false} CategoriesPartition(exercises: seq<Exercise>)
    ensures multiset(TopSets(exercises)) + multiset(BackdownSets(exercises)) == multiset(exercises)
    ensures |TopSets(exercises)| + |BackdownSets(exercises)| == |exercises|
  {
    if exercises != [] {
      var init := exercises[..|exercises| - 1];
      var last := exercises[|exercises| - 1];
      CategoriesPartition(init);
      assert exercises == init + [last];
      assert multiset(exercises) == multiset(init) + multiset{last};
      if IsBackdown(last.exercise) {
        assert TopSets(exercises) == TopSets(init) + [];
        assert BackdownSets(exercises) == BackdownSets(init) + [last];
      } else {
        assert TopSets(exercises) == TopSets(init) + [last];
        assert BackdownSets(exercises) == BackdownSets(init) + [];
      }
    }
  }

  lemma {:induction false} TopSetsMembers(exercises: seq<Exercise>, e: Exercise)
    ensures e in TopSets(exercises) <==> e in exercises && !IsBackdown(e.exercise)
  {
    if exercises != [] {
      var init := exercises[..|exercises| - 1];
      TopSetsMembers(init, e);
      assert exercises == init + [exercises[|exercises| - 1]];
    }
  }

  lemma {:induction false} BackdownSetsMembers(exercises: seq<Exercise>, e: Exercise)
    ensures e in BackdownSets(exercises) <==> e in exercises && IsBackdown(e.exercise)
  {
    if exercises != [] {
      var init := exercises[..|exercises| - 1];
      BackdownSetsMembers(init, e);
      assert exercises == init + [exercises[|exercises| - 1]];
    }
  }

  /** Input order is kept within each list: categorising a concatenation concatenates the results. */
  lemma CategoriesKeepOrder(a: seq<Exercise>, b: seq<Exercise>)
    ensures TopSets(a + b) == TopSets(a) + TopSets(b)
    ensures BackdownSets(a + b) == BackdownSets(a) + BackdownSets(b)
  {
    TopSetsAppend(a, b);
    BackdownSetsAppend(a, b);
  }

  lemma {:induction false} TopSetsAppend(a: seq<Exercise>, b: seq<Exercise>)
    ensures TopSets(a + b) == TopSets(a) + TopSets(b)
    decreases |b|
  {
    if b == [] {
      assert a + b == a;
    } else {
      var init, last := b[..|b| - 1], b[|b| - 1];
      var tail := if IsBackdown(last.exercise) then [] else [last];
      assert TopSets(a + init) == TopSets(a) + TopSets(init) by {
        TopSetsAppend(a, init);
      }
      assert (a + b)[..|a + b| - 1] == a + init && (a + b)[|a + b| - 1] == last;
      assert TopSets(a + b) == TopSets(a + init) + tail;
      assert TopSets(b) == TopSets(init) + tail;
      assert (TopSets(a) + TopSets(init)) + tail == TopSets(a) + (TopSets(init) + tail);
    }
  }

  lemma {:induction false} BackdownSetsAppend(a: seq<Exercise>, b: seq<Exercise>)
    ensures BackdownSets(a + b) == BackdownSets(a) + BackdownSets(b)
    decreases |b|
  {
    if b == [] {
      assert a + b == a;
    } else {
      var init, last := b[..|b| - 1], b[|b| - 1];
      var tail := if IsBackdown(last.exercise) then [last] else [];
      assert BackdownSets(a + init) == BackdownSets(a) + BackdownSets(init) by {
        BackdownSetsAppend(a, init);
      }
      assert (a + b)[..|a + b| - 1] == a + init && (a + b)[|a + b| - 1] == last;
      assert BackdownSets(a + b) == BackdownSets(a + init) + tail;
      assert BackdownSets(b) == BackdownSets(init) + tail;
      assert (BackdownSets(a) + BackdownSets(init)) + tail == BackdownSets(a) + (BackdownSets(init) + tail);
    }
  }

  // -------------------------------------------------------------- stats

  datatype WorkoutStats = WorkoutStats(
    totalExercises: nat,
    totalSets: nat,
    completedSets: nat,
    completionPercentage: nat,
    isRestDay: bool)

  /** The number of entries not named "Rest" (workoutHooks.js:185). */
  function CountNonRest(exercises: seq<Exercise>): (n: nat)
    ensures n <= |exercises|
    ensures n == |exercises| <==> forall i :: 0 <= i < |exercises| ==> exercises[i].exercise != "Rest"
  {
    if exercises == [] then 0
    else (if exercises[0].exercise != "Rest" then 1 else 0) + CountNonRest(exercises[1..])
  }

  /** The sum of the entries' set counts (workoutHooks.js:186). */
  function SumSets(exercises: seq<Exercise>): (n: nat)
    ensures n == 0 <==> forall i :: 0 <= i < |exercises| ==> exercises[i].sets == 0
  {
    if exercises == [] then 0 else exercises[0].sets + SumSets(exercises[1..])
  }

  /** The number of entries with a non-empty actual weight (workoutHooks.js:187). */
  function CountCompleted(exercises: seq<Exercise>): (n: nat)
    ensures n <= |exercises|
    ensures n == 0 <==> forall i :: 0 <= i < |exercises| ==> exercises[i].actualWeight == ""
  {
    if exercises == [] then 0
    else (if exercises[0].actualWeight != "" then 1 else 0) + CountCompleted(exercises[1..])
  }

  /** Whether some entry is named "Rest" (workoutHooks.js:188). */
  function AnyRest(exercises: seq<Exercise>): (b: bool)
    ensures b <==> exists i :: 0 <= i < |exercises| && exercises[i].exercise == "Rest"
  {
    if exercises == [] then false
    else exercises[0].exercise == "Rest" || AnyRest(exercises[1..])
  }

  /**
   * Before anything is logged, an entry of a freshly loaded day counts as
   * completed exactly when it is not the rest entry and the sheet already
   * holds a weight for it: the actual weight starts as the planned one.
   */
  lemma FreshEntriesCompletion(flaskData: FlaskData, selectedWeek: string, selectedDay: string)
    ensures var entries := DayEntries(flaskData, selectedWeek, selectedDay);
            forall i :: 0 <= i < |entries| ==>
              (entries[i].actualWeight != "" <==> entries[i].exercise != "Rest" && entries[i].weight != "")
  {
  }

  /** Math.round((completed / total) * 100) in exact arithmetic: halves round up. */
  function RoundedPercentage(completed: nat, total: nat): (p: nat)
    requires total > 0
    ensures 2 * total * p <= 200 * completed + total < 2 * total * (p + 1)
  {
    (200 * completed + total) / (2 * total)
  }

  /** As many completed entries as sets is 100 percent; no completed entry is 0 percent. */
  lemma CompletionExtremes(exercises: seq<Exercise>)
    requires Stats(exercises).totalSets > 0
    ensures Stats(exercises).completedSets == Stats(exercises).totalSets ==> Stats(exercises).completionPercentage == 100
    ensures Stats(exercises).completedSets == 0 ==> Stats(exercises).completionPercentage == 0
  {
    var t := Stats(exercises).totalSets;
    DivUnique(200 * t + t, 2 * t, 100, t);
    DivUnique(t, 2 * t, 0, t);
  }

  function Stats(exercises: seq<Exercise>): (s: WorkoutStats)
    ensures s.isRestDay <==> s.totalExercises < |exercises|
    ensures s.totalSets == 0 ==> s.completionPercentage == 0
    ensures s.completedSets <= |exercises|
  {
    var totalExercises := CountNonRest(exercises);
    var totalSets := SumSets(exercises);
    var completedSets := CountCompleted(exercises);
    WorkoutStats(
      totalExercises,
      totalSets,
      completedSets,
      if totalSets > 0 then RoundedPercentage(completedSets, totalSets) else 0,
      AnyRest(exercises))
  }
}
