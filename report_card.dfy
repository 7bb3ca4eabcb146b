/**
 * The report card itself: a record built once from a student's name, grade,
 * courses, quarterly scores and attendance, with the lookup of a course's
 * scores, its letter grade, the grade-point average and the attendance lines
 * of its text. The value-level functions below specify what the methods of
 * the class compute; Java's exceptions are the error side of a Result.
 */
module ReportCards {
  import opened Grading
  import opened NameCheck
  import opened Attendance

  /** A reference that may be null: a field the constructor leaves unset. */
  datatype Option<T> = None | Some(value: T)

  /** The runtime exceptions a lookup can raise. */
  datatype Exception = NullPointer | IndexOutOfBounds

  datatype Result<T> = Ok(value: T) | Err(error: Exception)

  /** i is the first position of x in s. */
  predicate IsFirstIndex(s: seq<string>, x: string, i: int)
  {
    0 <= i < |s| && s[i] == x && forall j :: 0 <= j < i ==> s[j] != x
  }

  /** List.indexOf: the first position of x in s, or -1 when x is absent. */
  function IndexOf(s: seq<string>, x: string): (i: int)
    ensures i == -1 <==> x !in s
    ensures i != -1 ==> IsFirstIndex(s, x, i)
  {
    if s == [] then -1
    else if s[0] == x then 0
    else
      var k := IndexOf(s[1..], x);
      if k == -1 then -1 else k + 1
  }

  /**
   * The scores mappedScores returns for a course title: the first four scores
   * of the course's list, found at the first position of the title. Unset
   * scores raise a NullPointerException; an absent title (index -1), a
   * position past the score lists, or a list shorter than four raise an
   * IndexOutOfBoundsException.
   */
  function Lookup(courses: seq<string>, scores: Option<seq<seq<real>>>, title: string): (r: Result<seq<real>>)
    ensures scores.None? ==> r == Err(NullPointer)
    ensures scores.Some? && r.Err? ==> r.error == IndexOutOfBounds
    ensures r.Ok? <==>
      scores.Some? && exists i :: IsFirstIndex(courses, title, i) && i < |scores.value| && |scores.value[i]| >= 4
    ensures forall i :: r.Ok? && IsFirstIndex(courses, title, i) ==> |r.value| == 4 && r.value == scores.value[i][..4]
  {
    if scores.None? then Err(NullPointer)
    else
      var position := IndexOf(courses, title);
      if position < 0 || position >= |scores.value| then Err(IndexOutOfBounds)
      else if |scores.value[position]| < 4 then Err(IndexOutOfBounds)
      else Ok(scores.value[position][..4])
  }

  /** The letter grade of a course: its scores, their rounded average, the letter for it. */
  function CourseLetter(courses: seq<string>, scores: Option<seq<seq<real>>>, title: string): Result<Letter>
  {
    match Lookup(courses, scores, title)
    case Err(e) => Err(e)
    case Ok(quarters) => Ok(LetterGrade(CourseAverage(quarters)))
  }

  /**
   * The grade points of a run of courses; the first course whose letter
   * grade raises an exception ends the sum with it.
   */
  function Points(courses: seq<string>, scores: Option<seq<seq<real>>>, titles: seq<string>): Result<int>
  {
    if titles == [] then Ok(0)
    else
      match CourseLetter(courses, scores, titles[0])
      case Err(e) => Err(e)
      case Ok(l) =>
        match Points(courses, scores, titles[1..])
        case Err(e) => Err(e)
        case Ok(sum) => Ok(GradePoints(l) + sum)
  }

  /** The grade-point average: the grade points of all courses over the number of courses. */
  function Gpa(courses: seq<string>, scores: Option<seq<seq<real>>>): Result<Float>
  {
    match Points(courses, scores, courses)
    case Err(e) => Err(e)
    case Ok(sum) => Ok(Quotient(sum, |courses|))
  }

  /** Some list of scores has exactly one score per quarter. */
  predicate HasFullYear(lists: seq<seq<real>>)
  {
    exists i :: 0 <= i < |lists| && |lists[i]| == 4
  }

  /** The data a caller is expected to hand over: distinct titles, each with exactly four scores. */
  predicate WellFormed(courses: seq<string>, scores: seq<seq<real>>)
  {
    && |scores| == |courses|
    && (forall i, j :: 0 <= i < j < |courses| ==> courses[i] != courses[j])
    && (forall i :: 0 <= i < |scores| ==> |scores[i]| == 4)
  }

  /**
   * The grade points of two runs of courses: those of the first run, then
   * those of the second; an exception in the first run is the one raised.
   */
  lemma {:induction false} PointsAppend(courses: seq<string>, scores: Option<seq<seq<real>>>, front: seq<string>, back: seq<string>)
    ensures Points(courses, scores, front + back) ==
      match Points(courses, scores, front)
      case Err(e) => Err(e)
      case Ok(s) =>
        match Points(courses, scores, back)
        case Err(e) => Err(e)
        case Ok(t) => Ok(s + t)
  {
    if front == [] {
      assert front + back == back;
    } else {
      assert (front + back)[0] == front[0];
      assert (front + back)[1..] == front[1..] + back;
      PointsAppend(courses, scores, front[1..], back);
    }
  }

  /** One more course adds its grade points at the end, or raises its exception. */
  lemma PointsSnoc(courses: seq<string>, scores: Option<seq<seq<real>>>, titles: seq<string>, k: nat)
    requires k < |titles|
    ensures Points(courses, scores, titles[..k + 1]) ==
      match Points(courses, scores, titles[..k])
      case Err(e) => Err(e)
      case Ok(sum) =>
        match CourseLetter(courses, scores, titles[k])
        case Err(e) => Err(e)
        case Ok(l) => Ok(sum + GradePoints(l))
  {
    assert titles[..k + 1] == titles[..k] + [titles[k]];
    PointsAppend(courses, scores, titles[..k], [titles[k]]);
    assert [titles[k]][1..] == [];
  }

  /** Once a run of courses raises an exception, every longer run starting with it raises the same one. */
  lemma PointsErrorPersists(courses: seq<string>, scores: Option<seq<seq<real>>>, titles: seq<string>, k: nat)
    requires k <= |titles|
    requires Points(courses, scores, titles[..k]).Err?
    ensures Points(courses, scores, titles) == Points(courses, scores, titles[..k])
  {
    assert titles == titles[..k] + titles[k..];
    PointsAppend(courses, scores, titles[..k], titles[k..]);
  }

  /** The grade-point sum of n courses lies between 0 and 4 * n. */
  lemma {:induction false} PointsBounds(courses: seq<string>, scores: Option<seq<seq<real>>>, titles: seq<string>)
    requires Points(courses, scores, titles).Ok?
    ensures 0 <= Points(courses, scores, titles).value <= 4 * |titles|
  {
    if titles != [] {
      PointsBounds(courses, scores, titles[1..]);
    }
  }

  /** When every course earns an A, the grade-point sum is 4 per course. */
  lemma {:induction false} PointsAllA(courses: seq<string>, scores: Option<seq<seq<real>>>, titles: seq<string>)
    requires forall i :: 0 <= i < |titles| ==> CourseLetter(courses, scores, titles[i]) == Ok(A)
    ensures Points(courses, scores, titles) == Ok(4 * |titles|)
  {
    if titles != [] {
      PointsAllA(courses, scores, titles[1..]);
    }
  }

  /** When every course earns an F, the grade-point sum is 0. */
  lemma {:induction false} PointsAllF(courses: seq<string>, scores: Option<seq<seq<real>>>, titles: seq<string>)
    requires forall i :: 0 <= i < |titles| ==> CourseLetter(courses, scores, titles[i]) == Ok(F)
    ensures Points(courses, scores, titles) == Ok(0)
  {
    if titles != [] {
      PointsAllF(courses, scores, titles[1..]);
    }
  }

  /** The grade-point average of a non-empty course list lies in [0, 4]; with no courses it is NaN. */
  lemma GpaRange(courses: seq<string>, scores: Option<seq<seq<real>>>)
    requires Gpa(courses, scores).Ok?
    ensures |courses| == 0 ==> Gpa(courses, scores).value == NaN
    ensures |courses| > 0 ==>
      Gpa(courses, scores).value.Num? && 0.0 <= Gpa(courses, scores).value.value <= 4.0
  {
    PointsBounds(courses, scores, courses);
    if |courses| > 0 {
      QuotientBounds(Points(courses, scores, courses).value, |courses|);
    }
  }

  /** All-A courses give a grade-point average of 4, all-F courses one of 0. */
  lemma GpaExtremes(courses: seq<string>, scores: Option<seq<seq<real>>>)
    requires |courses| > 0
    ensures (forall i :: 0 <= i < |courses| ==> CourseLetter(courses, scores, courses[i]) == Ok(A))
      ==> Gpa(courses, scores) == Ok(Num(4.0))
    ensures (forall i :: 0 <= i < |courses| ==> CourseLetter(courses, scores, courses[i]) == Ok(F))
      ==> Gpa(courses, scores) == Ok(Num(0.0))
  {
    if forall i :: 0 <= i < |courses| ==> CourseLetter(courses, scores, courses[i]) == Ok(A) {
      PointsAllA(courses, scores, courses);
      QuotientOfMultiple(4, |courses|);
    }
    if forall i :: 0 <= i < |courses| ==> CourseLetter(courses, scores, courses[i]) == Ok(F) {
      PointsAllF(courses, scores, courses);
      QuotientOfMultiple(0, |courses|);
    }
  }

  /**
   * The promotion decision on the computed grade-point average: promoted
   * exactly when there is at least one course and the grade-point sum
   * exceeds the number of courses.
   */
  lemma PromotedIffPointsExceedCourses(courses: seq<string>, scores: Option<seq<seq<real>>>)
    requires Gpa(courses, scores).Ok?
    ensures PromotionDecision(Gpa(courses, scores).value) == Promoted <==>
      |courses| > 0 && Points(courses, scores, courses).value > |courses|
  {
    PromotedIffSumExceedsCount(Points(courses, scores, courses).value, |courses|);
  }

  /** On well-formed data, looking a course up returns exactly the scores supplied for it, in order. */
  lemma LookupRoundTrip(courses: seq<string>, scores: seq<seq<real>>, i: nat)
    requires WellFormed(courses, scores)
    requires i < |courses|
    ensures Lookup(courses, Some(scores), courses[i]) == Ok(scores[i])
  {
    assert IsFirstIndex(courses, courses[i], i);
    assert scores[i][..4] == scores[i];
  }

  /**
   * A list of the wrong length does not stop the whole list from being
   * stored once another list has four scores; looking up the course with the
   * short list then raises an IndexOutOfBoundsException.
   */
  lemma ShortListKept(courses: seq<string>, lists: seq<seq<real>>, full: nat, short: nat)
    requires forall i, j :: 0 <= i < j < |courses| ==> courses[i] != courses[j]
    requires |lists| == |courses| && full < |lists| && short < |lists|
    requires |lists[full]| == 4 && |lists[short]| < 4
    ensures HasFullYear(lists)
    ensures Lookup(courses, Some(lists), courses[short]) == Err(IndexOutOfBounds)
  {
  }

  /**
   * A list with more than four scores is also reported by the constructor,
   * yet looking its course up succeeds with the first four scores: the copy
   * stops at the four quarters.
   */
  lemma LongListTruncated(courses: seq<string>, lists: seq<seq<real>>, long: nat)
    requires forall i, j :: 0 <= i < j < |courses| ==> courses[i] != courses[j]
    requires |lists| == |courses| && long < |lists| && |lists[long]| > 4
    ensures Lookup(courses, Some(lists), courses[long]) == Ok(lists[long][..4])
  {
    assert IsFirstIndex(courses, courses[long], long);
  }

  /**
   * The demonstration data: Science, Mathematics and Computer Science, all
   * with averages above 89, give a grade-point average of 4 and promotion;
   * Science's mean of 98.525 rounds to 99.
   */
  lemma ExampleCard()
    ensures CourseAverage([95.75, 100.0, 98.85, 99.5]) == 99
    ensures Gpa(["Science", "Mathematics", "Computer Science"],
                Some([[95.75, 100.0, 98.85, 99.5], [100.0, 98.0, 100.0, 100.0], [100.0, 100.0, 100.0, 100.0]]))
            == Ok(Num(4.0))
    ensures PromotionDecision(Num(4.0)) == Promoted
  {
    var courses := ["Science", "Mathematics", "Computer Science"];
    var lists := [[95.75, 100.0, 98.85, 99.5], [100.0, 98.0, 100.0, 100.0], [100.0, 100.0, 100.0, 100.0]];
    QuarterSum(95.75, 100.0, 98.85, 99.5);
    QuarterSum(100.0, 98.0, 100.0, 100.0);
    QuarterSum(100.0, 100.0, 100.0, 100.0);
    assert CourseAverage(lists[0]) == 99;
    assert CourseAverage(lists[1]) == 100;
    assert CourseAverage(lists[2]) == 100;
    assert WellFormed(courses, lists);
    LookupRoundTrip(courses, lists, 0);
    LookupRoundTrip(courses, lists, 1);
    LookupRoundTrip(courses, lists, 2);
    assert forall i :: 0 <= i < |courses| ==> CourseLetter(courses, Some(lists), courses[i]) == Ok(A);
    GpaExtremes(courses, Some(lists));
  }

  /**
   * One step of the StringBuilder loop, with the guard of the Java code kept:
   * Integer.toString of the count, behind a "0" unless the count is above 9,
   * then a space. The contract ties the step to the cell of the count.
   */
  method AppendCount(builder: string, i: int) returns (text: string)
    ensures text == builder + Cell(i)
  {
    if i > 9 {
      text := builder + DecimalString(i) + " ";
    } else {
      text := builder + "0" + DecimalString(i) + " ";
    }
  }

  /** The cells of every count, appended in array order. */
  method CountCells(counts: array<int>) returns (text: string)
    ensures text == Cells(counts[..])
  {
    ghost var values := counts[..];
    text := "";
    for k := 0 to counts.Length
      invariant text == Cells(values[..k])
    {
      var i := counts[k];
      text := AppendCount(text, i);
      CellsSnoc(values, k);
    }
    assert values[..counts.Length] == values;
  }

  /** A report card is a final record: the constructor sets every field and nothing changes them. */
  class ReportCard {
    const name: Option<string>
    const grade: string
    const courses: seq<string>
    const scores: Option<seq<seq<real>>>
    const daysAbsent: array<int>
    const timesTardy: array<int>

    /**
     * Stores the name only when it passes the name check, stores grade,
     * courses and attendance as given, and stores the whole list of score
     * lists as soon as any one of them has exactly four scores.
     */
    constructor (studentName: string, studentGrade: string, studentCourses: seq<string>,
                 studentCourseScores: seq<seq<real>>, studentAbsentDays: array<int>, studentTimesTardy: array<int>)
      ensures name == (if IsAlphabeticName(studentName) then Some(studentName) else None)
      ensures grade == studentGrade && courses == studentCourses
      ensures scores == (if HasFullYear(studentCourseScores) then Some(studentCourseScores) else None)
      ensures daysAbsent == studentAbsentDays && timesTardy == studentTimesTardy
    {
      var valid := ContainsOnlyAlphabets(studentName);
      if valid {
        name := Some(studentName);
      } else {
        name := None;
      }
      grade := studentGrade;
      courses := studentCourses;
      var stored: Option<seq<seq<real>>> := None;
      for k := 0 to |studentCourseScores|
        invariant stored == (if HasFullYear(studentCourseScores[..k]) then Some(studentCourseScores) else None)
      {
        // A list of another length is only reported on the console.
        if |studentCourseScores[k]| == 4 {
          stored := Some(studentCourseScores);
        }
        assert studentCourseScores[..k + 1][k] == studentCourseScores[k];
        assert forall j :: 0 <= j < k ==> studentCourseScores[..k + 1][j] == studentCourseScores[..k][j];
      }
      assert studentCourseScores[..|studentCourseScores|] == studentCourseScores;
      scores := stored;
      daysAbsent := studentAbsentDays;
      timesTardy := studentTimesTardy;
    }

    /** The four quarterly scores of a course, copied into a new array. */
    method MappedScores(courseTitle: string) returns (r: Result<array<real>>)
      ensures r.Err? <==> Lookup(courses, scores, courseTitle).Err?
      ensures r.Err? ==> r.error == Lookup(courses, scores, courseTitle).error
      ensures r.Ok? ==> fresh(r.value) && r.value[..] == Lookup(courses, scores, courseTitle).value
    {
      var position := IndexOf(courses, courseTitle);
      var result := new real[4];
      if scores.None? {
        return Err(NullPointer);
      }
      if position < 0 || position >= |scores.value| {
        return Err(IndexOutOfBounds);
      }
      var target := scores.value[position];
      for i := 0 to result.Length
        invariant i <= |target|
        invariant forall j :: 0 <= j < i ==> result[j] == target[j]
      {
        if i >= |target| {
          return Err(IndexOutOfBounds);
        }
        result[i] := target[i];
      }
      assert result[..] == target[..4];
      return Ok(result);
    }

    /** The letter grade of a course, from the rounded average of its scores. */
    method LetterGrade(courseTitle: string) returns (r: Result<Letter>)
      ensures r == CourseLetter(courses, scores, courseTitle)
    {
      var courseScore := MappedScores(courseTitle);
      if courseScore.Err? {
        return Err(courseScore.error);
      }
      var courseAverage := CourseAverage(courseScore.value[..]);
      r := Ok(Grading.LetterGrade(courseAverage));
    }

    /** The grade-point average, summing the grade points of the courses in a loop. */
    method GradePointAverage() returns (r: Result<Float>)
      ensures r == Gpa(courses, scores)
    {
      var sum := 0;
      for i := 0 to |courses|
        invariant Points(courses, scores, courses[..i]) == Ok(sum)
      {
        var letter := LetterGrade(courses[i]);
        PointsSnoc(courses, scores, courses, i);
        if letter.Err? {
          PointsErrorPersists(courses, scores, courses, i + 1);
          return Err(letter.error);
        }
        match letter.value
        case A => sum := sum + 4;
        case B => sum := sum + 3;
        case C => sum := sum + 2;
        case D => sum := sum + 1;
        case F =>
      }
      assert courses[..|courses|] == courses;
      r := Ok(Quotient(sum, |courses|));
    }

    /** The attendance block of the report card's text. */
    method AttendanceText() returns (text: string)
      ensures text == AttendanceBlock(daysAbsent[..], timesTardy[..])
    {
      var absent := CountCells(daysAbsent);
      var tardy := CountCells(timesTardy);
      text := "ATTENDANCE:\n-----------\nDays Absent: " + absent + "\nTimes Tardy: " + tardy;
    }
  }
}
