# Report card, modelled in Dafny

This project models `ReportCard`, a Java class for one student's report card for one school year. It holds the student's name and grade, the enrolled courses, four quarterly scores per course, and the days absent and times tardy per quarter. The model covers the class's decision pipeline:

- a course's scores are looked up by title;
- their mean is rounded to the course average;
- the average maps to a letter grade;
- the letters' grade points are summed into the grade-point average;
- the promotion decision is taken from that average.

It also covers the constructor's validation of the name and the score lists, and the zero-padded attendance lines of the report card's text.

Four modules:

- `Grading` (`grading.dfy`): the pure part. The letter for an integer average, the grade points of a letter, the course average, the float quotient of the GPA (a number; with no courses, NaN for a zero sum and an infinity otherwise), and the promotion decision.
- `NameCheck` (`names.dfy`): the name validator, as a loop with a result flag and a forced early exit. It is proved equal to a predicate: the name is non-empty and every character that is not whitespace is a letter.
- `Attendance` (`attendance.dfy`): the text of a count. A count above 9 is written as its decimal digits; any other count gets a leading "0". Each count is followed by one space. The lemmas state the layout of these cells and prove that a two-digit cell reads back as its count.
- `ReportCards` (`report_card.dfy`): the class `ReportCard`, whose constructor and methods follow the Java loops. Its fields are `const`: the Java class describes the report card as a final document with no setters, so only the constructor sets them. It also holds value-level functions that specify those methods: `Lookup`, `CourseLetter`, `Points` and `Gpa`. The lemmas about the GPA are stated over these functions.

Java's runtime exceptions are part of the model. A lookup raises a `NullPointerException` when the scores were never stored. It raises an `IndexOutOfBoundsException` when the title is absent (index -1), when the title's position lies past the score lists, or when the course's list has fewer than four scores. `Result` values carry these errors through `letterGrade` and `gradePointAverage`; the first failing course, in course order, decides the error.

The model keeps two constructor behaviours as the code has them. An invalid name leaves the name unset. The whole list of score lists is stored as soon as any one of them has exactly four scores, and is left unset otherwise. The Java comments at src/ReportCard.java:93 and :107-108 say that both checks ideally belong in the Student class; here they only print a message. `ShortListKept` shows where this leads: a course whose list is too short stays in the stored scores, and looking it up later raises an exception.

## Model

| member | source | states |
|---|---|---|
| `Grading.CourseAverage` | src/ReportCard.java:151-157 | the average is the mean of the scores rounded to the nearest integer with halves rounded up (Math.round); an empty array gives 0 (Math.round of NaN) |
| `Grading.LetterGrade` | src/ReportCard.java:165-179 | the `>` chain gives exactly the inclusive bands of the academic scale: A for 90 and above, B for 80-89, C for 70-79, D for 65-69, F for 64 and below, in both directions |
| `Grading.GradePoints` | src/ReportCard.java:181-206 | a letter is worth at most 4 points; exactly A is worth 4 and exactly F is worth 0 |
| `Grading.LetterGradeMonotone` | src/ReportCard.java:168-178 | a higher course average never earns fewer grade points |
| `Grading.Quotient` | src/ReportCard.java:208 | the float division of the point sum by the course count is a number exactly when there is a course, and that number times the count is the sum; with no courses it is NaN for a zero sum and an infinity of the sum's sign otherwise |
| `Grading.QuotientBounds` | src/ReportCard.java:208 | a point sum between 0 and 4 per course gives a GPA between 0 and 4 |
| `Grading.QuotientOfMultiple` | src/ReportCard.java:208 | k points for each course gives a GPA of exactly k |
| `Grading.PromotionDecision` | src/ReportCard.java:211-223 | "Promoted" exactly when a numeric GPA is greater than 1; NaN and negative infinity are retained and positive infinity is promoted, as float comparison gives; its meaning on point sums is stated by `PromotedIffSumExceedsCount` and `PromotionBoundary` |
| `Grading.PromotedIffSumExceedsCount` | src/ReportCard.java:208-223 | "Promoted" comes out exactly when the point sum exceeds the course count, for every count; with no courses and a zero sum (NaN GPA), "Retained" comes out |
| `Grading.PromotionBoundary` | src/ReportCard.java:211-223 | a GPA of exactly 1, of 0 and of NaN is retained; any GPA above 1 is promoted |
| `NameCheck.RemoveWhitespace` | src/ReportCard.java:361 | stripping whitespace keeps exactly the characters of the name that are not whitespace, leaves no whitespace, never lengthens the name and leaves a name without whitespace unchanged |
| `NameCheck.RemoveWhitespaceAppend` | src/ReportCard.java:361 | stripping keeps the order of what remains: the stripped halves of a string, one after the other, are the stripped whole |
| `NameCheck.ContainsOnlyAlphabets` | src/ReportCard.java:356-380 | the flag-and-early-exit scan returns true exactly when the name is non-empty and every non-whitespace character is a letter |
| `NameCheck.EmptyNameRefused` | src/ReportCard.java:375-378 | the empty name is refused |
| `NameCheck.WhitespaceOnlyNameAccepted` | src/ReportCard.java:358-374 | a non-empty name made only of whitespace is accepted, because nothing is left after stripping |
| `NameCheck.DigitRefused` | src/ReportCard.java:363-373 | a name containing a digit, "Robert123" for one, is refused |
| `Attendance.NatDigits` | src/ReportCard.java:259 | the decimal text of a count is a non-empty run of digits; it is one digit exactly when the count is at most 9, and it has no leading zero |
| `Attendance.NatDigitsRoundTrip` | src/ReportCard.java:259 | reading the decimal text back gives the count |
| `Attendance.CellReadsBack` | src/ReportCard.java:257-263 | in front of its final space, the cell of a count of at least 0 is digits that read back as the count, at least two of them, with a leading zero only for a one-digit count |
| `Attendance.NegativeCell` | src/ReportCard.java:257-263 | a negative count, which the guard also pads, is written as "0-" and digits that read back as its magnitude |
| `Attendance.TwoDigitCell` | src/ReportCard.java:257-263 | a count from 0 to 99 takes exactly two digits and a space, and the two digits read back as the count |
| `Attendance.CellsAppend` | src/ReportCard.java:257-272 | the cells of two runs of counts are the cells of the first run followed by those of the second |
| `Attendance.CellsSnoc` | src/ReportCard.java:257-263 | appending one count appends its cell at the end |
| `Attendance.CellsLength` | src/ReportCard.java:257-272 | with every count from 0 to 99, the cells take three characters per count |
| `Attendance.CellsLayout` | src/ReportCard.java:257-272 | with every count from 0 to 99, the i-th cell sits at offset 3i and holds the i-th count, so the output follows the array order |
| `ReportCards.IndexOf` | src/ReportCard.java:133 | indexOf gives -1 exactly when the title is absent, and otherwise the first position of the title |
| `ReportCards.Lookup` | src/ReportCard.java:132-143 | the lookup succeeds exactly when the scores are stored, the title is present, its first position has a score list and that list has at least four scores; it then gives that list's first four scores in order; otherwise it raises NullPointerException (scores unset) or IndexOutOfBoundsException |
| `ReportCards.LookupRoundTrip` | src/ReportCard.java:132-143 | for distinct titles each with exactly four scores, looking up the i-th title gives exactly the i-th score list |
| `ReportCards.PointsAppend` | src/ReportCard.java:189-207 | the point sum of two runs of courses is the sum of their point sums, and an exception in the first run is the one raised |
| `ReportCards.PointsSnoc` | src/ReportCard.java:189-207 | one more course adds its letter's points to the sum, or ends the sum with its exception |
| `ReportCards.PointsErrorPersists` | src/ReportCard.java:189-207 | once a run of courses raises an exception, every longer run that starts with it raises the same exception |
| `ReportCards.PointsBounds` | src/ReportCard.java:188-207 | the point sum of n courses lies between 0 and 4n |
| `ReportCards.PointsAllA` | src/ReportCard.java:188-207 | when every course earns an A, the point sum is 4 per course |
| `ReportCards.PointsAllF` | src/ReportCard.java:188-207 | when every course earns an F, the point sum is 0 |
| `ReportCards.GpaRange` | src/ReportCard.java:187-209 | the GPA of a non-empty course list lies in [0, 4]; with no courses it is NaN |
| `ReportCards.GpaExtremes` | src/ReportCard.java:187-209 | all-A courses give a GPA of 4; all-F courses give a GPA of 0 |
| `ReportCards.PromotedIffPointsExceedCourses` | src/ReportCard.java:187-223 | on the computed GPA, "Promoted" comes out exactly when there is a course and the point sum exceeds the course count |
| `ReportCards.ShortListKept` | src/ReportCard.java:109-117 | a list with fewer than four scores stays in the stored scores when another list has four scores, and looking its course up raises IndexOutOfBoundsException |
| `ReportCards.LongListTruncated` | src/ReportCard.java:132-143 | a list with more than four scores, though reported by the constructor, is looked up successfully and gives its first four scores |
| `ReportCards.ExampleCard` | src/ReportCard.java:384-419 | for the demonstration data, Science's mean of 98.525 rounds to 99, the GPA is 4 and the student is promoted |
| `ReportCards.AppendCount` | src/ReportCard.java:258-262 | one loop step appends exactly the cell of the count |
| `ReportCards.CountCells` | src/ReportCard.java:257-263 | the loop over an array of counts produces the cells of all counts, in array order |
| `ReportCards.ReportCard.constructor` | src/ReportCard.java:90-124 | the name is stored exactly when it passes the name check and is left unset otherwise; grade, courses and both attendance arrays are stored as given; the whole list of score lists is stored when some list has exactly four scores and is left unset otherwise |
| `ReportCards.ReportCard.MappedScores` | src/ReportCard.java:132-143 | gives a new array holding the first four scores of the course's list, or raises the exception `Lookup` names |
| `ReportCards.ReportCard.LetterGrade` | src/ReportCard.java:165-179 | gives the letter for the rounded average of the course's four scores, or the lookup's exception |
| `ReportCards.ReportCard.GradePointAverage` | src/ReportCard.java:187-209 | the loop's switch over the letters computes exactly `Gpa`: the point sum over the course count, or the first course's exception |
| `ReportCards.ReportCard.AttendanceText` | src/ReportCard.java:256-272 | the attendance block is the days-absent heading, the days-absent cells, the times-tardy heading and the times-tardy cells, in that order |

## Left out

- `Grading.CourseAverage`: the scores are `real`, not `float`. The sum and the division are exact, so the model does not capture float rounding error, such as 98.85f not being exactly 98.85. The summing loop is written as a function, as it specifies a value only.
- `Grading.Quotient`: the GPA is the exact rational quotient, not a rounded float. The GPA's `Float.toString` text is not modelled.
- `NameCheck.IsLetter`: only the ASCII letters stand for `Character.isLetter`, so the model refuses a name with non-ASCII letters that Java accepts. Java strings are UTF-16 code units; here a string is a sequence of Unicode characters. `IsWhitespace` is exactly Java's default `\s` class.
- Java `int` is 32 bits. The model's integers are unbounded: the point sum cannot overflow, and counts print without a width limit.
- Null arguments: a null name, course list, score list, score or attendance array makes the Java code throw. The model's arguments are never null. The one null it models is the `scores` field that the constructor may leave unset.
- Aliasing: the course list and the score lists are values in the model, while Java stores the caller's `ArrayList` references. The `int[]` attendance arrays are stored by reference, as in Java.
- `display()` is left out: console output with `printf` widths.
- The rest of `toString()` is left out: school header, student block, score and average listings, GPA and scale legend. They depend on float-to-string formatting and fixed banner text; only the attendance block is modelled.
- The constructor's console messages are left out, as they are output only.
- The getters are left out: they return fields, or a library `Arrays.toString`.
- `main` is left out, except for its data, which `ExampleCard` uses.
