/**
 * The attendance lines of the report card's text: every days-absent and
 * times-tardy count is written as a cell, a count above 9 as its decimal
 * digits and any other count behind a leading "0", each cell ending in one
 * space.
 */
module Attendance {

  /** The decimal digit for 0 <= d <= 9. */
  function DigitChar(d: nat): (c: char)
    requires d <= 9
    ensures '0' <= c <= '9'
  {
    ('0' as int + d) as char
  }

  /** The value of a decimal digit character. */
  function DigitValue(c: char): (d: nat)
    requires '0' <= c <= '9'
    ensures d <= 9 && DigitChar(d) == c
  {
    c as int - '0' as int
  }

  predicate IsDigits(s: string)
  {
    forall i :: 0 <= i < |s| ==> '0' <= s[i] <= '9'
  }

  /** The decimal digits of a natural number, most significant first, without leading zeros. */
  function NatDigits(n: nat): (s: string)
    ensures |s| >= 1 && IsDigits(s)
    ensures |s| == 1 <==> n <= 9
    ensures n > 9 ==> s[0] != '0'
  {
    if n <= 9 then [DigitChar(n)] else NatDigits(n / 10) + [DigitChar(n % 10)]
  }

  /** The number a string of decimal digits denotes. */
  function ParseNat(s: string): nat
    requires IsDigits(s)
  {
    if s == [] then 0 else ParseNat(s[..|s| - 1]) * 10 + DigitValue(s[|s| - 1])
  }

  /** A leading zero does not change the number a string of digits denotes. */
  lemma {:induction false} ParseLeadingZero(s: string)
    requires IsDigits(s)
    ensures IsDigits("0" + s) && ParseNat("0" + s) == ParseNat(s)
  {
    if s != [] {
      var z := "0" + s;
      assert z[..|z| - 1] == "0" + s[..|s| - 1];
      assert z[|z| - 1] == s[|s| - 1];
      ParseLeadingZero(s[..|s| - 1]);
    }
  }

  /** Reading the digits back gives the number. */
  lemma {:induction false} NatDigitsRoundTrip(n: nat)
    ensures ParseNat(NatDigits(n)) == n
  {
    if n > 9 {
      var s, front := NatDigits(n), NatDigits(n / 10);
      assert s == front + [DigitChar(n % 10)];
      assert s[..|s| - 1] == front;
      NatDigitsRoundTrip(n / 10);
      assert ParseNat(s) == ParseNat(front) * 10 + DigitValue(DigitChar(n % 10));
    }
  }

  /** Integer.toString: an optional minus sign and the decimal digits. */
  function DecimalString(n: int): string
  {
    if n < 0 then "-" + NatDigits(-n) else NatDigits(n)
  }

  /** The text appended for one count: the padded count and one space. */
  function Cell(count: int): (c: string)
    ensures |c| >= 3 && c[|c| - 1] == ' '
  {
    if count > 9 then DecimalString(count) + " " else "0" + DecimalString(count) + " "
  }

  /**
   * What a cell means: in front of its final space, a count of at least 0 is
   * written as digits that read back as the count, with at least two digits
   * and a leading zero only where the count has a single digit.
   */
  lemma CellReadsBack(count: int)
    requires count >= 0
    ensures var c := Cell(count); var d := c[..|c| - 1];
      IsDigits(d) && ParseNat(d) == count && |d| >= 2
      && (count <= 9 ==> |d| == 2) && (count > 9 ==> d[0] != '0')
  {
    var digits := NatDigits(count);
    NatDigitsRoundTrip(count);
    if count > 9 {
      assert Cell(count) == digits + " ";
      assert (digits + " ")[..|digits|] == digits;
    } else {
      assert Cell(count) == "0" + digits + " ";
      assert ("0" + digits + " ")[..|digits| + 1] == "0" + digits;
      ParseLeadingZero(digits);
    }
  }

  /** A negative count, -magnitude, is written as "0-" and digits that read back as the magnitude. */
  lemma NegativeCell(magnitude: nat)
    requires magnitude > 0
    ensures var c := Cell(-(magnitude as int)); var d := c[2..|c| - 1];
      c[..2] == "0-" && IsDigits(d) && ParseNat(d) == magnitude
  {
    var digits := NatDigits(magnitude);
    NegativeCellText(magnitude);
    Framed("0-", digits, " ");
    NatDigitsRoundTrip(magnitude);
  }

  /** The text of a negative count: the padding "0", the minus sign, the digits and the space. */
  lemma NegativeCellText(magnitude: nat)
    requires magnitude > 0
    ensures Cell(-(magnitude as int)) == "0-" + NatDigits(magnitude) + " "
  {
    var digits := NatDigits(magnitude);
    assert DecimalString(-(magnitude as int)) == "-" + digits;
    assert "0" + ("-" + digits) == "0-" + digits;
  }

  /** A helper on strings: the pieces of a concatenation are its slices. */
  lemma Framed(p: string, d: string, q: string)
    ensures (p + d + q)[..|p|] == p
    ensures (p + d + q)[|p|..|p| + |d|] == d
  {
  }

  /** The cells of all counts, in order. */
  function Cells(counts: seq<int>): string
  {
    if counts == [] then "" else Cell(counts[0]) + Cells(counts[1..])
  }

  /** The whole attendance block, days absent before times tardy. */
  function AttendanceBlock(daysAbsent: seq<int>, timesTardy: seq<int>): string
  {
    "ATTENDANCE:\n-----------\nDays Absent: " + Cells(daysAbsent) + "\nTimes Tardy: " + Cells(timesTardy)
  }

  /**
   * A count between 0 and 99 becomes exactly two digits and a space, and the
   * two digits read back as the count.
   */
  lemma TwoDigitCell(count: int)
    requires 0 <= count <= 99
    ensures |Cell(count)| == 3 && Cell(count)[2] == ' '
    ensures IsDigits(Cell(count)[..2]) && ParseNat(Cell(count)[..2]) == count
  {
    NatDigitsRoundTrip(count);
    var c := Cell(count);
    if count > 9 {
      assert c[..2] == NatDigits(count);
    } else {
      assert c[..2] == "0" + NatDigits(count);
      assert ParseNat(c[..2][..1]) == 0;
    }
  }

  /** The cells of two runs of counts are the cells of the first followed by those of the second. */
  lemma {:induction false} CellsAppend(front: seq<int>, back: seq<int>)
    ensures Cells(front + back) == Cells(front) + Cells(back)
  {
    if front == [] {
      assert front + back == back;
    } else {
      assert (front + back)[1..] == front[1..] + back;
      CellsAppend(front[1..], back);
    }
  }

  /** One more count adds its cell at the end. */
  lemma CellsSnoc(counts: seq<int>, k: nat)
    requires k < |counts|
    ensures Cells(counts[..k + 1]) == Cells(counts[..k]) + Cell(counts[k])
  {
    assert counts[..k + 1] == counts[..k] + [counts[k]];
    CellsAppend(counts[..k], [counts[k]]);
    assert [counts[k]][1..] == [];
  }

  /** When every count has at most two digits, every cell takes three characters. */
  lemma {:induction false} CellsLength(counts: seq<int>)
    requires forall i :: 0 <= i < |counts| ==> 0 <= counts[i] <= 99
    ensures |Cells(counts)| == 3 * |counts|
  {
    if counts != [] {
      CellsLength(counts[1..]);
      TwoDigitCell(counts[0]);
    }
  }

  /**
   * When every count has at most two digits, the i-th cell sits at offset
   * 3 * i and holds the i-th count: the output follows the order of the counts.
   */
  lemma CellsLayout(counts: seq<int>, i: nat)
    requires forall j :: 0 <= j < |counts| ==> 0 <= counts[j] <= 99
    requires i < |counts|
    ensures |Cells(counts)| == 3 * |counts|
    ensures Cells(counts)[3 * i .. 3 * i + 3] == Cell(counts[i])
  {
    var before, after := counts[..i], counts[i + 1..];
    assert counts == before + [counts[i]] + after;
    CellsAppend(before + [counts[i]], after);
    CellsAppend(before, [counts[i]]);
    assert Cells([counts[i]]) == Cell(counts[i]) by {
      assert [counts[i]][1..] == [];
    }
    CellsLength(counts);
    CellsLength(before);
    TwoDigitCell(counts[i]);
    var whole := Cells(before) + Cell(counts[i]) + Cells(after);
    assert whole[3 * i .. 3 * i + 3] == Cell(counts[i]);
  }
}
