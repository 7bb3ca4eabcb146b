/**
 * The student-name check of the report card: a name is accepted when it is
 * not empty and every character that is not whitespace is a letter.
 */
module NameCheck {

  /** The characters of the regular-expression class `\s`: space, tab, line feed, vertical tab, form feed, carriage return. */
  predicate IsWhitespace(c: char)
  {
    c == ' ' || c == '\t' || c == '\n' || c == '\r' || c as int == 0x0B || c as int == 0x0C
  }

  /** A letter: the ASCII letters stand for the letters of Character.isLetter. */
  predicate IsLetter(c: char)
  {
    ('A' <= c <= 'Z') || ('a' <= c <= 'z')
  }

  /** The string with every run of whitespace replaced by nothing. */
  function RemoveWhitespace(s: string): (r: string)
    ensures |r| <= |s|
    ensures forall c :: c in r <==> c in s && !IsWhitespace(c)
    ensures forall i :: 0 <= i < |r| ==> !IsWhitespace(r[i])
    ensures (forall i :: 0 <= i < |s| ==> !IsWhitespace(s[i])) ==> r == s
  {
    if s == [] then []
    else if IsWhitespace(s[0]) then RemoveWhitespace(s[1..])
    else [s[0]] + RemoveWhitespace(s[1..])
  }

  /**
   * Removing whitespace keeps the order of what remains: the stripped
   * halves of a string, one after the other, are the stripped whole.
   */
  lemma {:induction false} RemoveWhitespaceAppend(front: string, back: string)
    ensures RemoveWhitespace(front + back) == RemoveWhitespace(front) + RemoveWhitespace(back)
  {
    if front == [] {
      assert front + back == back;
    } else {
      assert (front + back)[0] == front[0];
      assert (front + back)[1..] == front[1..] + back;
      RemoveWhitespaceAppend(front[1..], back);
    }
  }

  /** What the name check promises: a non-empty string whose non-whitespace characters are all letters. */
  predicate IsAlphabeticName(s: string)
  {
    |s| > 0 && forall c :: c in s && !IsWhitespace(c) ==> IsLetter(c)
  }

  /**
   * containsOnlyAlphabets as the Java method runs it: strip the whitespace, then scan the
   * copy with a result flag, leaving the loop early by moving the index
   * to the end at the first character that is not a letter.
   */
  method ContainsOnlyAlphabets(s: string) returns (result: bool)
    ensures result == IsAlphabeticName(s)
  {
    result := true;
    if |s| > 0 {
      var copy := RemoveWhitespace(s);
      var i := 0;
      while i < |copy|
        invariant 0 <= i <= |copy| + 1
        invariant result ==> i <= |copy| && forall j :: 0 <= j < i ==> IsLetter(copy[j])
        invariant !result ==> exists j :: 0 <= j < |copy| && !IsLetter(copy[j])
        decreases |copy| + 1 - i
      {
        var c := copy[i];
        if !IsLetter(c) {
          i := |copy|;
          result := false;
        }
        i := i + 1;
      }
      if result {
        forall c | c in s && !IsWhitespace(c) ensures IsLetter(c) {
          assert c in copy;
        }
      }
    } else {
      result := false;
    }
  }

  /** The empty name is refused. */
  lemma EmptyNameRefused()
    ensures !IsAlphabeticName("")
  {
  }

  /** A name made only of whitespace is accepted: nothing is left to fail the scan. */
  lemma WhitespaceOnlyNameAccepted(s: string)
    requires |s| > 0
    requires forall i :: 0 <= i < |s| ==> IsWhitespace(s[i])
    ensures IsAlphabeticName(s)
    ensures RemoveWhitespace(s) == []
  {
  }

  /** A name with a digit in it, such as "Robert123", is refused. */
  lemma DigitRefused(s: string, i: nat)
    requires i < |s| && '0' <= s[i] <= '9'
    ensures !IsAlphabeticName(s)
  {
    assert s[i] in s && !IsWhitespace(s[i]) && !IsLetter(s[i]);
  }
}
