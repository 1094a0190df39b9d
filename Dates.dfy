/** The year extraction of the date helpers (helpers/date.go). */
module Dates {
  /** `\d` in Go's regular expressions: an ASCII digit. */
  predicate IsAsciiDigit(c: char)
  {
    '0' <= c <= '9'
  }

  /** Four ASCII digits start at index `i`. */
  predicate FourDigitsAt(s: string, i: nat)
  {
    i + 4 <= |s| && IsAsciiDigit(s[i]) && IsAsciiDigit(s[i + 1]) && IsAsciiDigit(s[i + 2]) && IsAsciiDigit(s[i + 3])
  }

  /**
   * Where the leftmost match of `\d{4}` at or after index `i` starts: the
   * first such index, or `|s|` when there is none.
   */
  function YearIndex(s: string, i: nat): (j: nat)
    requires i <= |s|
    ensures i <= j <= |s|
    ensures j < |s| ==> FourDigitsAt(s, j)
    ensures forall k :: i <= k < j ==> !FourDigitsAt(s, k)
    decreases |s| - i
  {
    if i == |s| then i
    else if FourDigitsAt(s, i) then i
    else YearIndex(s, i + 1)
  }

  /**
   * `ExtractYearFromText`: the first run of four digits in the text, or ""
   * when it has none; a longer run gives its first four digits.
   */
  function ExtractYearFromText(text: string): (r: string)
    ensures r == "" || (|r| == 4 && forall k :: 0 <= k < 4 ==> IsAsciiDigit(r[k]))
    ensures r == "" <==> forall j :: 0 <= j <= |text| ==> !FourDigitsAt(text, j)
    ensures r != "" ==> exists j :: 0 <= j <= |text| && FourDigitsAt(text, j) && r == text[j..j + 4]
                                    && forall k :: 0 <= k < j ==> !FourDigitsAt(text, k)
  {
    var j := YearIndex(text, 0);
    if j < |text| then text[j..j + 4] else ""
  }

  /** A run of five or more digits at the front of a text gives its first four. */
  lemma FiveDigitsGiveFirstFour(digits: string, rest: string)
    requires |digits| >= 5 && forall k :: 0 <= k < |digits| ==> IsAsciiDigit(digits[k])
    ensures ExtractYearFromText(digits + rest) == digits[..4]
  {
  }

  /**
   * When no run of four digits starts inside `before`, the year right after
   * it is the one found, whatever years follow in `rest`.
   */
  lemma LeftmostYearWins(before: string, year: string, rest: string)
    requires |year| == 4 && forall k :: 0 <= k < 4 ==> IsAsciiDigit(year[k])
    requires forall k :: 0 <= k < |before| ==> !FourDigitsAt(before + year + rest, k)
    ensures ExtractYearFromText(before + year + rest) == year
  {
    var text := before + year + rest;
    var n := |before|;
    assert text[n..n + 4] == year;
    assert FourDigitsAt(text, n) by {
      assert text[n] == year[0] && text[n + 1] == year[1] && text[n + 2] == year[2] && text[n + 3] == year[3];
    }
    var j :| 0 <= j <= |text| && FourDigitsAt(text, j) && ExtractYearFromText(text) == text[j..j + 4]
             && forall k :: 0 <= k < j ==> !FourDigitsAt(text, k);
    assert j == n;
  }

  /** The number of ASCII digits in a text. */
  function DigitCount(s: string): nat
  {
    if s == [] then 0 else (if IsAsciiDigit(s[0]) then 1 else 0) + DigitCount(s[1..])
  }

  /** A text that starts with `n` digits holds at least `n` digits. */
  lemma {:induction false} LeadingDigitsCount(s: string, n: nat)
    requires n <= |s| && forall k :: 0 <= k < n ==> IsAsciiDigit(s[k])
    ensures DigitCount(s) >= n
    decreases n
  {
    if n > 0 {
      LeadingDigitsCount(s[1..], n - 1);
    }
  }

  /** Four digits in a row anywhere mean four digits in all. */
  lemma {:induction false} YearNeedsFourDigits(s: string, j: nat)
    requires FourDigitsAt(s, j)
    ensures DigitCount(s) >= 4
    decreases j
  {
    if j == 0 {
      LeadingDigitsCount(s, 4);
    } else {
      assert FourDigitsAt(s[1..], j - 1);
      YearNeedsFourDigits(s[1..], j - 1);
    }
  }

  /** A text with fewer than four digits in all gives "". */
  lemma ShortNumbersGiveNothing(text: string)
    requires DigitCount(text) < 4
    ensures ExtractYearFromText(text) == ""
  {
    if ExtractYearFromText(text) != "" {
      var j :| 0 <= j <= |text| && FourDigitsAt(text, j);
      YearNeedsFourDigits(text, j);
    }
  }

  /** A text that has four digits at the front yields exactly them. */
  lemma LeadingYearIsFound(year: string, rest: string)
    requires |year| == 4 && forall k :: 0 <= k < 4 ==> IsAsciiDigit(year[k])
    ensures ExtractYearFromText(year + rest) == year
  {
  }
}
