/**
 * The year read out of free text such as "1490 - 1551" or "каля 1520 г.": the first run of
 * three or four decimal digits (`/\d{3,4}/`), read as a number, or 0 when there is none.
 * The same rule serves the timeline (`getYear`) and both galleries (`getBirthYear`).
 */
module YearText {
  import opened Wrappers
  import opened Text

  /** Three digits start at position `i`. */
  predicate RunAt(s: string, i: int) {
    0 <= i && i + 3 <= |s| && IsDigit(s[i]) && IsDigit(s[i + 1]) && IsDigit(s[i + 2])
  }

  /** The leftmost position at or after `from` where a run starts. */
  function FirstRun(s: string, from: nat): (r: Option<nat>)
    ensures r.Some? ==> from <= r.value && RunAt(s, r.value)
    ensures r.Some? ==> forall j :: from <= j < r.value ==> !RunAt(s, j)
    ensures r.None? ==> forall j :: from <= j ==> !RunAt(s, j)
    decreases |s| - from
  {
    if from + 3 > |s| then None
    else if RunAt(s, from) then Some(from)
    else FirstRun(s, from + 1)
  }

  /** The regular expression is greedy: a fourth digit is taken when there is one. */
  function RunLength(s: string, i: int): (n: nat)
    requires RunAt(s, i)
    ensures n == 3 || n == 4
    ensures i + n <= |s|
  {
    if i + 3 < |s| && IsDigit(s[i + 3]) then 4 else 3
  }

  /** The digits of the run at `i`. */
  function RunText(s: string, i: int): (d: string)
    requires RunAt(s, i)
    ensures AllDigits(d) && (|d| == 3 || |d| == 4)
  {
    s[i..i + RunLength(s, i)]
  }

  /** `getYear` / `getBirthYear`. */
  function GetYear(s: string): (y: nat)
    ensures y < 10000
  {
    match FirstRun(s, 0)
    case None => 0
    case Some(i) =>
      DigitsValueBound(RunText(s, i));
      assert Pow10(|RunText(s, i)|) <= 10000;
      DigitsValue(RunText(s, i))
  }

  /** Text with no run of three digits gives 0. */
  lemma NoRunIsZero(s: string)
    requires forall j :: !RunAt(s, j)
    ensures GetYear(s) == 0
  {
  }

  /** Otherwise the year is the value of the leftmost run, at most four digits of it. */
  lemma LeftmostRun(s: string, i: int)
    requires RunAt(s, i)
    requires forall j :: 0 <= j < i ==> !RunAt(s, j)
    ensures GetYear(s) == DigitsValue(RunText(s, i))
  {
    assert FirstRun(s, 0) == Some(i);
  }

  /** The value of four digits, place by place. */
  lemma FourDigits(d: string)
    requires |d| == 4 && AllDigits(d)
    ensures DigitsValue(d) == 1000 * DigitValue(d[0]) + 100 * DigitValue(d[1]) + 10 * DigitValue(d[2]) + DigitValue(d[3])
  {
    assert d[..3][..2] == d[..2] && d[..2][..1] == d[..1] && d[..1][..0] == [];
    assert DigitsValue(d[..1]) == DigitValue(d[0]);
    assert DigitsValue(d[..2]) == 10 * DigitValue(d[0]) + DigitValue(d[1]);
    assert DigitsValue(d[..3]) == 100 * DigitValue(d[0]) + 10 * DigitValue(d[1]) + DigitValue(d[2]);
  }

  /** A year range reads as its first year: "1500-1560" gives 1500. */
  lemma RangeGivesFirstYear()
    ensures GetYear("1500-1560") == 1500
  {
    LeftmostRun("1500-1560", 0);
    assert RunText("1500-1560", 0) == "1500";
    FourDigits("1500");
  }
}
