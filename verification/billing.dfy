/**
  Billing periods as the catalog stores them (the upper-cased text of the payload's
  `billingPeriod`) and the end-of-period rule that purchase and renewal share.
 */
module BillingPeriods {
  import opened Wrappers
  import opened Calendar

  const Monthly: string := "MONTHLY"
  const Yearly: string := "YEARLY"

  /** The values of the `BillingPeriod` column; the store refuses any other text. */
  predicate IsBillingPeriod(s: string) {
    s == Monthly || s == Yearly
  }

  predicate IsLowerAscii(c: char) {
    'a' <= c <= 'z'
  }

  /** `toUpperCase` on one character, for the ASCII letters. */
  function UpperChar(c: char): (r: char)
    ensures !IsLowerAscii(r)
    ensures IsLowerAscii(c) <==> r != c
  {
    if IsLowerAscii(c) then (c as int - 32) as char else c
  }

  /** `String.prototype.toUpperCase`, character by character over ASCII. */
  function ToUpper(s: string): (r: string)
    ensures |r| == |s|
    ensures forall i :: 0 <= i < |s| ==> r[i] == UpperChar(s[i])
  {
    if s == [] then [] else [UpperChar(s[0])] + ToUpper(s[1..])
  }

  /** Upper-casing twice is upper-casing once. */
  lemma ToUpperIdempotent(s: string)
    ensures ToUpper(ToUpper(s)) == ToUpper(s)
  {
  }

  /** A text is left as it is by upper-casing exactly when it has no lower-case letter. */
  lemma ToUpperFixesUpper(s: string)
    ensures ToUpper(s) == s <==> forall i :: 0 <= i < |s| ==> !IsLowerAscii(s[i])
  {
    if ToUpper(s) == s {
      forall i | 0 <= i < |s| ensures !IsLowerAscii(s[i]) {
        assert ToUpper(s)[i] == UpperChar(s[i]);
      }
    }
  }

  /**
    calculateEndAt: the end of a billing period that starts at `prevEndDate` when one is
    given and at `now` otherwise. MONTHLY adds a calendar month, YEARLY a calendar year;
    any other stored period leaves the start date as it is.
   */
  function CalculateEndAt(billingPeriod: string, prevEndDate: Option<Date>, now: Date): (r: Date)
    ensures var start := prevEndDate.GetOr(now);
      (billingPeriod == Monthly || billingPeriod == Yearly) <==> Before(start, r)
    ensures var start := prevEndDate.GetOr(now);
      billingPeriod != Monthly && billingPeriod != Yearly ==> r == start
    ensures var start := prevEndDate.GetOr(now);
      var f := FollowingMonth(start.year, start.month);
      billingPeriod == Monthly && start.day <= DaysInMonth(f.year, f.month) ==> r == YearMonthDay(f.year, f.month, start.day)
    ensures var start := prevEndDate.GetOr(now);
      billingPeriod == Yearly && !(start.month == 2 && start.day == 29) ==>
        r == YearMonthDay(start.year + 1, start.month, start.day)
  {
    var start := prevEndDate.GetOr(now);
    if billingPeriod == Monthly then AddOneMonth(start)
    else if billingPeriod == Yearly then AddOneYear(start)
    else start
  }

  /** A renewal's new end is measured from the previous end alone; the clock does not enter it. */
  lemma RenewalEndIgnoresClock(billingPeriod: string, prevEndDate: Date, now1: Date, now2: Date)
    ensures CalculateEndAt(billingPeriod, Some(prevEndDate), now1) == CalculateEndAt(billingPeriod, Some(prevEndDate), now2)
  {
  }

  /** Worked examples of the carry-forward rule. */
  lemma EndAtExamples()
    ensures CalculateEndAt(Monthly, Some(YearMonthDay(2024, 1, 15)), YearMonthDay(2024, 2, 20)) == YearMonthDay(2024, 2, 15)
    ensures CalculateEndAt(Monthly, None, YearMonthDay(2023, 1, 31)) == YearMonthDay(2023, 3, 3)
    ensures CalculateEndAt(Monthly, None, YearMonthDay(2024, 1, 31)) == YearMonthDay(2024, 3, 2)
    ensures CalculateEndAt(Monthly, None, YearMonthDay(2024, 12, 31)) == YearMonthDay(2025, 1, 31)
    ensures CalculateEndAt(Yearly, None, YearMonthDay(2024, 2, 29)) == YearMonthDay(2025, 3, 1)
    ensures ToUpper("monthly") == Monthly
  {
    assert IsLeapYear(2024) && !IsLeapYear(2023);
  }
}
