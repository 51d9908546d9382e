/**
 * The two-line label block a shift occupies in a calendar day cell: the first
 * line shows the hours worked (or, in the shared calendar, the worker's name),
 * the second the day's wage. Hours are counted in tenths of an hour.
 */
module CalendarEventView {
  import opened Wrappers

  /** Only the shared calendar is told apart; every other mode behaves alike. */
  datatype CalendarMode = Shared | Personal

  /** A colour, named by its hex code. */
  type UiColor = string

  /** The shift's colour scheme: text colour and background colour. */
  datatype LabelColorString = LabelColorString(textColor: UiColor, backgroundColor: UiColor)

  /** The text and visibility of a label. */
  datatype Label = Label(text: Option<string>, hidden: bool)

  predicate IsDigit(c: char)
  {
    '0' <= c <= '9'
  }

  function DigitChar(d: nat): (c: char)
    requires d < 10
    ensures IsDigit(c)
  {
    "0123456789"[d]
  }

  lemma DigitCharInjective(d: nat, e: nat)
    requires d < 10 && e < 10
    ensures DigitChar(d) == DigitChar(e) <==> d == e
  {
  }

  /** The decimal digits of `n`, most significant first, without leading zeros. */
  function Decimal(n: nat): (s: string)
    ensures |s| >= 1
    ensures forall i :: 0 <= i < |s| ==> IsDigit(s[i])
    decreases n
  {
    if n < 10 then [DigitChar(n)]
    else Decimal(n / 10) + [DigitChar(n % 10)]
  }

  /** The number a string of decimal digits denotes, most significant digit first. */
  function DigitsValue(s: string): int
    decreases |s|
  {
    if s == [] then 0
    else 10 * DigitsValue(s[..|s| - 1]) + (s[|s| - 1] as int - '0' as int)
  }

  /** Reading back the digits `Decimal` writes gives the number written. */
  lemma {:induction false} DecimalValue(n: nat)
    ensures DigitsValue(Decimal(n)) == n
    decreases n
  {
    var s := Decimal(n);
    if n < 10 {
      assert s[..|s| - 1] == [];
    } else {
      assert s[..|s| - 1] == Decimal(n / 10);
      DecimalValue(n / 10);
    }
  }

  /** No two numbers share a decimal representation. */
  lemma DecimalInjective(n: nat, m: nat)
    requires Decimal(n) == Decimal(m)
    ensures n == m
  {
    DecimalValue(n);
    DecimalValue(m);
  }

  /** `String(format: "%.1f", workHour)` for a duration of `tenths` tenths of an hour. */
  function OneDecimal(tenths: nat): (s: string)
    ensures |s| >= 3
    ensures s[|s| - 2] == '.' && s[|s| - 1] == DigitChar(tenths % 10)
    ensures forall i :: 0 <= i < |s| - 2 ==> IsDigit(s[i])
    ensures DigitsValue(s[..|s| - 2]) == tenths / 10
  {
    var whole := Decimal(tenths / 10);
    DecimalValue(tenths / 10);
    assert (whole + "." + [DigitChar(tenths % 10)])[..|whole|] == whole;
    whole + "." + [DigitChar(tenths % 10)]
  }

  /** First-line text outside the shared calendar: the hours, with a trailing ".0" dropped. */
  function HoursText(tenths: nat): (t: string)
    ensures |t| >= 3 && t[|t| - 2..] == "시간"
    ensures '.' in t <==> tenths % 10 != 0
  {
    var s := OneDecimal(tenths);
    DigitCharInjective(tenths % 10, 0);
    if s[|s| - 1] == '0' then
      DigitsHaveNoPoint(s[..|s| - 2]);
      s[..|s| - 2] + "시간"
    else
      assert (s + "시간")[|s| - 2] == '.';
      s + "시간"
  }

  /** Digits followed by the hour suffix contain no decimal point. */
  lemma DigitsHaveNoPoint(p: string)
    requires forall i :: 0 <= i < |p| ==> IsDigit(p[i])
    ensures '.' !in p + "시간"
  {
  }

  /**
   * A whole number of hours is shown without a fraction ("8시간"); any other
   * duration with its one decimal ("7.5시간").
   */
  lemma HoursTextShape(tenths: nat)
    ensures tenths % 10 == 0 ==> HoursText(tenths) == Decimal(tenths / 10) + "시간"
    ensures tenths % 10 != 0 ==>
      HoursText(tenths) == Decimal(tenths / 10) + "." + [DigitChar(tenths % 10)] + "시간"
  {
  }

  /** Different durations never get the same first-line text. */
  lemma HoursTextInjective(a: nat, b: nat)
    requires HoursText(a) == HoursText(b)
    ensures a == b
  {
    HoursTextShape(a);
    HoursTextShape(b);
    var qa, qb := Decimal(a / 10), Decimal(b / 10);
    var t := HoursText(a);
    if a % 10 == 0 && b % 10 == 0 {
      assert qa == t[..|t| - 2] == qb;
      DecimalInjective(a / 10, b / 10);
    } else if a % 10 != 0 && b % 10 != 0 {
      assert |qa| == |qb|;
      assert qa == t[..|qa|] == qb;
      assert DigitChar(a % 10) == t[|qa| + 1] == DigitChar(b % 10);
      DecimalInjective(a / 10, b / 10);
      DigitCharInjective(a % 10, b % 10);
      assert a == 10 * (a / 10) + a % 10 && b == 10 * (b / 10) + b % 10;
    }
  }

  /** First-line text: the worker's name in the shared calendar, the hours otherwise. */
  function FirstLineText(tenths: nat, workerName: string, mode: CalendarMode): (t: string)
    ensures mode == Shared ==> t == workerName
    ensures mode != Shared ==> t == HoursText(tenths)
  {
    if mode == Shared then workerName else HoursText(tenths)
  }

  /**
   * The wage label after `update`. The shared calendar hides it and leaves its
   * text alone; otherwise an hourly wage shows the formatted daily wage, a
   * fixed wage shows "고정급", and anything else (the owner's own calendar)
   * gets "사장" and stays hidden.
   */
  function WageLabelAfter(before: Label, wageType: Option<string>, formattedWage: Option<string>,
                          mode: CalendarMode): (after: Label)
    ensures mode == Shared ==> after == before.(hidden := true)
    ensures mode != Shared ==> (!after.hidden <==> wageType == Some("시급") || wageType == Some("고정"))
    ensures mode != Shared && wageType == Some("시급") ==> after.text == formattedWage
    ensures mode != Shared && wageType == Some("고정") ==> after.text == Some("고정급")
    ensures mode != Shared && wageType != Some("시급") && wageType != Some("고정") ==>
      after.text == Some("사장")
  {
    if mode == Shared then before.(hidden := true)
    else if wageType == Some("시급") then Label(formattedWage, false)
    else if wageType == Some("고정") then Label(Some("고정급"), false)
    else Label(Some("사장"), true)
  }

  class CalendarEventVStack {
    var workHourOrNameLabel: Label
    var dailyWageLabel: Label
    var workHourOrNameTextColor: Option<UiColor>
    var dailyWageTextColor: Option<UiColor>
    var backgroundColor: Option<UiColor>

    constructor ()
      ensures workHourOrNameLabel == Label(None, false) && dailyWageLabel == Label(None, false)
      ensures workHourOrNameTextColor == None && dailyWageTextColor == None && backgroundColor == None
    {
      workHourOrNameLabel := Label(None, false);
      dailyWageLabel := Label(None, false);
      workHourOrNameTextColor, dailyWageTextColor, backgroundColor := None, None, None;
    }

    /**
     * `update`: sets both lines from the mode and wage type, and paints both
     * labels with the text colour and the block with the background colour.
     * `decimalFormat` stands for the app's grouping number formatter.
     */
    method Update(workHourTenths: nat, workerName: string, wageType: Option<string>, dailyWage: int,
                  calendarMode: CalendarMode, color: LabelColorString,
                  decimalFormat: int -> Option<string>)
      modifies this
      ensures workHourOrNameLabel ==
        old(workHourOrNameLabel).(text := Some(FirstLineText(workHourTenths, workerName, calendarMode)))
      ensures dailyWageLabel ==
        WageLabelAfter(old(dailyWageLabel), wageType, decimalFormat(dailyWage), calendarMode)
      ensures workHourOrNameTextColor == Some(color.textColor)
      ensures dailyWageTextColor == Some(color.textColor)
      ensures backgroundColor == Some(color.backgroundColor)
    {
      var workHourStr := OneDecimal(workHourTenths);
      if calendarMode == Shared {
        workHourOrNameLabel := workHourOrNameLabel.(text := Some(workerName));
      } else if workHourStr[|workHourStr| - 1] == '0' {
        workHourOrNameLabel := workHourOrNameLabel.(text := Some(workHourStr[..|workHourStr| - 2] + "시간"));
      } else {
        workHourOrNameLabel := workHourOrNameLabel.(text := Some(workHourStr + "시간"));
      }

      if calendarMode == Shared {
        dailyWageLabel := dailyWageLabel.(hidden := true);
      } else {
        if wageType == Some("시급") {
          dailyWageLabel := dailyWageLabel.(text := decimalFormat(dailyWage));
          dailyWageLabel := dailyWageLabel.(hidden := false);
        } else if wageType == Some("고정") {
          dailyWageLabel := dailyWageLabel.(text := Some("고정급"));
          dailyWageLabel := dailyWageLabel.(hidden := false);
        } else {
          dailyWageLabel := dailyWageLabel.(text := Some("사장"));
          dailyWageLabel := dailyWageLabel.(hidden := true);
        }
      }

      backgroundColor := Some(color.backgroundColor);
      workHourOrNameTextColor := Some(color.textColor);
      dailyWageTextColor := Some(color.textColor);
    }
  }
}
