/**
 * The date/time picker wrapper: `HH:MM` formatting of a picked time and
 * the rule for when the picker confirms or cancels on each platform.
 */
module DateTimePickerModal {
  import opened Wrappers
  import opened DateHelpers

  // ---------------------------------------------------------------------
  // Number formatting

  /** The decimal digit character for `d`. */
  function DigitChar(d: int): (c: char)
    requires 0 <= d < 10
    ensures IsDigit(c)
  {
    ('0' as int + d) as char
  }

  /** The value of a digit character. */
  function DigitValue(c: char): int {
    c as int - '0' as int
  }

  predicate IsDigit(c: char) {
    '0' <= c <= '9'
  }

  /** Digit characters and digit values correspond one to one. */
  lemma DigitCharValue(d: int)
    requires 0 <= d < 10
    ensures IsDigit(DigitChar(d)) && DigitValue(DigitChar(d)) == d
  {
  }

  /** `n.toString()` for a non-negative integer: its decimal digits, no leading zero. */
  function DecimalString(n: nat): (s: string)
    ensures |s| >= 1
    ensures forall i :: 0 <= i < |s| ==> IsDigit(s[i])
    ensures (|s| == 1) == (n < 10)
    ensures n > 0 ==> s[0] != '0'
  {
    if n < 10 then [DigitChar(n)] else DecimalString(n / 10) + [DigitChar(n % 10)]
  }

  /** The number a string of decimal digits denotes. */
  function DigitsValue(s: string): int {
    if s == [] then 0 else DigitsValue(s[..|s| - 1]) * 10 + DigitValue(s[|s| - 1])
  }

  /** Reading back what `toString` wrote gives the number. */
  lemma {:induction false} DecimalRoundTrip(n: nat)
    ensures DigitsValue(DecimalString(n)) == n
  {
    var s := DecimalString(n);
    if n >= 10 {
      DecimalRoundTrip(n / 10);
      assert s[..|s| - 1] == DecimalString(n / 10);
    }
  }

  /** `s.padStart(width, fill)` for a one-character fill. */
  function PadStart(s: string, width: nat, fill: char): (r: string)
    ensures |r| == if |s| >= width then |s| else width
    ensures r[|r| - |s|..] == s
    ensures forall i :: 0 <= i < |r| - |s| ==> r[i] == fill
  {
    if |s| >= width then s else seq(width - |s|, _ => fill) + s
  }

  /** `n.toString().padStart(2, '0')`. */
  function Pad2(n: nat): string {
    PadStart(DecimalString(n), 2, '0')
  }

  /** A value below ten gets exactly one leading zero. */
  lemma Pad2OneDigit(n: nat)
    requires n < 10
    ensures Pad2(n) == ['0', DigitChar(n)]
  {
    var s := DecimalString(n);
    assert s == [DigitChar(n)];
    assert Pad2(n)[1..] == s;
  }

  /** A two-digit value is not padded. */
  lemma Pad2TwoDigits(n: nat)
    requires 10 <= n < 100
    ensures Pad2(n) == DecimalString(n) == [DigitChar(n / 10), DigitChar(n % 10)]
  {
    assert DecimalString(n / 10) == [DigitChar(n / 10)];
  }

  /** Below one hundred, the padded text is the tens digit followed by the units digit. */
  lemma Pad2Digits(n: nat)
    requires n < 100
    ensures Pad2(n) == [DigitChar(n / 10), DigitChar(n % 10)]
  {
    if n < 10 { Pad2OneDigit(n); } else { Pad2TwoDigits(n); }
  }

  /** The picked time as `${hours}:${minutes}`. */
  function FormatTime(hours: nat, minutes: nat): string {
    Pad2(hours) + ":" + Pad2(minutes)
  }

  /** Two two-character texts joined by ':'. */
  lemma JoinedShape(hh: string, mm: string)
    requires |hh| == 2 && |mm| == 2
    ensures hh + ":" + mm == [hh[0], hh[1], ':', mm[0], mm[1]]
  {
  }

  /** For a real clock time the text is five characters, two digits each side of ':' at index 2. */
  lemma FormatTimeShape(hours: nat, minutes: nat)
    requires hours < 24 && minutes < 60
    ensures var s := FormatTime(hours, minutes);
      && |s| == 5 && s[2] == ':'
      && s == [DigitChar(hours / 10), DigitChar(hours % 10), ':', DigitChar(minutes / 10), DigitChar(minutes % 10)]
  {
    Pad2Digits(hours);
    Pad2Digits(minutes);
    JoinedShape(Pad2(hours), Pad2(minutes));
  }

  /** Reads an `HH:MM` text back into hours and minutes. */
  function ParseTime(s: string): Option<(nat, nat)> {
    if |s| == 5 && IsDigit(s[0]) && IsDigit(s[1]) && s[2] == ':' && IsDigit(s[3]) && IsDigit(s[4])
    then Some((10 * DigitValue(s[0]) + DigitValue(s[1]), 10 * DigitValue(s[3]) + DigitValue(s[4])))
    else None
  }

  /** Parsing five characters of the `HH:MM` shape. */
  lemma ParseDigits(h1: int, h0: int, m1: int, m0: int)
    requires 0 <= h1 < 10 && 0 <= h0 < 10 && 0 <= m1 < 10 && 0 <= m0 < 10
    ensures ParseTime([DigitChar(h1), DigitChar(h0), ':', DigitChar(m1), DigitChar(m0)])
      == Some((10 * h1 + h0, 10 * m1 + m0))
  {
    DigitCharValue(h1);
    DigitCharValue(h0);
    DigitCharValue(m1);
    DigitCharValue(m0);
  }

  /** Formatting loses nothing: the hours and minutes can be read back. */
  lemma FormatTimeRoundTrip(hours: nat, minutes: nat)
    requires hours < 24 && minutes < 60
    ensures ParseTime(FormatTime(hours, minutes)) == Some((hours, minutes))
  {
    var h1, h0, m1, m0 := hours / 10, hours % 10, minutes / 10, minutes % 10;
    assert 10 * h1 + h0 == hours && 10 * m1 + m0 == minutes;
    FormatTimeShape(hours, minutes);
    ParseDigits(h1, h0, m1, m0);
  }

  /** Distinct clock times give distinct texts. */
  lemma FormatTimeInjective(h1: nat, m1: nat, h2: nat, m2: nat)
    requires h1 < 24 && m1 < 60 && h2 < 24 && m2 < 60
    requires FormatTime(h1, m1) == FormatTime(h2, m2)
    ensures h1 == h2 && m1 == m2
  {
    FormatTimeRoundTrip(h1, m1);
    FormatTimeRoundTrip(h2, m2);
  }

  /** `getHours()`. */
  function Hours(d: Date): nat {
    d.time / MsPerHour
  }

  /** `getMinutes()`. */
  function Minutes(d: Date): nat {
    (d.time / MsPerMinute) % 60
  }

  /** The clock fields of any date are a real clock time, at or before its time of day. */
  lemma ClockFields(d: Date)
    ensures Hours(d) < 24 && Minutes(d) < 60
    ensures Hours(d) * MsPerHour + Minutes(d) * MsPerMinute <= d.time
  {
  }

  // ---------------------------------------------------------------------
  // Confirm / cancel rule

  datatype Platform = Android | IOS | Web

  datatype Mode = DateMode | TimeMode

  /** The argument given to `onConfirm`. */
  datatype Picked = PickedDate(date: Date) | PickedTime(text: string)

  /** A call to one of the two callbacks the modal receives. */
  datatype Callback = OnCancel | OnConfirm(value: Picked)

  /** What confirming `d` hands to `onConfirm`: the date itself, or its `HH:MM` text. */
  function ConfirmedValue(mode: Mode, d: Date): (v: Picked)
    ensures mode == DateMode ==> v == PickedDate(d)
    ensures mode == TimeMode ==> v.PickedTime? && |v.text| == 5 && v.text[2] == ':'
    ensures mode == TimeMode ==> ParseTime(v.text) == Some((Hours(d), Minutes(d)))
  {
    ClockFields(d);
    FormatTimeShape(Hours(d), Minutes(d));
    FormatTimeRoundTrip(Hours(d), Minutes(d));
    if mode == DateMode then PickedDate(d) else PickedTime(FormatTime(Hours(d), Minutes(d)))
  }

  /** The callbacks of an Android change event, in order. */
  function AndroidChange(mode: Mode, selected: Option<Date>): (calls: seq<Callback>)
    ensures |calls| >= 1 && calls[0] == OnCancel
  {
    [OnCancel] + if selected.Some? then [OnConfirm(ConfirmedValue(mode, selected.value))] else []
  }

  /** How many `onConfirm` calls a sequence holds. */
  function ConfirmCount(calls: seq<Callback>): nat {
    if calls == [] then 0
    else (if calls[0].OnConfirm? then 1 else 0) + ConfirmCount(calls[1..])
  }

  /** A leading cancel adds no confirmation. */
  lemma CountAfterCancel(rest: seq<Callback>)
    ensures ConfirmCount([OnCancel] + rest) == ConfirmCount(rest)
  {
    assert ([OnCancel] + rest)[1..] == rest;
  }

  /** A single confirmation counts once. */
  lemma CountSingleConfirm(v: Picked)
    ensures ConfirmCount([OnConfirm(v)]) == 1
  {
    assert [OnConfirm(v)][1..] == [];
  }

  /** On Android a change always cancels, and confirms once exactly when a value was selected. */
  lemma AndroidConfirmsAtMostOnce(mode: Mode, selected: Option<Date>)
    ensures AndroidChange(mode, selected)[0] == OnCancel
    ensures ConfirmCount(AndroidChange(mode, selected)) == if selected.Some? then 1 else 0
    ensures selected.Some? ==> AndroidChange(mode, selected)[1] == OnConfirm(ConfirmedValue(mode, selected.value))
  {
    if selected.Some? {
      var v := ConfirmedValue(mode, selected.value);
      assert AndroidChange(mode, selected) == [OnCancel] + [OnConfirm(v)];
      CountAfterCancel([OnConfirm(v)]);
      CountSingleConfirm(v);
    } else {
      assert AndroidChange(mode, selected) == [OnCancel] + [];
      CountAfterCancel([]);
    }
  }

  /** The modal's `selectedValue` state, with its fixed mode and platform. */
  class PickerModal {
    const mode: Mode
    const os: Platform
    var selectedValue: Date

    /** `useState(date)`. */
    constructor (mode: Mode, os: Platform, date: Date)
      ensures this.mode == mode && this.os == os && selectedValue == date
    {
      this.mode := mode;
      this.os := os;
      selectedValue := date;
    }

    /** The visibility effect: becoming visible resets the value to the `date` prop. */
    method OnVisibleChanged(visible: bool, date: Date)
      modifies this
      ensures selectedValue == if visible then date else old(selectedValue)
    {
      if visible {
        selectedValue := date;
      }
    }

    /**
     * `handleChange`: on Android cancel, then confirm the selection if
     * there is one; elsewhere only stage the selection.
     */
    method HandleChange(selected: Option<Date>) returns (calls: seq<Callback>)
      modifies this
      ensures os == Android ==> calls == AndroidChange(mode, selected) && selectedValue == old(selectedValue)
      ensures os != Android ==> calls == [] && selectedValue == selected.GetOr(old(selectedValue))
    {
      if os == Android {
        calls := [OnCancel];
        if selected.Some? {
          calls := calls + [OnConfirm(ConfirmedValue(mode, selected.value))];
        }
      } else {
        calls := [];
        if selected.Some? {
          selectedValue := selected.value;
        }
      }
    }

    /** `handleConfirm`: confirm the staged value. */
    method HandleConfirm() returns (calls: seq<Callback>)
      ensures calls == [OnConfirm(ConfirmedValue(mode, selectedValue))]
      ensures ConfirmCount(calls) == 1
    {
      calls := [OnConfirm(ConfirmedValue(mode, selectedValue))];
    }
  }

  /**
   * Selecting `picked` confirms the same value on both paths: Android in
   * its change event, after the cancel; iOS only on the Confirm button.
   */
  method ConfirmPathsAgree(mode: Mode, initial: Date, picked: Date)
    returns (androidCalls: seq<Callback>, iosChange: seq<Callback>, iosConfirm: seq<Callback>)
    ensures iosChange == []
    ensures iosConfirm == [OnConfirm(ConfirmedValue(mode, picked))]
    ensures androidCalls == [OnCancel] + iosConfirm
  {
    var android := new PickerModal(mode, Android, initial);
    androidCalls := android.HandleChange(Some(picked));
    var ios := new PickerModal(mode, IOS, initial);
    iosChange := ios.HandleChange(Some(picked));
    iosConfirm := ios.HandleConfirm();
  }
}
