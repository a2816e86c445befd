/**
 * The date-range picker modal: the two ends of the rental period chosen by tapping
 * calendar days, the pickup and dropoff times chosen from fixed half-hour options, and
 * the Confirm button that hands all four to the caller.
 */
module DateRangePicker {
  import opened Wrappers
  import opened Text
  import opened DateUtils

  // ---------------------------------------------------------------------------
  // Tapping calendar days
  // ---------------------------------------------------------------------------

  /** The pair `(tempStart, tempEnd)`. */
  datatype Selection = Selection(start: Option<string>, end: Option<string>)

  const Empty: Selection := Selection(None, None)

  /** A selection the confirm button accepts: both ends set. */
  predicate Confirmable(sel: Selection) {
    Truthy(sel.start) && Truthy(sel.end)
  }

  /**
   * `onDayPress`: a tap starts a new selection unless exactly a start is chosen and the
   * tapped day is not before it, in which case the tapped day becomes the end.
   */
  function Tap(sel: Selection, selected: string): (r: Selection)
    ensures r.end.None? <==> !Truthy(sel.start) || Truthy(sel.end) || IsBefore(selected, sel.start.value)
    ensures r.end.None? ==> r.start == Some(selected)
    ensures r.end.Some? ==> r.start == sel.start && r.end == Some(selected)
    ensures r.end.Some? ==> Truthy(r.start) && !IsBefore(r.end.value, r.start.value)
  {
    if !Truthy(sel.start) || Truthy(sel.end) then Selection(Some(selected), None)
    else if IsBefore(selected, sel.start.value) then Selection(Some(selected), None)
    else if selected == sel.start.value then Selection(sel.start, Some(selected))
    else Selection(sel.start, Some(selected))
  }

  /**
   * After a tap on a day of the calendar, a chosen end is the start itself or a later
   * day: the range is never reversed.
   */
  lemma TapKeepsOrder(sel: Selection, selected: string)
    requires Parse(selected).Some?
    ensures var r := Tap(sel, selected);
            r.end.Some? && Parse(r.start.value).Some? ==> r.start.value == r.end.value || IsBefore(r.start.value, r.end.value)
  {
    var r := Tap(sel, selected);
    if r.end.Some? && Parse(r.start.value).Some? {
      IsBeforeStrictTotal(r.start.value, r.end.value, r.end.value);
    }
  }

  /** Two taps from nothing: a later (or the same) second day closes the range, an earlier one restarts it. */
  lemma TwoTaps(d1: string, d2: string)
    requires Parse(d1).Some? && Parse(d2).Some?
    ensures !IsBefore(d2, d1) ==> Tap(Tap(Empty, d1), d2) == Selection(Some(d1), Some(d2))
    ensures IsBefore(d2, d1) ==> Tap(Tap(Empty, d1), d2) == Selection(Some(d2), None)
  {
    assert Truthy(Some(d1));
  }

  /**
   * Three ascending taps do not make a range of three days: the third tap, with both
   * ends already set, starts over from the third day.
   */
  lemma ThreeAscendingTaps(d1: string, d2: string, d3: string)
    requires IsBefore(d1, d2) && IsBefore(d2, d3)
    ensures Tap(Tap(Tap(Empty, d1), d2), d3) == Selection(Some(d3), None)
  {
    TwoTaps(d1, d2);
    IsBeforeStrictTotal(d1, d2, d2);
    assert !IsBefore(d2, d1);
    assert Truthy(Some(d2));
  }

  // ---------------------------------------------------------------------------
  // The time options
  // ---------------------------------------------------------------------------

  datatype TimeMode = Pickup | Dropoff

  /** The `i`-th half hour of the day as `HH:mm`, character by character. */
  function HalfHour(i: nat): (r: string)
    requires i < 48
  {
    [DigitChar(i / 20), DigitChar(i / 2 % 10), ':', DigitChar(i % 2 * 3), '0']
  }

  /** `HalfHour(i)` is the zero-padded hour `i / 2` and minute 0 or 30. */
  lemma HalfHourText(i: nat)
    requires i < 48
    ensures HalfHour(i) == Pad2(i / 2) + ":" + Pad2(i % 2 * 30)
  {
    Pad2Chars(i / 2);
    Pad2Chars(i % 2 * 30);
    assert i / 2 / 10 == i / 20;
  }

  const EarlyMorning: seq<string> := [
    "00:00", "00:30", "01:00", "01:30", "02:00", "02:30", "03:00", "03:30",
    "04:00", "04:30", "05:00", "05:30", "06:00", "06:30", "07:00", "07:30"]

  const MorningAfternoon: seq<string> := [
    "08:00", "08:30", "09:00", "09:30", "10:00", "10:30", "11:00", "11:30", "12:00", "12:30",
    "13:00", "13:30", "14:00", "14:30", "15:00", "15:30", "16:00", "16:30", "17:00", "17:30"]

  const Evening: seq<string> := [
    "17:30", "18:00", "18:30", "19:00", "19:30", "20:00", "20:30", "21:00", "21:30",
    "22:00", "22:30", "23:00", "23:30"]

  /** The options of the three sections, in the order they are shown. */
  const TimeOptions: seq<string> := EarlyMorning + MorningAfternoon + Evening

  /**
   * The options are the half hours of the day in order, with half past five in the
   * afternoon shown twice: at the end of one section and at the start of the next.
   */
  lemma TimeOptionsAreHalfHours()
    ensures |TimeOptions| == 49
    ensures forall i | 0 <= i < 36 :: TimeOptions[i] == HalfHour(i)
    ensures TimeOptions[36] == HalfHour(35)
    ensures forall i | 37 <= i < 49 :: TimeOptions[i] == HalfHour(i - 1)
  {
    EarlyMorningHalfHours();
    MorningHalfHours();
    AfternoonHalfHours();
    EveningHalfHours();
  }

  lemma EarlyMorningHalfHours()
    ensures forall i | 0 <= i < 16 :: EarlyMorning[i] == HalfHour(i)
  {
  }

  lemma MorningHalfHours()
    ensures forall i | 16 <= i < 26 :: MorningAfternoon[i - 16] == HalfHour(i)
  {
  }

  lemma AfternoonHalfHours()
    ensures forall i | 26 <= i < 36 :: MorningAfternoon[i - 16] == HalfHour(i)
  {
  }

  lemma EveningHalfHours()
    ensures forall i | 35 <= i < 48 :: Evening[i - 35] == HalfHour(i)
  {
  }

  /** Every half hour of the day can be chosen. */
  lemma EveryHalfHourOffered(i: nat)
    requires i < 48
    ensures HalfHour(i) in TimeOptions
  {
    TimeOptionsAreHalfHours();
    if i < 36 {
      assert TimeOptions[i] == HalfHour(i);
    } else {
      assert TimeOptions[i + 1] == HalfHour(i);
    }
  }

  /** The label of half hour `i`: the hour on a 12-hour clock, the minutes, AM before noon. */
  lemma HalfHourLabel(i: nat)
    requires i < 48
    ensures To12HourFormat(HalfHour(i))
         == Some(IntToString(ClockHour(i / 2)) + ":" + Pad2(i % 2 * 30) + " " + (if i < 24 then "AM" else "PM"))
  {
    HalfHourText(i);
    To12HourFormatOfTime(i / 2, i % 2 * 30);
  }

  // ---------------------------------------------------------------------------
  // The modal's state
  // ---------------------------------------------------------------------------

  /** What Confirm passes to `onConfirm`. */
  datatype Confirmation = Confirmation(start: string, end: string, pickupTime: string, dropoffTime: string)

  /** The default of the two time props. */
  const DefaultTime: string := "10:00"

  /**
   * A tap leaves the confirm button enabled exactly when it is the second tap of a
   * range: a start is set, no end is, and the tapped day is not before the start.
   * Any other tap starts a new selection and disables the button.
   */
  lemma TapEnablesConfirm(sel: Selection, day: string)
    requires day != ""
    ensures Confirmable(Tap(sel, day)) <==> Truthy(sel.start) && !Truthy(sel.end) && !IsBefore(day, sel.start.value)
    ensures Confirmable(Tap(sel, day)) ==> Tap(sel, day) == Selection(sel.start, Some(day))
  {
  }

  class Picker {
    var tempStart: Option<string>
    var tempEnd: Option<string>
    var pickupTime: string
    var dropoffTime: string
    var showTimePicker: bool
    var timePickerMode: TimeMode

    /** The first render: the temp values start from the props; the time picker is closed, in pickup mode. */
    constructor(initialStart: Option<string>, initialEnd: Option<string>,
                initialPickupTime: Option<string>, initialDropoffTime: Option<string>)
      ensures tempStart == initialStart && tempEnd == initialEnd
      ensures pickupTime == initialPickupTime.GetOr(DefaultTime)
      ensures dropoffTime == initialDropoffTime.GetOr(DefaultTime)
      ensures !showTimePicker && timePickerMode == Pickup
    {
      tempStart := initialStart;
      tempEnd := initialEnd;
      pickupTime := initialPickupTime.GetOr(DefaultTime);
      dropoffTime := initialDropoffTime.GetOr(DefaultTime);
      showTimePicker := false;
      timePickerMode := Pickup;
    }

    function Selected(): Selection
      reads this
    {
      Selection(tempStart, tempEnd)
    }

    /**
     * The effect on `visible` and the initial props: while the modal is visible, all
     * four temp values are reset to the props; otherwise nothing changes.
     */
    method OnPropsChange(visible: bool, initialStart: Option<string>, initialEnd: Option<string>,
                         initialPickupTime: Option<string>, initialDropoffTime: Option<string>)
      modifies this
      ensures visible ==> tempStart == initialStart && tempEnd == initialEnd
                          && pickupTime == initialPickupTime.GetOr(DefaultTime)
                          && dropoffTime == initialDropoffTime.GetOr(DefaultTime)
      ensures !visible ==> tempStart == old(tempStart) && tempEnd == old(tempEnd)
                           && pickupTime == old(pickupTime) && dropoffTime == old(dropoffTime)
      ensures showTimePicker == old(showTimePicker) && timePickerMode == old(timePickerMode)
    {
      if visible {
        tempStart := initialStart;
        tempEnd := initialEnd;
        pickupTime := initialPickupTime.GetOr(DefaultTime);
        dropoffTime := initialDropoffTime.GetOr(DefaultTime);
      }
    }

    /** `onDayPress`: the selection moves as `Tap` says; the times are untouched. */
    method OnDayPress(selected: string)
      modifies this
      ensures Selected() == Tap(old(Selected()), selected)
      ensures pickupTime == old(pickupTime) && dropoffTime == old(dropoffTime)
      ensures showTimePicker == old(showTimePicker) && timePickerMode == old(timePickerMode)
    {
      if !Truthy(tempStart) || Truthy(tempEnd) {
        tempStart := Some(selected);
        tempEnd := None;
        return;
      }
      if IsBefore(selected, tempStart.value) {
        tempStart := Some(selected);
        tempEnd := None;
      } else if selected == tempStart.value {
        tempEnd := Some(selected);
      } else {
        tempEnd := Some(selected);
      }
    }

    /** `clearDates`: both ends are cleared; the times are untouched. */
    method ClearDates()
      modifies this
      ensures Selected() == Empty
      ensures pickupTime == old(pickupTime) && dropoffTime == old(dropoffTime)
      ensures showTimePicker == old(showTimePicker) && timePickerMode == old(timePickerMode)
    {
      tempStart := None;
      tempEnd := None;
    }

    /** Confirm is enabled exactly when both ends are set (`disabled={!tempStart || !tempEnd}`). */
    predicate ConfirmEnabled()
      reads this
    {
      Confirmable(Selected())
    }

    /**
     * `applyDates`: `onConfirm` is called, with both ends and the current times, only
     * when both ends are set.
     */
    method ApplyDates() returns (confirmed: Option<Confirmation>)
      ensures confirmed.Some? <==> Truthy(tempStart) && Truthy(tempEnd)
      ensures confirmed.Some? <==> ConfirmEnabled()
      ensures confirmed.Some? ==> confirmed.value
                                  == Confirmation(tempStart.value, tempEnd.value, pickupTime, dropoffTime)
    {
      if Truthy(tempStart) && Truthy(tempEnd) {
        confirmed := Some(Confirmation(tempStart.value, tempEnd.value, pickupTime, dropoffTime));
      } else {
        confirmed := None;
      }
    }

    /** `onOpenTimePicker`: the picker opens for the given field. */
    method OnOpenTimePicker(mode: TimeMode)
      modifies this
      ensures showTimePicker && timePickerMode == mode
      ensures Selected() == old(Selected()) && pickupTime == old(pickupTime) && dropoffTime == old(dropoffTime)
    {
      timePickerMode := mode;
      showTimePicker := true;
    }

    /** The close button and the back gesture of the time picker. */
    method CloseTimePicker()
      modifies this
      ensures !showTimePicker
      ensures Selected() == old(Selected()) && pickupTime == old(pickupTime) && dropoffTime == old(dropoffTime)
      ensures timePickerMode == old(timePickerMode)
    {
      showTimePicker := false;
    }

    /** Whether an option is highlighted: it is the time of the field being chosen. */
    predicate IsSelectedOption(time: string)
      reads this
    {
      if timePickerMode == Pickup then time == pickupTime else time == dropoffTime
    }

    /**
     * Pressing a time option: only the field of the current mode takes the time, and the
     * picker closes; reopened in the same mode, that option is the highlighted one.
     */
    method ChooseTime(time: string)
      modifies this
      ensures timePickerMode == Pickup ==> pickupTime == time && dropoffTime == old(dropoffTime)
      ensures timePickerMode == Dropoff ==> dropoffTime == time && pickupTime == old(pickupTime)
      ensures timePickerMode == old(timePickerMode) && IsSelectedOption(time)
      ensures !showTimePicker && Selected() == old(Selected())
    {
      if timePickerMode == Pickup {
        pickupTime := time;
      } else {
        dropoffTime := time;
      }
      showTimePicker := false;
    }
  }
}
