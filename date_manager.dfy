/** The selected-date state of the home screen and the window of days it may range
    over: today through today + 7 in Seoul. The clock reading `Date()` is the `now`
    parameter of every member that consults it. */
module DateNavigation {
  import opened SeoulTime

  /** How many days past today a selection may reach. */
  const WindowDays: int := 7

  /** `t` falls on a day from today through today + 7. */
  predicate InWindow(t: int, now: int)
    ensures InWindow(t, now) <==>
      DateManager.MinDate(now) <= StartOfDay(t) <= StartOfDay(DateManager.MaxDate(now))
  {
    StartOfDayMonotone(now, t);
    StartOfDayMonotone(t, DateManager.MaxDate(now));
    DayIndex(now) <= DayIndex(t) <= DayIndex(now) + WindowDays
  }

  /** The day numbers of the window, today first. */
  function WindowDayNumbers(now: int): (days: seq<int>)
    ensures |days| == WindowDays + 1
  {
    seq(WindowDays + 1, i => DayIndex(now) + i)
  }

  class DateManager {
    var selectedDate: int

    /** `init(referenceDate:)`: the reference instant is kept as it is, time of day
        included. */
    constructor(referenceDate: int)
      ensures selectedDate == referenceDate
    {
      selectedDate := referenceDate;
    }

    /** `minDate`: the Seoul midnight that starts today. */
    static function MinDate(now: int): (r: int)
      ensures r <= now < r + SecondsPerDay
      ensures (r + SeoulOffset) % SecondsPerDay == 0
    {
      StartOfDay(now)
    }

    /** `maxDate`: the Seoul midnight seven days after `minDate`. */
    static function MaxDate(now: int): (r: int)
      ensures r == MinDate(now) + WindowDays * SecondsPerDay
      ensures (r + SeoulOffset) % SecondsPerDay == 0
      ensures DayIndex(r) == DayIndex(now) + WindowDays
    {
      AddingDays(StartOfDay(now), WindowDays)
    }

    /** `move(by:)`: shift the selection by `days` calendar days, keeping its time of
        day, when the new day lies from today through `maxDate`; otherwise change
        nothing. Only the candidate is checked, not the current selection. */
    method Move(days: int, now: int)
      modifies this
      ensures InWindow(AddingDays(old(selectedDate), days), now) ==>
        selectedDate == AddingDays(old(selectedDate), days)
        && DayIndex(selectedDate) == DayIndex(old(selectedDate)) + days
        && selectedDate - StartOfDay(selectedDate) == old(selectedDate) - StartOfDay(old(selectedDate))
      ensures !InWindow(AddingDays(old(selectedDate), days), now) ==> selectedDate == old(selectedDate)
      ensures InWindow(selectedDate, now) || selectedDate == old(selectedDate)
    {
      var newDate := AddingDays(selectedDate, days);
      var today := StartOfDay(now);
      var maxAllowed := StartOfDay(MaxDate(now));
      var newDay := StartOfDay(newDate);
      StartOfDayMonotone(newDate, now);
      StartOfDayMonotone(newDate, MaxDate(now));
      if newDay < today || newDay > maxAllowed {
        return;
      }
      selectedDate := newDate;
    }

    /** `resetToToday()`: the selection becomes the current instant itself, not its
        midnight. */
    method ResetToToday(now: int)
      modifies this
      ensures selectedDate == now
      ensures InWindow(selectedDate, now)
    {
      selectedDate := now;
    }
  }

  /** The window holds exactly eight distinct calendar days, from `minDate`'s through
      `maxDate`'s, and an instant is in the window exactly when its day is one of them. */
  lemma WindowIsEightDays(now: int)
    ensures var days := WindowDayNumbers(now);
      && |days| == 8
      && days[0] == DayIndex(DateManager.MinDate(now))
      && days[|days| - 1] == DayIndex(DateManager.MaxDate(now))
      && (forall i, j :: 0 <= i < j < |days| ==> days[i] < days[j])
    ensures forall t :: InWindow(t, now) <==> DayIndex(t) in WindowDayNumbers(now)
  {
    var days := WindowDayNumbers(now);
    forall t ensures InWindow(t, now) <==> DayIndex(t) in days {
      if InWindow(t, now) {
        assert days[DayIndex(t) - DayIndex(now)] == DayIndex(t);
      }
    }
  }

  /** Whatever the current selection, even one outside the window, some single move
      brings it back to today while keeping its time of day. */
  lemma MoveCanReturnToToday(selected: int, now: int)
    ensures var target := AddingDays(selected, DayIndex(now) - DayIndex(selected));
      InWindow(target, now) && DayIndex(target) == DayIndex(now)
  {
  }
}
