/** Resort records and their operating-hours strings. */
module Resorts {
  import opened Wrappers
  import opened Text

  /** Opening hours of a resort: the day session always, the night and late-night
      sessions when the resort runs them. */
  datatype OperatingHours = OperatingHours(day: string, night: Option<string>, lateNight: Option<string>)

  /** A resort of the catalog. `id` stands for the UUID each record receives. */
  datatype Resort = Resort(
    id: nat,
    name: string,
    latitude: real,
    longitude: real,
    homePageURL: string,
    slopeStatusURL: string,
    webCamURL: Option<string>,
    operatingHours: OperatingHours)

  const DayLabel: string := "주간 "
  const NightLabel: string := "야간 "
  const LateNightLabel: string := "심야 "
  const Separator: string := " | "

  /** Hours of a resort that runs only one session. */
  function Simple(hours: string): (h: OperatingHours)
    ensures h.day == hours && h.night == None && h.lateNight == None
  {
    OperatingHours(hours, None, None)
  }

  /** Card summary: the bare day hours, labelled as the day session only when a
      night session exists to tell it apart from. */
  function ShortSummary(h: OperatingHours): (r: string)
    ensures h.night.None? ==> r == h.day
    ensures h.night.Some? ==> r == DayLabel + h.day
  {
    if h.night.Some? then DayLabel + h.day else h.day
  }

  /** The labelled sessions of the detail line, in order: day, night, late night. */
  function DetailSegments(h: OperatingHours): (segs: seq<string>)
  {
    [DayLabel + h.day]
    + (if h.night.Some? then [NightLabel + h.night.value] else [])
    + (if h.lateNight.Some? then [LateNightLabel + h.lateNight.value] else [])
  }

  /** `segs` joined with `sep` between neighbours. */
  function Join(segs: seq<string>, sep: string): string
  {
    if |segs| == 0 then "" else if |segs| == 1 then segs[0] else segs[0] + sep + Join(segs[1..], sep)
  }

  /** Detail text as its specification: the labelled sessions joined by " | ". */
  function DetailText(h: OperatingHours): string
  {
    Join(DetailSegments(h), Separator)
  }

  /** `detailText`: starts from the day session and appends the night and late-night
      sessions in turn. */
  method BuildDetailText(h: OperatingHours) returns (text: string)
    ensures text == DetailText(h)
  {
    text := DayLabel + h.day;
    if h.night.Some? {
      text := text + Separator + NightLabel + h.night.value;
    }
    if h.lateNight.Some? {
      text := text + Separator + LateNightLabel + h.lateNight.value;
    }
    var segs := DetailSegments(h);
    if |segs| == 3 {
      assert Join(segs[1..], Separator) == segs[1] + Separator + segs[2];
    } else if |segs| == 2 {
      assert Join(segs, Separator) == segs[0] + Separator + segs[1];
    }
  }

  /** The detail text always opens with the labelled day session; with no night
      session it is exactly the summary, labelled. */
  lemma DetailTextStartsWithDay(h: OperatingHours)
    ensures IsPrefix(DayLabel + h.day, DetailText(h))
    ensures h.night.None? && h.lateNight.None? ==> DetailText(h) == DayLabel + ShortSummary(h)
  {
  }

  /** The summary depends on the night session only through its presence and never on
      the late-night session. */
  lemma ShortSummaryIgnoresLateNight(h: OperatingHours, night: Option<string>, lateNight: Option<string>)
    requires night.Some? == h.night.Some?
    ensures ShortSummary(OperatingHours(h.day, night, lateNight)) == ShortSummary(h)
  {
  }

  /** Hours built with `simple(h)` describe themselves as "주간 h" in the detail line. */
  lemma SimpleDetailText(hours: string)
    ensures DetailText(Simple(hours)) == DayLabel + hours
    ensures ShortSummary(Simple(hours)) == hours
  {
  }

  /** A night session adds exactly one labelled segment after the day segment, and a
      late-night session one more after that. */
  lemma DetailSegmentsCount(h: OperatingHours)
    ensures |DetailSegments(h)| == 1 + (if h.night.Some? then 1 else 0) + (if h.lateNight.Some? then 1 else 0)
    ensures h.night.Some? ==> DetailSegments(h)[1] == NightLabel + h.night.value
    ensures h.lateNight.Some? ==> DetailSegments(h)[|DetailSegments(h)| - 1] == LateNightLabel + h.lateNight.value
  {
  }
}
