/** The time widget's settings form: each control replaces the record with one or two fields changed. */
module TimeSettings {
  import opened Wrappers

  datatype ClockMode = Analogue | Digital

  datatype TimeData = TimeData(
    name: Option<string>,
    timeZone: Option<string>,
    hideTime: bool,
    mode: ClockMode,
    hour12: bool,
    showSeconds: bool,
    showMinutes: bool,
    showDayPeriod: bool,
    showDate: bool,
    colorCircles: bool)

  datatype Field = Name | TimeZone | HideTime | Mode | Hour12 | ShowSeconds | ShowMinutes
                 | ShowDayPeriod | ShowDate | ColorCircles

  predicate Agree(d: TimeData, e: TimeData, f: Field) {
    match f
    case Name => d.name == e.name
    case TimeZone => d.timeZone == e.timeZone
    case HideTime => d.hideTime == e.hideTime
    case Mode => d.mode == e.mode
    case Hour12 => d.hour12 == e.hour12
    case ShowSeconds => d.showSeconds == e.showSeconds
    case ShowMinutes => d.showMinutes == e.showMinutes
    case ShowDayPeriod => d.showDayPeriod == e.showDayPeriod
    case ShowDate => d.showDate == e.showDate
    case ColorCircles => d.colorCircles == e.colorCircles
  }

  /** `e` differs from `d` at most in the fields named. */
  predicate SameExcept(d: TimeData, e: TimeData, changed: set<Field>) {
    forall f :: f !in changed ==> Agree(d, e, f)
  }

  /** Agreeing on every field is equality. */
  lemma SameEverywhere(d: TimeData, e: TimeData)
    requires SameExcept(d, e, {})
    ensures d == e
  {
    assert Agree(d, e, Name) && Agree(d, e, TimeZone) && Agree(d, e, HideTime) && Agree(d, e, Mode);
    assert Agree(d, e, Hour12) && Agree(d, e, ShowSeconds) && Agree(d, e, ShowMinutes);
    assert Agree(d, e, ShowDayPeriod) && Agree(d, e, ShowDate) && Agree(d, e, ColorCircles);
  }

  function SetName(d: TimeData, name: string): (r: TimeData)
    ensures r.name == Some(name) && SameExcept(d, r, {Name})
  {
    d.(name := Some(name))
  }

  function SetTimeZone(d: TimeData, timeZone: Option<string>): (r: TimeData)
    ensures r.timeZone == timeZone && SameExcept(d, r, {TimeZone})
  {
    d.(timeZone := timeZone)
  }

  /** The "Display time" checkbox. */
  function ToggleHideTime(d: TimeData): (r: TimeData)
    ensures r.hideTime != d.hideTime && SameExcept(d, r, {HideTime})
  {
    d.(hideTime := !d.hideTime)
  }

  function SelectAnalogue(d: TimeData): (r: TimeData)
    ensures AnalogueChecked(r) && !TwelveHourChecked(r) && !TwentyFourHourChecked(r)
    ensures SameExcept(d, r, {Mode})
  {
    d.(mode := Analogue)
  }

  function SelectTwelveHour(d: TimeData): (r: TimeData)
    ensures TwelveHourChecked(r) && !AnalogueChecked(r) && !TwentyFourHourChecked(r)
    ensures r.mode == Digital && r.hour12 && SameExcept(d, r, {Mode, Hour12})
  {
    d.(mode := Digital, hour12 := true)
  }

  function SelectTwentyFourHour(d: TimeData): (r: TimeData)
    ensures TwentyFourHourChecked(r) && !AnalogueChecked(r) && !TwelveHourChecked(r)
    ensures r.mode == Digital && !r.hour12 && SameExcept(d, r, {Mode, Hour12})
  {
    d.(mode := Digital, hour12 := false)
  }

  function ToggleColorCircles(d: TimeData): (r: TimeData)
    ensures r.colorCircles != d.colorCircles && SameExcept(d, r, {ColorCircles})
  {
    d.(colorCircles := !d.colorCircles)
  }

  function ToggleShowSeconds(d: TimeData): (r: TimeData)
    ensures r.showSeconds != d.showSeconds && SameExcept(d, r, {ShowSeconds})
  {
    d.(showSeconds := !d.showSeconds)
  }

  function ToggleShowMinutes(d: TimeData): (r: TimeData)
    ensures r.showMinutes != d.showMinutes && SameExcept(d, r, {ShowMinutes})
  {
    d.(showMinutes := !d.showMinutes)
  }

  function ToggleShowDayPeriod(d: TimeData): (r: TimeData)
    ensures r.showDayPeriod != d.showDayPeriod && SameExcept(d, r, {ShowDayPeriod})
  {
    d.(showDayPeriod := !d.showDayPeriod)
  }

  function ToggleShowDate(d: TimeData): (r: TimeData)
    ensures r.showDate != d.showDate && SameExcept(d, r, {ShowDate})
  {
    d.(showDate := !d.showDate)
  }

  /** Every checkbox toggle undoes itself. */
  lemma TogglesAreInvolutions(d: TimeData)
    ensures ToggleHideTime(ToggleHideTime(d)) == d
    ensures ToggleColorCircles(ToggleColorCircles(d)) == d
    ensures ToggleShowSeconds(ToggleShowSeconds(d)) == d
    ensures ToggleShowMinutes(ToggleShowMinutes(d)) == d
    ensures ToggleShowDayPeriod(ToggleShowDayPeriod(d)) == d
    ensures ToggleShowDate(ToggleShowDate(d)) == d
  {
  }

  // The radio buttons' `checked` predicates.
  predicate AnalogueChecked(d: TimeData) { d.mode == Analogue }
  predicate TwelveHourChecked(d: TimeData) { d.mode == Digital && d.hour12 }
  predicate TwentyFourHourChecked(d: TimeData) { d.mode == Digital && !d.hour12 }

  /** Exactly one of the three clock radios is checked. */
  lemma ExactlyOneRadio(d: TimeData)
    ensures AnalogueChecked(d) || TwelveHourChecked(d) || TwentyFourHourChecked(d)
    ensures !(AnalogueChecked(d) && TwelveHourChecked(d))
    ensures !(AnalogueChecked(d) && TwentyFourHourChecked(d))
    ensures !(TwelveHourChecked(d) && TwentyFourHourChecked(d))
  {
  }

  /**
   * The "Display time" checkbox. It is checked exactly when the clock
   * options below it (the mode radios first) are offered.
   */
  function DisplayTimeChecked(d: TimeData): (checked: bool)
    ensures checked <==> Offered(d, ModeRadios)
    ensures checked ==> Offered(d, SecondsBox) && Offered(d, MinutesBox)
  {
    !d.hideTime
  }

  /** Clicking "Display time" flips the box and hides or reveals every clock option. */
  lemma DisplayTimeClick(d: TimeData, c: Control)
    ensures DisplayTimeChecked(ToggleHideTime(d)) != DisplayTimeChecked(d)
    ensures DisplayTimeChecked(ToggleHideTime(d)) ==> (Offered(ToggleHideTime(d), c) <==> OfferedWhileShown(d, c))
    ensures !DisplayTimeChecked(ToggleHideTime(d)) ==> !Offered(ToggleHideTime(d), c)
  {
  }

  /** The controls offered next to the clock, and when. */
  datatype Control = ModeRadios | ColorCirclesBox | SecondsBox | MinutesBox | DayPeriodBox

  function Offered(d: TimeData, c: Control): (shown: bool)
    ensures shown ==> !d.hideTime
    ensures c == ColorCirclesBox ==> (shown <==> !d.hideTime && AnalogueChecked(d))
    ensures c == DayPeriodBox ==> (shown <==> !d.hideTime && TwelveHourChecked(d))
    ensures c in {ModeRadios, SecondsBox, MinutesBox} ==> (shown <==> !d.hideTime)
  {
    !d.hideTime &&
    match c
    case ColorCirclesBox => d.mode == Analogue
    case DayPeriodBox => d.mode == Digital && d.hour12
    case _ => true
  }

  /** Whether a control would be offered with time displayed: it depends on the clock mode alone. */
  predicate OfferedWhileShown(d: TimeData, c: Control) {
    match c
    case ColorCirclesBox => AnalogueChecked(d)
    case DayPeriodBox => TwelveHourChecked(d)
    case _ => true
  }

  /** Choosing 24-hour hides the day-period option; choosing analogue shows the colour option unless time is hidden. */
  lemma RadioChoicesDriveOptions(d: TimeData)
    ensures !Offered(SelectTwentyFourHour(d), DayPeriodBox)
    ensures !Offered(SelectAnalogue(d), DayPeriodBox)
    ensures Offered(SelectAnalogue(d), ColorCirclesBox) <==> !d.hideTime
    ensures Offered(SelectTwelveHour(d), DayPeriodBox) <==> !d.hideTime
  {
  }
}
