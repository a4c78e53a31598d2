/** The forms behind the schedule command (`cogs/schedule/ui.py`): the view
    that collects the daily check-in options, and the three reminder forms
    that turn typed thresholds and `HHMM` times into stored settings. */
module ScheduleUi {
  import opened Wrappers
  import opened Text
  import opened Clock
  import opened Records

  /** Every failure inside `on_submit` (a bad `int()`, a range check, a bad
      `time()`) is caught by the same handler, so they share one error. */
  datatype InputError = InvalidInput

  /** `BaseNotesThresholdModal._int_to_str`. */
  function IntToStr(value: Option<int>): (s: Option<string>)
    ensures s.None? <==> value.None?
    ensures value.Some? ==> s.value == IntToString(value.value)
  {
    match value
    case None => None
    case Some(n) => Some(IntToString(n))
  }

  /** `BaseNotesThresholdModal._str_to_int`: an empty field is `None`, any
      other text goes through `int()`, which raises on anything else. */
  function StrToInt(value: string): (r: Result<Option<int>, InputError>)
    ensures r == Ok(None) <==> value == ""
    ensures r.Ok? && r.value.Some? ==> ParseInt(value) == r.value
    ensures value != "" && ParseInt(value).Some? ==> r == Ok(ParseInt(value))
  {
    if |value| > 0 then
      match ParseInt(value)
      case None => Err(InvalidInput)
      case Some(n) => Ok(Some(n))
    else
      Ok(None)
  }

  /** A stored threshold shown in a form and submitted unchanged comes back
      as the same threshold. */
  lemma StrToIntOfIntToStr(value: Option<int>)
    ensures StrToInt(IntToStr(value).GetOr("")) == Ok(value)
  {
    if value.Some? {
      ParseIntToString(value.value);
    }
  }

  /** `time(v // 100, v % 100)`, which raises unless the hour is 0..23 and
      the minute 0..59. */
  function SplitHhmm(v: int): (r: Result<(int, int), InputError>)
    ensures r.Ok? <==> 0 <= v < 2400 && v % 100 < 60
    ensures r.Ok? ==> ValidTimeOfDay(r.value.0, r.value.1) && r.value.0 * 100 + r.value.1 == v
  {
    var hour, minute := v / 100, v % 100;
    if ValidTimeOfDay(hour, minute) then Ok((hour, minute)) else Err(InvalidInput)
  }

  function HourOf(t: int): (h: int)
    ensures 0 <= h <= 23
  {
    SecondOfDay(t) / HOUR
  }

  function MinuteOf(t: int): (m: int)
    ensures 0 <= m <= 59
  {
    SecondOfDay(t) % HOUR / MINUTE
  }

  /** `t.strftime("%H%M")`, the text a form shows for a stored check time. */
  function FormatHhmm(t: int): (s: string)
    ensures |s| == 4 && AllDigits(s)
  {
    AllDigitsAppend(Pad2(HourOf(t)), Pad2(MinuteOf(t)));
    Pad2(HourOf(t)) + Pad2(MinuteOf(t))
  }

  /** `t.strftime("%H:%M")`. */
  function FormatHourMinute(t: int): string {
    Pad2(HourOf(t)) + ":" + Pad2(MinuteOf(t))
  }

  /** A stored check time shown in a form and submitted unchanged is read
      back as the same hour and minute. */
  lemma FormatHhmmRoundTrip(t: int)
    ensures StrToInt(FormatHhmm(t)) == Ok(Some(HourOf(t) * 100 + MinuteOf(t)))
    ensures SplitHhmm(HourOf(t) * 100 + MinuteOf(t)) == Ok((HourOf(t), MinuteOf(t)))
  {
    var hh, mm := HourOf(t), MinuteOf(t);
    var s := FormatHhmm(t);
    DigitsValueAppend(Pad2(hh), Pad2(mm));
    assert Pow10(2) == 100;
    assert DigitsValue(s) == hh * 100 + mm;
    assert ParseInt(s) == Some(hh * 100 + mm);
    SplitOfHourMinute(hh, mm);
  }

  /** An hour and a minute written as `HHMM` split back into themselves. */
  lemma SplitOfHourMinute(hh: int, mm: int)
    requires ValidTimeOfDay(hh, mm)
    ensures SplitHhmm(hh * 100 + mm) == Ok((hh, mm))
  {
    var v := hh * 100 + mm;
    assert v / 100 == hh && v % 100 == mm;
  }

  /** The first due time of an optional daily `HHMM` rule. */
  function DailyTime(hhmm: Option<int>, now: int): (r: Result<Option<int>, InputError>)
    ensures r.Ok? <==> hhmm.None? || SplitHhmm(hhmm.value).Ok?
    ensures r.Ok? ==> (r.value.Some? <==> hhmm.Some?)
    ensures r.Ok? && hhmm.Some? ==>
      now <= r.value.value < now + DAY
      && SecondOfDay(r.value.value) == hhmm.value / 100 * HOUR + hhmm.value % 100 * MINUTE
  {
    match hhmm
    case None => Ok(None)
    case Some(v) =>
      match SplitHhmm(v)
      case Err(e) => Err(e)
      case Ok((hour, minute)) => Ok(Some(NextDaily(now, hour, minute)))
  }

  /** The first due time of an optional weekly (Sunday) `HHMM` rule. */
  function WeeklyTime(hhmm: Option<int>, now: int): (r: Result<Option<int>, InputError>)
    ensures r.Ok? <==> hhmm.None? || SplitHhmm(hhmm.value).Ok?
    ensures r.Ok? ==> (r.value.Some? <==> hhmm.Some?)
    ensures r.Ok? && hhmm.Some? ==>
      now <= r.value.value < now + WEEK
      && Weekday(DayOf(r.value.value)) == SUNDAY
      && SecondOfDay(r.value.value) == hhmm.value / 100 * HOUR + hhmm.value % 100 * MINUTE
  {
    match hhmm
    case None => Ok(None)
    case Some(v) =>
      match SplitHhmm(v)
      case Err(e) => Err(e)
      case Ok((hour, minute)) => Ok(Some(NextWeekly(now, hour, minute)))
  }

  /** The `on_submit` steps for one daily field: split the `HHMM` value,
      combine it with today, and move it on a day when it is already past. */
  method DailyDue(hhmm: Option<int>, now: int) returns (r: Result<Option<int>, InputError>)
    ensures r == DailyTime(hhmm, now)
  {
    r := Ok(None);
    if hhmm.Some? {
      var split := SplitHhmm(hhmm.value);
      if split.Err? {
        return Err(InvalidInput);
      }
      var due := At(DayOf(now), split.value.0, split.value.1);
      if due < now {
        due := due + DAY;
      }
      r := Ok(Some(due));
    }
  }

  /** The same for one weekly field, anchored on this week's Sunday
      (`today + (6 - weekday)` days) and moved on a week when already past. */
  method WeeklyDue(hhmm: Option<int>, now: int) returns (r: Result<Option<int>, InputError>)
    ensures r == WeeklyTime(hhmm, now)
  {
    r := Ok(None);
    if hhmm.Some? {
      var sunday := DayOf(now) + (6 - DayOf(now) % 7);
      var split := SplitHhmm(hhmm.value);
      if split.Err? {
        return Err(InvalidInput);
      }
      var due := At(sunday, split.value.0, split.value.1);
      if due < now {
        due := due + WEEK;
      }
      r := Ok(Some(due));
    }
  }

  /** An optional threshold is absent or lies in `0..hi`. */
  predicate InRange(v: Option<int>, hi: int) {
    v.None? || 0 <= v.value <= hi
  }

  /** `interaction.channel_id or 0`. */
  function ChannelOrZero(channel: Option<ChannelId>): ChannelId {
    channel.GetOr(0)
  }

  /** What `_to_msg` is given: nothing, a threshold in hours, or a moment. */
  datatype MsgValue = Absent | Hours(n: int) | Moment(t: int)

  function ThresholdMsg(v: Option<int>): MsgValue {
    if v.Some? then Hours(v.value) else Absent
  }

  function TimeMsg(v: Option<int>): MsgValue {
    if v.Some? then Moment(v.value) else Absent
  }

  /** `BaseNotesThresholdModal._to_msg`: one line of the confirmation. */
  function ToMsg(title: string, value: MsgValue, frequency: string): (line: string)
    ensures line == "" <==> value.Absent?
    ensures line != "" ==> IsPrefix("． " + title + "：", line) && line[|line| - 1] == '\n'
    ensures value.Moment? ==> Contains(line, FormatHourMinute(value.t))
    ensures value.Hours? && value.n != 0 ==> Contains(line, IntToString(value.n))
    ensures value.Hours? && value.n == 0 ==> line == "． " + title + "：Remind when completed\n"
  {
    var head := "． " + title + "：";
    match value
    case Absent => ""
    case Moment(t) =>
      var line := head + frequency + " " + FormatHourMinute(t) + " check\n";
      ContainsMiddle(head + frequency + " ", FormatHourMinute(t), " check\n");
      line
    case Hours(n) =>
      if n == 0 then
        head + "Remind when completed\n"
      else
        var line := head + "Remind " + IntToString(n) + " hours before completion\n";
        ContainsMiddle(head + "Remind ", IntToString(n), " hours before completion\n");
        line
  }

  lemma ContainsMiddle(a: string, b: string, c: string)
    ensures Contains(a + b + c, b)
  {
    assert IsPrefix(b, b);
    ContainsBefore(b, c, b);
    ContainsAfter(a, b + c, b);
    assert a + b + c == a + (b + c);
  }

  // ---------------------------------------------------------------------
  // Genshin Impact reminders (`GenshinNotesThresholdModal`)

  /** The five text fields of the Genshin form, as submitted. */
  datatype GenshinForm = GenshinForm(
    resin: string, currency: string, transformer: string, expedition: string, commission: string)

  const GenshinInputError: string :=
    "The input value is incorrect. Please ensure the input value is an integer and within the specified range"

  /** The five Genshin fields after `_str_to_int`. */
  datatype GenshinValues = GenshinValues(
    resin: Option<int>, currency: Option<int>, transformer: Option<int>,
    expedition: Option<int>, commission: Option<int>)

  /** `_str_to_int` on every Genshin field; the first `int()` that raises
      rejects the form. */
  function ParseGenshin(form: GenshinForm): (r: Result<GenshinValues, InputError>)
    ensures r.Ok? <==>
      StrToInt(form.resin).Ok? && StrToInt(form.currency).Ok? && StrToInt(form.transformer).Ok?
      && StrToInt(form.expedition).Ok? && StrToInt(form.commission).Ok?
    ensures r.Ok? ==>
      r.value == GenshinValues(StrToInt(form.resin).value, StrToInt(form.currency).value,
        StrToInt(form.transformer).value, StrToInt(form.expedition).value, StrToInt(form.commission).value)
  {
    var resin, currency, transformer := StrToInt(form.resin), StrToInt(form.currency), StrToInt(form.transformer);
    var expedition, commission := StrToInt(form.expedition), StrToInt(form.commission);
    if resin.Err? || currency.Err? || transformer.Err? || expedition.Err? || commission.Err? then
      Err(InvalidInput)
    else
      Ok(GenshinValues(resin.value, currency.value, transformer.value, expedition.value, commission.value))
  }

  /** What the Genshin form stores, or why it is rejected. */
  function GenshinSubmission(form: GenshinForm, now: int): (r: Result<GenshinNotes, InputError>)
    ensures r.Ok? ==>
      StrToInt(form.resin) == Ok(r.value.thresholdResin) && InRange(r.value.thresholdResin, 8)
      && StrToInt(form.currency) == Ok(r.value.thresholdCurrency) && InRange(r.value.thresholdCurrency, 24)
      && StrToInt(form.transformer) == Ok(r.value.thresholdTransformer) && InRange(r.value.thresholdTransformer, 5)
      && StrToInt(form.expedition) == Ok(r.value.thresholdExpedition) && InRange(r.value.thresholdExpedition, 5)
      && StrToInt(form.commission).Ok?
      && DailyTime(StrToInt(form.commission).value, now) == Ok(r.value.checkCommissionTime)
    ensures r.Ok? ==> form != GenshinForm("", "", "", "", "")
    ensures r.Err? ==>
      form == GenshinForm("", "", "", "", "")
      || StrToInt(form.resin).Err? || StrToInt(form.currency).Err? || StrToInt(form.transformer).Err?
      || StrToInt(form.expedition).Err? || StrToInt(form.commission).Err?
      || !InRange(StrToInt(form.resin).value, 8) || !InRange(StrToInt(form.currency).value, 24)
      || !InRange(StrToInt(form.transformer).value, 5) || !InRange(StrToInt(form.expedition).value, 5)
      || DailyTime(StrToInt(form.commission).value, now).Err?
  {
    match ParseGenshin(form)
    case Err(e) => Err(e)
    case Ok(v) =>
      if v.resin.None? && v.currency.None? && v.transformer.None? && v.expedition.None? && v.commission.None? then
        Err(InvalidInput)
      else if !InRange(v.resin, 8) || !InRange(v.currency, 24)
        || !InRange(v.transformer, 5) || !InRange(v.expedition, 5) then
        Err(InvalidInput)
      else
        match DailyTime(v.commission, now)
        case Err(e) => Err(e)
        case Ok(commissionTime) =>
          Ok(GenshinNotes(v.resin, v.currency, v.transformer, v.expedition, commissionTime))
  }

  /** The confirmation sent after the Genshin settings are stored. */
  function GenshinReport(notes: GenshinNotes): string {
    "Genshin Impact settings completed. Reminders will be sent when the following thresholds are reached:\n"
    + ToMsg("Resin", ThresholdMsg(notes.thresholdResin), "Every day")
    + ToMsg("Realm Currency", ThresholdMsg(notes.thresholdCurrency), "Every day")
    + ToMsg("Transformer", ThresholdMsg(notes.thresholdTransformer), "Every day")
    + ToMsg("Expedition", ThresholdMsg(notes.thresholdExpedition), "Every day")
    + ToMsg("Daily Commissions", TimeMsg(notes.checkCommissionTime), "Every day")
  }

  /** The message the user gets back: the error embed, or the
      confirmation listing what was stored. */
  function GenshinReply(result: Result<GenshinNotes, InputError>): string {
    match result
    case Err(_) => GenshinInputError
    case Ok(notes) => GenshinReport(notes)
  }

  /** `GenshinNotesThresholdModal.on_submit`: parses and checks the form,
      computes the commission check time, and stores the row. */
  method SubmitGenshin(tables: ScheduleTables, user: UserId, channel: Option<ChannelId>, form: GenshinForm, now: int)
    returns (result: Result<GenshinNotes, InputError>)
    modifies tables
    ensures tables.daily == old(tables.daily) && tables.starrailNotes == old(tables.starrailNotes)
    ensures tables.zzzNotes == old(tables.zzzNotes)
    ensures result == GenshinSubmission(form, now)
    ensures result.Err? ==> tables.genshinNotes == old(tables.genshinNotes)
    ensures result.Ok? ==> tables.genshinNotes == old(tables.genshinNotes)[user := Entry(ChannelOrZero(channel), result.value)]
  {
    result := Err(InvalidInput);
    var parsed := ParseGenshin(form);
    if parsed.Err? {
      return;
    }
    var v := parsed.value;
    if v.resin.None? && v.currency.None? && v.transformer.None? && v.expedition.None? && v.commission.None? {
      return;
    }
    if !InRange(v.resin, 8) || !InRange(v.currency, 24) || !InRange(v.transformer, 5) || !InRange(v.expedition, 5) {
      return;
    }
    var due := DailyDue(v.commission, now);
    if due.Err? {
      return;
    }
    var notes := GenshinNotes(v.resin, v.currency, v.transformer, v.expedition, due.value);
    tables.genshinNotes := tables.genshinNotes[user := Entry(ChannelOrZero(channel), notes)];
    result := Ok(notes);
  }

  /** What an unedited Genshin form submits: its prefilled values
      (`GenshinNotesThresholdModal.__init__`), an empty default being an
      empty field. */
  function GenshinPrefill(setting: Option<GenshinNotes>): (form: GenshinForm)
    ensures setting.None? ==> form == GenshinForm("1", "", "", "", "")
    ensures setting.Some? ==>
      var s := setting.value;
      StrToInt(form.resin) == Ok(s.thresholdResin) && StrToInt(form.currency) == Ok(s.thresholdCurrency)
      && StrToInt(form.transformer) == Ok(s.thresholdTransformer)
      && StrToInt(form.expedition) == Ok(s.thresholdExpedition)
      && StrToInt(form.commission) == Ok(TimeField(s.checkCommissionTime))
  {
    match setting
    case None => GenshinForm("1", "", "", "", "")
    case Some(s) =>
      StrToIntOfIntToStr(s.thresholdResin);
      StrToIntOfIntToStr(s.thresholdCurrency);
      StrToIntOfIntToStr(s.thresholdTransformer);
      StrToIntOfIntToStr(s.thresholdExpedition);
      PrefilledTime(s.checkCommissionTime);
      GenshinForm(
        IntToStr(s.thresholdResin).GetOr(""),
        IntToStr(s.thresholdCurrency).GetOr(""),
        IntToStr(s.thresholdTransformer).GetOr(""),
        IntToStr(s.thresholdExpedition).GetOr(""),
        if s.checkCommissionTime.Some? then FormatHhmm(s.checkCommissionTime.value) else "")
  }

  /** Re-submitting the form prefilled from a valid stored setting keeps every
      threshold and moves the commission check to its next occurrence at the
      same hour and minute. */
  lemma GenshinResubmit(s: GenshinNotes, now: int)
    requires InRange(s.thresholdResin, 8) && InRange(s.thresholdCurrency, 24)
    requires InRange(s.thresholdTransformer, 5) && InRange(s.thresholdExpedition, 5)
    requires s.thresholdResin.Some? || s.thresholdCurrency.Some? || s.thresholdTransformer.Some?
      || s.thresholdExpedition.Some? || s.checkCommissionTime.Some?
    ensures var r := GenshinSubmission(GenshinPrefill(Some(s)), now);
      r.Ok?
      && r.value.thresholdResin == s.thresholdResin && r.value.thresholdCurrency == s.thresholdCurrency
      && r.value.thresholdTransformer == s.thresholdTransformer
      && r.value.thresholdExpedition == s.thresholdExpedition
      && (s.checkCommissionTime.None? ==> r.value.checkCommissionTime.None?)
      && (s.checkCommissionTime.Some? ==>
            r.value.checkCommissionTime
            == Some(NextDaily(now, HourOf(s.checkCommissionTime.value), MinuteOf(s.checkCommissionTime.value))))
  {
    StrToIntOfIntToStr(s.thresholdResin);
    StrToIntOfIntToStr(s.thresholdCurrency);
    StrToIntOfIntToStr(s.thresholdTransformer);
    StrToIntOfIntToStr(s.thresholdExpedition);
    var form := GenshinPrefill(Some(s));
    if s.checkCommissionTime.Some? {
      FormatHhmmRoundTrip(s.checkCommissionTime.value);
      assert |form.commission| == 4;
    } else {
      assert form.commission == "";
    }
    assert form != GenshinForm("", "", "", "", "");
  }

  // ---------------------------------------------------------------------
  // Honkai: Star Rail reminders (`StarrailCheckNotesThresholdModal`)

  datatype StarrailForm = StarrailForm(
    power: string, expedition: string, dailyTraining: string, universe: string, echoOfWar: string)

  const StarrailInputError: string :=
    "The input value is incorrect. Please ensure the input value is an integer and within the specified range."

  /** The five Star Rail fields after `_str_to_int`. */
  datatype StarrailValues = StarrailValues(
    power: Option<int>, expedition: Option<int>, dailyTraining: Option<int>,
    universe: Option<int>, echoOfWar: Option<int>)

  function ParseStarrail(form: StarrailForm): (r: Result<StarrailValues, InputError>)
    ensures r.Ok? <==>
      StrToInt(form.power).Ok? && StrToInt(form.expedition).Ok? && StrToInt(form.dailyTraining).Ok?
      && StrToInt(form.universe).Ok? && StrToInt(form.echoOfWar).Ok?
    ensures r.Ok? ==>
      r.value == StarrailValues(StrToInt(form.power).value, StrToInt(form.expedition).value,
        StrToInt(form.dailyTraining).value, StrToInt(form.universe).value, StrToInt(form.echoOfWar).value)
  {
    var power, expedition := StrToInt(form.power), StrToInt(form.expedition);
    var daily, universe, echo := StrToInt(form.dailyTraining), StrToInt(form.universe), StrToInt(form.echoOfWar);
    if power.Err? || expedition.Err? || daily.Err? || universe.Err? || echo.Err? then
      Err(InvalidInput)
    else
      Ok(StarrailValues(power.value, expedition.value, daily.value, universe.value, echo.value))
  }

  /** What the Star Rail form stores, or why it is rejected. Only the two
      thresholds are range-checked; the daily training time is a daily rule,
      the Simulated Universe and weekly-boss times are Sunday rules. */
  function StarrailSubmission(form: StarrailForm, now: int): (r: Result<StarrailNotes, InputError>)
    ensures r.Ok? ==>
      StrToInt(form.power) == Ok(r.value.thresholdPower) && InRange(r.value.thresholdPower, 8)
      && StrToInt(form.expedition) == Ok(r.value.thresholdExpedition) && InRange(r.value.thresholdExpedition, 5)
      && StrToInt(form.dailyTraining).Ok?
      && DailyTime(StrToInt(form.dailyTraining).value, now) == Ok(r.value.checkDailyTrainingTime)
      && StrToInt(form.universe).Ok?
      && WeeklyTime(StrToInt(form.universe).value, now) == Ok(r.value.checkUniverseTime)
      && StrToInt(form.echoOfWar).Ok?
      && WeeklyTime(StrToInt(form.echoOfWar).value, now) == Ok(r.value.checkEchoOfWarTime)
    ensures r.Ok? ==> form != StarrailForm("", "", "", "", "")
    ensures r.Err? ==>
      form == StarrailForm("", "", "", "", "")
      || StrToInt(form.power).Err? || StrToInt(form.expedition).Err? || StrToInt(form.dailyTraining).Err?
      || StrToInt(form.universe).Err? || StrToInt(form.echoOfWar).Err?
      || !InRange(StrToInt(form.power).value, 8) || !InRange(StrToInt(form.expedition).value, 5)
      || DailyTime(StrToInt(form.dailyTraining).value, now).Err?
      || WeeklyTime(StrToInt(form.universe).value, now).Err?
      || WeeklyTime(StrToInt(form.echoOfWar).value, now).Err?
  {
    match ParseStarrail(form)
    case Err(e) => Err(e)
    case Ok(v) =>
      if v.power.None? && v.expedition.None? && v.dailyTraining.None? && v.universe.None? && v.echoOfWar.None? then
        Err(InvalidInput)
      else if !InRange(v.power, 8) || !InRange(v.expedition, 5) then
        Err(InvalidInput)
      else
        match DailyTime(v.dailyTraining, now)
        case Err(e) => Err(e)
        case Ok(dailyTime) =>
          match WeeklyTime(v.universe, now)
          case Err(e) => Err(e)
          case Ok(universeTime) =>
            match WeeklyTime(v.echoOfWar, now)
            case Err(e) => Err(e)
            case Ok(echoTime) =>
              Ok(StarrailNotes(v.power, v.expedition, dailyTime, universeTime, echoTime))
  }

  function StarrailReport(notes: StarrailNotes): string {
    "Honkai: Star Rail settings completed. Reminders will be sent when the following thresholds are reached:\n"
    + ToMsg("Trailblaze Power", ThresholdMsg(notes.thresholdPower), "Every day")
    + ToMsg("Expedition", ThresholdMsg(notes.thresholdExpedition), "Every day")
    + ToMsg("Daily Training", TimeMsg(notes.checkDailyTrainingTime), "Every day")
    + ToMsg("Simulated Universe", TimeMsg(notes.checkUniverseTime), "on Sundays")
    + ToMsg("Weekly bosses", TimeMsg(notes.checkEchoOfWarTime), "on Sundays")
  }

  /** The message the user gets back: the error embed, or the
      confirmation listing what was stored. */
  function StarrailReply(result: Result<StarrailNotes, InputError>): string {
    match result
    case Err(_) => StarrailInputError
    case Ok(notes) => StarrailReport(notes)
  }

  /** `StarrailCheckNotesThresholdModal.on_submit`. Both weekly rules are
      anchored on the Sunday of the current week. */
  method SubmitStarrail(tables: ScheduleTables, user: UserId, channel: Option<ChannelId>, form: StarrailForm, now: int)
    returns (result: Result<StarrailNotes, InputError>)
    modifies tables
    ensures tables.daily == old(tables.daily) && tables.genshinNotes == old(tables.genshinNotes)
    ensures tables.zzzNotes == old(tables.zzzNotes)
    ensures result == StarrailSubmission(form, now)
    ensures result.Err? ==> tables.starrailNotes == old(tables.starrailNotes)
    ensures result.Ok? ==> tables.starrailNotes == old(tables.starrailNotes)[user := Entry(ChannelOrZero(channel), result.value)]
  {
    result := Err(InvalidInput);
    var parsed := ParseStarrail(form);
    if parsed.Err? {
      return;
    }
    var v := parsed.value;
    if v.power.None? && v.expedition.None? && v.dailyTraining.None? && v.universe.None? && v.echoOfWar.None? {
      return;
    }
    if !InRange(v.power, 8) || !InRange(v.expedition, 5) {
      return;
    }
    var dailyDue := DailyDue(v.dailyTraining, now);
    if dailyDue.Err? {
      return;
    }
    var universeDue := WeeklyDue(v.universe, now);
    if universeDue.Err? {
      return;
    }
    var echoDue := WeeklyDue(v.echoOfWar, now);
    if echoDue.Err? {
      return;
    }
    var notes := StarrailNotes(v.power, v.expedition, dailyDue.value, universeDue.value, echoDue.value);
    tables.starrailNotes := tables.starrailNotes[user := Entry(ChannelOrZero(channel), notes)];
    result := Ok(notes);
  }

  /** What an unedited Star Rail form submits. Without a stored setting the
      Simulated Universe and weekly-boss fields are not reset and keep the
      defaults the form had before (`prevUniverse`, `prevEchoOfWar`). */
  function StarrailPrefill(setting: Option<StarrailNotes>, prevUniverse: Option<string>, prevEchoOfWar: Option<string>)
    : (form: StarrailForm)
    ensures setting.None? ==>
      form == StarrailForm("1", "", "", prevUniverse.GetOr(""), prevEchoOfWar.GetOr(""))
    ensures setting.Some? ==>
      var s := setting.value;
      StrToInt(form.power) == Ok(s.thresholdPower) && StrToInt(form.expedition) == Ok(s.thresholdExpedition)
      && StrToInt(form.dailyTraining) == Ok(TimeField(s.checkDailyTrainingTime))
      && StrToInt(form.universe) == Ok(TimeField(s.checkUniverseTime))
      && StrToInt(form.echoOfWar) == Ok(TimeField(s.checkEchoOfWarTime))
  {
    match setting
    case None => StarrailForm("1", "", "", prevUniverse.GetOr(""), prevEchoOfWar.GetOr(""))
    case Some(s) =>
      StrToIntOfIntToStr(s.thresholdPower);
      StrToIntOfIntToStr(s.thresholdExpedition);
      PrefilledTime(s.checkDailyTrainingTime);
      PrefilledTime(s.checkUniverseTime);
      PrefilledTime(s.checkEchoOfWarTime);
      StarrailForm(
        IntToStr(s.thresholdPower).GetOr(""),
        IntToStr(s.thresholdExpedition).GetOr(""),
        if s.checkDailyTrainingTime.Some? then FormatHhmm(s.checkDailyTrainingTime.value) else "",
        if s.checkUniverseTime.Some? then FormatHhmm(s.checkUniverseTime.value) else "",
        if s.checkEchoOfWarTime.Some? then FormatHhmm(s.checkEchoOfWarTime.value) else "")
  }

  /** The `HHMM` value a prefilled time field submits. */
  function TimeField(t: Option<int>): Option<int> {
    if t.Some? then Some(HourOf(t.value) * 100 + MinuteOf(t.value)) else None
  }

  lemma PrefilledTime(t: Option<int>)
    ensures StrToInt(if t.Some? then FormatHhmm(t.value) else "") == Ok(TimeField(t))
    ensures t.Some? ==> SplitHhmm(TimeField(t).value) == Ok((HourOf(t.value), MinuteOf(t.value)))
  {
    if t.Some? {
      FormatHhmmRoundTrip(t.value);
    }
  }

  /** Re-submitting the prefilled Star Rail form keeps the thresholds and
      moves each weekly check to its next Sunday at the same hour and minute. */
  lemma StarrailResubmit(s: StarrailNotes, now: int)
    requires InRange(s.thresholdPower, 8) && InRange(s.thresholdExpedition, 5)
    requires s.thresholdPower.Some? || s.thresholdExpedition.Some? || s.checkDailyTrainingTime.Some?
      || s.checkUniverseTime.Some? || s.checkEchoOfWarTime.Some?
    ensures var r := StarrailSubmission(StarrailPrefill(Some(s), None, None), now);
      r.Ok?
      && r.value.thresholdPower == s.thresholdPower && r.value.thresholdExpedition == s.thresholdExpedition
      && (s.checkDailyTrainingTime.Some? ==>
            r.value.checkDailyTrainingTime
            == Some(NextDaily(now, HourOf(s.checkDailyTrainingTime.value), MinuteOf(s.checkDailyTrainingTime.value))))
      && (s.checkUniverseTime.Some? ==>
            r.value.checkUniverseTime
            == Some(NextWeekly(now, HourOf(s.checkUniverseTime.value), MinuteOf(s.checkUniverseTime.value))))
      && (s.checkEchoOfWarTime.Some? ==>
            r.value.checkEchoOfWarTime
            == Some(NextWeekly(now, HourOf(s.checkEchoOfWarTime.value), MinuteOf(s.checkEchoOfWarTime.value))))
  {
    var form := StarrailPrefill(Some(s), None, None);
    StrToIntOfIntToStr(s.thresholdPower);
    StrToIntOfIntToStr(s.thresholdExpedition);
    var daily, universe, echo := TimeField(s.checkDailyTrainingTime), TimeField(s.checkUniverseTime), TimeField(s.checkEchoOfWarTime);
    PrefilledTime(s.checkDailyTrainingTime);
    PrefilledTime(s.checkUniverseTime);
    PrefilledTime(s.checkEchoOfWarTime);
    assert ParseStarrail(form) == Ok(StarrailValues(s.thresholdPower, s.thresholdExpedition, daily, universe, echo));
  }

  // ---------------------------------------------------------------------
  // Zenless Zone Zero reminders (`ZZZCheckNotesThresholdModal`)

  datatype ZzzForm = ZzzForm(battery: string, dailyEngagement: string)

  const ZzzInputError: string := GenshinInputError

  function ZzzSubmission(form: ZzzForm, now: int): (r: Result<ZzzNotes, InputError>)
    ensures r.Ok? ==>
      StrToInt(form.battery) == Ok(r.value.thresholdBattery) && InRange(r.value.thresholdBattery, 8)
      && StrToInt(form.dailyEngagement).Ok?
      && DailyTime(StrToInt(form.dailyEngagement).value, now) == Ok(r.value.checkDailyEngagementTime)
    ensures r.Ok? ==> form != ZzzForm("", "")
    ensures r.Err? ==>
      form == ZzzForm("", "")
      || StrToInt(form.battery).Err? || StrToInt(form.dailyEngagement).Err?
      || !InRange(StrToInt(form.battery).value, 8)
      || DailyTime(StrToInt(form.dailyEngagement).value, now).Err?
  {
    var battery, engagement := StrToInt(form.battery), StrToInt(form.dailyEngagement);
    if battery.Err? || engagement.Err? then
      Err(InvalidInput)
    else if battery.value.None? && engagement.value.None? then
      Err(InvalidInput)
    else if !InRange(battery.value, 8) then
      Err(InvalidInput)
    else
      match DailyTime(engagement.value, now)
      case Err(e) => Err(e)
      case Ok(engagementTime) => Ok(ZzzNotes(battery.value, engagementTime))
  }

  function ZzzReport(notes: ZzzNotes): string {
    "Zenless Zone Zero settings completed. Reminders will be sent when the following thresholds are reached：\n"
    + ToMsg("Battery", ThresholdMsg(notes.thresholdBattery), "Every day")
    + ToMsg("Daily Engagement", TimeMsg(notes.checkDailyEngagementTime), "Every day")
  }

  /** The message the user gets back: the error embed, or the
      confirmation listing what was stored. */
  function ZzzReply(result: Result<ZzzNotes, InputError>): string {
    match result
    case Err(_) => ZzzInputError
    case Ok(notes) => ZzzReport(notes)
  }

  /** `ZZZCheckNotesThresholdModal.on_submit`. */
  method SubmitZzz(tables: ScheduleTables, user: UserId, channel: Option<ChannelId>, form: ZzzForm, now: int)
    returns (result: Result<ZzzNotes, InputError>)
    modifies tables
    ensures tables.daily == old(tables.daily) && tables.genshinNotes == old(tables.genshinNotes)
    ensures tables.starrailNotes == old(tables.starrailNotes)
    ensures result == ZzzSubmission(form, now)
    ensures result.Err? ==> tables.zzzNotes == old(tables.zzzNotes)
    ensures result.Ok? ==> tables.zzzNotes == old(tables.zzzNotes)[user := Entry(ChannelOrZero(channel), result.value)]
  {
    result := Err(InvalidInput);
    var battery := StrToInt(form.battery);
    var engagement := StrToInt(form.dailyEngagement);
    if battery.Err? || engagement.Err? {
      return;
    }
    if battery.value.None? && engagement.value.None? {
      return;
    }
    if !InRange(battery.value, 8) {
      return;
    }
    var due := DailyDue(engagement.value, now);
    if due.Err? {
      return;
    }
    var engagementTime := due.value;
    var notes := ZzzNotes(battery.value, engagementTime);
    tables.zzzNotes := tables.zzzNotes[user := Entry(ChannelOrZero(channel), notes)];
    result := Ok(notes);
  }

  /** What an unedited ZZZ form submits (`ZZZCheckNotesThresholdModal.__init__`). */
  function ZzzPrefill(setting: Option<ZzzNotes>): (form: ZzzForm)
    ensures setting.None? ==> form == ZzzForm("1", "")
    ensures setting.Some? ==>
      StrToInt(form.battery) == Ok(setting.value.thresholdBattery)
      && StrToInt(form.dailyEngagement) == Ok(TimeField(setting.value.checkDailyEngagementTime))
  {
    match setting
    case None => ZzzForm("1", "")
    case Some(s) =>
      StrToIntOfIntToStr(s.thresholdBattery);
      PrefilledTime(s.checkDailyEngagementTime);
      ZzzForm(
        IntToStr(s.thresholdBattery).GetOr(""),
        if s.checkDailyEngagementTime.Some? then FormatHhmm(s.checkDailyEngagementTime.value) else "")
  }

  /** Re-submitting the prefilled ZZZ form keeps the battery threshold and
      moves the engagement check to its next occurrence. */
  lemma ZzzResubmit(s: ZzzNotes, now: int)
    requires InRange(s.thresholdBattery, 8)
    requires s.thresholdBattery.Some? || s.checkDailyEngagementTime.Some?
    ensures var r := ZzzSubmission(ZzzPrefill(Some(s)), now);
      r.Ok?
      && r.value.thresholdBattery == s.thresholdBattery
      && (s.checkDailyEngagementTime.Some? ==>
            r.value.checkDailyEngagementTime
            == Some(NextDaily(now, HourOf(s.checkDailyEngagementTime.value), MinuteOf(s.checkDailyEngagementTime.value))))
  {
    StrToIntOfIntToStr(s.thresholdBattery);
    if s.checkDailyEngagementTime.Some? {
      FormatHhmmRoundTrip(s.checkDailyEngagementTime.value);
    }
  }

  // ---------------------------------------------------------------------
  // Daily check-in options (`DailyRewardOptionsView`)

  datatype SelectOption = SelectOption(caption: string, value: string)

  /** The six games the view offers, label and value alike. */
  const GenshinName: string := "Genshin Impact"
  const HonkaiName: string := "Honkai Impact 3"
  const StarrailName: string := "Honkai: Star Rail"
  const ZzzName: string := "Zenless Zone Zero"
  const ThemisName: string := "Tears of Themis"
  const ThemisTwName: string := "Tears of Themis(TW)"
  const GameNames: seq<string> := [GenshinName, HonkaiName, StarrailName, ZzzName, ThemisName, ThemisTwName]

  /** Hours 0..23, labelled zero-padded. */
  function HourOptions(): (options: seq<SelectOption>)
    ensures |options| == 24
    ensures forall i :: 0 <= i < 24 ==> options[i].value == IntToString(i)
  {
    seq(24, i requires 0 <= i < 24 => SelectOption(Pad2(i), IntToString(i)))
  }

  /** Minutes 0, 5, ..., 55, labelled zero-padded. */
  function MinuteOptions(): (options: seq<SelectOption>)
    ensures |options| == 12
    ensures forall i :: 0 <= i < 12 ==> options[i].value == IntToString(5 * i)
  {
    seq(12, i requires 0 <= i < 12 => SelectOption(Pad2(5 * i), IntToString(5 * i)))
  }

  /** The value of an hour option reads back as that hour. */
  lemma HourOptionParses(v: string)
    requires exists i :: 0 <= i < 24 && HourOptions()[i].value == v
    ensures ParseInt(v).Some? && 0 <= ParseInt(v).value <= 23
    ensures IntToString(ParseInt(v).value) == v
  {
    var i :| 0 <= i < 24 && HourOptions()[i].value == v;
    assert v == IntToString(i);
    ParseIntToString(i);
  }

  /** The value of a minute option reads back as a multiple of five below 60. */
  lemma MinuteOptionParses(v: string)
    requires exists i :: 0 <= i < 12 && MinuteOptions()[i].value == v
    ensures ParseInt(v).Some? && 0 <= ParseInt(v).value <= 55 && ParseInt(v).value % 5 == 0
    ensures IntToString(ParseInt(v).value) == v
  {
    var i :| 0 <= i < 12 && MinuteOptions()[i].value == v;
    var m := 5 * i;
    assert v == IntToString(m);
    ParseIntToString(m);
    FiveTimes(i);
  }

  lemma FiveTimes(i: nat)
    requires i < 12
    ensures 0 <= 5 * i <= 55 && (5 * i) % 5 == 0
  {
  }

  class DailyRewardOptionsView {
    var selectedGames: Option<string>
    /** The `has_genshin` ... `has_themis_tw` attributes. */
    var games: GameFlags
    var hour: int
    var minute: int
    var isMention: Option<bool>
    var author: UserId
    /** Set by `stop()`: the command stops waiting on the view. */
    var stopped: bool

    /** The time is a selectable one, and a recorded selection has flagged
        at least one game. */
    predicate Valid()
      reads this
    {
      ValidTimeOfDay(hour, minute) && minute % 5 == 0
      && (games.themisTw ==> games.themis)
      && (selectedGames.Some? ==> games.Any())
    }

    constructor (author: UserId)
      ensures Valid()
      ensures selectedGames.None? && games == NoGames
      ensures hour == 8 && minute == 0 && isMention.None? && !stopped
      ensures this.author == author
    {
      selectedGames := None;
      games := NoGames;
      hour, minute := 8, 0;
      isMention := None;
      this.author := author;
      stopped := false;
    }

    /** `interaction_check`: only the author may use the view; Discord runs
        a callback only for an interaction that passes it. */
    predicate InteractionCheck(user: UserId): (allowed: bool)
      reads this
      ensures allowed <==> user == author
    {
      user == author
    }

    /** `select_games_callback`: records the joined selection and sets (never
        clears) each flag whose game name occurs in it. */
    method SelectGames(user: UserId, choices: seq<nat>)
      requires Valid() && InteractionCheck(user)
      requires 1 <= |choices| <= 6 && forall k :: 0 <= k < |choices| ==> choices[k] < 6
      modifies this
      ensures Valid()
      ensures selectedGames == Some(Selection(choices))
      ensures games == Marked(old(games), Selection(choices))
      ensures forall k :: 0 <= k < |choices| ==> FlagAt(games, choices[k])
      ensures hour == old(hour) && minute == old(minute) && isMention == old(isMention)
      ensures author == old(author) && stopped == old(stopped)
    {
      var joined := Selection(choices);
      SelectionFlagged(choices, games);
      selectedGames := Some(joined);
      games := Marked(games, joined);
    }

    /** `select_hour_callback`: an empty selection keeps the hour. */
    method SelectHour(user: UserId, values: seq<string>)
      requires Valid() && InteractionCheck(user)
      requires |values| <= 1
      requires |values| == 1 ==> exists i :: 0 <= i < 24 && HourOptions()[i].value == values[0]
      modifies this
      ensures Valid()
      ensures |values| == 0 ==> hour == old(hour)
      ensures |values| == 1 ==> IntToString(hour) == values[0]
      ensures minute == old(minute) && selectedGames == old(selectedGames) && games == old(games)
      ensures isMention == old(isMention) && author == old(author) && stopped == old(stopped)
    {
      if |values| > 0 {
        HourOptionParses(values[0]);
        hour := ParseInt(values[0]).value;
      }
    }

    /** `select_minute_callback`: the minute is always a multiple of five. */
    method SelectMinute(user: UserId, values: seq<string>)
      requires Valid() && InteractionCheck(user)
      requires |values| <= 1
      requires |values| == 1 ==> exists i :: 0 <= i < 12 && MinuteOptions()[i].value == values[0]
      modifies this
      ensures Valid()
      ensures |values| == 0 ==> minute == old(minute)
      ensures |values| == 1 ==> IntToString(minute) == values[0]
      ensures hour == old(hour) && selectedGames == old(selectedGames) && games == old(games)
      ensures isMention == old(isMention) && author == old(author) && stopped == old(stopped)
    {
      if |values| > 0 {
        MinuteOptionParses(values[0]);
        minute := ParseInt(values[0]).value;
      }
    }

    /** `button1_callback` ("tag") and `button2_callback` ("no tag"): record
        the choice and stop the view. */
    method ChooseMention(user: UserId, mention: bool)
      requires Valid() && InteractionCheck(user)
      modifies this
      ensures Valid()
      ensures isMention == Some(mention) && stopped
      ensures hour == old(hour) && minute == old(minute) && selectedGames == old(selectedGames)
      ensures games == old(games) && author == old(author)
    {
      isMention := Some(mention);
      stopped := true;
    }
  }

  /** The flag of the game at index `k` of `GameNames`. */
  predicate FlagAt(flags: GameFlags, k: nat) {
    match k
    case 0 => flags.genshin
    case 1 => flags.honkai3rd
    case 2 => flags.starrail
    case 3 => flags.zzz
    case 4 => flags.themis
    case _ => flags.themisTw
  }

  /** The flags after the substring tests: a flag is set when it was set
      before or its game name occurs in `joined`. */
  function Marked(before: GameFlags, joined: string): GameFlags {
    GameFlags(
      before.genshin || Contains(joined, GenshinName),
      before.honkai3rd || Contains(joined, HonkaiName),
      before.starrail || Contains(joined, StarrailName),
      before.zzz || Contains(joined, ZzzName),
      before.themis || Contains(joined, ThemisName),
      before.themisTw || Contains(joined, ThemisTwName))
  }

  /** The option values of a selection, given as indices into `GameNames`. */
  function SelectedNames(choices: seq<nat>): (values: seq<string>)
    requires forall k :: 0 <= k < |choices| ==> choices[k] < 6
    ensures |values| == |choices|
    ensures forall k :: 0 <= k < |choices| ==> values[k] == GameNames[choices[k]]
  {
    seq(|choices|, k requires 0 <= k < |choices| => GameNames[choices[k]])
  }

  /** The selection as the view records it: the chosen option values joined
      with " + ". */
  function Selection(choices: seq<nat>): (joined: string)
    requires forall k :: 0 <= k < |choices| ==> choices[k] < 6
  {
    Join(SelectedNames(choices), " + ")
  }

  /** The recorded selection names every chosen game. */
  lemma SelectionNamesEachGame(choices: seq<nat>)
    requires forall k :: 0 <= k < |choices| ==> choices[k] < 6
    ensures forall k :: 0 <= k < |choices| ==> Contains(Selection(choices), GameNames[choices[k]])
  {
    var values := SelectedNames(choices);
    forall k | 0 <= k < |choices|
      ensures Contains(Selection(choices), GameNames[choices[k]])
    {
      JoinContainsPart(values, " + ", k);
    }
  }

  /** After the substring tests every chosen game is flagged, so a
      non-empty selection flags some game; and the Taiwan server is never
      flagged without the international one. */
  lemma SelectionFlagged(choices: seq<nat>, before: GameFlags)
    requires 1 <= |choices| && forall k :: 0 <= k < |choices| ==> choices[k] < 6
    requires before.themisTw ==> before.themis
    ensures var flags := Marked(before, Selection(choices));
      && (forall k :: 0 <= k < |choices| ==> FlagAt(flags, choices[k]))
      && flags.Any()
      && (flags.themisTw ==> flags.themis)
  {
    var joined := Selection(choices);
    var flags := Marked(before, joined);
    SelectionNamesEachGame(choices);
    ThemisTwNamesThemis(joined);
    forall k | 0 <= k < |choices|
      ensures FlagAt(flags, choices[k])
    {
      var i := choices[k];
      assert Contains(joined, GameNames[i]);
      if i == 0 {
      } else if i == 1 {
      } else if i == 2 {
      } else if i == 3 {
      } else if i == 4 {
      } else {
        assert i == 5;
      }
    }
    assert FlagAt(flags, choices[0]);
  }

  /** "Tears of Themis" is a prefix of "Tears of Themis(TW)", so a selection
      naming the Taiwan server also flags the international one. */
  lemma ThemisTwNamesThemis(joined: string)
    ensures Contains(joined, GameNames[5]) ==> Contains(joined, GameNames[4])
  {
    if Contains(joined, GameNames[5]) {
      assert GameNames[5][..|GameNames[4]|] == GameNames[4];
      ContainsPrefixOf(joined, GameNames[5], GameNames[4]);
    }
  }

  /** No game name contains "+" or starts or ends with a space, so none
      can straddle the " + " between two chosen names. */
  lemma NamesInsideParts(j: nat)
    requires j < 6
    ensures InsidePart(GameNames[j])
  {
  }

  /** One game name occurs inside another only as "Tears of Themis" inside
      "Tears of Themis(TW)". */
  lemma NameNotInOtherName(i: nat, j: nat)
    requires i < 6 && j < 6 && i != j && !(i == 5 && j == 4)
    ensures !Contains(GameNames[i], GameNames[j])
  {
    var s, sub := GameNames[i], GameNames[j];
    if |sub| > |s| {
      NotContainsLonger(s, sub);
    } else if i == 2 && j == 1 {
      assert s[6] != sub[6];
      NotContainsFrom(s, sub, 1);
    } else {
      NotContainsFrom(s, sub, 0);
    }
  }

  /** Each flag of a fresh view is the substring test of its game's name. */
  lemma FlagIsNameTest(joined: string, j: nat)
    requires j < 6
    ensures FlagAt(Marked(NoGames, joined), j) <==> Contains(joined, GameNames[j])
  {
  }

  /** On a fresh view, a game ends flagged exactly when it was chosen, or,
      for the international Tears of Themis server, when the Taiwan server
      was chosen. */
  lemma SelectionFlagsExactly(choices: seq<nat>, j: nat)
    requires forall k :: 0 <= k < |choices| ==> choices[k] < 6
    requires j < 6
    ensures FlagAt(Marked(NoGames, Selection(choices)), j) <==> j in choices || (j == 4 && 5 in choices)
  {
    var joined := Selection(choices);
    var names := SelectedNames(choices);
    FlagIsNameTest(joined, j);
    SelectionNamesEachGame(choices);
    if j == 4 && 5 in choices {
      var k :| 0 <= k < |choices| && choices[k] == 5;
      ThemisTwNamesThemis(joined);
    }
    if Contains(joined, GameNames[j]) {
      NamesInsideParts(j);
      JoinContainsOnlyParts(names, GameNames[j]);
      var k :| 0 <= k < |names| && Contains(names[k], GameNames[j]);
      if choices[k] != j && !(choices[k] == 5 && j == 4) {
        NameNotInOtherName(choices[k], j);
      }
    }
  }
}
