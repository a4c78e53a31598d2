/** `cogs.admin.cog`: the maintenance window, the list of server names sent
    in chunks, and the rotating presence text. */
module Admin {
  import opened Wrappers
  import opened Text

  // ---------------------------------------------------------------------
  // Calendar (the proleptic Gregorian calendar of Python's `datetime`)
  // ---------------------------------------------------------------------

  predicate IsLeap(y: int) {
    y % 4 == 0 && (y % 100 != 0 || y % 400 == 0)
  }

  function DaysInMonth(y: int, m: int): (n: int)
    requires 1 <= m <= 12
    ensures 28 <= n <= 31
  {
    if m == 2 then (if IsLeap(y) then 29 else 28)
    else if m in {4, 6, 9, 11} then 30
    else 31
  }

  /** Days in the months of year `y` before month `m`. */
  function DaysBeforeMonth(y: int, m: int): int
    requires 1 <= m <= 12
  {
    [0, 0, 31, 59, 90, 120, 151, 181, 212, 243, 273, 304, 334][m] + (if m > 2 && IsLeap(y) then 1 else 0)
  }

  /** Days in the years before year `y`. */
  function DaysBeforeYear(y: int): int
    requires y >= 1
  {
    var p := y - 1;
    p * 365 + p / 4 - p / 100 + p / 400
  }

  /** An hour of a day, as `datetime(year, month, day, hour)` accepts it. */
  datatype Moment = Moment(year: int, month: int, day: int, hour: int)

  predicate ValidMoment(t: Moment) {
    1 <= t.year <= 9999 && 1 <= t.month <= 12 && 1 <= t.day <= DaysInMonth(t.year, t.month) && 0 <= t.hour <= 23
  }

  /** The day's number, 1 for 1 January of year 1. */
  function Ordinal(t: Moment): int
    requires ValidMoment(t)
  {
    DaysBeforeYear(t.year) + DaysBeforeMonth(t.year, t.month) + t.day
  }

  /** The hour's number since the start of year 1. */
  function HourStamp(t: Moment): int
    requires ValidMoment(t)
  {
    (Ordinal(t) - 1) * 24 + t.hour
  }

  /** The same hour of the next calendar day. */
  function NextDay(t: Moment): (u: Moment)
    requires ValidMoment(t)
    ensures u.hour == t.hour
  {
    if t.day < DaysInMonth(t.year, t.month) then t.(day := t.day + 1)
    else if t.month < 12 then t.(month := t.month + 1, day := 1)
    else Moment(t.year + 1, 1, 1, t.hour)
  }

  /** How `/ 4`, `/ 100` and `/ 400` change from `p` to `p + 1`. */
  lemma SuccDiv4(p: nat)
    ensures (p + 1) / 4 == (if p % 4 == 3 then p / 4 + 1 else p / 4)
    ensures (p + 1) % 4 == 0 <==> p % 4 == 3
  {
  }

  lemma SuccDiv100(p: nat)
    ensures (p + 1) / 100 == (if p % 100 == 99 then p / 100 + 1 else p / 100)
    ensures (p + 1) % 100 == 0 <==> p % 100 == 99
  {
  }

  lemma SuccDiv400(p: nat)
    ensures (p + 1) / 400 == (if p % 400 == 399 then p / 400 + 1 else p / 400)
    ensures (p + 1) % 400 == 0 <==> p % 400 == 399
  {
  }

  /** A year has 366 days when it is a leap year, and 365 otherwise. */
  lemma YearLength(y: int)
    requires y >= 1
    ensures DaysBeforeYear(y + 1) == DaysBeforeYear(y) + (if IsLeap(y) then 366 else 365)
  {
    var p := y - 1;
    SuccDiv4(p);
    SuccDiv100(p);
    SuccDiv400(p);
    var a4, a100, a400 := y / 4 - p / 4, y / 100 - p / 100, y / 400 - p / 400;
    assert DaysBeforeYear(y + 1) - DaysBeforeYear(y) == 365 + a4 - a100 + a400;
    assert IsLeap(y) <==> a4 == 1 && (a100 == 0 || a400 == 1);
  }

  /** Counting days is consistent with the calendar: the next day's number
      is one more, so a window of 24 hours ends at the same hour the next
      day. */
  lemma NextDayIsOneDayLater(t: Moment)
    requires ValidMoment(t) && t.year < 9999
    ensures ValidMoment(NextDay(t))
    ensures Ordinal(NextDay(t)) == Ordinal(t) + 1
    ensures HourStamp(NextDay(t)) == HourStamp(t) + 24
  {
    if t.day == DaysInMonth(t.year, t.month) && t.month == 12 {
      YearLength(t.year);
    }
  }

  // ---------------------------------------------------------------------
  // `/maintenance`
  // ---------------------------------------------------------------------

  /** A maintenance window: its first hour and the hour number it ends at. */
  datatype Window = Window(start: Moment, end: int)

  const DefaultHour: int := 6
  const DefaultDuration: int := 5

  /** `slash_maintenance`: month 0 or day 0 switches the window off;
      otherwise it starts at the given hour of the next occurrence of the
      month (this year if the month has not passed, else the next) and
      lasts `duration` hours. An `Err` is the `ValueError` of a date that
      does not exist. */
  function Maintenance(month: int, day: int, hour: int, duration: int, now: Moment): (r: Result<Option<Window>, string>)
    ensures r.Ok? && r.value.None? <==> month == 0 || day == 0
    ensures r.Ok? && r.value.Some? ==>
      var w := r.value.value;
      ValidMoment(w.start) &&
      w.start == Moment(if month >= now.month then now.year else now.year + 1, month, day, hour) &&
      w.end - HourStamp(w.start) == duration
    ensures r.Err? <==> (month != 0 && day != 0 &&
                         !ValidMoment(Moment(if month >= now.month then now.year else now.year + 1, month, day, hour)))
  {
    if month == 0 || day == 0 then Ok(None)
    else
      var start := Moment(if month >= now.month then now.year else now.year + 1, month, day, hour);
      if !ValidMoment(start) then Err("ValueError")
      else Ok(Some(Window(start, HourStamp(start) + duration)))
  }

  /** The day of the window is not compared with today: a window set for
      earlier in the current month starts in the past. */
  lemma SameMonthEarlierDayStaysThisYear(now: Moment, day: int)
    requires ValidMoment(now) && 1 <= day < now.day
    ensures var r := Maintenance(now.month, day, DefaultHour, DefaultDuration, now);
      r.Ok? && r.value.Some? && r.value.value.start.year == now.year &&
      HourStamp(r.value.value.start) < HourStamp(now)
  {
    var start := Moment(now.year, now.month, day, DefaultHour);
    assert ValidMoment(start);
    assert Ordinal(start) < Ordinal(now);
  }

  /** The bot's configuration that these commands change. */
  class Config {
    var maintenanceTime: Option<Window>

    constructor ()
      ensures maintenanceTime.None?
    {
      maintenanceTime := None;
    }

    /** Applies `/maintenance`; a date that does not exist changes
        nothing. */
    method SetMaintenance(month: int, day: int, hour: int, duration: int, now: Moment) returns (r: Result<Option<Window>, string>)
      modifies this
      ensures r == Maintenance(month, day, hour, duration, now)
      ensures maintenanceTime == if r.Ok? then r.value else old(maintenanceTime)
    {
      r := Maintenance(month, day, hour, duration, now);
      if r.Ok? {
        maintenanceTime := r.value;
      }
    }
  }

  // ---------------------------------------------------------------------
  // `/status SERVER_NAMES`
  // ---------------------------------------------------------------------

  const ChunkSize: nat := 100
  const NameSeparator: string := "、"

  function Min(a: int, b: int): int {
    if a < b then a else b
  }

  /** The names of one message, starting at `start`. */
  function Chunk(names: seq<string>, start: nat): seq<string>
    requires start < |names|
  {
    names[start..Min(start + ChunkSize, |names|)]
  }

  /** The names of the messages from `start` on. */
  function ChunksFrom(names: seq<string>, start: nat): (chunks: seq<seq<string>>)
    ensures forall k :: 0 <= k < |chunks| ==> 1 <= |chunks[k]| <= ChunkSize
    decreases |names| - start
  {
    if start >= |names| then [] else [Chunk(names, start)] + ChunksFrom(names, start + ChunkSize)
  }

  function Flatten(chunks: seq<seq<string>>): seq<string> {
    if |chunks| == 0 then [] else chunks[0] + Flatten(chunks[1..])
  }

  /** The chunks, in order, are the names, in order. */
  lemma {:induction false} ChunksConcat(names: seq<string>, start: nat)
    requires start <= |names|
    ensures Flatten(ChunksFrom(names, start)) == names[start..]
    decreases |names| - start
  {
    if start < |names| {
      var next := Min(start + ChunkSize, |names|);
      ChunksConcat(names, next);
      if next == |names| {
        assert ChunksFrom(names, start + ChunkSize) == [];
        assert ChunksFrom(names, start) == [Chunk(names, start)];
      } else {
        assert names[start..] == names[start..next] + names[next..];
      }
    }
  }

  /** All chunks but the last are full, so there are ceil(n / 100). */
  lemma {:induction false} ChunkCount(names: seq<string>, start: nat)
    requires start <= |names|
    ensures |ChunksFrom(names, start)| == (|names| - start + ChunkSize - 1) / ChunkSize
    decreases |names| - start
  {
    if start < |names| {
      ChunkCount(names, Min(start + ChunkSize, |names|));
    }
  }

  /** One message: a title numbering its first name, and the names. */
  datatype Embed = Embed(title: string, description: string)

  function ChunkTitle(first: int): string {
    "Connected Server Name(" + IntToString(first) + ")"
  }

  /** The loop of `slash_status` for `SERVER_NAMES`. */
  method ServerNames(names: seq<string>) returns (embeds: seq<Embed>)
    ensures |embeds| == |ChunksFrom(names, 0)|
    ensures forall k :: 0 <= k < |embeds| ==>
      embeds[k] == Embed(ChunkTitle(ChunkSize * k + 1), Join(ChunksFrom(names, 0)[k], NameSeparator))
  {
    embeds := [];
    ghost var done: seq<seq<string>> := [];
    var i := 0;
    while i < |names|
      invariant i == ChunkSize * |embeds| && |done| == |embeds|
      invariant ChunksFrom(names, 0) == done + ChunksFrom(names, i)
      invariant forall k :: 0 <= k < |embeds| ==>
        embeds[k] == Embed(ChunkTitle(ChunkSize * k + 1), Join(done[k], NameSeparator))
      decreases |names| - i
    {
      var chunk := Chunk(names, i);
      assert ChunksFrom(names, i) == [chunk] + ChunksFrom(names, i + ChunkSize);
      assert done + ChunksFrom(names, i) == (done + [chunk]) + ChunksFrom(names, i + ChunkSize);
      embeds := embeds + [Embed(ChunkTitle(i + 1), Join(chunk, NameSeparator))];
      done := done + [chunk];
      i := i + ChunkSize;
    }
  }

  // ---------------------------------------------------------------------
  // Presence
  // ---------------------------------------------------------------------

  /** The presence text for the draw `n` from `[0, |presence|]`: one of the
      texts, or the server count for the last draw. */
  function PresenceText(presence: seq<string>, n: int, serverCount: nat): (text: string)
    requires 0 <= n <= |presence|
    ensures n < |presence| ==> text == presence[n]
  {
    if n < |presence| then presence[n]
    else " in " + IntToString(serverCount) + " Servers"
  }

  /** Every text can be drawn, and the server count has a draw of its own. */
  lemma EveryPresenceDrawn(presence: seq<string>, serverCount: nat, s: string)
    ensures s in presence ==> exists n :: 0 <= n < |presence| && PresenceText(presence, n, serverCount) == s
    ensures PresenceText(presence, |presence|, serverCount) == " in " + IntToString(serverCount) + " Servers"
  {
    if s in presence {
      var n :| 0 <= n < |presence| && presence[n] == s;
      assert PresenceText(presence, n, serverCount) == s;
    }
  }

  class AdminCog {
    var presence: seq<string>

    constructor ()
      ensures presence == ["Hoyolab"]
    {
      presence := ["Hoyolab"];
    }

    /** `/system CHANGE_PRESENCE`: the comma-separated texts replace the
        list; without a parameter nothing changes. */
    method ChangePresenceList(param: Option<string>)
      modifies this
      ensures presence == if param.Some? then Split(param.value, ',') else old(presence)
      ensures |presence| >= 1 || presence == old(presence)
    {
      if param.Some? {
        presence := Split(param.value, ',');
      }
    }

    /** `change_presence`, for the draw `n` of `random.randint(0, length)`. */
    method ChangePresence(n: int, serverCount: nat) returns (text: string)
      requires 0 <= n <= |presence|
      ensures text == PresenceText(presence, n, serverCount)
    {
      var length := |presence|;
      if n < length {
        text := presence[n];
      } else {
        text := " in " + IntToString(serverCount) + " Servers";
      }
    }
  }
}
