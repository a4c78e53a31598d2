/** `ScheduleCommandCog`: the slash commands that switch a user's schedules
    on and off, let a channel manager remove one user's schedule in the
    channel, and move every schedule of a channel to another channel. The
    chat replies are reduced to a `Reply` value naming what was shown. */
module ScheduleCommands {
  import opened Wrappers
  import opened Clock
  import opened Records
  import opened DatabaseTools
  import opened ScheduleUi

  /** The four kinds of schedule, one table each. */
  datatype Kind = DailyKind | GenshinKind | StarrailKind | ZzzKind

  /** The `function` argument of `/schedule`. */
  datatype Function = Help | Test | Feature(kind: Kind)

  /** The `switch` argument of `/schedule`. */
  datatype Switch = On | Off

  /** What the command shows the user. */
  datatype Reply =
    | Instructions
    | TestPush(delivered: bool)
    | Refused(msg: string)
    | Cancelled
    | DailyEnabled(entry: Entry<DailyCheckin>)
    | GenshinModal(genshinSetting: Option<GenshinNotes>)
    | StarrailModal(starrailSetting: Option<StarrailNotes>)
    | ZzzModal(zzzSetting: Option<ZzzNotes>)
    | TurnedOff
    | NoChannel
    | Moved

  /** The stored settings of a user's schedule, if there is one. */
  function Setting<S>(t: Table<S>, id: UserId): (r: Option<S>)
    ensures r.Some? <==> id in t
    ensures r.Some? ==> r.value == t[id].settings
  {
    if id in t then Some(t[id].settings) else None
  }

  /** The game whose UID a notes schedule needs; the daily check-in needs none. */
  function NotesGame(kind: Kind): (g: Option<Game>)
    ensures g.Some? ==> HasUidField(g.value)
    ensures g.None? <==> kind == DailyKind
  {
    match kind
    case DailyKind => None
    case GenshinKind => Some(Genshin)
    case StarrailKind => Some(Starrail)
    case ZzzKind => Some(Zzz)
  }

  /** The check `/schedule` runs before touching a table: the cookie for the
      daily check-in, the cookie and the game's UID for the notes reminders. */
  function FeatureCheck(kind: Kind, user: Option<User>): (r: (bool, string))
    ensures r.0 <==> r.1 == ""
    ensures r.0 <==>
      user.Some? && user.value.cookieDefault.Some?
      && (kind != DailyKind ==> UidOf(user.value, NotesGame(kind).value).Some?)
    ensures user.None? ==> r == (false, UserNotFoundMessage)
  {
    CheckUser(user, true, kind != DailyKind, NotesGame(kind))
  }

  /** The first check-in time the daily schedule stores: today at the
      chosen time, or, when that is already past, the time
      `update_next_checkin_time` moves it to (`advanced`; that method is not
      part of this model). */
  function FirstCheckin(now: int, hour: int, minute: int, advanced: int): (t: int)
    requires ValidTimeOfDay(hour, minute)
    ensures At(DayOf(now), hour, minute) >= now ==> t == At(DayOf(now), hour, minute) && now <= t < now + DAY
    ensures At(DayOf(now), hour, minute) < now ==> t == advanced
  {
    var today := At(DayOf(now), hour, minute);
    if today < now then advanced else today
  }

  /** When the outside update moves a past time on by one day, the first
      check-in is the daily due time of the reminders. */
  lemma FirstCheckinIsNextDaily(now: int, hour: int, minute: int)
    requires ValidTimeOfDay(hour, minute)
    ensures FirstCheckin(now, hour, minute, At(DayOf(now), hour, minute) + DAY) == NextDaily(now, hour, minute)
  {
  }

  /** The store after `/schedule <kind> OFF`: the user's row of that table is
      gone, whatever channel it pushed to. */
  function TurnOff(s: Store, kind: Kind, user: UserId): (r: Store)
    ensures kind == DailyKind ==> r == s.(daily := s.daily - {user})
    ensures kind == GenshinKind ==> r == s.(genshinNotes := s.genshinNotes - {user})
    ensures kind == StarrailKind ==> r == s.(starrailNotes := s.starrailNotes - {user})
    ensures kind == ZzzKind ==> r == s.(zzzNotes := s.zzzNotes - {user})
  {
    match kind
    case DailyKind => s.(daily := s.daily - {user})
    case GenshinKind => s.(genshinNotes := s.genshinNotes - {user})
    case StarrailKind => s.(starrailNotes := s.starrailNotes - {user})
    case ZzzKind => s.(zzzNotes := s.zzzNotes - {user})
  }

  /** The user ids with a row in the table of `kind`. */
  function Users(s: Store, kind: Kind): set<UserId> {
    match kind
    case DailyKind => s.daily.Keys
    case GenshinKind => s.genshinNotes.Keys
    case StarrailKind => s.starrailNotes.Keys
    case ZzzKind => s.zzzNotes.Keys
  }

  /** Turning a schedule off removes exactly that user from exactly that
      table. */
  lemma {:induction false} TurnOffRemovesOnlyUser(s: Store, kind: Kind, user: UserId)
    ensures forall k :: Users(TurnOff(s, kind, user), k) == if k == kind then Users(s, k) - {user} else Users(s, k)
  {
    forall k
      ensures Users(TurnOff(s, kind, user), k) == if k == kind then Users(s, k) - {user} else Users(s, k)
    {
      match kind
      case DailyKind =>
      case GenshinKind =>
      case StarrailKind =>
      case ZzzKind =>
    }
  }

  /** The row the daily schedule stores for the options chosen in the view. */
  function DailyEntry(channel: Option<ChannelId>, isMention: bool, games: GameFlags, hour: int, minute: int, now: int, advanced: int)
    : (e: Entry<DailyCheckin>)
    requires ValidTimeOfDay(hour, minute)
    ensures e.channel == ChannelOrZero(channel) && e.settings.games == games && e.settings.isMention == isMention
  {
    Entry(ChannelOrZero(channel), DailyCheckin(isMention, FirstCheckin(now, hour, minute, advanced), games))
  }

  /** `/schedule DAILY ON` once the options view has closed: nothing is stored
      unless both a game selection and a mention choice were made. */
  method EnableDaily(tables: ScheduleTables, caller: UserId, channel: Option<ChannelId>,
                     view: DailyRewardOptionsView, now: int, advanced: int)
    returns (reply: Reply)
    requires view.Valid()
    modifies tables
    ensures view.selectedGames.None? || view.isMention.None? ==>
      reply == Cancelled && tables.Contents() == old(tables.Contents())
    ensures view.selectedGames.Some? && view.isMention.Some? ==>
      var e := DailyEntry(channel, view.isMention.value, view.games, view.hour, view.minute, now, advanced);
      reply == DailyEnabled(e) && tables.Contents() == old(tables.Contents()).(daily := old(tables.daily)[caller := e])
  {
    if view.selectedGames.None? || view.isMention.None? {
      return Cancelled;
    }
    var checkinTime := At(DayOf(now), view.hour, view.minute);
    if checkinTime < now {
      checkinTime := advanced;
    }
    var entry := Entry(ChannelOrZero(channel), DailyCheckin(view.isMention.value, checkinTime, view.games));
    tables.daily := tables.daily[caller := entry];
    reply := DailyEnabled(entry);
  }

  /** `/schedule OFF` for one kind. */
  method Disable(tables: ScheduleTables, kind: Kind, caller: UserId)
    modifies tables
    ensures tables.Contents() == TurnOff(old(tables.Contents()), kind, caller)
  {
    match kind
    case DailyKind => tables.daily := tables.daily - {caller};
    case GenshinKind => tables.genshinNotes := tables.genshinNotes - {caller};
    case StarrailKind => tables.starrailNotes := tables.starrailNotes - {caller};
    case ZzzKind => tables.zzzNotes := tables.zzzNotes - {caller};
  }

  /** `slash_schedule`. HELP and TEST answer before any lookup. The other
      functions check the stored user first; `ON` for a notes reminder opens
      the form prefilled from the stored setting, which `Submit*` then
      stores. `view` is the daily options view after the user closed it and
      `delivered` whether the test message could be sent to the channel. */
  method Schedule(tables: ScheduleTables, users: UserTable, caller: UserId, channel: Option<ChannelId>,
                  command: Function, switch: Switch, view: DailyRewardOptionsView,
                  delivered: bool, now: int, advanced: int)
    returns (reply: Reply)
    requires view.Valid()
    modifies tables
    ensures command == Help ==> reply == Instructions && tables.Contents() == old(tables.Contents())
    ensures command == Test ==> reply == TestPush(delivered) && tables.Contents() == old(tables.Contents())
    ensures command.Feature? && !FeatureCheck(command.kind, Lookup(users.rows, caller)).0 ==>
      reply == Refused(FeatureCheck(command.kind, Lookup(users.rows, caller)).1)
      && tables.Contents() == old(tables.Contents())
    ensures command.Feature? && FeatureCheck(command.kind, Lookup(users.rows, caller)).0 ==>
      match switch
      case Off =>
        reply == TurnedOff && tables.Contents() == TurnOff(old(tables.Contents()), command.kind, caller)
      case On =>
        match command.kind
        case DailyKind =>
          if view.selectedGames.None? || view.isMention.None? then
            reply == Cancelled && tables.Contents() == old(tables.Contents())
          else
            var e := DailyEntry(channel, view.isMention.value, view.games, view.hour, view.minute, now, advanced);
            reply == DailyEnabled(e) && tables.Contents() == old(tables.Contents()).(daily := old(tables.daily)[caller := e])
        case GenshinKind =>
          reply == GenshinModal(Setting(tables.genshinNotes, caller)) && tables.Contents() == old(tables.Contents())
        case StarrailKind =>
          reply == StarrailModal(Setting(tables.starrailNotes, caller)) && tables.Contents() == old(tables.Contents())
        case ZzzKind =>
          reply == ZzzModal(Setting(tables.zzzNotes, caller)) && tables.Contents() == old(tables.Contents())
  {
    if command == Help {
      return Instructions;
    }
    if command == Test {
      return TestPush(delivered);
    }
    var user := Lookup(users.rows, caller);
    var check := FeatureCheck(command.kind, user);
    if !check.0 {
      return Refused(check.1);
    }
    if switch == Off {
      Disable(tables, command.kind, caller);
      return TurnedOff;
    }
    match command.kind
    case DailyKind =>
      reply := EnableDaily(tables, caller, channel, view, now, advanced);
    case GenshinKind =>
      reply := GenshinModal(Setting(tables.genshinNotes, caller));
    case StarrailKind =>
      reply := StarrailModal(Setting(tables.starrailNotes, caller));
    case ZzzKind =>
      reply := ZzzModal(Setting(tables.zzzNotes, caller));
  }

  // ---------------------------------------------------------------------
  // `/schedule_manage_users`: remove one user's schedule in this channel

  /** Deleting by user and channel: the row goes only when it belongs to
      `user` and pushes to `channel`. A missing channel id matches no stored
      row, since rows always hold a channel id. */
  function RemoveInChannel<S>(t: Table<S>, user: UserId, channel: Option<ChannelId>): (r: Table<S>)
    ensures r.Keys <= t.Keys
    ensures forall id :: id in r ==> r[id] == t[id]
    ensures user in t && channel == Some(t[user].channel) ==> r == t - {user}
    ensures !(user in t && channel == Some(t[user].channel)) ==> r == t
  {
    if user in t && channel == Some(t[user].channel) then t - {user} else t
  }

  /** The store after the manager removes `user`'s schedule of `kind`. */
  function RemoveUserEffect(s: Store, kind: Kind, user: UserId, channel: Option<ChannelId>): Store {
    match kind
    case DailyKind => s.(daily := RemoveInChannel(s.daily, user, channel))
    case GenshinKind => s.(genshinNotes := RemoveInChannel(s.genshinNotes, user, channel))
    case StarrailKind => s.(starrailNotes := RemoveInChannel(s.starrailNotes, user, channel))
    case ZzzKind => s.(zzzNotes := RemoveInChannel(s.zzzNotes, user, channel))
  }

  /** A manager's removal never deletes another user, nor the user's row in
      another channel; turning one's own schedule off does not look at the
      channel. */
  lemma {:induction false} RemoveUserOnlyInChannel(s: Store, kind: Kind, user: UserId, channel: Option<ChannelId>)
    ensures forall k :: Users(RemoveUserEffect(s, kind, user, channel), k) <= Users(s, k)
    ensures forall k, id :: id in Users(s, k) && (id != user || k != kind) ==> id in Users(RemoveUserEffect(s, kind, user, channel), k)
    ensures channel.None? ==> RemoveUserEffect(s, kind, user, channel) == s
  {
    var r := RemoveUserEffect(s, kind, user, channel);
    forall k
      ensures Users(r, k) <= Users(s, k)
      ensures forall id :: id in Users(s, k) && (id != user || k != kind) ==> id in Users(r, k)
    {
      match kind
      case DailyKind =>
      case GenshinKind =>
      case StarrailKind =>
      case ZzzKind =>
    }
  }

  /** `slash_remove_user`. */
  method RemoveUser(tables: ScheduleTables, kind: Kind, user: UserId, channel: Option<ChannelId>)
    modifies tables
    ensures tables.Contents() == RemoveUserEffect(old(tables.Contents()), kind, user, channel)
  {
    match kind
    case DailyKind => tables.daily := RemoveInChannel(tables.daily, user, channel);
    case GenshinKind => tables.genshinNotes := RemoveInChannel(tables.genshinNotes, user, channel);
    case StarrailKind => tables.starrailNotes := RemoveInChannel(tables.starrailNotes, user, channel);
    case ZzzKind => tables.zzzNotes := RemoveInChannel(tables.zzzNotes, user, channel);
  }

  // ---------------------------------------------------------------------
  // `/schedule_manage_channel`: move a channel's schedules elsewhere

  /** `UPDATE ... SET channel = dst WHERE channel = src`. */
  function MoveChannel<S>(t: Table<S>, src: ChannelId, dst: ChannelId): (r: Table<S>)
    ensures r.Keys == t.Keys
    ensures forall id :: id in r ==> r[id].settings == t[id].settings
    ensures forall id :: id in r ==> r[id].channel == if t[id].channel == src then dst else t[id].channel
  {
    map id | id in t :: if t[id].channel == src then Entry(dst, t[id].settings) else t[id]
  }

  /** After a move nothing is left in the source channel, and moving again
      changes nothing. */
  lemma MoveChannelEmptiesSource<S>(t: Table<S>, src: ChannelId, dst: ChannelId)
    requires src != dst
    ensures forall id :: id in MoveChannel(t, src, dst) ==> MoveChannel(t, src, dst)[id].channel != src
    ensures MoveChannel(MoveChannel(t, src, dst), src, dst) == MoveChannel(t, src, dst)
  {
    var once := MoveChannel(t, src, dst);
    var twice := MoveChannel(once, src, dst);
    assert forall id :: id in twice ==> twice[id] == once[id];
  }

  /** The choices of the `function` argument. */
  const AllChoice: string := "All"
  const DailyChoice: string := "Daily auto sign-in"
  const GenshinChoice: string := "Real-time notes reminder (Genshin Impact)"
  const StarrailChoice: string := "Real-time notes reminder (Honkai: Star Rail)"
  const ZzzChoice: string := "Real-time notes reminder (Zenless Zone Zero)"
  /** The word the ZZZ branch compares against: "All" in Chinese, which is
      not one of the choices. */
  const AllChinese: string := "全部"

  function ChoiceOf(kind: Kind): string {
    match kind
    case DailyKind => DailyChoice
    case GenshinKind => GenshinChoice
    case StarrailKind => StarrailChoice
    case ZzzKind => ZzzChoice
  }

  /** Whether the chosen function moves the table of `kind`, as the command
      decides it: the ZZZ table answers to "全部" instead of "All". */
  predicate Moves(choice: string, kind: Kind) {
    if kind == ZzzKind then choice == AllChinese || choice == ZzzChoice
    else choice == AllChoice || choice == ChoiceOf(kind)
  }

  /** Whether the chosen function should move the table of `kind`: "All"
      moves every table. */
  predicate MovesIntended(choice: string, kind: Kind) {
    choice == AllChoice || choice == ChoiceOf(kind)
  }

  /** The store after a move, as the command performs it. */
  function MoveEffect(s: Store, choice: string, src: ChannelId, dst: ChannelId): Store {
    Store(
      if Moves(choice, DailyKind) then MoveChannel(s.daily, src, dst) else s.daily,
      if Moves(choice, GenshinKind) then MoveChannel(s.genshinNotes, src, dst) else s.genshinNotes,
      if Moves(choice, StarrailKind) then MoveChannel(s.starrailNotes, src, dst) else s.starrailNotes,
      if Moves(choice, ZzzKind) then MoveChannel(s.zzzNotes, src, dst) else s.zzzNotes)
  }

  /** The store after a move where "All" means every table. */
  function MoveEffectIntended(s: Store, choice: string, src: ChannelId, dst: ChannelId): Store {
    Store(
      if MovesIntended(choice, DailyKind) then MoveChannel(s.daily, src, dst) else s.daily,
      if MovesIntended(choice, GenshinKind) then MoveChannel(s.genshinNotes, src, dst) else s.genshinNotes,
      if MovesIntended(choice, StarrailKind) then MoveChannel(s.starrailNotes, src, dst) else s.starrailNotes,
      if MovesIntended(choice, ZzzKind) then MoveChannel(s.zzzNotes, src, dst) else s.zzzNotes)
  }

  /** Choosing "All" moves the daily, Genshin and Star Rail schedules but
      leaves the ZZZ reminders in the old channel. */
  lemma AllLeavesZzz(s: Store, src: ChannelId, dst: ChannelId)
    ensures MoveEffect(s, AllChoice, src, dst).zzzNotes == s.zzzNotes
    ensures MoveEffect(s, AllChoice, src, dst).daily == MoveChannel(s.daily, src, dst)
  {
  }

  /** A ZZZ reminder in the source channel is still there after "All". */
  lemma AllLeavesZzzWitness(s: Store, src: ChannelId, dst: ChannelId, id: UserId)
    requires src != dst && id in s.zzzNotes && s.zzzNotes[id].channel == src
    ensures MoveEffect(s, AllChoice, src, dst).zzzNotes[id].channel == src
    ensures MoveEffectIntended(s, AllChoice, src, dst).zzzNotes[id].channel == dst
  {
  }

  /** With "All" meaning every table, nothing of any kind is left in the
      source channel; any single choice moves the same as the command does. */
  lemma {:induction false} IntendedMoveEmptiesSource(s: Store, src: ChannelId, dst: ChannelId)
    requires src != dst
    ensures var r := MoveEffectIntended(s, AllChoice, src, dst);
      (forall id :: id in r.daily ==> r.daily[id].channel != src)
      && (forall id :: id in r.genshinNotes ==> r.genshinNotes[id].channel != src)
      && (forall id :: id in r.starrailNotes ==> r.starrailNotes[id].channel != src)
      && (forall id :: id in r.zzzNotes ==> r.zzzNotes[id].channel != src)
  {
    MoveChannelEmptiesSource(s.daily, src, dst);
    MoveChannelEmptiesSource(s.genshinNotes, src, dst);
    MoveChannelEmptiesSource(s.starrailNotes, src, dst);
    MoveChannelEmptiesSource(s.zzzNotes, src, dst);
  }

  /** The command and the intended reading differ only on "All" for ZZZ. */
  lemma MovesAgreeExceptAllZzz(choice: string, kind: Kind)
    requires choice in [AllChoice, DailyChoice, GenshinChoice, StarrailChoice, ZzzChoice]
    ensures Moves(choice, kind) != MovesIntended(choice, kind) <==> choice == AllChoice && kind == ZzzKind
  {
  }

  /** `slash_move_users`: with no current channel nothing moves; otherwise
      each selected table is rewritten and the session commits once. */
  method MoveUsers(tables: ScheduleTables, choice: string, src: Option<ChannelId>, dst: ChannelId)
    returns (reply: Reply)
    modifies tables
    ensures src.None? ==> reply == NoChannel && tables.Contents() == old(tables.Contents())
    ensures src.Some? ==> reply == Moved && tables.Contents() == MoveEffect(old(tables.Contents()), choice, src.value, dst)
  {
    if src.None? {
      return NoChannel;
    }
    var from := src.value;
    if choice == AllChoice || choice == DailyChoice {
      tables.daily := MoveChannel(tables.daily, from, dst);
    }
    if choice == AllChoice || choice == GenshinChoice {
      tables.genshinNotes := MoveChannel(tables.genshinNotes, from, dst);
    }
    if choice == AllChoice || choice == StarrailChoice {
      tables.starrailNotes := MoveChannel(tables.starrailNotes, from, dst);
    }
    if choice == AllChinese || choice == ZzzChoice {
      tables.zzzNotes := MoveChannel(tables.zzzNotes, from, dst);
    }
    reply := Moved;
  }
}
