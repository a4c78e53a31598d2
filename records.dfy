/** The stored records the bot reads and writes, and the tables that hold them.
    The database engine itself is reduced to maps keyed by Discord user id:
    `insert_or_replace` is a map update and `delete` a key removal. */
module Records {
  import opened Wrappers

  type UserId = int
  type ChannelId = int

  /** `genshin.Game`, the games the bot serves. */
  datatype Game = Genshin | Honkai | Starrail | Zzz | Themis | ThemisTw

  /** The games whose UID the user record keeps. */
  predicate HasUidField(game: Game) {
    game in {Genshin, Honkai, Starrail, Zzz}
  }

  /** The value of a game in the game-service API (the values the UID-setting
      command offers as choices), as it appears in URLs. */
  function GameValue(game: Game): string
    requires HasUidField(game)
  {
    match game
    case Genshin => "genshin"
    case Honkai => "honkai3rd"
    case Starrail => "hkrpg"
    case Zzz => "nap"
  }

  /** A row of the `User` table. */
  datatype User = User(
    discordId: UserId,
    cookieDefault: Option<string>,
    cookieGenshin: Option<string>,
    cookieHonkai3rd: Option<string>,
    cookieStarrail: Option<string>,
    cookieZzz: Option<string>,
    cookieThemis: Option<string>,
    uidGenshin: Option<int>,
    uidHonkai3rd: Option<int>,
    uidStarrail: Option<int>,
    uidZzz: Option<int>,
    lastUsedTime: Option<int>)

  /** `Database.select_one` by user id. */
  function Lookup<S>(t: map<UserId, S>, id: UserId): (r: Option<S>)
    ensures r.Some? <==> id in t
    ensures r.Some? ==> r.value == t[id]
  {
    if id in t then Some(t[id]) else None
  }

  /** `User(discord_id)`: a record with nothing set. */
  function NewUser(id: UserId): (u: User)
    ensures u.discordId == id && u.cookieDefault.None?
  {
    User(id, None, None, None, None, None, None, None, None, None, None, None)
  }

  /** The stored UID of a game, `None` for the games without a UID field. */
  function UidOf(user: User, game: Game): (uid: Option<int>)
    ensures !HasUidField(game) ==> uid.None?
  {
    match game
    case Genshin => user.uidGenshin
    case Honkai => user.uidHonkai3rd
    case Starrail => user.uidStarrail
    case Zzz => user.uidZzz
    case _ => None
  }

  /** The game names the bot shows. */
  function GameName(game: Game): string {
    match game
    case Genshin => "Genshin Impact"
    case Honkai => "Honkai Impact 3"
    case Starrail => "Honkai: Star Rail"
    case Zzz => "Zenless Zone Zero"
    case Themis => "Tears of Themis"
    case ThemisTw => "Tears of Themis(TW)"
  }

  /** One game account under a game-service login (`GenshinAccount`). */
  datatype GameAccount = GameAccount(game: Game, uid: int, level: int, nickname: string)

  /** Which games a daily check-in covers (the `has_*` columns and arguments). */
  datatype GameFlags = GameFlags(
    genshin: bool, honkai3rd: bool, starrail: bool, zzz: bool, themis: bool, themisTw: bool)
  {
    predicate Any() {
      genshin || honkai3rd || starrail || zzz || themis || themisTw
    }

    predicate Has(game: Game) {
      match game
      case Genshin => genshin
      case Honkai => honkai3rd
      case Starrail => starrail
      case Zzz => zzz
      case Themis => themis
      case ThemisTw => themisTw
    }
  }

  const NoGames: GameFlags := GameFlags(false, false, false, false, false, false)

  /** `utility.get_app_command_mention` formats a clickable slash command from
      its registered id; the id is not part of this model, so the mention is
      rendered from the command name alone. */
  function CommandMention(name: string): string {
    "</" + name + ">"
  }

  /** The `User` table. */
  class UserTable {
    var rows: map<UserId, User>

    /** Every row is stored under its own user id. */
    predicate Keyed()
      reads this
    {
      forall id :: id in rows ==> rows[id].discordId == id
    }

    constructor (initial: map<UserId, User>)
      ensures rows == initial
    {
      rows := initial;
    }

    /** `Database.insert_or_replace(user)`. */
    method Upsert(user: User)
      modifies this
      ensures rows == old(rows)[user.discordId := user]
      ensures old(Keyed()) ==> Keyed()
    {
      rows := rows[user.discordId := user];
    }

    /** `Database.delete_instance(user)`. */
    method Delete(id: UserId)
      modifies this
      ensures rows == old(rows) - {id}
    {
      rows := rows - {id};
    }
  }

  /** A schedule row: the channel results are pushed to, and the settings of
      its kind. */
  datatype Entry<S> = Entry(channel: ChannelId, settings: S)

  type Table<S> = map<UserId, Entry<S>>

  /** `ScheduleDailyCheckin`. */
  datatype DailyCheckin = DailyCheckin(isMention: bool, nextCheckinTime: int, games: GameFlags)

  /** `GenshinScheduleNotes`: hours-before-full thresholds and the daily
      commission check time. */
  datatype GenshinNotes = GenshinNotes(
    thresholdResin: Option<int>,
    thresholdCurrency: Option<int>,
    thresholdTransformer: Option<int>,
    thresholdExpedition: Option<int>,
    checkCommissionTime: Option<int>)

  /** `StarrailScheduleNotes`. */
  datatype StarrailNotes = StarrailNotes(
    thresholdPower: Option<int>,
    thresholdExpedition: Option<int>,
    checkDailyTrainingTime: Option<int>,
    checkUniverseTime: Option<int>,
    checkEchoOfWarTime: Option<int>)

  /** `ZZZScheduleNotes`. */
  datatype ZzzNotes = ZzzNotes(
    thresholdBattery: Option<int>,
    checkDailyEngagementTime: Option<int>)

  /** The contents of the four schedule tables at one moment. */
  datatype Store = Store(
    daily: Table<DailyCheckin>,
    genshinNotes: Table<GenshinNotes>,
    starrailNotes: Table<StarrailNotes>,
    zzzNotes: Table<ZzzNotes>)

  /** The four schedule tables, one row per user in each. */
  class ScheduleTables {
    var daily: Table<DailyCheckin>
    var genshinNotes: Table<GenshinNotes>
    var starrailNotes: Table<StarrailNotes>
    var zzzNotes: Table<ZzzNotes>

    function Contents(): Store
      reads this
    {
      Store(daily, genshinNotes, starrailNotes, zzzNotes)
    }

    constructor ()
      ensures daily == map[] && genshinNotes == map[]
      ensures starrailNotes == map[] && zzzNotes == map[]
    {
      daily, genshinNotes, starrailNotes, zzzNotes := map[], map[], map[], map[];
    }
  }
}
