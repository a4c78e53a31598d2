/** `cogs.daily_checkin.cog`: the arguments `/daily_check-in` passes on to
    the daily-reward claim. */
module DailyCheckin {
  import opened Wrappers
  import opened Records

  /** The `is_geetest` choice that turns the captcha solver on ("yes"). */
  const GeetestYes: string := "是"

  /** The flags of the chosen game name: the game whose name it is. */
  function ChoiceFlags(game: string): (flags: GameFlags)
    ensures forall g :: flags.Has(g) <==> game == GameName(g)
  {
    GameFlags(game == "Genshin Impact", game == "Honkai Impact 3", game == "Honkai: Star Rail",
              game == "Zenless Zone Zero", game == "Tears of Themis", game == "Tears of Themis(TW)")
  }

  /** Choosing a game's name selects that game and no other. */
  lemma ChoiceSelectsExactlyOne(g: Game)
    ensures ChoiceFlags(GameName(g)).Has(g)
    ensures forall h :: ChoiceFlags(GameName(g)).Has(h) ==> h == g
  {
  }

  /** What `slash_daily` sends on: whose reward is claimed, for which game,
      with or without the solver, and whether the reply is private. */
  datatype DailyArgs = DailyArgs(user: UserId, flags: GameFlags, isGeetest: bool, ephemeral: bool)

  /** `slash_daily`: the target user defaults to the invoker, and the bot
      itself as target also means the invoker. */
  function SlashDaily(game: string, geetestOption: string, target: Option<UserId>, invoker: UserId, botId: UserId): (a: DailyArgs)
    ensures a.isGeetest <==> geetestOption == GeetestYes
    ensures a.ephemeral == a.isGeetest
    ensures a.flags == ChoiceFlags(game)
    ensures a.user == invoker || (target == Some(a.user) && a.user != botId)
    ensures target.Some? && target.value != botId ==> a.user == target.value
  {
    var isGeetest := geetestOption == GeetestYes;
    var user := if target.Some? then target.value else invoker;
    DailyArgs(if user == botId then invoker else user, ChoiceFlags(game), isGeetest, isGeetest)
  }
}
