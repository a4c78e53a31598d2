/** `genshin_py.client.common`: building a game-service client for a stored
    user, storing a new cookie, and claiming the daily check-in rewards.
    The game service itself is not part of this model: what it answers is an
    input (a sequence of outcomes, one per attempt). */
module ClientCommon {
  import opened Wrappers
  import opened Text
  import opened Records
  import opened DatabaseTools

  // ---------------------------------------------------------------------
  // `get_client`

  datatype Region = Overseas | Chinese

  /** The parts of a `genshin.Client` the bot sets. */
  datatype Client = Client(region: Region, game: Game, uid: int, cookie: Option<string>)

  /** Python's `a or b` on an optional string: the empty string counts as
      absent. */
  function OrCookie(a: Option<string>, b: Option<string>): Option<string> {
    if a.Some? && a.value != "" then a else b
  }

  /** The cookie the client of `game` uses: the game's own cookie, else the
      default one. Both Tears of Themis servers use the Themis cookie. */
  function GameCookie(user: User, game: Game): Option<string> {
    match game
    case Genshin => OrCookie(user.cookieGenshin, user.cookieDefault)
    case Honkai => OrCookie(user.cookieHonkai3rd, user.cookieDefault)
    case Starrail => OrCookie(user.cookieStarrail, user.cookieDefault)
    case Zzz => OrCookie(user.cookieZzz, user.cookieDefault)
    case Themis => OrCookie(user.cookieThemis, user.cookieDefault)
    case ThemisTw => OrCookie(user.cookieThemis, user.cookieDefault)
  }

  /** The cookie column that belongs to `game` itself: both Tears of Themis
      servers share the Themis column. */
  function OwnCookie(user: User, game: Game): Option<string> {
    match game
    case Genshin => user.cookieGenshin
    case Honkai => user.cookieHonkai3rd
    case Starrail => user.cookieStarrail
    case Zzz => user.cookieZzz
    case Themis => user.cookieThemis
    case ThemisTw => user.cookieThemis
  }

  /** `str(uid)` starts with 1, 2 or 5. */
  predicate LeadsChinese(uid: int) {
    IntToString(uid)[0] in {'1', '2', '5'}
  }

  /** The region rule: a nine-digit Genshin UID or any Star Rail UID whose
      first digit is 1, 2 or 5 belongs to the Chinese servers. */
  predicate ChineseUid(game: Game, uid: int) {
    match game
    case Genshin => |IntToString(uid)| == 9 && LeadsChinese(uid)
    case Starrail => LeadsChinese(uid)
    case _ => false
  }

  /** `get_client`: fails with the check's message when the stored user does
      not pass `check_user` (cookie always, UID when `checkUid`). */
  function GetClient(rows: map<UserId, User>, id: UserId, game: Game, checkUid: bool): (r: Result<Client, string>)
    ensures r.Err? <==> !CheckUser(Lookup(rows, id), true, checkUid, Some(game)).0
    ensures r.Err? ==> r.error == CheckUser(Lookup(rows, id), true, checkUid, Some(game)).1
    ensures r.Ok? ==> r.value.game == game && r.value.cookie.Some?
    ensures r.Ok? ==> (r.value.cookie ==
      if OwnCookie(rows[id], game).Some? && OwnCookie(rows[id], game).value != "" then OwnCookie(rows[id], game)
      else rows[id].cookieDefault)
    ensures r.Ok? ==> r.value.uid == UidOf(rows[id], game).GetOr(0)
    ensures r.Ok? ==> (r.value.region == Chinese <==> ChineseUid(game, r.value.uid))
  {
    var check := CheckUser(Lookup(rows, id), true, checkUid, Some(game));
    if !check.0 then
      Err(check.1)
    else
      var user := rows[id];
      var uid := UidOf(user, game).GetOr(0);
      Ok(Client(if ChineseUid(game, uid) then Chinese else Overseas, game, uid, GameCookie(user, game)))
  }

  lemma DigitCharOf125(d: nat)
    requires d < 10
    ensures DigitChar(d) in {'1', '2', '5'} <==> d in {1, 2, 5}
  {
  }

  /** A Genshin UID is on the Chinese servers exactly when it lies in
      [100000000, 300000000) or [500000000, 600000000). */
  lemma GenshinChineseRange(uid: int)
    ensures ChineseUid(Genshin, uid)
        <==> 100000000 <= uid < 300000000 || 500000000 <= uid < 600000000
  {
    if uid >= 0 {
      var s := Digits(uid);
      assert IntToString(uid) == s;
      NineDigitsLeading(uid, 1);
      NineDigitsLeading(uid, 2);
      NineDigitsLeading(uid, 5);
      assert DigitChar(1) == '1' && DigitChar(2) == '2' && DigitChar(5) == '5';
    }
  }

  /** A Star Rail UID is on the Chinese servers exactly when it is not
      negative and its leading digit is 1, 2 or 5, whatever its length. */
  lemma StarrailChineseLead(uid: int)
    ensures ChineseUid(Starrail, uid) <==> uid >= 0 && Lead(uid) in {1, 2, 5}
  {
    if uid >= 0 {
      assert IntToString(uid) == Digits(uid);
      DigitsLead(uid);
      DigitCharOf125(Lead(uid));
    }
  }

  /** The two Tears of Themis servers get the same cookie, and a client of
      a game without a UID field has UID 0. */
  lemma ThemisClientsShareCookie(rows: map<UserId, User>, id: UserId, checkUid: bool)
    requires GetClient(rows, id, ThemisTw, checkUid).Ok?
    ensures GetClient(rows, id, Themis, checkUid).Ok?
    ensures GetClient(rows, id, ThemisTw, checkUid).value.cookie == GetClient(rows, id, Themis, checkUid).value.cookie
    ensures GetClient(rows, id, ThemisTw, checkUid).value.uid == 0
  {
  }

  /** For every game, a cookie of the game's own that is set and not empty
      wins; otherwise the client falls back to the default cookie, which
      the check guarantees is set. */
  lemma GameCookieOrDefault(rows: map<UserId, User>, id: UserId, game: Game, checkUid: bool)
    requires GetClient(rows, id, game, checkUid).Ok?
    ensures var own := OwnCookie(rows[id], game);
      own.Some? && own.value != "" ==> GetClient(rows, id, game, checkUid).value.cookie == own
    ensures var own := OwnCookie(rows[id], game);
      !(own.Some? && own.value != "") ==> GetClient(rows, id, game, checkUid).value.cookie == rows[id].cookieDefault
    ensures rows[id].cookieDefault.Some?
  {
  }

  // ---------------------------------------------------------------------
  // `get_game_accounts`

  /** The accounts of one game, in the order the service listed them. */
  function OfGame(accounts: seq<GameAccount>, game: Game): (r: seq<GameAccount>)
    ensures |r| <= |accounts|
    ensures forall i :: 0 <= i < |r| ==> r[i].game == game
    ensures forall i :: 0 <= i < |accounts| && accounts[i].game == game ==> accounts[i] in r
    ensures forall a :: a in r ==> a in accounts
  {
    if |accounts| == 0 then []
    else (if accounts[0].game == game then [accounts[0]] else []) + OfGame(accounts[1..], game)
  }

  /** Filtering distributes over concatenation, so it keeps the service's
      order. */
  lemma {:induction false} OfGameAppend(a: seq<GameAccount>, b: seq<GameAccount>, game: Game)
    ensures OfGame(a + b, game) == OfGame(a, game) + OfGame(b, game)
    decreases |a|
  {
    if |a| > 0 {
      var ab := a + b;
      assert ab[0] == a[0] && ab[1..] == a[1..] + b;
      OfGameAppend(a[1..], b, game);
    } else {
      assert a + b == b;
    }
  }

  /** `get_game_accounts`: the client check does not ask for a UID. */
  function GetGameAccounts(rows: map<UserId, User>, id: UserId, game: Game, listed: seq<GameAccount>)
    : (r: Result<seq<GameAccount>, string>)
    ensures r.Err? <==> !CheckUser(Lookup(rows, id), true, false, None).0
    ensures r.Ok? ==> r.value == OfGame(listed, game)
  {
    var client := GetClient(rows, id, game, false);
    if client.Err? then Err(client.error) else Ok(OfGame(listed, game))
  }

  // ---------------------------------------------------------------------
  // `set_cookie`

  /** What listing the accounts of a cookie returned. */
  datatype AccountsReply = Listed(accounts: seq<GameAccount>) | InvalidCookies | ListFailed(text: string)

  /** The cookie field `set_cookie` writes for `game`; Tears of Themis(TW)
      has none of its own. */
  function CookieField(user: User, game: Game): Option<string> {
    match game
    case Genshin => user.cookieGenshin
    case Honkai => user.cookieHonkai3rd
    case Starrail => user.cookieStarrail
    case Zzz => user.cookieZzz
    case Themis => user.cookieThemis
    case ThemisTw => None
  }

  /** One game's part of `set_cookie`: its cookie, and its UID when the
      cookie has exactly one account of that game. */
  function StoreGame(user: User, game: Game, cookie: string, accounts: seq<GameAccount>): User {
    var found := OfGame(accounts, game);
    match game
    case Genshin =>
      user.(cookieGenshin := Some(cookie), uidGenshin := if |found| == 1 then Some(found[0].uid) else user.uidGenshin)
    case Honkai =>
      user.(cookieHonkai3rd := Some(cookie), uidHonkai3rd := if |found| == 1 then Some(found[0].uid) else user.uidHonkai3rd)
    case Starrail =>
      user.(cookieStarrail := Some(cookie), uidStarrail := if |found| == 1 then Some(found[0].uid) else user.uidStarrail)
    case Zzz =>
      user.(cookieZzz := Some(cookie), uidZzz := if |found| == 1 then Some(found[0].uid) else user.uidZzz)
    case Themis => user.(cookieThemis := Some(cookie))
    case ThemisTw => user
  }

  /** The games `set_cookie` handles, in its order. */
  const CookieGames: seq<Game> := [Genshin, Honkai, Starrail, Zzz, Themis]

  function StoreIf(user: User, game: Game, games: seq<Game>, cookie: string, accounts: seq<GameAccount>): User {
    if game in games then StoreGame(user, game, cookie, accounts) else user
  }

  /** The user record `set_cookie` stores. */
  function ApplyCookie(user: User, cookie: string, games: seq<Game>, accounts: seq<GameAccount>): (u: User)
    ensures u.discordId == user.discordId && u.lastUsedTime == user.lastUsedTime
  {
    var u0 := user.(cookieDefault := Some(cookie));
    var u1 := StoreIf(u0, Genshin, games, cookie, accounts);
    var u2 := StoreIf(u1, Honkai, games, cookie, accounts);
    var u3 := StoreIf(u2, Starrail, games, cookie, accounts);
    var u4 := StoreIf(u3, Zzz, games, cookie, accounts);
    StoreIf(u4, Themis, games, cookie, accounts)
  }

  /** One step touches only the cookie and UID of its own game. */
  lemma StoreIfEffect(user: User, game: Game, games: seq<Game>, cookie: string, accounts: seq<GameAccount>)
    requires game != ThemisTw
    ensures var u := StoreIf(user, game, games, cookie, accounts);
      && u.cookieDefault == user.cookieDefault
      && u.discordId == user.discordId && u.lastUsedTime == user.lastUsedTime
      && (forall g :: g != ThemisTw ==>
            CookieField(u, g) == if g == game && g in games then Some(cookie) else CookieField(user, g))
      && (forall g :: HasUidField(g) ==>
            UidOf(u, g) == if g == game && g in games && |OfGame(accounts, g)| == 1
                           then Some(OfGame(accounts, g)[0].uid) else UidOf(user, g))
  {
  }

  /** `set_cookie` always stores the cookie as the default one; for every
      selected game it stores the cookie, and the UID when the cookie has
      exactly one account of that game; everything else is kept. */
  lemma {:induction false} ApplyCookieEffect(user: User, cookie: string, games: seq<Game>, accounts: seq<GameAccount>)
    ensures var u := ApplyCookie(user, cookie, games, accounts);
      && u.cookieDefault == Some(cookie)
      && (forall g :: g != ThemisTw ==> CookieField(u, g) == if g in games then Some(cookie) else CookieField(user, g))
      && (forall g :: HasUidField(g) ==>
            UidOf(u, g) == if g in games && |OfGame(accounts, g)| == 1 then Some(OfGame(accounts, g)[0].uid) else UidOf(user, g))
  {
    var u0 := user.(cookieDefault := Some(cookie));
    var u1 := StoreIf(u0, Genshin, games, cookie, accounts);
    var u2 := StoreIf(u1, Honkai, games, cookie, accounts);
    var u3 := StoreIf(u2, Starrail, games, cookie, accounts);
    var u4 := StoreIf(u3, Zzz, games, cookie, accounts);
    StoreIfEffect(u0, Genshin, games, cookie, accounts);
    StoreIfEffect(u1, Honkai, games, cookie, accounts);
    StoreIfEffect(u2, Starrail, games, cookie, accounts);
    StoreIfEffect(u3, Zzz, games, cookie, accounts);
    StoreIfEffect(u4, Themis, games, cookie, accounts);
  }

  /** Storing the same cookie twice stores the same record as once. */
  lemma ApplyCookieIdempotent(user: User, cookie: string, games: seq<Game>, accounts: seq<GameAccount>)
    ensures var once := ApplyCookie(user, cookie, games, accounts);
      ApplyCookie(once, cookie, games, accounts) == once
  {
    var once := ApplyCookie(user, cookie, games, accounts);
    var twice := ApplyCookie(once, cookie, games, accounts);
    ApplyCookieEffect(user, cookie, games, accounts);
    ApplyCookieEffect(once, cookie, games, accounts);
    assert CookieField(twice, Genshin) == CookieField(once, Genshin);
    assert CookieField(twice, Honkai) == CookieField(once, Honkai);
    assert CookieField(twice, Starrail) == CookieField(once, Starrail);
    assert CookieField(twice, Zzz) == CookieField(once, Zzz);
    assert CookieField(twice, Themis) == CookieField(once, Themis);
    assert UidOf(twice, Genshin) == UidOf(once, Genshin);
    assert UidOf(twice, Honkai) == UidOf(once, Honkai);
    assert UidOf(twice, Starrail) == UidOf(once, Starrail);
    assert UidOf(twice, Zzz) == UidOf(once, Zzz);
  }

  /** The notice for a selected game with several accounts. */
  function SeveralNotice(game: Game, count: nat): string {
    IntToString(count) + GameName(game) + " Character"
  }

  function NoticeIf(game: Game, games: seq<Game>, accounts: seq<GameAccount>): seq<string> {
    var n := |OfGame(accounts, game)|;
    if game in games && n > 1 then [SeveralNotice(game, n)] else []
  }

  /** `character_list`: one notice per selected game with more than one
      account, in the order Genshin, Honkai, Star Rail, ZZZ. */
  function Notices(games: seq<Game>, accounts: seq<GameAccount>): seq<string> {
    NoticeIf(Genshin, games, accounts) + NoticeIf(Honkai, games, accounts)
    + NoticeIf(Starrail, games, accounts) + NoticeIf(Zzz, games, accounts)
  }

  /** A game gets a notice exactly when it was selected and its UID was
      therefore not stored because it has several accounts. */
  lemma NoticesExactlyAmbiguous(games: seq<Game>, accounts: seq<GameAccount>)
    ensures Notices(games, accounts) == [] <==>
      forall g :: g in games && HasUidField(g) ==> |OfGame(accounts, g)| <= 1
    ensures |Notices(games, accounts)| <= 4
  {
    if Notices(games, accounts) == [] {
      forall g | g in games && HasUidField(g)
        ensures |OfGame(accounts, g)| <= 1
      {
        assert NoticeIf(g, games, accounts) == [];
      }
    }
  }

  const CookieSetMessage: string := "Cookie has been set！"

  /** The reply of `set_cookie`. */
  function CookieReply(notices: seq<string>): (s: string)
    ensures IsPrefix(CookieSetMessage, s)
    ensures notices == [] <==> s == CookieSetMessage
  {
    if |notices| > 0 then
      CookieSetMessage + "\nYour account has a total of" + Join(notices, "、") + "，"
      + "Please use " + CommandMention("uid settings") + " Specify the roles to be saved。"
    else
      CookieSetMessage
  }

  /** `set_cookie`: lists the cookie's accounts (on the Chinese servers when
      the overseas ones reject the cookie), then stores the record. A listing
      that fails raises, which the error decorator (not part of this model)
      turns into a reply; then nothing is stored and the result is `None`. */
  method SetCookie(table: UserTable, id: UserId, cookie: string, games: seq<Game>,
                   overseas: AccountsReply, chinese: AccountsReply)
    returns (reply: Option<string>)
    requires table.Keyed()
    modifies table
    ensures table.Keyed()
    ensures var listed := if overseas.InvalidCookies? then chinese else overseas;
      if listed.Listed? then
        var user := ApplyCookie(Lookup(old(table.rows), id).GetOr(NewUser(id)), cookie, games, listed.accounts);
        table.rows == old(table.rows)[id := user] && reply == Some(CookieReply(Notices(games, listed.accounts)))
      else
        table.rows == old(table.rows) && reply.None?
  {
    var listed := overseas;
    if overseas.InvalidCookies? {
      listed := chinese;
    }
    if !listed.Listed? {
      return None;
    }
    var accounts := listed.accounts;
    var user := Lookup(table.rows, id).GetOr(NewUser(id));
    ghost var before := user;
    var characters: seq<string> := [];
    user := user.(cookieDefault := Some(cookie));
    user := StoreIf(user, Genshin, games, cookie, accounts);
    characters := characters + NoticeIf(Genshin, games, accounts);
    user := StoreIf(user, Honkai, games, cookie, accounts);
    characters := characters + NoticeIf(Honkai, games, accounts);
    user := StoreIf(user, Starrail, games, cookie, accounts);
    characters := characters + NoticeIf(Starrail, games, accounts);
    user := StoreIf(user, Zzz, games, cookie, accounts);
    characters := characters + NoticeIf(Zzz, games, accounts);
    user := StoreIf(user, Themis, games, cookie, accounts);
    assert user == ApplyCookie(before, cookie, games, accounts);
    assert characters == Notices(games, accounts);
    table.Upsert(user);
    reply := Some(CookieReply(characters));
  }

  // ---------------------------------------------------------------------
  // `_claim_reward`

  /** What one call to the service's daily claim ended with. */
  datatype ClaimOutcome =
    | Rewarded(amount: int, name: string)
    | AlreadyClaimed
    | CookieRejected
    | GeetestTriggered(gt: string, challenge: string)
    | ApiError(retcode: int, text: string)
    | OtherError(text: string)

  /** The failures `_claim_reward` retries: every error that is not one of
      the classified ones. */
  predicate Retried(o: ClaimOutcome) {
    o.OtherError? || (o.ApiError? && o.retcode != -10002 && o.retcode != 50000)
  }

  /** How a claim ended, before it is put into words. */
  datatype ClaimResult =
    | Claimed(amount: int, name: string)
    | Already
    | Expired
    | SolveAt(url: string)
    | UseCommand
    | VisitOfficial(link: string)
    | NoCharacter
    | TryLater
    | Failed(text: string)

  /** The check-in page of each game; the Tears of Themis games have none. */
  function OfficialLink(game: Game): (link: string)
    ensures |link| == 0 <==> !HasUidField(game)
  {
    match game
    case Genshin => GenshinSignIn
    case Honkai => HonkaiSignIn
    case Starrail => StarrailSignIn
    case Zzz => ZzzSignIn
    case _ => ""
  }

  const GenshinSignIn: string := "https://act.hoyolab.com/ys/event/signin-sea-v3/index.html?act_id=e202102251931481"
  const HonkaiSignIn: string := "https://act.hoyolab.com/bbs/event/signin-bh3/index.html?act_id=e202110291205111"
  const StarrailSignIn: string := "https://act.hoyolab.com/bbs/event/signin/hkrpg/index.html?act_id=e202303301540311"
  const ZzzSignIn: string := "https://act.hoyolab.com/bbs/event/signin/zzz/index.html?act_id=e202406031448091"

  /** The captcha-solver page for a challenge. `gameText` is how the game
      is written in the URL. */
  function GeetestUrl(base: string, gameText: string, userId: UserId, gt: string, challenge: string): (url: string)
    ensures IsPrefix(base, url)
  {
    base + "/geetest/" + gameText + "/" + IntToString(userId) + "?gt=" + gt + "&challenge=" + challenge
  }

  /** A claim's context: who claims which game, whether a captcha link was
      asked for, the configured solver address and how the game is written
      in the solver URL. */
  datatype ClaimContext = ClaimContext(
    userId: UserId, game: Game, isGeetest: bool, solverUrl: Option<string>, gameText: string)

  /** The result of an outcome that is not retried. */
  function Settle(ctx: ClaimContext, o: ClaimOutcome): (r: ClaimResult)
    requires !Retried(o)
    ensures r.SolveAt? <==> o.GeetestTriggered? && ctx.isGeetest && ctx.solverUrl.Some?
    ensures r.UseCommand? <==> o.GeetestTriggered? && !ctx.isGeetest && ctx.solverUrl.Some?
    ensures r.VisitOfficial? <==> o.GeetestTriggered? && ctx.solverUrl.None?
    ensures r.VisitOfficial? ==> r.link == OfficialLink(ctx.game)
    ensures r.Claimed? <==> o.Rewarded?
    ensures !r.Failed?
  {
    match o
    case Rewarded(amount, name) => Claimed(amount, name)
    case AlreadyClaimed => Already
    case CookieRejected => Expired
    case GeetestTriggered(gt, challenge) =>
      if ctx.isGeetest && ctx.solverUrl.Some? then
        SolveAt(GeetestUrl(ctx.solverUrl.value, ctx.gameText, ctx.userId, gt, challenge))
      else if ctx.solverUrl.Some? then
        UseCommand
      else
        VisitOfficial(OfficialLink(ctx.game))
    case ApiError(retcode, _) => if retcode == -10002 then NoCharacter else TryLater
  }

  /** The text of an unclassified error. */
  function ErrorText(o: ClaimOutcome): string
    requires Retried(o)
  {
    o.text
  }

  /** `_claim_reward`: one call per attempt; an unclassified failure is
      tried again, at most `retry` more times. Returns the result and how
      many calls were made. */
  function ClaimReward(ctx: ClaimContext, retry: nat, outcomes: seq<ClaimOutcome>): (r: (ClaimResult, nat))
    requires |outcomes| > retry
    ensures 1 <= r.1 <= retry + 1
    ensures forall i :: 0 <= i < r.1 - 1 ==> Retried(outcomes[i])
    ensures !Retried(outcomes[r.1 - 1]) ==> r.0 == Settle(ctx, outcomes[r.1 - 1])
    ensures Retried(outcomes[r.1 - 1]) ==> r.1 == retry + 1 && r.0 == Failed(ErrorText(outcomes[retry]))
    decreases retry
  {
    var o := outcomes[0];
    if !Retried(o) then
      (Settle(ctx, o), 1)
    else if retry > 0 then
      var rest := ClaimReward(ctx, retry - 1, outcomes[1..]);
      (rest.0, rest.1 + 1)
    else
      (Failed(ErrorText(o)), 1)
  }

  /** The number of retries `_claim_reward` allows by default. */
  const DefaultRetry: nat := 5

  /** The claim stops at the first outcome that is not retried. */
  lemma {:induction false} ClaimStopsAtFirstSettled(ctx: ClaimContext, retry: nat, outcomes: seq<ClaimOutcome>, k: nat)
    requires |outcomes| > retry && k <= retry
    requires forall i :: 0 <= i < k ==> Retried(outcomes[i])
    requires !Retried(outcomes[k])
    ensures ClaimReward(ctx, retry, outcomes) == (Settle(ctx, outcomes[k]), k + 1)
  {
  }

  /** With the default of five retries, a service that keeps failing is
      called six times and the failure of the sixth call is reported. */
  lemma ClaimExhaustsAfterSixCalls(ctx: ClaimContext, outcomes: seq<ClaimOutcome>)
    requires |outcomes| > DefaultRetry
    requires forall i :: 0 <= i <= DefaultRetry ==> Retried(outcomes[i])
    ensures ClaimReward(ctx, DefaultRetry, outcomes) == (Failed(ErrorText(outcomes[5])), 6)
  {
    var r := ClaimReward(ctx, DefaultRetry, outcomes);
    assert Retried(outcomes[r.1 - 1]);
  }

  /** The message a claim result is reported with. */
  function ClaimMessage(game: Game, r: ClaimResult): string {
    var name := GameName(game);
    match r
    case Claimed(amount, reward) => name + " Sign in today and get " + IntToString(amount) + "x " + reward + "！"
    case Already => name + "Today's reward has already been claimed.！"
    case Expired => "Cookie has expired, please get a new one from Hoyolab.。"
    case SolveAt(url) =>
      "Please go to the website to unlock the graphic validation: [click me to open the link].(" + url
      + ")\nIf an error occurs, use this command again to regenerate the link."
    case UseCommand =>
      name + "Failed to sign in: Graphical validation is blocked. " + CommandMention("daily每日簽到")
      + " Command to select Setup Graphic Validation "
    case VisitOfficial(link) =>
      name + "Failed to sign in: Graphical verification is blocked, please go to [Official Website].(" + link
      + ") Getting Started。"
    case NoCharacter => name + "Sign-in failed, no character information was found for the currently logged-in account."
    case TryLater => name + "The request failed. Please try again later."
    case Failed(text) => name + "Failed to sign in：" + text + "。"
  }

  // ---------------------------------------------------------------------
  // `claim_daily_reward`

  type Challenge = map<string, string>

  /** A stored `GeetestChallenge` row. */
  datatype GeetestChallenge = GeetestChallenge(
    genshin: Option<Challenge>, honkai3rd: Option<Challenge>, starrail: Option<Challenge>)

  /** The games a check-in covers, in the order they are claimed. */
  function SelectedGames(flags: GameFlags): (games: seq<Game>)
    ensures forall g :: g in games <==> flags.Has(g)
    ensures |games| == 0 <==> !flags.Any()
  {
    [] + Opt(flags.genshin, Genshin) + Opt(flags.honkai3rd, Honkai) + Opt(flags.starrail, Starrail)
    + Opt(flags.zzz, Zzz) + Opt(flags.themis, Themis) + Opt(flags.themisTw, ThemisTw)
  }

  /** `[game]` when it is selected. */
  function Opt(selected: bool, game: Game): seq<Game> {
    if selected then [game] else []
  }

  /** The stored challenge passed with a claim: only when no new captcha
      link was asked for, and only for Genshin, Honkai and Star Rail. */
  function ChallengeFor(stored: Option<GeetestChallenge>, isGeetest: bool, game: Game): (c: Option<Challenge>)
    ensures c.Some? ==> !isGeetest && game in {Genshin, Honkai, Starrail}
  {
    if isGeetest || stored.None? then None
    else
      match game
      case Genshin => stored.value.genshin
      case Honkai => stored.value.honkai3rd
      case Starrail => stored.value.starrail
      case _ => None
  }

  /** The captcha-link choice reaches only the claims that pass it on:
      ZZZ and Tears of Themis are claimed with the default `False`. */
  predicate PassesGeetest(game: Game) {
    game in {Genshin, Honkai, Starrail}
  }

  /** Everything a check-in run needs besides the user table. */
  datatype CheckinRequest = CheckinRequest(
    id: UserId,
    flags: GameFlags,
    isGeetest: bool,
    stored: Option<GeetestChallenge>,
    solverUrl: Option<string>,
    gameText: Game -> string)

  function ContextFor(req: CheckinRequest, game: Game): (ctx: ClaimContext)
    ensures ctx.isGeetest ==> req.isGeetest && PassesGeetest(game)
  {
    ClaimContext(req.id, game, req.isGeetest && PassesGeetest(game), req.solverUrl, req.gameText(game))
  }

  /** What the service answers the attempts of one claim: enough outcomes
      for the first call and every retry. */
  type Attempts = s: seq<ClaimOutcome> | |s| > DefaultRetry
    witness [AlreadyClaimed, AlreadyClaimed, AlreadyClaimed, AlreadyClaimed, AlreadyClaimed, AlreadyClaimed]

  /** The service: its answers to the claims of a game made with a given
      stored challenge. */
  type Remote = (Game, Option<Challenge>) -> Attempts

  /** The message of one game's claim. */
  function ClaimFor(req: CheckinRequest, remote: Remote, game: Game): string {
    var outcomes := remote(game, ChallengeFor(req.stored, req.isGeetest, game));
    ClaimMessage(game, ClaimReward(ContextFor(req, game), DefaultRetry, outcomes).0)
  }

  /** The claim message of every game. */
  function Messages(req: CheckinRequest, remote: Remote): Game -> string {
    game => ClaimFor(req, remote, game)
  }

  /** The messages of `games`, concatenated in order. */
  function Concat(games: seq<Game>, msg: Game -> string): string
    decreases |games|
  {
    if |games| == 0 then "" else Concat(games[..|games| - 1], msg) + msg(games[|games| - 1])
  }

  const NoGameMessage: string := "Did not select any game to sign in"

  /** `claim_daily_reward`: the client check (no UID), the community check-in
      (its errors are only logged, so it has no effect here), then one claim
      per selected game in the fixed order. */
  method ClaimDailyReward(rows: map<UserId, User>, req: CheckinRequest, remote: Remote)
    returns (result: string)
    ensures GetClient(rows, req.id, Genshin, false).Err? ==> result == GetClient(rows, req.id, Genshin, false).error
    ensures GetClient(rows, req.id, Genshin, false).Ok? && !req.flags.Any() ==> result == NoGameMessage
    ensures GetClient(rows, req.id, Genshin, false).Ok? && req.flags.Any() ==>
      result == Concat(SelectedGames(req.flags), Messages(req, remote))
  {
    var client := GetClient(rows, req.id, Genshin, false);
    if client.Err? {
      return client.error;
    }
    if !req.flags.Any() {
      return NoGameMessage;
    }
    result := ClaimSelected(req, remote);
  }

  /** The six claims of `claim_daily_reward`, each appended to the result
      when its game is selected. */
  method ClaimSelected(req: CheckinRequest, remote: Remote) returns (result: string)
    ensures result == Concat(SelectedGames(req.flags), Messages(req, remote))
  {
    result := "";
    result := AppendClaim(result, req, remote, Genshin, req.flags.genshin);
    result := AppendClaim(result, req, remote, Honkai, req.flags.honkai3rd);
    result := AppendClaim(result, req, remote, Starrail, req.flags.starrail);
    result := AppendClaim(result, req, remote, Zzz, req.flags.zzz);
    result := AppendClaim(result, req, remote, Themis, req.flags.themis);
    result := AppendClaim(result, req, remote, ThemisTw, req.flags.themisTw);
    ConcatInOrder(req.flags, Messages(req, remote));
  }

  /** The message of a game when it is selected, else nothing. */
  function Part(msg: Game -> string, game: Game, selected: bool): string {
    if selected then msg(game) else ""
  }

  /** `if has_<game>: result += await _claim_reward(...)`. */
  method AppendClaim(result: string, req: CheckinRequest, remote: Remote, game: Game, selected: bool)
    returns (r: string)
    ensures r == result + Part(Messages(req, remote), game, selected)
  {
    r := result;
    if selected {
      r := r + ClaimFor(req, remote, game);
    }
  }

  lemma ConcatStep(games: seq<Game>, msg: Game -> string, game: Game, selected: bool)
    ensures Concat(games + Opt(selected, game), msg) == Concat(games, msg) + Part(msg, game, selected)
  {
    if selected {
      assert (games + [game])[..|games|] == games;
    } else {
      assert games + [] == games;
    }
  }

  /** Appending the six games' messages in the fixed order gives the
      messages of the selected games, in that order. */
  lemma {:induction false} ConcatInOrder(flags: GameFlags, msg: Game -> string)
    ensures Concat(SelectedGames(flags), msg)
         == "" + Part(msg, Genshin, flags.genshin) + Part(msg, Honkai, flags.honkai3rd)
            + Part(msg, Starrail, flags.starrail) + Part(msg, Zzz, flags.zzz)
            + Part(msg, Themis, flags.themis) + Part(msg, ThemisTw, flags.themisTw)
  {
    var g0: seq<Game> := [];
    var g1 := g0 + Opt(flags.genshin, Genshin);
    var g2 := g1 + Opt(flags.honkai3rd, Honkai);
    var g3 := g2 + Opt(flags.starrail, Starrail);
    var g4 := g3 + Opt(flags.zzz, Zzz);
    var g5 := g4 + Opt(flags.themis, Themis);
    ConcatStep(g0, msg, Genshin, flags.genshin);
    ConcatStep(g1, msg, Honkai, flags.honkai3rd);
    ConcatStep(g2, msg, Starrail, flags.starrail);
    ConcatStep(g3, msg, Zzz, flags.zzz);
    ConcatStep(g4, msg, Themis, flags.themis);
    ConcatStep(g5, msg, ThemisTw, flags.themisTw);
  }

  /** The client check of a check-in does not depend on the game: it passes
      exactly when the user exists and has a default cookie. */
  lemma CheckinClientCheck(rows: map<UserId, User>, id: UserId, game: Game)
    ensures GetClient(rows, id, game, false).Ok? <==> id in rows && rows[id].cookieDefault.Some?
  {
  }

  /** A claim of ZZZ or Tears of Themis never produces a solver link, even
      when one was asked for. */
  lemma NoSolverLinkWithoutGeetestPass(req: CheckinRequest, game: Game, outcomes: seq<ClaimOutcome>)
    requires !PassesGeetest(game) && |outcomes| > DefaultRetry
    ensures !ClaimReward(ContextFor(req, game), DefaultRetry, outcomes).0.SolveAt?
  {
    var r := ClaimReward(ContextFor(req, game), DefaultRetry, outcomes);
    if !Retried(outcomes[r.1 - 1]) {
      assert r.0 == Settle(ContextFor(req, game), outcomes[r.1 - 1]);
    }
  }
}
