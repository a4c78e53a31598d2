/** `cogs.uid_setting.ui`: storing the UID of one game, typed into a form or
    chosen among the accounts of the user's cookie. */
module UidSetting {
  import opened Wrappers
  import opened Text
  import opened Records

  /** The user record with the UID of `game` set to `uid`; a game without a
      UID field leaves the record as it is. */
  function WithUid(user: User, game: Game, uid: int): (u: User)
    ensures forall g :: UidOf(u, g) == if g == game && HasUidField(g) then Some(uid) else UidOf(user, g)
    ensures u.discordId == user.discordId && u.lastUsedTime == user.lastUsedTime
    ensures u.cookieDefault == user.cookieDefault && u.cookieGenshin == user.cookieGenshin
    ensures u.cookieHonkai3rd == user.cookieHonkai3rd && u.cookieStarrail == user.cookieStarrail
    ensures u.cookieZzz == user.cookieZzz && u.cookieThemis == user.cookieThemis
  {
    match game
    case Genshin => user.(uidGenshin := Some(uid))
    case Honkai => user.(uidHonkai3rd := Some(uid))
    case Starrail => user.(uidStarrail := Some(uid))
    case Zzz => user.(uidZzz := Some(uid))
    case _ => user
  }

  /** Setting a UID twice keeps the second, and UIDs of different games can
      be set in either order. */
  lemma WithUidOverwritesAndCommutes(user: User, g1: Game, g2: Game, a: int, b: int)
    ensures WithUid(WithUid(user, g1, a), g1, b) == WithUid(user, g1, b)
    ensures g1 != g2 ==> WithUid(WithUid(user, g1, a), g2, b) == WithUid(WithUid(user, g2, b), g1, a)
  {
  }

  /** The form's input is 9 to 10 characters long. */
  predicate UidInputLength(text: string) {
    9 <= |text| <= 10
  }

  /** `UIDModal.on_submit`: the caller's record (a new one when there is
      none) with the typed UID stored for the form's game. An `Err` is the
      `ValueError` of text that is not a number; nothing is then stored.
      The `uid_settings` command offers only the four games with a UID
      column. */
  method SubmitUid(table: UserTable, caller: UserId, game: Game, text: string) returns (r: Result<int, string>)
    requires UidInputLength(text) && table.Keyed() && HasUidField(game)
    modifies table
    ensures r.Ok? <==> ParseInt(text).Some?
    ensures r.Err? ==> table.rows == old(table.rows)
    ensures r.Ok? ==> (r.value == ParseInt(text).value &&
      table.rows == old(table.rows)[caller := WithUid(Lookup(old(table.rows), caller).GetOr(NewUser(caller)), game, r.value)])
    ensures table.Keyed()
  {
    var user := NewUser(caller);
    if caller in table.rows {
      user := table.rows[caller];
    }
    var uid := ParseInt(text);
    if uid.None? {
      return Err("ValueError");
    }
    table.Upsert(WithUid(user, game, uid.value));
    r := Ok(uid.value);
  }

  /** The dropdown's option values: the accounts' positions. */
  function AccountValues(accounts: seq<GameAccount>): (values: seq<string>)
    ensures |values| == |accounts|
    ensures forall i :: 0 <= i < |values| ==> values[i] == IntToString(i)
  {
    seq(|accounts|, i requires 0 <= i < |accounts| => IntToString(i))
  }

  /** The games the dropdown stores a UID for. */
  predicate DropdownStores(game: Game) {
    game in {Genshin, Starrail, Zzz}
  }

  /** The record the dropdown stores: Honkai Impact 3 and the Themis games
      are left unchanged. */
  function ChosenUid(user: User, game: Game, uid: int): (u: User)
    ensures DropdownStores(game) ==> u == WithUid(user, game, uid)
    ensures !DropdownStores(game) ==> u == user
  {
    if DropdownStores(game) then WithUid(user, game, uid) else user
  }

  /** `UidDropdown.callback` for the chosen option `choice`. An `Err` is the
      `ValueError` raised for a caller without a record; nothing is then
      stored. */
  method ChooseAccount(table: UserTable, caller: UserId, game: Game, accounts: seq<GameAccount>, choice: string)
    returns (r: Result<int, string>)
    requires choice in AccountValues(accounts) && table.Keyed()
    modifies table
    ensures r.Ok? <==> caller in old(table.rows)
    ensures r.Err? ==> table.rows == old(table.rows)
    ensures r.Ok? ==>
      exists i :: 0 <= i < |accounts| && choice == IntToString(i) && r.value == accounts[i].uid &&
        table.rows == old(table.rows)[caller := ChosenUid(old(table.rows)[caller], game, accounts[i].uid)]
    ensures table.Keyed()
  {
    var i :| 0 <= i < |accounts| && AccountValues(accounts)[i] == choice;
    ParseIntToString(i);
    var index := ParseInt(choice).value;
    var uid := accounts[index].uid;
    if caller !in table.rows {
      return Err("This user cannot be found");
    }
    var user := table.rows[caller];
    table.Upsert(ChosenUid(user, game, uid));
    r := Ok(uid);
  }

  /** Each option selects the account at its position. */
  lemma {:induction false} OptionSelectsAccount(accounts: seq<GameAccount>, i: nat)
    requires i < |accounts|
    ensures ParseInt(AccountValues(accounts)[i]) == Some(i)
    ensures forall j :: 0 <= j < |accounts| && AccountValues(accounts)[j] == AccountValues(accounts)[i] ==> j == i
  {
    ParseIntToString(i);
    forall j | 0 <= j < |accounts| && AccountValues(accounts)[j] == AccountValues(accounts)[i]
      ensures j == i
    {
      ParseIntToString(j);
    }
  }
}
