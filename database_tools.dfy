/** `database.Tool`: the precondition check every command runs on the stored
    user before it talks to the game service, and the sweep that drops users
    who have not used the bot for a long time. */
module DatabaseTools {
  import opened Wrappers
  import opened Records
  import Clock

  const UserNotFoundMessage: string :=
    "User not found, please set Cookie first (use " + CommandMention("cookie_settings") + " to display instructions)"
  const CookieNotFoundMessage: string :=
    "Cookie not found, please set Cookie first (use " + CommandMention("cookie_settings") + " to display instructions)"
  const UidNotFoundMessage: string :=
    "Cannot find character UID, please set your UID first (use " + CommandMention("uid_settings") + " for instructions)"

  /** `Tool.check_user`: the first failing guard decides the message; a user
      who passes every guard gets `(True, "")`. */
  function CheckUser(user: Option<User>, checkCookie: bool, checkUid: bool, game: Option<Game>)
    : (r: (bool, string))
    ensures r.0 <==> r.1 == ""
    ensures r.0 <==>
      user.Some?
      && (checkCookie ==> user.value.cookieDefault.Some?)
      && (checkUid && game.Some? && HasUidField(game.value) ==> UidOf(user.value, game.value).Some?)
  {
    if user.None? then
      (false, UserNotFoundMessage)
    else if checkCookie && user.value.cookieDefault.None? then
      (false, CookieNotFoundMessage)
    else if checkUid && game.Some? && UidOf(user.value, game.value).None? && HasUidField(game.value) then
      (false, UidNotFoundMessage)
    else
      (true, "")
  }

  /** A missing user fails first, whatever else is asked. */
  lemma MissingUserFailsFirst(checkCookie: bool, checkUid: bool, game: Option<Game>)
    ensures CheckUser(None, checkCookie, checkUid, game) == (false, UserNotFoundMessage)
  {
  }

  /** Asking for a Tears of Themis UID, or a UID of no game, never fails:
      the check is the same as not asking for a UID at all. */
  lemma UidCheckIgnoresGamesWithoutUid(user: Option<User>, checkCookie: bool, game: Option<Game>)
    requires game.None? || !HasUidField(game.value)
    ensures CheckUser(user, checkCookie, true, game) == CheckUser(user, checkCookie, false, game)
  {
  }

  /** `Tool.remove_expired_user` deletes a user whose last use lies more than
      `diffDays` whole days before `now`; a user never seen is kept. */
  predicate Expired(user: User, now: int, diffDays: int) {
    user.lastUsedTime.Some? && Clock.WholeDays(now - user.lastUsedTime.value) > diffDays
  }

  /** The days threshold the sweep uses when none is given. */
  const DefaultExpiryDays: int := 60

  /** The users a sweep keeps. */
  function Surviving(rows: map<UserId, User>, now: int, diffDays: int): (kept: map<UserId, User>)
    ensures kept.Keys <= rows.Keys
    ensures forall id :: id in rows && !Expired(rows[id], now, diffDays) ==> id in kept && kept[id] == rows[id]
    ensures forall id :: id in kept ==> !Expired(rows[id], now, diffDays)
  {
    map id | id in rows && !Expired(rows[id], now, diffDays) :: rows[id]
  }

  lemma HasMember(s: set<UserId>)
    requires |s| > 0
    ensures exists id :: id in s
  {
    if !exists id :: id in s {
      assert false;
    }
  }

  /** What a finished sweep leaves: the rows not deleted, where exactly the
      expired users were deleted. */
  lemma SweepResult(before: map<UserId, User>, rows: map<UserId, User>, deleted: set<UserId>, now: int, diffDays: int)
    requires deleted <= before.Keys
    requires forall x :: x in before ==> (x in deleted <==> Expired(before[x], now, diffDays))
    requires rows.Keys == before.Keys - deleted
    requires forall x :: x in rows ==> rows[x] == before[x]
    ensures rows == Surviving(before, now, diffDays)
    ensures before.Keys - rows.Keys == deleted
  {
    var kept := Surviving(before, now, diffDays);
    forall x
      ensures x in rows <==> x in kept
    {
      if x in before {
        assert x in deleted <==> Expired(before[x], now, diffDays);
      }
    }
    assert rows.Keys == kept.Keys;
    forall x | x in rows
      ensures rows[x] == kept[x]
    {
      assert !Expired(before[x], now, diffDays);
    }
    assert rows == kept;
    assert before.Keys - rows.Keys == deleted;
  }

  /** `Tool.remove_expired_user`: walks every stored user, deletes the expired
      ones and counts them. Returns how many users were checked and how many
      were deleted. */
  method RemoveExpiredUsers(table: UserTable, now: int, diffDays: int) returns (checked: nat, count: nat)
    modifies table
    ensures checked == |old(table.rows)|
    ensures table.rows == Surviving(old(table.rows), now, diffDays)
    ensures count == |old(table.rows).Keys - table.rows.Keys| && count <= checked
  {
    ghost var before := table.rows;
    var users := table.rows.Keys;
    checked := |users|;
    count := 0;
    var pending := users;
    ghost var deleted: set<UserId> := {};
    while |pending| > 0
      invariant pending <= users && deleted <= users - pending
      invariant forall x :: x in users - pending ==> (x in deleted <==> Expired(before[x], now, diffDays))
      invariant table.rows.Keys == users - deleted
      invariant forall x :: x in table.rows ==> table.rows[x] == before[x]
      invariant count == |deleted|
      decreases pending
    {
      HasMember(pending);
      var id :| id in pending;
      var user := table.rows[id];
      if user.lastUsedTime.Some? {
        var interval := now - user.lastUsedTime.value;
        if Clock.WholeDays(interval) > diffDays {
          table.Delete(id);
          deleted := deleted + {id};
          count := count + 1;
        }
      }
      pending := pending - {id};
    }
    assert users - pending == users;
    SweepResult(before, table.rows, deleted, now, diffDays);
  }
}
