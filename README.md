# Hoyolab assistant bot: a Dafny model of its core

This project models the core of a Discord bot that manages Hoyolab accounts
for the games Genshin Impact, Honkai Impact 3, Honkai: Star Rail, Zenless
Zone Zero and Tears of Themis (global and Taiwan servers). The model covers:

- the user and schedule tables with their lookups, upserts and deletions
  (`records.dfy`);
- the stored-user checks and the sweep of expired users (`database_tools.dfy`);
- the game-service client: picking the cookie, UID and region, listing game
  accounts, storing a cookie, and claiming the daily reward with retries and
  captcha handling (`client_common.dfy`);
- the `/schedule` command family: turning daily check-in and real-time-notes
  reminders on and off, removing a user's schedule in a channel, and moving
  every schedule of a channel to another one (`schedule_commands.dfy`);
- the schedule forms and the daily check-in options view: parsing and
  checking threshold fields, `HHMM` times and the next due time, prefilling a
  form from a stored setting, and the game, hour, minute and mention
  selections (`schedule_ui.dfy`, `clock.dfy`);
- the Genshin character showcase: the cache-or-refresh loading of player data,
  the per-character image cache, and the artifact statistics
  (`enka_showcase.dfy`);
- the Star Rail showcase UI: the character dropdown, its callback, the
  buttons, and the UID checks of the `showcase` command
  (`starrail_showcase_ui.dfy`);
- the UID-setting form and account dropdown (`uid_setting.dfy`);
- the admin cog: server-name listing, presence rotation and the maintenance
  window (`admin.dfy`);
- the argument mapping of `/daily` (`daily_checkin.dfy`);
- the month arithmetic of the diary command (`diary.dfy`).

The Star Rail reminder form does not reset its Simulated Universe and
weekly-boss fields when the user has no stored setting
(`cogs/schedule/ui.py:296-299`): their defaults live on the form class, so
they carry over from the last form opened with a setting.
`ScheduleUi.StarrailPrefill` takes those earlier defaults as arguments.

`text.dfy` holds the Python built-ins the core relies on: `str(int)`,
`int(str)`, `str.join`, `str.split` and substring tests. `wrappers.dfy`
holds `Option` and `Result`.

Times are whole seconds since a Monday at 00:00. Day `d` has weekday
`d % 7`, where Monday is 0 and Sunday is 6. Python's floor division and modulo
by a positive divisor coincide with Dafny's `/` and `%`, so `HHMM // 100`,
`HHMM % 100` and `timedelta.days` are written directly. Database rows are
datatype values. The ORM's field assignments become record updates, and
`insert_or_replace`/`delete` of user records become the `Upsert` and `Delete`
methods of `Records.UserTable`, and `insert_or_replace` of cached showcases the
`Upsert` method of `EnkaShowcase.ShowcaseTable`; both hold a `map` keyed by id.
The four schedule tables are the four `map` fields of `Records.ScheduleTables`,
which the form and command methods assign directly; its constructor, which
starts them empty, is only the setting for those methods.

A reminder time equal to "now" stays today: the code compares with a strict
`<` (`cogs/schedule/ui.py:227`, `cogs/schedule/command_cog.py:150`), and
`Clock.NextDaily` does the same.

## Model

| member | source | states |
|---|---|---|
| Records.Lookup | cogs/schedule/command_cog.py:93-95 | a `select_one` by id finds a row exactly when the id is in the table, and returns that row |
| Records.NewUser | cogs/uid_setting/ui.py:26-28 | a new user record carries the caller's id and no cookie |
| Records.UidOf | database/tools.py:47-53 | only Genshin, Honkai Impact 3, Star Rail and ZZZ have a UID column; other games never have a UID |
| Records.UserTable.constructor | database/tools.py:69 | the table starts with exactly the given rows |
| Records.UserTable.Upsert | genshin_py/client/common.py:172 | `insert_or_replace` stores the record under its own id, leaves every other row alone, and keeps every row keyed by its own id |
| Records.UserTable.Delete | database/tools.py:75 | `delete_instance` removes exactly that user's row |
| DatabaseTools.CheckUser | database/tools.py:13-56 | the check passes iff the user exists, has a default cookie when cookies are checked, and has a UID for the game when UIDs are checked and the game has a UID column; the message is empty exactly when it passes |
| DatabaseTools.MissingUserFailsFirst | database/tools.py:41-42 | a missing user always fails with the "User not found" message, whatever is checked |
| DatabaseTools.UidCheckIgnoresGamesWithoutUid | database/tools.py:47-53 | asking for a UID check has no effect when no game is given or the game has no UID column |
| DatabaseTools.Surviving | database/tools.py:70-76 | the kept users are exactly those that have no last-used time or were used at most `diff_days` whole days ago, each unchanged |
| DatabaseTools.RemoveExpiredUsers | database/tools.py:59-77 | after the sweep the table holds exactly the surviving users; every user was checked, and the count is the number of rows deleted |
| DatabaseTools.SweepResult | database/tools.py:70-76 | deleting exactly the expired rows and keeping every other row unchanged leaves the surviving users, and the removed keys are the deleted ones |
| Clock.NextDaily | cogs/schedule/ui.py:222-228 | today's hour:minute, moved to tomorrow only when strictly earlier than now: the result lies in `[now, now + 1 day)` and falls at that time of day |
| Clock.NextDailyUnique | cogs/schedule/ui.py:222-228 | the daily due time is the only moment in `[now, now + 1 day)` at that time of day |
| Clock.NextWeekly | cogs/schedule/ui.py:355-369 | this week's Sunday at hour:minute, moved a week on when strictly earlier than now: the result lies in `[now, now + 7 days)`, is a Sunday, and falls at that time of day |
| Clock.NextWeeklyUnique | cogs/schedule/ui.py:355-369 | the weekly due time is the only Sunday moment at that time of day in `[now, now + 7 days)` |
| ScheduleUi.IntToStr | cogs/schedule/ui.py:117-118 | absent values stay absent; a number becomes its decimal text |
| ScheduleUi.StrToInt | cogs/schedule/ui.py:120-121 | an empty field means "not set"; otherwise the text must parse as an integer, and the result is that integer |
| ScheduleUi.StrToIntOfIntToStr | cogs/schedule/ui.py:117-121 | reading back a shown value gives the value back, absent values included |
| ScheduleUi.SplitHhmm | cogs/schedule/ui.py:222-223 | an `HHMM` number is accepted iff it is in `[0, 2400)` with minutes below 60, and then splits into a valid hour and minute that recompose to it |
| ScheduleUi.HourOf | cogs/schedule/ui.py:190-194 | the hour of a stored time is in 0..23 |
| ScheduleUi.MinuteOf | cogs/schedule/ui.py:190-194 | the minute of a stored time is in 0..59 |
| ScheduleUi.FormatHhmm | cogs/schedule/ui.py:190-194 | `strftime("%H%M")` gives four digits |
| ScheduleUi.FormatHhmmRoundTrip | cogs/schedule/ui.py:190-228 | a stored time shown as `HHMM` and submitted unchanged is read back as the same hour and minute |
| ScheduleUi.DailyTime | cogs/schedule/ui.py:221-228 | an empty field gives no time; a bad `HHMM` is an error; otherwise the due time is within a day of now, at that hour and minute |
| ScheduleUi.WeeklyTime | cogs/schedule/ui.py:353-369 | an empty field gives no time; a bad `HHMM` is an error; otherwise the due time is a Sunday within a week of now, at that hour and minute |
| ScheduleUi.DailyDue | cogs/schedule/ui.py:221-228 | the imperative computation of the daily time agrees with `DailyTime` |
| ScheduleUi.WeeklyDue | cogs/schedule/ui.py:353-369 | the imperative computation of the weekly time agrees with `WeeklyTime` |
| ScheduleUi.ToMsg | cogs/schedule/ui.py:129-139 | the confirmation line is empty iff the value is absent; otherwise it starts with the title and ends with a newline; a time shows as `HH:MM`, a threshold of 0 is the "Remind when completed" line, and any other threshold shows its hour count |
| ScheduleUi.ContainsMiddle | cogs/schedule/ui.py:135 | the text placed in the middle of a line is contained in it |
| ScheduleUi.ParseGenshin | cogs/schedule/ui.py:206-213 | the Genshin form parses iff each of its five fields parses, and the values are the fields' values |
| ScheduleUi.GenshinSubmission | cogs/schedule/ui.py:197-233 | an accepted form is not all empty, has each threshold within its bound (resin 8, currency 24, transformer 5, expedition 5), and its commission time is the next daily occurrence; a rejected form is all empty or has a bad field, an out-of-range threshold or a bad time |
| ScheduleUi.SubmitGenshin | cogs/schedule/ui.py:197-246 | the result is the submission's; an accepted form is stored under the caller with the channel (0 when there is none); a rejected one changes nothing; the other tables are unchanged |
| ScheduleUi.GenshinResubmit | cogs/schedule/ui.py:177-228 | re-submitting the form prefilled from a valid stored setting keeps every threshold and moves the commission check to its next occurrence at the same hour and minute |
| ScheduleUi.GenshinPrefill | cogs/schedule/ui.py:177-194 | without a stored setting the form shows "1" for resin and empty fields; with one, every threshold field reads back as the stored threshold and the commission field as the stored time's `HHMM` |
| ScheduleUi.ParseStarrail | cogs/schedule/ui.py:331-338 | the Star Rail form parses iff each of its five fields parses |
| ScheduleUi.StarrailSubmission | cogs/schedule/ui.py:322-372 | an accepted form is not all empty, keeps power within 8 and expedition within 5; the daily-training time is daily; the universe and echo-of-war times are weekly on Sunday; a rejected form names its cause |
| ScheduleUi.SubmitStarrail | cogs/schedule/ui.py:322-388 | the result is the submission's; an accepted form is stored under the caller; nothing else changes |
| ScheduleUi.PrefilledTime | cogs/schedule/ui.py:300-320 | a prefilled time field reads back as the stored hour and minute |
| ScheduleUi.StarrailResubmit | cogs/schedule/ui.py:296-372 | re-submitting the prefilled Star Rail form keeps the thresholds and moves the daily-training check to its next daily occurrence and the weekly checks to their next Sunday occurrence |
| ScheduleUi.StarrailPrefill | cogs/schedule/ui.py:296-320 | without a stored setting the form shows "1" for power, empty expedition and daily-training fields, and the universe and weekly-boss fields the form had before; with one, every field reads back as the stored value |
| ScheduleUi.ZzzSubmission | cogs/schedule/ui.py:432-456 | an accepted ZZZ form is not all empty, keeps the battery threshold within 8, and has a daily engagement time; a rejected form names its cause |
| ScheduleUi.SubmitZzz | cogs/schedule/ui.py:432-465 | the result is the submission's; an accepted form is stored under the caller; nothing else changes |
| ScheduleUi.ZzzResubmit | cogs/schedule/ui.py:418-450 | re-submitting the prefilled ZZZ form keeps the battery threshold and moves the engagement check to its next occurrence |
| ScheduleUi.ZzzPrefill | cogs/schedule/ui.py:418-430 | without a stored setting the form shows "1" for battery and an empty time; with one, both fields read back as the stored values |
| ScheduleUi.HourOptions | cogs/schedule/ui.py:73-79 | 24 options, the i-th valued `str(i)` |
| ScheduleUi.MinuteOptions | cogs/schedule/ui.py:87-95 | 12 options, the i-th valued `str(5 * i)` |
| ScheduleUi.HourOptionParses | cogs/schedule/ui.py:80-85 | every hour option parses to an hour in 0..23 whose text is the option |
| ScheduleUi.MinuteOptionParses | cogs/schedule/ui.py:96-101 | every minute option parses to a multiple of 5 in 0..55 whose text is the option |
| ScheduleUi.DailyRewardOptionsView.constructor | cogs/schedule/ui.py:13-36 | no games selected, 08:00, mention undecided |
| ScheduleUi.DailyRewardOptionsView.InteractionCheck | cogs/schedule/ui.py:38-39 | an interaction passes iff it comes from the view's author; every callback below requires it of the acting user |
| ScheduleUi.DailyRewardOptionsView.SelectGames | cogs/schedule/ui.py:55-71 | the selected games are joined with " + " and every chosen game's flag is set; hour, minute and mention are unchanged |
| ScheduleUi.DailyRewardOptionsView.SelectHour | cogs/schedule/ui.py:80-85 | a chosen hour is stored as the option's number; no choice keeps the hour |
| ScheduleUi.DailyRewardOptionsView.SelectMinute | cogs/schedule/ui.py:96-101 | a chosen minute is stored as the option's number; no choice keeps the minute |
| ScheduleUi.DailyRewardOptionsView.ChooseMention | cogs/schedule/ui.py:103-113 | either button records the mention choice and stops the view |
| ScheduleUi.SelectedNames | cogs/schedule/ui.py:41-54 | the selected option values are the games' names |
| ScheduleUi.SelectionNamesEachGame | cogs/schedule/ui.py:59-71 | the joined selection contains every chosen game's name |
| ScheduleUi.SelectionFlagged | cogs/schedule/ui.py:59-71 | after a selection, every chosen game is flagged, some game is flagged, and Tears of Themis(TW) never comes without Tears of Themis |
| ScheduleUi.ThemisTwNamesThemis | cogs/schedule/ui.py:69-71 | the substring test for "Tears of Themis" also matches "Tears of Themis(TW)" |
| ScheduleUi.SelectionFlagsExactly | cogs/schedule/ui.py:59-71 | on a fresh view a game ends flagged iff it was chosen, or, for Tears of Themis, iff Tears of Themis(TW) was chosen |
| ScheduleUi.NameNotInOtherName | cogs/schedule/ui.py:60-71 | no game name occurs inside another, except Tears of Themis inside Tears of Themis(TW) |
| Text.JoinContainsOnlyParts | cogs/schedule/ui.py:59 | a name without "+" and without outer spaces found in the " + "-joined selection occurs in one of the chosen values |
| ScheduleCommands.Setting | cogs/schedule/command_cog.py:174-177 | the stored setting is found iff the user has a row, and is that row's settings |
| ScheduleCommands.NotesGame | cogs/schedule/command_cog.py:96-110 | each notes function checks the UID of a game with a UID column; daily check-in checks no UID |
| ScheduleCommands.FeatureCheck | cogs/schedule/command_cog.py:93-114 | a feature is allowed iff the user exists with a cookie and, for notes, has the game's UID; the message is empty exactly when allowed |
| ScheduleCommands.FirstCheckin | cogs/schedule/command_cog.py:135-151 | the first check-in is today at the chosen time when that is not earlier than now, otherwise the advanced time |
| ScheduleCommands.FirstCheckinIsNextDaily | cogs/schedule/command_cog.py:135-151 | advancing by one day makes the first check-in the next daily occurrence |
| ScheduleCommands.TurnOff | cogs/schedule/command_cog.py:164-220 | OFF removes the caller from the table of the chosen function only |
| ScheduleCommands.TurnOffRemovesOnlyUser | cogs/schedule/command_cog.py:164-220 | turning a schedule off removes exactly that user from exactly that table |
| ScheduleCommands.DailyEntry | cogs/schedule/command_cog.py:138-149 | the daily row carries the channel (0 when none), the chosen games and the mention choice |
| ScheduleCommands.EnableDaily | cogs/schedule/command_cog.py:116-152 | a view left without games or mention choice cancels and stores nothing; otherwise the caller's daily row is replaced by the new entry |
| ScheduleCommands.Disable | cogs/schedule/command_cog.py:164-220 | the tables become the `TurnOff` store |
| ScheduleCommands.Schedule | cogs/schedule/command_cog.py:52-220 | HELP and TEST change nothing; a failed check replies with its message and changes nothing; OFF turns the function off; ON opens the form with the stored setting, or enables daily check-in |
| ScheduleCommands.RemoveInChannel | cogs/schedule/command_cog.py:244-280 | the row is removed iff it belongs to the user and sits in the given channel; no other row changes |
| ScheduleCommands.RemoveUserOnlyInChannel | cogs/schedule/command_cog.py:244-280 | a manager's removal never deletes another user nor the user's rows of other functions, and removes nothing without a channel |
| ScheduleCommands.RemoveUser | cogs/schedule/command_cog.py:238-280 | the tables become the removal's store |
| ScheduleCommands.MoveChannel | cogs/schedule/command_cog.py:319-338 | every row of the source channel moves to the destination; other rows and all settings are unchanged |
| ScheduleCommands.MoveChannelEmptiesSource | cogs/schedule/command_cog.py:319-338 | after a move no row is left in the source channel, and moving again changes nothing |
| ScheduleCommands.AllLeavesZzz | cogs/schedule/command_cog.py:339-347 | as written, "All" moves the daily table but leaves the ZZZ table as it was |
| ScheduleCommands.AllLeavesZzzWitness | cogs/schedule/command_cog.py:346 | a ZZZ reminder in the source channel stays there under "All" as written, and would move under the intended rule |
| ScheduleCommands.IntendedMoveEmptiesSource | cogs/schedule/command_cog.py:339-347 | with "All" moving every table, no schedule of any kind is left in the source channel |
| ScheduleCommands.MovesAgreeExceptAllZzz | cogs/schedule/command_cog.py:339-347 | the written and the intended rules differ only for "All" on the ZZZ table |
| ScheduleCommands.MoveUsers | cogs/schedule/command_cog.py:302-348 | without a source channel nothing changes; otherwise the tables chosen by the function are moved as written |
| ClientCommon.GetClient | genshin_py/client/common.py:15-74 | fails with the check's message iff the user check fails; otherwise the client has the game, the game's own cookie when set and not empty and else the default cookie (the Themis cookie for both Themis servers), the stored UID (0 when none), and the Chinese region iff the UID is Chinese for that game |
| ClientCommon.DigitCharOf125 | genshin_py/client/common.py:47 | the digit character is 1, 2 or 5 iff the digit is |
| ClientCommon.GenshinChineseRange | genshin_py/client/common.py:47-48 | a Genshin UID is Chinese iff it is in `[100000000, 300000000)` or `[500000000, 600000000)` |
| ClientCommon.StarrailChineseLead | genshin_py/client/common.py:55-56 | a Star Rail UID is Chinese iff it is non-negative and leads with 1, 2 or 5 |
| ClientCommon.ThemisClientsShareCookie | genshin_py/client/common.py:60-65 | both Tears of Themis clients use the same cookie and UID 0 |
| ClientCommon.GameCookieOrDefault | genshin_py/client/common.py:43-65 | for every game, a set, non-empty cookie of the game's own (the Themis column for both Themis servers) is used, and otherwise the default cookie, which is then set |
| ClientCommon.OfGame | genshin_py/client/common.py:97 | the filtered accounts are exactly the game's accounts of the listing |
| ClientCommon.OfGameAppend | genshin_py/client/common.py:129-132 | filtering distributes over concatenation |
| ClientCommon.GetGameAccounts | genshin_py/client/common.py:78-97 | fails iff the cookie check fails; otherwise lists the game's accounts |
| ClientCommon.ApplyCookie | genshin_py/client/common.py:134-170 | storing a cookie keeps the user's id and last-used time |
| ClientCommon.StoreIfEffect | genshin_py/client/common.py:140-170 | one game's step sets that game's cookie when selected, and its UID when it has exactly one account, and nothing else |
| ClientCommon.ApplyCookieEffect | genshin_py/client/common.py:140-170 | after `set_cookie` the default cookie is the new one, every selected game's cookie is the new one, and a UID is stored exactly for selected games with exactly one account |
| ClientCommon.ApplyCookieIdempotent | genshin_py/client/common.py:134-172 | setting the same cookie twice gives the same record as once |
| ClientCommon.NoticesExactlyAmbiguous | genshin_py/client/common.py:140-170 | there is no notice iff no selected game has several accounts, and at most four notices |
| ClientCommon.CookieReply | genshin_py/client/common.py:175-182 | the reply starts with the success text, and is exactly it iff there are no notices |
| ClientCommon.SetCookie | genshin_py/client/common.py:101-182 | with a listing (the Chinese one after an invalid-cookie error), the user's row becomes `ApplyCookie` of the stored or new record and the reply carries the notices; otherwise nothing is stored |
| ClientCommon.OfficialLink | genshin_py/client/common.py:312-317 | there is an official check-in link exactly for the four games with a UID column |
| ClientCommon.GeetestUrl | genshin_py/client/common.py:304-306 | the solver link starts with the solver base URL |
| ClientCommon.Settle | genshin_py/client/common.py:296-334 | a captcha gives the solver link iff captcha was asked and a solver exists, the command hint iff a solver exists but was not asked, and the official link iff there is no solver; a reward is claimed iff granted; a settled attempt never fails |
| ClientCommon.ClaimReward | genshin_py/client/common.py:278-334 | at most `retry + 1` attempts; every attempt but the last errored; the last settled attempt decides the answer, or after `retry + 1` errors the last error is reported |
| ClientCommon.ClaimStopsAtFirstSettled | genshin_py/client/common.py:319-328 | the claim stops at the first attempt that does not error |
| ClientCommon.ClaimExhaustsAfterSixCalls | genshin_py/client/common.py:284-332 | with the default of five retries, six errors end in the failure message of the sixth |
| ClientCommon.SelectedGames | genshin_py/client/common.py:250-275 | a game is claimed iff its flag is set; none is claimed iff no flag is set |
| ClientCommon.ChallengeFor | genshin_py/client/common.py:243-248 | a stored challenge is passed only without a new captcha request, and only for Genshin, Honkai Impact 3 and Star Rail |
| ClientCommon.ContextFor | genshin_py/client/common.py:250-275 | a solver link is asked only when requested and only for games that pass it |
| ClientCommon.ClaimDailyReward | genshin_py/client/common.py:185-275 | a failed client check returns its message; no game returns the no-game message; otherwise the result is every selected game's message, in order |
| ClientCommon.ClaimSelected | genshin_py/client/common.py:250-275 | the appended messages are those of the selected games, in order |
| ClientCommon.AppendClaim | genshin_py/client/common.py:250-275 | one `if has_<game>` step appends that game's message when selected |
| ClientCommon.ConcatStep | genshin_py/client/common.py:250-275 | appending one optional game extends the message by its part |
| ClientCommon.ConcatInOrder | genshin_py/client/common.py:250-275 | the messages come in the order Genshin, Honkai, Star Rail, ZZZ, Themis, Themis(TW) |
| ClientCommon.CheckinClientCheck | genshin_py/client/common.py:222-225 | the check-in client fails iff the user is missing or has no default cookie |
| ClientCommon.NoSolverLinkWithoutGeetestPass | genshin_py/client/common.py:250-275 | a game for which the captcha flag is not passed never gets a solver link |
| EnkaShowcase.ShowcaseTable.constructor | enka_network/showcase.py:51 | the showcase table starts with the given rows |
| EnkaShowcase.ShowcaseTable.Upsert | enka_network/showcase.py:69-71 | storing a showcase replaces only that UID's row |
| EnkaShowcase.Load | enka_network/showcase.py:48-73 | loading raises iff there is no cached or held data and the fetch fails; fresh data is kept as is; a new player or stale data gets the fetched data when the fetch succeeds, and a failed refresh keeps the old data, marked as cached, with the API's message; data is stored iff it is not cached |
| EnkaShowcase.FailedRefreshServesCache | enka_network/showcase.py:57-66 | a failed refresh of stale data serves the cache with the error message, and stores nothing |
| EnkaShowcase.MissingTimestampRefreshes | enka_network/showcase.py:59-60 | data without timestamp or TTL is always refreshed, and the new data is stored |
| EnkaShowcase.Slot | enka_network/showcase.py:298 | a list index in `[-25, 25)` picks slot `index`, counting from the end when negative, as Python does |
| EnkaShowcase.Showcase.constructor | enka_network/showcase.py:39-46 | a new showcase has no data, is not cached, has no error, and has 25 empty image slots |
| EnkaShowcase.Showcase.LoadData | enka_network/showcase.py:48-73 | the new state, the escaped error and the stored row are those of `Load` |
| EnkaShowcase.Showcase.GetImage | enka_network/showcase.py:293-309 | no characters gives no image; a filled slot is returned as it is; an empty slot gets the rendered image, and only that slot changes |
| EnkaShowcase.PosName | enka_network/showcase.py:197-231 | the slot name is one of five names or "unknown"; "Flower" iff bracer; "Feather" iff necklace |
| EnkaShowcase.AsWrittenShowsFlowerAndFeather | enka_network/showcase.py:237 | as written, the filter lets the flower and the feather through |
| EnkaShowcase.AsWrittenShowsEverySlot | enka_network/showcase.py:237 | as written, the filter lets every slot through |
| EnkaShowcase.IntendedHidesFlowerAndFeather | enka_network/showcase.py:236-237 | the intended filter hides a slot iff it is the flower or the feather |
| EnkaShowcase.AddStatsTotal | enka_network/showcase.py:225-228 | each substat total is the starting total plus the sum of that stat's values, and a stat is present iff it was present or occurs |
| EnkaShowcase.AsWrittenShowsEveryArtifact | enka_network/showcase.py:208-242 | as written, every counted artifact is listed |
| EnkaShowcase.IntendedShowsNoFlowerOrFeather | enka_network/showcase.py:236-242 | with the intended filter, every listed set name comes from a counted artifact that is neither a flower nor a feather |
| EnkaShowcase.IntendedShowsEveryOtherArtifact | enka_network/showcase.py:236-242 | with the intended filter, every counted artifact that is neither a flower nor a feather has its set name listed |
| EnkaShowcase.SummarizeSums | enka_network/showcase.py:208-228 | the substat sums are the totals over every counted artifact, whatever the display filter |
| EnkaShowcase.ArtifactStats | enka_network/showcase.py:189-242 | the loop computes the summary under the given slot filter, so it covers both the written and the intended filter |
| StarrailShowcaseUi.CharacterOptions | cogs/showcase/ui_starrail.py:17-31 | the options are the profile entry, the first 23 characters in order, and the delete entry: at most 25 |
| StarrailShowcaseUi.Shown | cogs/showcase/ui_starrail.py:20-29 | the first n character entries, the k-th valued `str(k)` |
| StarrailShowcaseUi.BuildOptions | cogs/showcase/ui_starrail.py:17-31 | the loop builds exactly `CharacterOptions` |
| StarrailShowcaseUi.Dropdown | cogs/showcase/ui_starrail.py:33-64 | a non-negative index shows that character's card; -1 the overview; -2 deletes iff the caller owns the UID and has a cookie; below -2 nothing |
| StarrailShowcaseUi.OptionsDispatch | cogs/showcase/ui_starrail.py:17-64 | every option's value parses: the first shows the overview, each character entry its own card, the last the delete path |
| StarrailShowcaseUi.OptionValue | cogs/showcase/ui_starrail.py:19-34 | each entry's value reads back as -1 for the overview, the character's position for a character, or -2 for deletion |
| StarrailShowcaseUi.ShowcaseCache.constructor | cogs/showcase/ui_starrail.py:60-63 | the showcase cache starts with the given UIDs |
| StarrailShowcaseUi.DropdownCallback | cogs/showcase/ui_starrail.py:33-64 | the outcome is `Dropdown`'s, and the cached data of the UID is deleted iff the outcome is a deletion |
| StarrailShowcaseUi.AsWrittenTwoButtonsDoNothing | cogs/showcase/ui_starrail.py:76-109 | as written, the "Picture" and "RelicStats" buttons match no case |
| StarrailShowcaseUi.IntendedEveryButtonActs | cogs/showcase/ui_starrail.py:76-109 | with matching captions, every button opens a distinct screen, and every screen has a button |
| StarrailShowcaseUi.ViewItems | cogs/showcase/ui_starrail.py:103-112 | four buttons for the character when one is shown, and the dropdown iff there are characters |
| StarrailShowcaseUi.ResolveUid | cogs/showcase/ui_starrail.py:122 | a given non-zero UID wins, otherwise the stored Star Rail UID |
| StarrailShowcaseUi.CheckUid | cogs/showcase/ui_starrail.py:122-131 | the UID is accepted iff one is found and has the right format; a missing UID is its own error |
| StarrailShowcaseUi.UidFormatRange | cogs/showcase/ui_starrail.py:130 | the format is right iff the UID is in `[100000000, 300000000)` or `[500000000, 1000000000)` |
| UidSetting.WithUid | cogs/uid_setting/ui.py:30-38 | the game's UID becomes the given one; other UIDs, cookies and identity are unchanged |
| UidSetting.WithUidOverwritesAndCommutes | cogs/uid_setting/ui.py:30-38 | a second UID overwrites the first, and UIDs of different games commute |
| UidSetting.SubmitUid | cogs/uid_setting/ui.py:17-46 | for one of the four games the command offers, a numeric entry is stored on the caller's record (a new one when there is none); other text stores nothing |
| UidSetting.AccountValues | cogs/uid_setting/ui.py:55-62 | the i-th option is valued `str(i)` |
| UidSetting.ChosenUid | cogs/uid_setting/ui.py:72-78 | the dropdown stores a UID only for Genshin, Star Rail and ZZZ |
| UidSetting.ChooseAccount | cogs/uid_setting/ui.py:67-79 | a caller without a record gets an error and nothing changes; otherwise the chosen account's UID is stored |
| UidSetting.OptionSelectsAccount | cogs/uid_setting/ui.py:59-68 | each option parses to its own position and to no other |
| Admin.DaysInMonth | cogs/admin/cog.py:124-126 | a month has 28 to 31 days |
| Admin.NextDay | cogs/admin/cog.py:127 | the next day keeps the hour |
| Admin.YearLength | cogs/admin/cog.py:127 | a year has 366 days iff it is a leap year, otherwise 365 |
| Admin.NextDayIsOneDayLater | cogs/admin/cog.py:127 | the next day is a valid date one day and 24 hours later |
| Admin.Maintenance | cogs/admin/cog.py:111-128 | a zero month or day turns maintenance off; otherwise the window starts this year, or next year for an earlier month, at the given date and hour, and lasts `duration` hours; an impossible date is an error |
| Admin.SameMonthEarlierDayStaysThisYear | cogs/admin/cog.py:123-126 | an earlier day of the current month is placed this year, in the past |
| Admin.Config.constructor | cogs/admin/cog.py:119-120 | there is no maintenance window at start |
| Admin.Config.SetMaintenance | cogs/admin/cog.py:119-128 | the answer is `Maintenance`'s, and the window is stored unless the date was impossible |
| Admin.ChunksFrom | cogs/admin/cog.py:46-47 | every message holds 1 to 100 names |
| Admin.ChunksConcat | cogs/admin/cog.py:46-47 | the messages, concatenated in order, are the names in order |
| Admin.ChunkCount | cogs/admin/cog.py:46 | there are ceil(n / 100) messages |
| Admin.ServerNames | cogs/admin/cog.py:43-49 | the k-th embed is titled with `100k + 1` and lists the k-th chunk joined by "、" |
| Admin.PresenceText | cogs/admin/cog.py:139-144 | a draw below the list length shows that entry |
| Admin.EveryPresenceDrawn | cogs/admin/cog.py:139-144 | every entry can be drawn, and drawing the length shows the server count |
| Admin.AdminCog.constructor | cogs/admin/cog.py:19 | the presence list starts as `["Hoyolab"]` |
| Admin.AdminCog.ChangePresenceList | cogs/admin/cog.py:67-72 | a given parameter replaces the list by its comma split, which is never empty; no parameter keeps it |
| Admin.AdminCog.ChangePresence | cogs/admin/cog.py:137-144 | the presence shown is `PresenceText` of the draw |
| DailyCheckin.ChoiceFlags | cogs/daily_checkin/cog.py:45-51 | a game's flag is set iff the choice is that game's name |
| DailyCheckin.ChoiceSelectsExactlyOne | cogs/daily_checkin/cog.py:45-51 | each game's choice flags that game and only it |
| DailyCheckin.SlashDaily | cogs/daily_checkin/cog.py:38-61 | the captcha flag is set iff "是" was chosen, and then the reply is ephemeral; the target is the given user unless absent or the bot itself, else the caller |
| Diary.DiaryMonth | cogs/diary/cog.py:50-51 | the month is the current month plus the offset, wrapped by 12 once when below 1 |
| Diary.ChoicesGiveMonths | cogs/diary/cog.py:41-51 | each offered choice (0, -1, -2) gives a month in 1..12 |

## Left out

- Discord I/O is not modelled: embeds, emoji, message texts beyond the ones the contracts name, deferrals, ephemeral flags other than `/daily`'s, and view timeouts.
- The `generalErrorHandler` decorator, logging and Sentry reporting are not modelled.
- Database transactions and commit atomicity are not modelled. A failed `insert_or_replace` in `UIDModal.on_submit` is not modelled; the insert is taken to succeed.
- The game-service API is a parameter. Account listings are an `AccountsReply`. Daily-reward attempts are a `Remote` function giving one outcome per attempt. `fetch_enka_data` is the `fetched` argument.
- The clock is a parameter (`now`), in whole seconds. Microseconds and time zones are left out.
- ScheduleCommands.FirstCheckin: `update_next_checkin_time` of the check-in row is not part of this model; its result is the `advanced` parameter. `FirstCheckinIsNextDaily` covers the case where it adds one day.
- The community check-in of `claim_daily_reward`, and its logging of retcode 2001, are left out. It only writes to the log and does not change the result.
- The `{game}` part of the captcha solver URL is the `gameText` parameter of `GeetestUrl`.
- The selected games of the daily options view are given as option indices. The select offers exactly the six names, so this is equivalent.
- The six `has_*` attributes of the options view are one `GameFlags` field.
- The `Submit*` form methods return the parsed settings or the input error. The reply text is given by the separate `*Reply` functions, which are not proved about.
- ScheduleUi.GenshinSubmission, ScheduleUi.StarrailSubmission and ScheduleUi.ZzzSubmission do not model the forms' `TextInput` length limits (thresholds at most 1 or 2 characters, `HHMM` fields exactly 4, `cogs/schedule/ui.py:149-174`, `266-293`, `408-415`): Discord refuses such input before `on_submit` runs, so the model also accepts inputs like "800" that never reach the code.
- Python's `int()` is modelled as an optional sign followed by ASCII digits. Surrounding whitespace, underscores and non-ASCII digits are not accepted by the model.
- The showcase statistics use integers. The float values, the conversion of flat HP/ATK/DEF into percentages, the rounding, and the crit-value total shown beside the stats are left out.
- The character card rendering (`generate_image`) is the `rendered` argument of `GetImage`. The Star Rail showcase's card, overview and stat embeds are not part of this model, and neither is the "Image" button's fallback to the stat embed when the card fails.
- `EnkaAPI.get_user_url` is not part of this model; the URL is a constructor argument.
- `EnkaNetworkResponse.parse_obj` is not modelled; the parsed data is the raw data.
- Admin.Maintenance: the overflow past year 9999 of the end time (`datetime` raises `OverflowError`) is left out; the end is an hour count.
- `slash_config`, the `BOT_LATENCY`, `SERVER_COUNT`, `CLAIM_DAILY_REWARD` and `UPDATE_ENKA_ASSETS` options, and the daily reload of the genshin_db extension are left out: each only forwards to code that is not part of this model, or sets a configuration value.
- The random draw of the presence loop is the `n` argument of `ChangePresence`.
- The server-name part of the `UidDropdown` option labels is left out: `get_server_name` is not part of this model. The option values are modelled.
- The periodic tasks that run the stored schedules (`genshin_py.auto_task`) are not part of this model. Neither are the rendering code and the thin cogs that only forward to the modelled functions.

## Findings

| source | as written | input that shows it | evidently intended | confidence | as-written member | corrected member |
|---|---|---|---|---|---|---|
| cogs/schedule/command_cog.py:346 | the ZZZ table moves when the choice is "全部" | choice "All", with a ZZZ reminder in the source channel: it stays in the source channel, while the other tables move | "All" moves the ZZZ table too, like the other three | high; not executed | ScheduleCommands.AllLeavesZzzWitness | ScheduleCommands.IntendedMoveEmptiesSource |
| cogs/showcase/ui_starrail.py:106-108 | the view makes buttons captioned "Picture" and "RelicStats", but the callback matches "Image" and "RelicStat" | pressing the "Picture" or the "RelicStats" button: no case matches, so nothing happens | every button opens its own screen | high; not executed | StarrailShowcaseUi.AsWrittenTwoButtonsDoNothing | StarrailShowcaseUi.IntendedEveryButtonActs |
| enka_network/showcase.py:237 | the filter compares with "flower" and "feather", but the slot names are "Flower" and "Feather" | an artifact of type `EQUIP_BRACER`: its slot name "Flower" passes the filter and it is listed | only sands, goblet and circlet are listed, as the comment above the filter says | high; not executed | EnkaShowcase.AsWrittenShowsEveryArtifact | EnkaShowcase.IntendedShowsNoFlowerOrFeather |
