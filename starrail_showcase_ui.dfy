/** `cogs.showcase.ui_starrail`: the Star Rail showcase's character
    dropdown, its buttons, and the UID check of the `showcase` command.
    Rendering the cards and embeds is left to code outside this model. */
module StarrailShowcaseUi {
  import opened Wrappers
  import opened Text
  import opened Records
  import ScheduleUi

  type SelectOption = ScheduleUi.SelectOption

  /** The parts of a showcase character the dropdown shows. */
  datatype Character = Character(rarity: nat, level: nat, name: string)

  /** The dropdown's first entry, the player overview. */
  const ProfileOption: SelectOption := ScheduleUi.SelectOption("Player Profile", "-1")
  /** The dropdown's last entry, the request to delete the cached data. */
  const DeleteOption: SelectOption := ScheduleUi.SelectOption("Delete character cache data", "-2")
  /** The dropdown shows at most this many characters (25 options in all). */
  const MaxCharacters: nat := 23

  function Min(a: nat, b: nat): nat {
    if a < b then a else b
  }

  /** The entry of the `i`th character: rarity, level and name, value `i`. */
  function CharacterOption(i: nat, c: Character): SelectOption {
    ScheduleUi.SelectOption("★" + IntToString(c.rarity) + " Lv." + IntToString(c.level) + " " + c.name, IntToString(i))
  }

  /** The dropdown's entries: the overview, the first characters up to the
      limit, and the delete request. */
  function CharacterOptions(characters: seq<Character>): (options: seq<SelectOption>)
    ensures |options| == Min(|characters|, MaxCharacters) + 2 <= 25
    ensures options[0] == ProfileOption && options[|options| - 1] == DeleteOption
    ensures forall k :: 1 <= k < |options| - 1 ==> options[k] == CharacterOption(k - 1, characters[k - 1])
  {
    [ProfileOption] + Shown(characters, Min(|characters|, MaxCharacters)) + [DeleteOption]
  }

  /** The entries of the first `n` characters. */
  function Shown(characters: seq<Character>, n: nat): (options: seq<SelectOption>)
    requires n <= |characters|
    ensures |options| == n
    ensures forall k :: 0 <= k < n ==> options[k] == CharacterOption(k, characters[k])
  {
    if n == 0 then [] else Shown(characters, n - 1) + [CharacterOption(n - 1, characters[n - 1])]
  }

  /** `ShowcaseCharactersDropdown.__init__`: the loop that stops at the
      limit. */
  method BuildOptions(characters: seq<Character>) returns (options: seq<SelectOption>)
    ensures options == CharacterOptions(characters)
  {
    options := [ProfileOption];
    var i := 0;
    while i < |characters|
      invariant i <= |characters| && i <= MaxCharacters
      invariant options == [ProfileOption] + Shown(characters, i)
    {
      if i >= MaxCharacters {
        break;
      }
      options := options + [CharacterOption(i, characters[i])];
      i := i + 1;
    }
    assert i == Min(|characters|, MaxCharacters);
    options := options + [DeleteOption];
  }

  /** What choosing an entry of the dropdown leads to. */
  datatype DropdownOutcome =
    | CharacterCard(index: nat)   // the character's card, with the buttons
    | Overview                    // the player overview, without buttons
    | NotOwner                    // deletion refused: not the UID's owner
    | NoCookie                    // deletion refused: ownership unverifiable
    | Deleted                     // the cached data is deleted
    | NoAction                    // any other value

  /** The dropdown callback for the chosen value `index`, the caller's
      stored user and the showcase's UID. */
  function Dropdown(index: int, caller: Option<User>, showcaseUid: int): (o: DropdownOutcome)
    ensures o.CharacterCard? <==> index >= 0
    ensures o.CharacterCard? ==> o.index == index
    ensures o == Overview <==> index == -1
    ensures o == NoAction <==> index < -2
    // Only the owner of the UID, with a cookie to prove it, may delete.
    ensures o == Deleted <==>
      index == -2 && caller.Some? && caller.value.uidStarrail == Some(showcaseUid) && caller.value.cookieDefault.Some?
  {
    if index >= 0 then CharacterCard(index)
    else if index == -1 then Overview
    else if index == -2 then
      if caller.None? || caller.value.uidStarrail != Some(showcaseUid) then NotOwner
      else if caller.value.cookieDefault.None? then NoCookie
      else Deleted
    else NoAction
  }

  /** The number each entry's value reads back as: -1 for the overview,
      the character's position, and -2 for the delete request. */
  lemma {:induction false} OptionValue(characters: seq<Character>, k: nat)
    requires k < |CharacterOptions(characters)|
    ensures ParseInt(CharacterOptions(characters)[k].value)
         == Some(if k == 0 then -1 else if k == |CharacterOptions(characters)| - 1 then -2 else k - 1)
  {
    var options := CharacterOptions(characters);
    var n := if k == 0 then -1 else if k == |options| - 1 then -2 else k - 1;
    if k == 0 {
      assert options[k].value == "-1" == IntToString(n);
    } else if k == |options| - 1 {
      assert options[k].value == "-2" == IntToString(n);
    } else {
      assert options[k].value == IntToString(n);
    }
    ParseIntToString(n);
  }

  /** Every entry of the dropdown does what it says: the first shows the
      overview, the `k`th character's entry shows that character's card,
      and the last asks for deletion. */
  lemma {:induction false} OptionsDispatch(characters: seq<Character>, k: nat, caller: Option<User>, showcaseUid: int)
    requires k < |CharacterOptions(characters)|
    ensures ParseInt(CharacterOptions(characters)[k].value).Some?
    ensures var o := Dropdown(ParseInt(CharacterOptions(characters)[k].value).value, caller, showcaseUid);
      (k == 0 ==> o == Overview) &&
      (0 < k < |CharacterOptions(characters)| - 1 ==> o == CharacterCard(k - 1) && k - 1 < |characters|) &&
      (k == |CharacterOptions(characters)| - 1 ==> o in {NotOwner, NoCookie, Deleted})
  {
    OptionValue(characters, k);
  }

  /** The cached Star Rail showcases, by UID (their contents are not read
      here). */
  class ShowcaseCache {
    var uids: set<int>

    constructor (initial: set<int>)
      ensures uids == initial
    {
      uids := initial;
    }
  }

  /** `ShowcaseCharactersDropdown.callback`, for the chosen entry's value. */
  method DropdownCallback(cache: ShowcaseCache, users: UserTable, caller: UserId, showcaseUid: int, value: string)
    returns (outcome: DropdownOutcome)
    requires ParseInt(value).Some?
    modifies cache
    ensures outcome == Dropdown(ParseInt(value).value, Lookup(users.rows, caller), showcaseUid)
    ensures cache.uids == if outcome == Deleted then old(cache.uids) - {showcaseUid} else old(cache.uids)
  {
    var index := ParseInt(value).value;
    if index >= 0 {
      outcome := CharacterCard(index);
    } else if index == -1 {
      outcome := Overview;
    } else if index == -2 {
      var user := Lookup(users.rows, caller);
      if user.None? || user.value.uidStarrail != Some(showcaseUid) {
        outcome := NotOwner;
      } else if user.value.cookieDefault.None? {
        outcome := NoCookie;
      } else {
        cache.uids := cache.uids - {showcaseUid};
        outcome := Deleted;
      }
    } else {
      outcome := NoAction;
    }
  }

  // ---------------------------------------------------------------------
  // Buttons and the view
  // ---------------------------------------------------------------------

  /** The four screens of a character. */
  datatype Screen = CardImage | CharacterStats | RelicStats | RelicScore

  /** The buttons' labels, in the order they are added. */
  const ButtonLabels: seq<string> := ["Picture", "Character", "RelicStats", "RelicScore"]

  /** `ShowcaseButton.callback` as written: it matches other labels than
      the buttons carry for the image and the relic stats. */
  function ButtonScreen(caption: string): Option<Screen> {
    if caption == "Image" then Some(CardImage)
    else if caption == "Character" then Some(CharacterStats)
    else if caption == "RelicStat" then Some(RelicStats)
    else if caption == "RelicScore" then Some(RelicScore)
    else None
  }

  /** As written, the "Picture" and "RelicStats" buttons do nothing. */
  lemma AsWrittenTwoButtonsDoNothing()
    ensures ButtonScreen(ButtonLabels[0]).None? && ButtonScreen(ButtonLabels[2]).None?
    ensures ButtonScreen(ButtonLabels[1]) == Some(CharacterStats)
    ensures ButtonScreen(ButtonLabels[3]) == Some(RelicScore)
  {
  }

  /** The callback matching the labels the buttons carry. */
  function IntendedButtonScreen(caption: string): Option<Screen> {
    if caption == ButtonLabels[0] then Some(CardImage)
    else if caption == ButtonLabels[1] then Some(CharacterStats)
    else if caption == ButtonLabels[2] then Some(RelicStats)
    else if caption == ButtonLabels[3] then Some(RelicScore)
    else None
  }

  /** With matching labels, every button opens its own screen, and each
      screen has a button. */
  lemma IntendedEveryButtonActs(screen: Screen)
    ensures forall k :: 0 <= k < |ButtonLabels| ==> IntendedButtonScreen(ButtonLabels[k]).Some?
    ensures forall j, k :: 0 <= j < k < |ButtonLabels| ==>
      IntendedButtonScreen(ButtonLabels[j]) != IntendedButtonScreen(ButtonLabels[k])
    ensures exists k :: 0 <= k < |ButtonLabels| && IntendedButtonScreen(ButtonLabels[k]) == Some(screen)
  {
    match screen
    case CardImage => assert IntendedButtonScreen(ButtonLabels[0]) == Some(screen);
    case CharacterStats => assert IntendedButtonScreen(ButtonLabels[1]) == Some(screen);
    case RelicStats => assert IntendedButtonScreen(ButtonLabels[2]) == Some(screen);
    case RelicScore => assert IntendedButtonScreen(ButtonLabels[3]) == Some(screen);
  }

  /** An item of the showcase view. */
  datatype Item = Button(caption: string, characterIndex: int) | CharactersDropdown

  /** `ShowcaseView.__init__`: the four buttons when a character is shown,
      then the dropdown when the player has characters. */
  function ViewItems(characterIndex: Option<int>, characterCount: nat): (items: seq<Item>)
    ensures |items| == (if characterIndex.Some? then 4 else 0) + (if characterCount > 0 then 1 else 0)
    ensures characterIndex.Some? ==>
      forall k :: 0 <= k < 4 ==> items[k] == Button(ButtonLabels[k], characterIndex.value)
    ensures characterIndex.None? ==> forall k :: 0 <= k < |items| ==> !items[k].Button?
    ensures CharactersDropdown in items <==> characterCount > 0
  {
    (if characterIndex.Some? then seq(4, k requires 0 <= k < 4 => Button(ButtonLabels[k], characterIndex.value)) else [])
    + (if characterCount > 0 then [CharactersDropdown] else [])
  }

  // ---------------------------------------------------------------------
  // The UID of the `showcase` command
  // ---------------------------------------------------------------------

  /** Why the command shows no showcase. */
  datatype UidError = UidMissing | BadUidFormat

  /** `uid or stored.uid_starrail`: a given UID of 0 counts as absent. */
  function ResolveUid(given: Option<int>, stored: Option<User>): (uid: Option<int>)
    ensures given.Some? && given.value != 0 ==> uid == given
    ensures given.None? || given.value == 0 ==>
      uid == (if stored.Some? then stored.value.uidStarrail else None)
  {
    if given.Some? && given.value != 0 then given
    else if stored.Some? then stored.value.uidStarrail
    else None
  }

  /** Nine characters whose first is one of 1, 2, 5, 6, 7, 8, 9. */
  predicate UidFormatOk(uid: int) {
    |IntToString(uid)| == 9 && IntToString(uid)[0] in {'1', '2', '5', '6', '7', '8', '9'}
  }

  /** The UID the command looks up, or why there is none. */
  function CheckUid(given: Option<int>, stored: Option<User>): (r: Result<int, UidError>)
    ensures r.Ok? <==> ResolveUid(given, stored).Some? && UidFormatOk(ResolveUid(given, stored).value)
    ensures r.Ok? ==> r.value == ResolveUid(given, stored).value
    ensures r == Err(UidMissing) <==> ResolveUid(given, stored).None?
  {
    var uid := ResolveUid(given, stored);
    if uid.None? then Err(UidMissing)
    else if !UidFormatOk(uid.value) then Err(BadUidFormat)
    else Ok(uid.value)
  }

  /** The accepted UIDs are exactly those in [100000000, 300000000) and
      [500000000, 1000000000). */
  lemma UidFormatRange(uid: int)
    ensures UidFormatOk(uid) <==> 100000000 <= uid < 300000000 || 500000000 <= uid < 1000000000
  {
    if uid >= 0 {
      assert IntToString(uid) == Digits(uid);
      NineDigitsLeading(uid, 1);
      NineDigitsLeading(uid, 2);
      NineDigitsLeading(uid, 5);
      NineDigitsLeading(uid, 6);
      NineDigitsLeading(uid, 7);
      NineDigitsLeading(uid, 8);
      NineDigitsLeading(uid, 9);
      assert DigitChar(1) == '1' && DigitChar(2) == '2' && DigitChar(5) == '5' && DigitChar(6) == '6';
      assert DigitChar(7) == '7' && DigitChar(8) == '8' && DigitChar(9) == '9';
    }
  }
}
