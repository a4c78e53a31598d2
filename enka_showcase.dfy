/** `enka_network.showcase.Showcase`: a player's Genshin character showcase,
    cached in the database and refreshed from the Enka API when its time to
    live has passed, with one memoised image per character slot, and the
    artifact summary of one character. The API answer, the image renderer
    and the clock are inputs. */
module EnkaShowcase {
  import opened Wrappers
  import Records

  /** The fields of the API's JSON answer the bot reads: the refresh
      `timestamp` and `ttl` (either may be missing) and the character list
      (`None` when the player hides character details). */
  datatype RawData = RawData(timestamp: Option<int>, ttl: Option<int>, characters: Option<seq<string>>)

  /** A rendered showcase image. */
  datatype Image = Image(id: nat)

  /** The `GenshinShowcase` table: raw data by UID. */
  class ShowcaseTable {
    var rows: map<int, RawData>

    constructor (initial: map<int, RawData>)
      ensures rows == initial
    {
      rows := initial;
    }

    /** `Database.insert_or_replace(GenshinShowcase(uid, data))`. */
    method Upsert(uid: int, data: RawData)
      modifies this
      ensures rows == old(rows)[uid := data]
    {
      rows := rows[uid := data];
    }
  }

  // ---------------------------------------------------------------------
  // Loading: the cache, its time to live and the fallback on API errors
  // ---------------------------------------------------------------------

  /** `raw_data.get("timestamp", 0) + raw_data.get("ttl", 0)`. */
  function RefreshTime(raw: RawData): int {
    raw.timestamp.GetOr(0) + raw.ttl.GetOr(0)
  }

  /** Whether data fetched at `RefreshTime(raw)` is out of date at `now`. */
  predicate Stale(raw: RawData, now: int) {
    now > RefreshTime(raw)
  }

  /** The loading state of a showcase. */
  datatype LoadState = LoadState(rawData: Option<RawData>, isCachedData: bool, apiErrorMsg: Option<string>)

  /** What `load_data` ends with: the new state, the error that escaped
      (when the first fetch of an unknown player fails), and the data
      written to the database. */
  datatype LoadResult = LoadResult(state: LoadState, raised: Option<string>, stored: Option<RawData>)

  /** `load_data` as a function of the state before, the cached row, the
      time and what the API answers. */
  function Load(s: LoadState, cached: Option<RawData>, now: int, fetched: Result<RawData, string>): (r: LoadResult)
    // Only a player with neither a cached row nor earlier data lets an API
    // error escape; the state is then left as it was.
    ensures r.raised.Some? <==> cached.None? && s.rawData.None? && fetched.Err?
    ensures r.raised.Some? ==> r.state == s && r.stored.None?
    ensures r.raised.None? ==> r.state.rawData.Some?
    // The data is marked as cached exactly when it was already, or when a
    // refresh of stale data failed; the API's message is then kept.
    ensures r.raised.None? ==>
      (r.state.isCachedData <==>
        s.isCachedData || (fetched.Err? && (cached.Some? || s.rawData.Some?) &&
                           Stale((if cached.Some? then cached else s.rawData).value, now)))
    // What is kept is written back, unless it is marked as cached.
    ensures r.stored.Some? <==> r.raised.None? && !r.state.isCachedData
    ensures r.stored.Some? ==> r.state.rawData == r.stored
    // Fresh data is served as is, whatever the API would answer.
    ensures (cached.Some? || s.rawData.Some?) &&
            !Stale((if cached.Some? then cached else s.rawData).value, now) ==>
      r.state.rawData == (if cached.Some? then cached else s.rawData) && r.state.apiErrorMsg == s.apiErrorMsg
    // A successful fetch, for a new player or for stale data, is what is
    // served from then on.
    ensures var raw := if cached.Some? then cached else s.rawData;
      fetched.Ok? && (raw.None? || Stale(raw.value, now)) ==> r.state.rawData == Some(fetched.value)
    // A failed refresh of stale data serves the old data with the API's
    // message.
    ensures var raw := if cached.Some? then cached else s.rawData;
      fetched.Err? && raw.Some? && Stale(raw.value, now) ==>
        r.state.rawData == raw && r.state.apiErrorMsg == Some(fetched.error)
  {
    var raw := if cached.Some? then cached else s.rawData;
    if raw.None? then
      if fetched.Err? then
        LoadResult(s, Some(fetched.error), None)
      else
        var s1 := s.(rawData := Some(fetched.value));
        LoadResult(s1, None, if s1.isCachedData then None else s1.rawData)
    else
      var s1 :=
        if Stale(raw.value, now) then
          if fetched.Ok? then s.(rawData := Some(fetched.value))
          else s.(rawData := raw, isCachedData := true, apiErrorMsg := Some(fetched.error))
        else s.(rawData := raw);
      LoadResult(s1, None, if s1.isCachedData then None else s1.rawData)
  }

  /** A player whose cached row is stale and whose refresh fails is shown
      the cached row, marked as cached with the API's message, and the
      database is left alone. */
  lemma FailedRefreshServesCache(s: LoadState, c: RawData, now: int, e: string)
    requires Stale(c, now)
    ensures var r := Load(s, Some(c), now, Err(e));
      r.raised.None? && r.state.rawData == Some(c) && r.state.isCachedData &&
      r.state.apiErrorMsg == Some(e) && r.stored.None?
  {
  }

  /** A row without `timestamp` and `ttl` counts as fetched at time 0:
      at any later time it is refreshed and the answer is stored. */
  lemma MissingTimestampRefreshes(c: RawData, now: int, v: RawData)
    requires c.timestamp.None? && c.ttl.None? && now > 0
    ensures var r := Load(LoadState(None, false, None), Some(c), now, Ok(v));
      r.state.rawData == Some(v) && r.stored == Some(v)
  {
  }

  /** The number of image slots of a showcase. */
  const Slots: nat := 25

  /** Python's list index: a negative index counts from the end. */
  function Slot(index: int, length: nat): (k: nat)
    requires -(length as int) <= index < length
    ensures k < length
    ensures index >= 0 ==> k == index
    ensures index < 0 ==> k + (-index) == length
  {
    if index < 0 then index + length else index
  }

  class Showcase {
    const uid: int
    /** `EnkaAPI.get_user_url(uid)`, computed by code outside this model. */
    const url: string
    var rawData: Option<RawData>
    /** The parsed response; `None` until `LoadData` has succeeded. */
    var data: Option<RawData>
    var isCachedData: bool
    var apiErrorMsg: Option<string>
    /** One memoised image per character slot. */
    const imageBuffers: array<Option<Image>>

    predicate Valid()
      reads this
    {
      imageBuffers.Length == Slots
    }

    function State(): LoadState
      reads this
    {
      LoadState(rawData, isCachedData, apiErrorMsg)
    }

    constructor (uid: int, url: string)
      ensures Valid() && fresh(imageBuffers)
      ensures this.uid == uid && this.url == url
      ensures State() == LoadState(None, false, None) && data.None?
      ensures forall k :: 0 <= k < imageBuffers.Length ==> imageBuffers[k].None?
    {
      this.uid := uid;
      this.url := url;
      rawData := None;
      data := None;
      isCachedData := false;
      apiErrorMsg := None;
      imageBuffers := new Option<Image>[Slots](_ => None);
    }

    /** `load_data`: `fetched` is what `fetch_enka_data` answers when it is
        called (an `Err` is the exception it raises). */
    method LoadData(table: ShowcaseTable, now: int, fetched: Result<RawData, string>) returns (raised: Option<string>)
      modifies this, table
      ensures var r := Load(old(State()), Records.Lookup(old(table.rows), uid), now, fetched);
        State() == r.state && raised == r.raised &&
        table.rows == (if r.stored.Some? then old(table.rows)[uid := r.stored.value] else old(table.rows))
      ensures data == (if raised.None? then rawData else old(data))
    {
      if uid in table.rows {
        rawData := Some(table.rows[uid]);
      }
      if rawData.None? {
        if fetched.Err? {
          return Some(fetched.error);
        }
        rawData := Some(fetched.value);
      } else {
        if now > RefreshTime(rawData.value) {
          if fetched.Ok? {
            rawData := Some(fetched.value);
          } else {
            isCachedData := true;
            apiErrorMsg := Some(fetched.error);
          }
        }
      }
      if !isCachedData {
        table.Upsert(uid, rawData.value);
      }
      data := rawData;
      raised := None;
    }

    /** `get_image`: `rendered` is what `generate_image` would produce for
        the character at `index`. */
    method GetImage(index: int, rendered: Image) returns (image: Option<Image>)
      requires Valid() && data.Some?
      requires -(Slots as int) <= index < Slots
      requires data.value.characters.Some? && imageBuffers[Slot(index, Slots)].None? ==>
        -|data.value.characters.value| <= index < |data.value.characters.value|
      modifies imageBuffers
      ensures data.value.characters.None? ==> image.None? && unchanged(imageBuffers)
      ensures data.value.characters.Some? && old(imageBuffers[Slot(index, Slots)]).Some? ==>
        image == old(imageBuffers[Slot(index, Slots)]) && unchanged(imageBuffers)
      ensures data.value.characters.Some? && old(imageBuffers[Slot(index, Slots)]).None? ==>
        image == Some(rendered) && imageBuffers[..] == old(imageBuffers[..])[Slot(index, Slots) := image]
    {
      if data.value.characters.None? {
        return None;
      }
      var k := Slot(index, Slots);
      if imageBuffers[k].Some? {
        image := imageBuffers[k];
      } else {
        image := Some(rendered);
        imageBuffers[k] := image;
      }
    }
  }

  // ---------------------------------------------------------------------
  // Artifact summary (`get_artifact_stat_embed`)
  // ---------------------------------------------------------------------

  /** A stat line; values are held as integers (the source's are floats). */
  datatype Stat = Stat(propId: string, value: int)

  /** The parts of one equipment the artifact summary reads. */
  datatype Equipment = Equipment(isArtifact: bool, mainstat: Option<Stat>, substats: seq<Stat>,
                                 artifactType: string, setName: string)

  /** The artifact slot's display name; unknown slot types read "unknown". */
  function PosName(artifactType: string): (pos: string)
    ensures pos in ["Flower", "Feather", "Sands", "Goblet", "Circlet", "unknown"]
    ensures pos == "Flower" <==> artifactType == "EQUIP_BRACER"
    ensures pos == "Feather" <==> artifactType == "EQUIP_NECKLACE"
  {
    if artifactType == "EQUIP_BRACER" then "Flower"
    else if artifactType == "EQUIP_NECKLACE" then "Feather"
    else if artifactType == "EQUIP_SHOES" then "Sands"
    else if artifactType == "EQUIP_RING" then "Goblet"
    else if artifactType == "EQUIP_DRESS" then "Circlet"
    else "unknown"
  }

  /** The slot filter as written: it compares with lower-case names. */
  predicate ShownAsWritten(pos: string) {
    pos !in ["flower", "feather"]
  }

  /** The slot filter as intended: only sands, goblet and circlet (and
      slots of an unknown type) get a field of their own. */
  predicate ShownIntended(pos: string) {
    pos !in ["Flower", "Feather"]
  }

  /** The written filter lets the flower and the feather through. */
  lemma AsWrittenShowsFlowerAndFeather()
    ensures ShownAsWritten(PosName("EQUIP_BRACER")) && ShownAsWritten(PosName("EQUIP_NECKLACE"))
  {
  }

  /** Whatever the slot, the written filter never hides an artifact. */
  lemma AsWrittenShowsEverySlot(artifactType: string)
    ensures ShownAsWritten(PosName(artifactType))
  {
  }

  /** The intended filter hides exactly the flower and the feather. */
  lemma IntendedHidesFlowerAndFeather(artifactType: string)
    ensures !ShownIntended(PosName(artifactType)) <==>
      artifactType == "EQUIP_BRACER" || artifactType == "EQUIP_NECKLACE"
  {
  }

  /** A crit main stat's weight in the crit value: rate counts twice. */
  function CritMain(s: Stat): int {
    if s.propId == "FIGHT_PROP_CRITICAL" then 2 * s.value
    else if s.propId == "FIGHT_PROP_CRITICAL_HURT" then s.value
    else 0
  }

  /** `substat_sum.get(prop, 0)`. */
  function Get(m: map<string, int>, prop: string): int {
    if prop in m then m[prop] else 0
  }

  /** `substat_sum` after adding `stats` one by one. */
  function AddStats(m: map<string, int>, stats: seq<Stat>): map<string, int>
    decreases |stats|
  {
    if |stats| == 0 then m
    else
      var before := AddStats(m, stats[..|stats| - 1]);
      var s := stats[|stats| - 1];
      before[s.propId := Get(before, s.propId) + s.value]
  }

  /** The sum of the values of the stats named `prop`. */
  function Total(stats: seq<Stat>, prop: string): int
    decreases |stats|
  {
    if |stats| == 0 then 0
    else Total(stats[..|stats| - 1], prop) + (if stats[|stats| - 1].propId == prop then stats[|stats| - 1].value else 0)
  }

  /** Every stat's running sum is its value so far plus the total of the
      added stats with its name, and the keys are those already present
      plus the names added. */
  lemma {:induction false} AddStatsTotal(m: map<string, int>, stats: seq<Stat>, prop: string)
    ensures Get(AddStats(m, stats), prop) == Get(m, prop) + Total(stats, prop)
    ensures prop in AddStats(m, stats) <==> prop in m || exists k :: 0 <= k < |stats| && stats[k].propId == prop
    decreases |stats|
  {
    if |stats| > 0 {
      var init := stats[..|stats| - 1];
      AddStatsTotal(m, init, prop);
      if exists k :: 0 <= k < |init| && init[k].propId == prop {
        var k :| 0 <= k < |init| && init[k].propId == prop;
        assert stats[k] == init[k];
      }
      if exists k :: 0 <= k < |stats| && stats[k].propId == prop {
        var k :| 0 <= k < |stats| && stats[k].propId == prop;
        if k < |init| {
          assert init[k] == stats[k];
        }
      }
    }
  }

  /** Whether an equipment is an artifact with a main stat. */
  predicate Counted(e: Equipment) {
    e.isArtifact && e.mainstat.Some?
  }

  /** The running state of the loop over a character's equipment: the
      substat sums, the crit value of the main stats, and the set names of
      the artifacts that get a field of their own. */
  datatype ArtifactSummary = ArtifactSummary(sums: map<string, int>, critValue: int, shown: seq<string>)

  /** The loop over a character's equipment, with the slot filter `show`. */
  function Summarize(equips: seq<Equipment>, show: string -> bool): ArtifactSummary
    decreases |equips|
  {
    if |equips| == 0 then ArtifactSummary(map[], 0, [])
    else
      var before := Summarize(equips[..|equips| - 1], show);
      var e := equips[|equips| - 1];
      if !Counted(e) then before
      else
        ArtifactSummary(AddStats(before.sums, e.substats),
                        before.critValue + CritMain(e.mainstat.value),
                        if show(PosName(e.artifactType)) then before.shown + [e.setName] else before.shown)
  }

  /** The set names of all counted artifacts, in order. */
  function CountedSets(equips: seq<Equipment>): seq<string>
    decreases |equips|
  {
    if |equips| == 0 then []
    else
      var e := equips[|equips| - 1];
      CountedSets(equips[..|equips| - 1]) + (if Counted(e) then [e.setName] else [])
  }

  /** The total of the substats named `prop` over all counted artifacts. */
  function SubstatTotal(equips: seq<Equipment>, prop: string): int
    decreases |equips|
  {
    if |equips| == 0 then 0
    else
      var e := equips[|equips| - 1];
      SubstatTotal(equips[..|equips| - 1], prop) + (if Counted(e) then Total(e.substats, prop) else 0)
  }

  /** With the written filter, every counted artifact gets a field. */
  lemma {:induction false} AsWrittenShowsEveryArtifact(equips: seq<Equipment>)
    ensures Summarize(equips, ShownAsWritten).shown == CountedSets(equips)
    decreases |equips|
  {
    if |equips| > 0 {
      AsWrittenShowsEveryArtifact(equips[..|equips| - 1]);
      AsWrittenShowsEverySlot(equips[|equips| - 1].artifactType);
    }
  }

  /** With the intended filter, no flower or feather gets a field. */
  lemma {:induction false} IntendedShowsNoFlowerOrFeather(equips: seq<Equipment>, name: string)
    requires name in Summarize(equips, ShownIntended).shown
    ensures exists k :: (0 <= k < |equips| && Counted(equips[k]) && equips[k].setName == name &&
                         equips[k].artifactType != "EQUIP_BRACER" && equips[k].artifactType != "EQUIP_NECKLACE")
    decreases |equips|
  {
    var init := equips[..|equips| - 1];
    var e := equips[|equips| - 1];
    if Counted(e) && ShownIntended(PosName(e.artifactType)) && name == e.setName {
      IntendedHidesFlowerAndFeather(e.artifactType);
      assert Counted(equips[|equips| - 1]);
    } else {
      assert name in Summarize(init, ShownIntended).shown;
      IntendedShowsNoFlowerOrFeather(init, name);
      var k :| 0 <= k < |init| && Counted(init[k]) && init[k].setName == name &&
        init[k].artifactType != "EQUIP_BRACER" && init[k].artifactType != "EQUIP_NECKLACE";
      assert equips[k] == init[k];
    }
  }

  /** With the intended filter, every counted artifact other than a flower
      or a feather gets a field. */
  lemma {:induction false} IntendedShowsEveryOtherArtifact(equips: seq<Equipment>, k: nat)
    requires k < |equips| && Counted(equips[k])
    requires equips[k].artifactType != "EQUIP_BRACER" && equips[k].artifactType != "EQUIP_NECKLACE"
    ensures equips[k].setName in Summarize(equips, ShownIntended).shown
    decreases |equips|
  {
    var init := equips[..|equips| - 1];
    var e := equips[|equips| - 1];
    if k == |equips| - 1 {
      IntendedHidesFlowerAndFeather(e.artifactType);
      assert Summarize(equips, ShownIntended).shown == Summarize(init, ShownIntended).shown + [e.setName];
    } else {
      assert init[k] == equips[k];
      IntendedShowsEveryOtherArtifact(init, k);
      assert Summarize(init, ShownIntended).shown <= Summarize(equips, ShownIntended).shown;
    }
  }

  /** Each substat sum is that substat's total over the counted artifacts,
      whatever the slot filter. */
  lemma {:induction false} SummarizeSums(equips: seq<Equipment>, show: string -> bool, prop: string)
    ensures Get(Summarize(equips, show).sums, prop) == SubstatTotal(equips, prop)
    decreases |equips|
  {
    if |equips| > 0 {
      var init := equips[..|equips| - 1];
      SummarizeSums(init, show, prop);
      var e := equips[|equips| - 1];
      if Counted(e) {
        AddStatsTotal(Summarize(init, show).sums, e.substats, prop);
      }
    }
  }

  /** The loop of `get_artifact_stat_embed` over one character's equipment,
      under the slot filter `show` (`ShownAsWritten` as the code stands,
      `ShownIntended` as corrected). */
  method ArtifactStats(equips: seq<Equipment>, show: string -> bool) returns (summary: ArtifactSummary)
    ensures summary == Summarize(equips, show)
  {
    var sums: map<string, int> := map[];
    var crit := 0;
    var shown: seq<string> := [];
    for i := 0 to |equips|
      invariant ArtifactSummary(sums, crit, shown) == Summarize(equips[..i], show)
    {
      var e := equips[i];
      assert equips[..i + 1][..i] == equips[..i];
      if e.isArtifact && e.mainstat.Some? {
        crit := crit + CritMain(e.mainstat.value);
        var base := sums;
        for j := 0 to |e.substats|
          invariant sums == AddStats(base, e.substats[..j])
        {
          assert e.substats[..j + 1][..j] == e.substats[..j];
          var s := e.substats[j];
          sums := sums[s.propId := Get(sums, s.propId) + s.value];
        }
        assert e.substats[..|e.substats|] == e.substats;
        var pos := PosName(e.artifactType);
        if show(pos) {
          shown := shown + [e.setName];
        }
      }
    }
    assert equips[..|equips|] == equips;
    summary := ArtifactSummary(sums, crit, shown);
  }
}
