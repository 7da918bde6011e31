/**
 * `LoadConfig`: reset the configuration to its defaults, read the [General]
 * keys over them, clamp every tunable into its range, rebuild the two weapon
 * multiplier maps from the [WeaponMultipliers] section and fill the race
 * allow and deny sets from the [Races] lists.
 *
 * The INI file reaches the model already split into keys: a value that is
 * absent or whose text does not parse as the key's type is None, which is
 * what SimpleIni answers with the caller's default in both cases.
 */
module ConfigLoad {
  import opened Wrappers
  import opened Engine
  import opened KnockbackConfig
  import opened IniText
  import IniTextFacts

  /** The [General] section, one optional value per key the loader reads. */
  datatype General = General(
    shoveMagnitude: Option<real>,
    shoveDuration: Option<real>,
    shoveRetries: Option<int>,
    shoveRetryDelayFrames: Option<int>,
    shoveInitialDelayFrames: Option<int>,
    minShoveSeparationDelta: Option<real>,
    disableInFirstPerson: Option<bool>,
    applyCurrentMinVelocity: Option<real>,
    minDurationScale: Option<real>,
    enforceMinSeparation: Option<bool>,
    minSeparationDistance: Option<real>,
    separationPushDuration: Option<real>,
    separationMaxVelocity: Option<real>,
    separationRetries: Option<int>,
    separationInitialDelayFrames: Option<int>,
    separationRetryDelayFrames: Option<int>)

  /**
   * One key of [WeaponMultipliers] with its value: `mult` is None when the
   * value text is not a number (`std::stof` throws).
   */
  datatype WeaponEntry = WeaponEntry(key: string, mult: Option<real>)

  /**
   * The INI file as the loader sees it. `Unreadable` is a file that fails to
   * load; in a loaded file `allow` and `deny` are the raw [Races] lists
   * ("" when the key is absent).
   */
  datatype Ini =
    | Unreadable
    | Ini(general: General, unarmed: Option<real>, weaponKeys: seq<WeaponEntry>, allow: string, deny: string)

  /**
   * The lookups the loader makes: the form id a form specification names
   * (0 when it names none), and whether a form id resolves to a keyword form.
   */
  datatype Lookups = Lookups(parse: string -> FormID, isKeyword: FormID -> bool)

  /** `ParseFormSpec` against the engine's data handler, as a function value. */
  function SpecParser(data: DataHandler): string -> FormID
  {
    s => ParseFormSpec(s, data)
  }

  /** The lookups of a running game: form specs resolve through `data`. */
  function EngineLookups(data: DataHandler, isKeyword: FormID -> bool): Lookups
  {
    Lookups(SpecParser(data), isKeyword)
  }

  /** Every [General] key absent. */
  function NoGeneralKeys(): General
  {
    General(None, None, None, None, None, None, None, None, None, None, None, None, None, None, None, None)
  }

  // ---------------------------------------------------------------------
  // Clamps
  // ---------------------------------------------------------------------

  /** `std::clamp(v, lo, hi)` on integers. */
  function ClampInt(v: int, lo: int, hi: int): (r: int)
    requires lo <= hi
    ensures lo <= r <= hi
    ensures lo <= v <= hi ==> r == v
    ensures v < lo ==> r == lo
    ensures hi < v ==> r == hi
  {
    if v < lo then lo else if hi < v then hi else v
  }

  /** `if (v < lo) v = lo;` */
  function AtLeast(v: real, lo: real): (r: real)
    ensures r >= lo && r >= v
    ensures v >= lo ==> r == v
  {
    if v < lo then lo else v
  }

  /** The [General] values read over `d`; an absent key keeps `d`'s value. */
  function ReadGeneral(g: General, d: Config): Config
  {
    d.(
      shoveMagnitude := g.shoveMagnitude.GetOr(d.shoveMagnitude),
      shoveDuration := g.shoveDuration.GetOr(d.shoveDuration),
      shoveRetries := g.shoveRetries.GetOr(d.shoveRetries),
      shoveRetryDelayFrames := g.shoveRetryDelayFrames.GetOr(d.shoveRetryDelayFrames),
      shoveInitialDelayFrames := g.shoveInitialDelayFrames.GetOr(d.shoveInitialDelayFrames),
      minShoveSeparationDelta := g.minShoveSeparationDelta.GetOr(d.minShoveSeparationDelta),
      disableInFirstPerson := g.disableInFirstPerson.GetOr(d.disableInFirstPerson),
      applyCurrentMinVelocity := g.applyCurrentMinVelocity.GetOr(d.applyCurrentMinVelocity),
      minDurationScale := g.minDurationScale.GetOr(d.minDurationScale),
      enforceMinSeparation := g.enforceMinSeparation.GetOr(d.enforceMinSeparation),
      minSeparationDistance := g.minSeparationDistance.GetOr(d.minSeparationDistance),
      separationPushDuration := g.separationPushDuration.GetOr(d.separationPushDuration),
      separationMaxVelocity := g.separationMaxVelocity.GetOr(d.separationMaxVelocity),
      separationRetries := g.separationRetries.GetOr(d.separationRetries),
      separationInitialDelayFrames := g.separationInitialDelayFrames.GetOr(d.separationInitialDelayFrames),
      separationRetryDelayFrames := g.separationRetryDelayFrames.GetOr(d.separationRetryDelayFrames))
  }

  /**
   * The clamp pass: every tunable is forced into its range, nothing else
   * changes, and a configuration already in range is left as it is.
   */
  function Clamped(c: Config): (r: Config)
    ensures WithinLoadClamps(r)
    ensures WithinLoadClamps(c) ==> r == c
    ensures r.shoveMagnitude == c.shoveMagnitude && r.shoveDuration == c.shoveDuration
    ensures r.disableInFirstPerson == c.disableInFirstPerson && r.enforceMinSeparation == c.enforceMinSeparation
    ensures r.allowRaces == c.allowRaces && r.denyRaces == c.denyRaces
    ensures r.weaponTypeMultipliers == c.weaponTypeMultipliers
    ensures r.weaponTypeKeywordMultipliers == c.weaponTypeKeywordMultipliers
    ensures r.unarmedMultiplier == c.unarmedMultiplier
  {
    c.(
      minSeparationDistance := AtLeast(c.minSeparationDistance, 0.0),
      separationPushDuration := AtLeast(c.separationPushDuration, 0.01),
      separationMaxVelocity := AtLeast(c.separationMaxVelocity, 0.0),
      separationRetries := ClampInt(c.separationRetries, 0, 20),
      separationInitialDelayFrames := ClampInt(c.separationInitialDelayFrames, 0, 10),
      separationRetryDelayFrames := ClampInt(c.separationRetryDelayFrames, 1, 10),
      shoveInitialDelayFrames := ClampInt(c.shoveInitialDelayFrames, 0, 10),
      minShoveSeparationDelta := AtLeast(c.minShoveSeparationDelta, 0.0),
      applyCurrentMinVelocity := AtLeast(c.applyCurrentMinVelocity, 0.0),
      minDurationScale := ClampScale(c.minDurationScale),
      shoveRetries := ClampInt(c.shoveRetries, 1, 10),
      shoveRetryDelayFrames := ClampInt(c.shoveRetryDelayFrames, 0, 10))
  }

  /** The duration-scale clamp to [0, 1]. */
  function ClampScale(v: real): (r: real)
    ensures 0.0 <= r <= 1.0
    ensures 0.0 <= v <= 1.0 ==> r == v
    ensures v < 0.0 ==> r == 0.0
    ensures v > 1.0 ==> r == 1.0
  {
    if v < 0.0 then 0.0 else if v > 1.0 then 1.0 else v
  }

  // ---------------------------------------------------------------------
  // [WeaponMultipliers]
  // ---------------------------------------------------------------------

  function AsciiLower(c: char): char
  {
    if 'A' <= c <= 'Z' then (c as int - 'A' as int + 'a' as int) as char else c
  }

  /** `_stricmp(key, "Unarmed") == 0`: the key is "unarmed" in any letter case. */
  predicate IsUnarmedKey(key: string)
  {
    |key| == 7 && forall k | 0 <= k < 7 :: AsciiLower(key[k]) == "unarmed"[k]
  }

  /** A few spellings `_stricmp` treats as "Unarmed". */
  lemma UnarmedSpellings()
    ensures IsUnarmedKey("Unarmed") && IsUnarmedKey("UNARMED") && IsUnarmedKey("unarmed")
    ensures !IsUnarmedKey("Unarmed ") && !IsUnarmedKey("Skyrim.esm|0001E711")
  {
    assert AsciiLower('U') == 'u';
    assert "Skyrim.esm|0001E711"[0] == 'S';
  }

  /** The form id an entry's key names (0 when the key is not a form spec). */
  function EntryId(e: WeaponEntry, look: Lookups): FormID
  {
    look.parse(e.key)
  }

  /**
   * An entry the loader keeps: not the "Unarmed" key, a numeric value that
   * is greater than zero, and a key that names a form.
   */
  predicate Admitted(e: WeaponEntry, look: Lookups)
  {
    !IsUnarmedKey(e.key) && e.mult.Some? && e.mult.value > 0.0 && EntryId(e, look) != 0
  }

  /** The two multiplier maps: by form id, and by keyword (keyed by its form id). */
  datatype Multipliers = Multipliers(byId: map<FormID, real>, byKeyword: map<FormID, real>)

  /**
   * What the loader keeps: positive multipliers under non-zero ids, and a
   * keyword entry exactly for the ids that resolve to keywords, with the same
   * multiplier.
   */
  predicate Consistent(m: Multipliers, look: Lookups)
  {
    && (forall id | id in m.byId :: id != 0 && m.byId[id] > 0.0)
    && (forall id | id in m.byKeyword :: id in m.byId && look.isKeyword(id) && m.byKeyword[id] == m.byId[id])
    && (forall id | id in m.byId && look.isKeyword(id) :: id in m.byKeyword)
  }

  /** One key of the section applied to the maps. */
  function AddEntry(m: Multipliers, e: WeaponEntry, look: Lookups): Multipliers
  {
    if !Admitted(e, look) then m
    else
      var id := EntryId(e, look);
      Multipliers(
        m.byId[id := e.mult.value],
        if look.isKeyword(id) then m.byKeyword[id := e.mult.value] else m.byKeyword)
  }

  /** The maps after the loader has visited `entries` in order, starting from cleared maps. */
  function WeaponMaps(entries: seq<WeaponEntry>, look: Lookups): (m: Multipliers)
    ensures Consistent(m, look)
  {
    if entries == [] then Multipliers(map[], map[])
    else AddEntry(WeaponMaps(entries[..|entries| - 1], look), entries[|entries| - 1], look)
  }

  /** One entry either sets its own id or leaves every id as it was. */
  lemma AddEntryById(m: Multipliers, e: WeaponEntry, look: Lookups, id: FormID)
    ensures id in AddEntry(m, e, look).byId <==>
      (Admitted(e, look) && EntryId(e, look) == id) || id in m.byId
    ensures Admitted(e, look) && EntryId(e, look) == id ==>
      AddEntry(m, e, look).byId[id] == e.mult.value
    ensures !(Admitted(e, look) && EntryId(e, look) == id) && id in m.byId ==>
      AddEntry(m, e, look).byId[id] == m.byId[id]
  {
  }

  /** Every id in the by-id map comes from an admitted entry carrying that multiplier. */
  lemma {:induction false} WeaponMapsProvenance(entries: seq<WeaponEntry>, look: Lookups, id: FormID)
    requires id in WeaponMaps(entries, look).byId
    ensures exists i | 0 <= i < |entries| ::
      Admitted(entries[i], look) && EntryId(entries[i], look) == id
      && entries[i].mult.value == WeaponMaps(entries, look).byId[id]
  {
    var init := entries[..|entries| - 1];
    var e := entries[|entries| - 1];
    var m0 := WeaponMaps(init, look);
    AddEntryById(m0, e, look, id);
    if Admitted(e, look) && EntryId(e, look) == id {
      assert entries[|entries| - 1] == e;
    } else {
      WeaponMapsProvenance(init, look, id);
      var i :| 0 <= i < |init| && Admitted(init[i], look) && EntryId(init[i], look) == id
        && init[i].mult.value == m0.byId[id];
      assert entries[i] == init[i];
    }
  }

  /** Every admitted entry's id ends up in the by-id map. */
  lemma {:induction false} WeaponMapsComplete(entries: seq<WeaponEntry>, look: Lookups, i: nat)
    requires i < |entries| && Admitted(entries[i], look)
    ensures EntryId(entries[i], look) in WeaponMaps(entries, look).byId
  {
    var init := entries[..|entries| - 1];
    var e := entries[|entries| - 1];
    var id := EntryId(entries[i], look);
    if i < |init| {
      assert init[i] == entries[i];
      WeaponMapsComplete(init, look, i);
      assert id in WeaponMaps(init, look).byId;
    } else {
      assert e == entries[i];
    }
    AddEntryById(WeaponMaps(init, look), e, look, id);
  }

  /** The last admitted entry for an id decides its multiplier. */
  lemma LaterEntryWins(entries: seq<WeaponEntry>, e: WeaponEntry, look: Lookups)
    requires Admitted(e, look)
    ensures WeaponMaps(entries + [e], look).byId == WeaponMaps(entries, look).byId[EntryId(e, look) := e.mult.value]
  {
    assert (entries + [e])[..|entries|] == entries;
  }

  /** `entries` without the keys that spell "Unarmed". */
  function DropUnarmed(entries: seq<WeaponEntry>): (r: seq<WeaponEntry>)
    ensures forall i | 0 <= i < |r| :: !IsUnarmedKey(r[i].key)
  {
    if entries == [] then []
    else
      var init := DropUnarmed(entries[..|entries| - 1]);
      var e := entries[|entries| - 1];
      if IsUnarmedKey(e.key) then init else init + [e]
  }

  /** The "Unarmed" key, whatever its value, never reaches the maps. */
  lemma {:induction false} WeaponMapsSkipUnarmed(entries: seq<WeaponEntry>, look: Lookups)
    ensures WeaponMaps(entries, look) == WeaponMaps(DropUnarmed(entries), look)
  {
    if entries != [] {
      var init := entries[..|entries| - 1];
      var e := entries[|entries| - 1];
      WeaponMapsSkipUnarmed(init, look);
      if !IsUnarmedKey(e.key) {
        var d := DropUnarmed(init) + [e];
        assert d[..|d| - 1] == DropUnarmed(init);
      }
    }
  }

  /**
   * A "File|FormID:XXXXXXXX" key names no form for the loader as written, so
   * it is skipped whatever its value.
   */
  lemma FormIdKeySkipped(file: string, v: FormID, mult: Option<real>, data: DataHandler, isKeyword: FormID -> bool)
    requires IniTextFacts.PlainFileName(file)
    ensures !Admitted(WeaponEntry(file + "|FormID:" + Hex8(v), mult), EngineLookups(data, isKeyword))
  {
    IniTextFacts.FormIdSpecRejectedAsWritten(file, v, data);
  }

  // ---------------------------------------------------------------------
  // [Races]
  // ---------------------------------------------------------------------

  /** The ids that the items of a race list name; items naming no form are skipped. */
  function RaceIds(items: seq<string>, parse: string -> FormID): (r: set<FormID>)
    ensures 0 !in r
  {
    if items == [] then {}
    else
      var id := parse(items[|items| - 1]);
      RaceIds(items[..|items| - 1], parse) + (if id != 0 then {id} else {})
  }

  /** An id is in the set exactly when some item names it. */
  lemma {:induction false} RaceIdsMembers(items: seq<string>, parse: string -> FormID, id: FormID)
    ensures id in RaceIds(items, parse) <==>
      id != 0 && exists i | 0 <= i < |items| :: parse(items[i]) == id
  {
    if items != [] {
      var init := items[..|items| - 1];
      RaceIdsMembers(init, parse, id);
      if id in RaceIds(items, parse) && id !in RaceIds(init, parse) {
        assert parse(items[|items| - 1]) == id;
      }
      if id != 0 && (exists i | 0 <= i < |items| :: parse(items[i]) == id) {
        var i :| 0 <= i < |items| && parse(items[i]) == id;
        if i < |init| {
          assert init[i] == items[i];
        }
      }
    }
  }

  /** One more item adds its id, when it names a form. */
  lemma RaceIdsSnoc(items: seq<string>, i: nat, parse: string -> FormID, id: FormID)
    requires i < |items| && id == parse(items[i])
    ensures id != 0 ==> RaceIds(items[..i + 1], parse) == RaceIds(items[..i], parse) + {id}
    ensures id == 0 ==> RaceIds(items[..i + 1], parse) == RaceIds(items[..i], parse)
  {
    assert items[..i + 1][..i] == items[..i];
  }

  /**
   * The race-list loop: inserts into `s` the id of every item that names a
   * form.
   */
  method InsertParsedRaces(s: set<FormID>, items: seq<string>, data: DataHandler) returns (r: set<FormID>)
    ensures r == s + RaceIds(items, SpecParser(data))
  {
    ghost var parse := SpecParser(data);
    r := s;
    for i := 0 to |items|
      invariant r == s + RaceIds(items[..i], parse)
    {
      var id := ParseFormSpec(items[i], data);
      RaceIdsSnoc(items, i, parse, id);
      if id != 0 {
        r := r + {id};
      }
    }
    assert items[..|items|] == items;
  }

  // ---------------------------------------------------------------------
  // The whole load
  // ---------------------------------------------------------------------

  /** The configuration `LoadConfig` leaves behind. */
  function LoadedConfig(ini: Ini, look: Lookups): Config
  {
    match ini
    case Unreadable => Default()
    case Ini(general, unarmed, weaponKeys, allow, deny) =>
      var m := WeaponMaps(weaponKeys, look);
      Clamped(ReadGeneral(general, Default())).(
        weaponTypeMultipliers := m.byId,
        weaponTypeKeywordMultipliers := m.byKeyword,
        unarmedMultiplier := unarmed.GetOr(Default().unarmedMultiplier),
        allowRaces := RaceIds(SplitCSVSpec(allow), look.parse),
        denyRaces := RaceIds(SplitCSVSpec(deny), look.parse))
  }

  /** A file that fails to load leaves exactly the defaults. */
  lemma UnreadableGivesDefaults(look: Lookups)
    ensures LoadedConfig(Unreadable, look) == Default()
  {
  }

  /** Splitting empty text gives no items. */
  lemma SplitCSVEmpty()
    ensures SplitCSVSpec("") == []
  {
    assert Fields("") == [[]];
    assert StripIniComment([]) == [];
  }

  /** A file that sets nothing also leaves exactly the defaults. */
  lemma EmptyIniGivesDefaults(look: Lookups)
    ensures LoadedConfig(Ini(NoGeneralKeys(), None, [], "", ""), look) == Default()
  {
    SplitCSVEmpty();
    DefaultWithinLoadClamps();
  }

  /**
   * After any load every tunable is in its range, the race sets hold no 0,
   * and the multiplier maps are consistent.
   */
  lemma LoadedConfigSane(ini: Ini, look: Lookups)
    ensures WithinLoadClamps(LoadedConfig(ini, look))
    ensures 0 !in LoadedConfig(ini, look).allowRaces && 0 !in LoadedConfig(ini, look).denyRaces
    ensures Consistent(Multipliers(LoadedConfig(ini, look).weaponTypeMultipliers,
                                   LoadedConfig(ini, look).weaponTypeKeywordMultipliers), look)
  {
    DefaultWithinLoadClamps();
    if ini.Ini? {
      var m := WeaponMaps(ini.weaponKeys, look);
      assert Multipliers(m.byId, m.byKeyword) == m;
    }
  }

  /**
   * Each of the sixteen [General] keys: a present value is loaded, clamped
   * into its range where the loader clamps it, and an absent one gives the
   * default.
   */
  lemma LoadedTunables(ini: Ini, look: Lookups)
    requires ini.Ini?
    ensures LoadedConfig(ini, look).shoveMagnitude == ini.general.shoveMagnitude.GetOr(2.5)
    ensures LoadedConfig(ini, look).shoveDuration == ini.general.shoveDuration.GetOr(0.12)
    ensures LoadedConfig(ini, look).shoveRetries == ClampInt(ini.general.shoveRetries.GetOr(3), 1, 10)
    ensures LoadedConfig(ini, look).shoveRetryDelayFrames == ClampInt(ini.general.shoveRetryDelayFrames.GetOr(1), 0, 10)
    ensures LoadedConfig(ini, look).shoveInitialDelayFrames == ClampInt(ini.general.shoveInitialDelayFrames.GetOr(1), 0, 10)
    ensures LoadedConfig(ini, look).minShoveSeparationDelta == AtLeast(ini.general.minShoveSeparationDelta.GetOr(8.0), 0.0)
    ensures LoadedConfig(ini, look).disableInFirstPerson == ini.general.disableInFirstPerson.GetOr(true)
    ensures LoadedConfig(ini, look).applyCurrentMinVelocity == AtLeast(ini.general.applyCurrentMinVelocity.GetOr(4.0), 0.0)
    ensures LoadedConfig(ini, look).minDurationScale == ClampScale(ini.general.minDurationScale.GetOr(0.15))
    ensures LoadedConfig(ini, look).enforceMinSeparation == ini.general.enforceMinSeparation.GetOr(true)
    ensures LoadedConfig(ini, look).minSeparationDistance == AtLeast(ini.general.minSeparationDistance.GetOr(110.0), 0.0)
    ensures LoadedConfig(ini, look).separationPushDuration == AtLeast(ini.general.separationPushDuration.GetOr(0.10), 0.01)
    ensures LoadedConfig(ini, look).separationMaxVelocity == AtLeast(ini.general.separationMaxVelocity.GetOr(10.0), 0.0)
    ensures LoadedConfig(ini, look).separationRetries == ClampInt(ini.general.separationRetries.GetOr(6), 0, 20)
    ensures LoadedConfig(ini, look).separationInitialDelayFrames == ClampInt(ini.general.separationInitialDelayFrames.GetOr(1), 0, 10)
    ensures LoadedConfig(ini, look).separationRetryDelayFrames == ClampInt(ini.general.separationRetryDelayFrames.GetOr(1), 1, 10)
  {
  }

  /**
   * The [WeaponMultipliers] loop: visits the keys in order, skips "Unarmed",
   * a value that is not a number or not above zero, and a key that names no
   * form; every other key sets the id's multiplier, and also the keyword's
   * when the id resolves to a keyword.
   */
  method ReadWeaponMultipliers(keys: seq<WeaponEntry>, data: DataHandler, isKeyword: FormID -> bool)
    returns (byId: map<FormID, real>, byKeyword: map<FormID, real>)
    ensures Multipliers(byId, byKeyword) == WeaponMaps(keys, EngineLookups(data, isKeyword))
  {
    ghost var look := EngineLookups(data, isKeyword);
    byId, byKeyword := map[], map[];
    for i := 0 to |keys|
      invariant Multipliers(byId, byKeyword) == WeaponMaps(keys[..i], look)
    {
      assert keys[..i + 1][..i] == keys[..i];
      var k := keys[i];
      if IsUnarmedKey(k.key) {
        continue;
      }
      if k.mult.None? {
        continue;
      }
      var mult := k.mult.value;
      if !(mult > 0.0) {
        continue;
      }
      var formID := ParseFormSpec(k.key, data);
      if formID == 0 {
        continue;
      }
      byId := byId[formID := mult];
      if !isKeyword(formID) {
        continue;
      }
      byKeyword := byKeyword[formID := mult];
    }
    assert keys[..|keys|] == keys;
  }

  /** Inserting into a set that starts empty leaves exactly the inserted ids. */
  lemma UnionWithEmpty(a: set<FormID>, b: set<FormID>)
    requires a == {}
    ensures a + b == b
  {
  }

  /** The process-wide configuration and the loader that replaces it. */
  class ConfigStore {
    var cfg: Config

    constructor()
      ensures cfg == Default()
    {
      cfg := Default();
    }

    /** The clamp pass of `LoadConfig`, in the loader's order. */
    method ApplyClamps()
      modifies this
      ensures cfg == Clamped(old(cfg))
    {
      var c := cfg;
      c := c.(minSeparationDistance := AtLeast(c.minSeparationDistance, 0.0));
      c := c.(separationPushDuration := AtLeast(c.separationPushDuration, 0.01));
      c := c.(separationMaxVelocity := AtLeast(c.separationMaxVelocity, 0.0));

      c := c.(separationRetries := ClampInt(c.separationRetries, 0, 20));
      c := c.(separationInitialDelayFrames := ClampInt(c.separationInitialDelayFrames, 0, 10));
      c := c.(separationRetryDelayFrames := ClampInt(c.separationRetryDelayFrames, 1, 10));

      c := c.(shoveInitialDelayFrames := ClampInt(c.shoveInitialDelayFrames, 0, 10));
      c := c.(minShoveSeparationDelta := AtLeast(c.minShoveSeparationDelta, 0.0));

      c := c.(applyCurrentMinVelocity := AtLeast(c.applyCurrentMinVelocity, 0.0));
      c := c.(minDurationScale := ClampScale(c.minDurationScale));

      c := c.(shoveRetries := ClampInt(c.shoveRetries, 1, 10));
      c := c.(shoveRetryDelayFrames := ClampInt(c.shoveRetryDelayFrames, 0, 10));
      cfg := c;
    }

    /**
     * The [WeaponMultipliers] part of `LoadConfig`: both maps cleared and
     * rebuilt, and the "Unarmed" value read over the current one.
     */
    method LoadWeaponSection(unarmed: Option<real>, keys: seq<WeaponEntry>, data: DataHandler, isKeyword: FormID -> bool)
      modifies this
      ensures cfg == old(cfg).(
        weaponTypeMultipliers := WeaponMaps(keys, EngineLookups(data, isKeyword)).byId,
        weaponTypeKeywordMultipliers := WeaponMaps(keys, EngineLookups(data, isKeyword)).byKeyword,
        unarmedMultiplier := unarmed.GetOr(old(cfg).unarmedMultiplier))
    {
      cfg := cfg.(weaponTypeMultipliers := map[], weaponTypeKeywordMultipliers := map[]);
      cfg := cfg.(unarmedMultiplier := unarmed.GetOr(cfg.unarmedMultiplier));
      var byId, byKeyword := ReadWeaponMultipliers(keys, data, isKeyword);
      cfg := cfg.(weaponTypeMultipliers := byId, weaponTypeKeywordMultipliers := byKeyword);
    }

    /** The [Races] part of `LoadConfig`: both lists split and inserted into the sets. */
    method LoadRaceSection(allowStr: string, denyStr: string, data: DataHandler)
      modifies this
      ensures cfg == old(cfg).(
        allowRaces := old(cfg).allowRaces + RaceIds(SplitCSVSpec(allowStr), SpecParser(data)),
        denyRaces := old(cfg).denyRaces + RaceIds(SplitCSVSpec(denyStr), SpecParser(data)))
    {
      var allowItems := SplitCSV(allowStr);
      var allow := InsertParsedRaces(cfg.allowRaces, allowItems, data);
      cfg := cfg.(allowRaces := allow);
      var denyItems := SplitCSV(denyStr);
      var deny := InsertParsedRaces(cfg.denyRaces, denyItems, data);
      cfg := cfg.(denyRaces := deny);
    }

    /**
     * `LoadConfig`: defaults first; an unreadable file stops there. Then
     * each [General] key over the current value, the clamps, the weapon
     * multipliers and the race lists.
     */
    method LoadConfig(ini: Ini, data: DataHandler, isKeyword: FormID -> bool)
      modifies this
      ensures cfg == LoadedConfig(ini, EngineLookups(data, isKeyword))
    {
      cfg := Default();
      if ini.Unreadable? {
        return;
      }
      cfg := ReadGeneral(ini.general, cfg);
      ApplyClamps();
      ghost var clamped := cfg;
      LoadWeaponSection(ini.unarmed, ini.weaponKeys, data, isKeyword);
      LoadRaceSection(ini.allow, ini.deny, data);
      ghost var parse := SpecParser(data);
      UnionWithEmpty(clamped.allowRaces, RaceIds(SplitCSVSpec(ini.allow), parse));
      UnionWithEmpty(clamped.denyRaces, RaceIds(SplitCSVSpec(ini.deny), parse));
    }
  }
}
