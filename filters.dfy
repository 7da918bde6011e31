/**
 * Who may be shoved and by what: keyword tests on an actor and its race, the
 * player and first-person tests, the humanoid race filter, and the weapon
 * and spell tests on a hit's source form.
 */
module Filters {
  import opened Wrappers
  import opened Engine
  import opened KnockbackConfig

  /** `HasKW`: a keyword that was found at start-up, carried by the actor or by its race. */
  function HasKW(actor: Option<Actor>, kw: Option<FormID>): (r: bool)
    ensures r <==>
      && actor.Some? && kw.Some?
      && (kw.value in actor.value.keywords ||
          (actor.value.race.Some? && kw.value in actor.value.race.value.keywords))
  {
    if actor.None? || kw.None? then false
    else if kw.value in actor.value.keywords then true
    else if actor.value.race.Some? && kw.value in actor.value.race.value.keywords then true
    else false
  }

  /** `IsPlayer`: the actor is the player singleton (pointer identity). */
  function IsPlayer(w: World, a: Option<Actor>): (r: bool)
    ensures r <==> a.Some? && w.player == Some(a.value.ref)
  {
    a.Some? && w.player.Some? && a.value.ref == w.player.value
  }

  /** `ShouldDisableDueToFirstPerson`: the switch is on and the player, seen in first person, struck. */
  function ShouldDisableDueToFirstPerson(cfg: Config, w: World, aggressor: Option<Actor>): (r: bool)
    ensures r <==> cfg.disableInFirstPerson && IsPlayer(w, aggressor) && w.camera == Some(Camera(true))
  {
    if !cfg.disableInFirstPerson then false
    else if aggressor.None? then false
    else if w.player.None? || aggressor.value.ref != w.player.value then false
    else if w.camera.None? then false
    else w.camera.value.firstPerson
  }

  /** A dragon, giant or dwarven automaton, by keyword. */
  predicate LargeArchetype(kw: KeywordCache, t: Option<Actor>)
  {
    HasKW(t, kw.dragon) || HasKW(t, kw.giant) || HasKW(t, kw.dwarvenAuto)
  }

  /** A humanoid or undead humanoid, by keyword. */
  predicate Humanoid(kw: KeywordCache, t: Option<Actor>)
  {
    HasKW(t, kw.npc) || HasKW(t, kw.undead)
  }

  /**
   * `IsHumanoidAllowed`: the ordered filter. No actor or no race: no. A
   * denied race: no. An allow list the race is not on: no. A large
   * archetype: no. A humanoid: yes. Anything else only under an allow list.
   */
  function IsHumanoidAllowed(cfg: Config, kw: KeywordCache, target: Option<Actor>): bool
  {
    if target.None? then false
    else if target.value.race.None? then false
    else
      var raceID := target.value.race.value.formID;
      if raceID in cfg.denyRaces then false
      else if cfg.HasAllowList() && raceID !in cfg.allowRaces then false
      else if LargeArchetype(kw, target) then false
      else if Humanoid(kw, target) then true
      else if cfg.HasAllowList() then true
      else false
  }

  /** The race id of an actor that has a race. */
  function RaceOf(t: Option<Actor>): FormID
    requires t.Some? && t.value.race.Some?
  {
    t.value.race.value.formID
  }

  /** The filter as one condition: it accepts exactly the targets that pass every gate. */
  lemma IsHumanoidAllowedIff(cfg: Config, kw: KeywordCache, target: Option<Actor>)
    ensures IsHumanoidAllowed(cfg, kw, target) <==>
      && target.Some? && target.value.race.Some?
      && RaceOf(target) !in cfg.denyRaces
      && (cfg.allowRaces == {} || RaceOf(target) in cfg.allowRaces)
      && !LargeArchetype(kw, target)
      && (Humanoid(kw, target) || cfg.allowRaces != {})
  {
  }

  /** A missing actor, or one with no race, is never shoved. */
  lemma NoActorOrRaceRejected(cfg: Config, kw: KeywordCache, target: Option<Actor>)
    requires target.None? || target.value.race.None?
    ensures !IsHumanoidAllowed(cfg, kw, target)
  {
  }

  /** The deny list wins, even over the allow list. */
  lemma DenyWins(cfg: Config, kw: KeywordCache, target: Actor)
    requires target.race.Some? && target.race.value.formID in cfg.denyRaces
    ensures !IsHumanoidAllowed(cfg, kw, Some(target))
  {
  }

  /** Under a non-empty allow list, a race off the list is rejected. */
  lemma AllowListEnforced(cfg: Config, kw: KeywordCache, target: Actor)
    requires target.race.Some? && cfg.allowRaces != {} && target.race.value.formID !in cfg.allowRaces
    ensures !IsHumanoidAllowed(cfg, kw, Some(target))
  {
  }

  /** A large archetype is rejected even when its race is on the allow list. */
  lemma LargeArchetypeRejected(cfg: Config, kw: KeywordCache, target: Actor)
    requires LargeArchetype(kw, Some(target))
    ensures !IsHumanoidAllowed(cfg, kw, Some(target))
  {
  }

  /** A humanoid that no list excludes and that is no large archetype is accepted. */
  lemma HumanoidAccepted(cfg: Config, kw: KeywordCache, target: Actor)
    requires target.race.Some? && target.race.value.formID !in cfg.denyRaces
    requires cfg.allowRaces == {} || target.race.value.formID in cfg.allowRaces
    requires !LargeArchetype(kw, Some(target)) && Humanoid(kw, Some(target))
    ensures IsHumanoidAllowed(cfg, kw, Some(target))
  {
  }

  /** With no keyword either way, the answer is whether an allow list (already passed) exists. */
  lemma FallbackFollowsAllowList(cfg: Config, kw: KeywordCache, target: Actor)
    requires target.race.Some? && target.race.value.formID !in cfg.denyRaces
    requires cfg.allowRaces == {} || target.race.value.formID in cfg.allowRaces
    requires !LargeArchetype(kw, Some(target)) && !Humanoid(kw, Some(target))
    ensures IsHumanoidAllowed(cfg, kw, Some(target)) <==> cfg.HasAllowList()
  {
  }

  /** The weapon types a melee hit is made with. */
  predicate MeleeType(t: WeaponType)
  {
    t in {OneHandSword, OneHandDagger, OneHandAxe, OneHandMace, TwoHandSword, TwoHandAxe, HandToHandMelee}
  }

  /** `IsMeleeWeapon`: a weapon of one of the seven melee types; no weapon is not melee. */
  function IsMeleeWeapon(weap: Option<Weapon>): (r: bool)
    ensures r <==> weap.Some? && MeleeType(weap.value.weaponType)
  {
    if weap.None? then false
    else
      match weap.value.weaponType
      case OneHandSword => true
      case OneHandDagger => true
      case OneHandAxe => true
      case OneHandMace => true
      case TwoHandSword => true
      case TwoHandAxe => true
      case HandToHandMelee => true
      case _ => false
  }

  /** Bows, crossbows and staves are never melee. */
  lemma RangedNotMelee(f: FormID)
    ensures !IsMeleeWeapon(Some(Weapon(f, Bow)))
    ensures !IsMeleeWeapon(Some(Weapon(f, Crossbow)))
    ensures !IsMeleeWeapon(Some(Weapon(f, Staff)))
  {
  }

  /** `IsMagicSource`: a non-zero source id that resolves to a magic item. */
  function IsMagicSource(forms: map<FormID, Form>, sourceID: FormID): (r: bool)
    ensures r <==> sourceID != 0 && sourceID in forms && forms[sourceID] == MagicItemForm
  {
    if sourceID == 0 then false
    else
      var form := LookupByID(forms, sourceID);
      if form.None? then false
      else form.value.MagicItemForm?
  }

  /** `ResolveWeaponFromEventOrEquipped`: the hit's source, when it is a non-zero id of a weapon. */
  function ResolveWeaponFromEventOrEquipped(forms: map<FormID, Form>, source: FormID): (r: Option<Weapon>)
    ensures r.Some? <==> source != 0 && source in forms && forms[source].WeaponForm?
    ensures r.Some? ==> forms[source] == WeaponForm(r.value)
  {
    if source != 0 then
      var form := LookupByID(forms, source);
      if form.Some? && form.value.WeaponForm? then Some(form.value.weapon) else None
    else None
  }

  /** Source 0 is neither a spell nor a weapon; a spell source resolves to no weapon. */
  lemma SourceKindsExclusive(forms: map<FormID, Form>, source: FormID)
    ensures !IsMagicSource(forms, 0) && ResolveWeaponFromEventOrEquipped(forms, 0).None?
    ensures IsMagicSource(forms, source) ==> ResolveWeaponFromEventOrEquipped(forms, source).None?
  {
  }
}
