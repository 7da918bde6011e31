/**
 * The hit-event sink: each hit event passes an ordered chain of early
 * returns, and a hit that survives them all asks for one deferred shove.
 * The sink always lets the event go on to the other sinks.
 *
 * The configuration given is the one in force after the sink's reload
 * check. The target-validity test, the weapon multiplier lookup and the
 * deferred-shove entry point are not part of this model; the sink consults
 * the first two through `Hooks` and reports the third as a `Request`.
 */
module HitSink {
  import opened Wrappers
  import opened Engine
  import opened KnockbackConfig
  import opened Filters

  /**
   * A hit event: the struck reference and its cause, each None when missing
   * or not an actor, and the projectile and source form ids (0 for none).
   */
  datatype HitEvent = HitEvent(target: Option<Actor>, cause: Option<Actor>, projectile: FormID, source: FormID)

  /** What a sink tells the event source. */
  datatype Control = Continue | Stop

  /** The functions the sink consults that are not part of this model. */
  datatype Hooks = Hooks(
    isValidKnockbackTarget: Actor -> bool,
    weaponMultiplier: Option<Weapon> -> real,
    handleOf: Actor -> Handle)

  /** A request for a shove deferred until the attack finishes. */
  datatype Request = Request(aggressor: Handle, target: Handle, tries: int, mult: real, deferral: int)

  datatype Reply = Reply(control: Control, request: Option<Request>)

  /** Frames of deferral the sink asks for. */
  const ATTACK_DEFERRAL: int := 20

  /** `HitEventSink::ProcessEvent`. */
  function ProcessEvent(cfg: Config, w: World, forms: map<FormID, Form>, hooks: Hooks, evt: Option<HitEvent>): (r: Reply)
    ensures r.control == Continue
    ensures r.request.Some? ==>
      && evt.Some? && evt.value.target.Some? && evt.value.cause.Some?
      && r.request.value == Request(hooks.handleOf(evt.value.cause.value), hooks.handleOf(evt.value.target.value),
           cfg.shoveRetries, hooks.weaponMultiplier(ResolveWeaponFromEventOrEquipped(forms, evt.value.source)),
           ATTACK_DEFERRAL)
      && r.request.value.mult > 0.0
  {
    if evt.None? then Reply(Continue, None)
    else
      var e := evt.value;
      if e.target.None? || e.cause.None? then Reply(Continue, None)
      else
        var target := e.target.value;
        var aggressor := e.cause.value;
        if target.ref == aggressor.ref then Reply(Continue, None)
        else if target.dead || aggressor.dead then Reply(Continue, None)
        else if ShouldDisableDueToFirstPerson(cfg, w, Some(aggressor)) then Reply(Continue, None)
        else if !hooks.isValidKnockbackTarget(target) then Reply(Continue, None)
        else if e.projectile != 0 then Reply(Continue, None)
        else if IsMagicSource(forms, e.source) then Reply(Continue, None)
        else
          var weap := ResolveWeaponFromEventOrEquipped(forms, e.source);
          var weaponMult := hooks.weaponMultiplier(weap);
          if weaponMult <= 0.0 then Reply(Continue, None)
          else
            Reply(Continue, Some(Request(hooks.handleOf(aggressor), hooks.handleOf(target),
                                         cfg.shoveRetries, weaponMult, ATTACK_DEFERRAL)))
  }

  /**
   * A hit that earns a shove: both sides are actors, distinct and alive, no
   * first-person suppression, a valid target, a melee (non-projectile,
   * non-spell) hit, and a weapon with a positive multiplier.
   */
  predicate Qualifies(cfg: Config, w: World, forms: map<FormID, Form>, hooks: Hooks, e: HitEvent)
  {
    && e.target.Some? && e.cause.Some?
    && e.target.value.ref != e.cause.value.ref
    && !e.target.value.dead && !e.cause.value.dead
    && !ShouldDisableDueToFirstPerson(cfg, w, e.cause)
    && hooks.isValidKnockbackTarget(e.target.value)
    && e.projectile == 0
    && !IsMagicSource(forms, e.source)
    && hooks.weaponMultiplier(ResolveWeaponFromEventOrEquipped(forms, e.source)) > 0.0
  }

  /** Exactly the qualifying hits produce a request; there is never more than that one. */
  lemma RequestIffQualifies(cfg: Config, w: World, forms: map<FormID, Form>, hooks: Hooks, evt: Option<HitEvent>)
    ensures ProcessEvent(cfg, w, forms, hooks, evt).request.Some? <==>
      evt.Some? && Qualifies(cfg, w, forms, hooks, evt.value)
  {
  }

  /**
   * Each gate on its own stops the request: no event, a missing side, a
   * self-hit, a dead side, first-person suppression, an invalid target, a
   * projectile, a spell, and a weapon whose multiplier is not positive.
   */
  lemma EachGateBlocks(cfg: Config, w: World, forms: map<FormID, Form>, hooks: Hooks, evt: Option<HitEvent>)
    requires
      || evt.None?
      || evt.value.target.None? || evt.value.cause.None?
      || evt.value.target.value.ref == evt.value.cause.value.ref
      || evt.value.target.value.dead || evt.value.cause.value.dead
      || ShouldDisableDueToFirstPerson(cfg, w, evt.value.cause)
      || !hooks.isValidKnockbackTarget(evt.value.target.value)
      || evt.value.projectile != 0
      || IsMagicSource(forms, evt.value.source)
      || hooks.weaponMultiplier(ResolveWeaponFromEventOrEquipped(forms, evt.value.source)) <= 0.0
    ensures ProcessEvent(cfg, w, forms, hooks, evt) == Reply(Continue, None)
  {
  }

  /** A spell hit is dropped before the multiplier is even consulted. */
  lemma SpellHitIgnoresMultiplier(cfg: Config, w: World, forms: map<FormID, Form>, hooks: Hooks, e: HitEvent, mult: Option<Weapon> -> real)
    requires IsMagicSource(forms, e.source)
    ensures ProcessEvent(cfg, w, forms, hooks, Some(e)) ==
            ProcessEvent(cfg, w, forms, hooks.(weaponMultiplier := mult), Some(e))
    ensures ProcessEvent(cfg, w, forms, hooks, Some(e)).request.None?
  {
  }
}
