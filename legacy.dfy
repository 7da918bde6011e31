/**
 * The earlier single-file variant of the plugin. It shares the text helpers
 * for the INI file, the keyword, weapon and spell tests and the physics
 * shove with the newer code (the same functions model both). Everything it
 * does differently lives here:
 *
 *   - a smaller configuration with its own clamp pass;
 *   - its own copies of the first-person and humanoid filters, shown here to
 *     decide exactly as the newer ones do;
 *   - a shove queue whose only follow-up is the retry after a refusal;
 *   - a hit sink that shoves for any melee hit, counting a hit with no
 *     resolved weapon as an unarmed melee hit.
 */
module Legacy {
  import opened Wrappers
  import opened Engine
  import opened IniText
  import opened Physics
  import opened Filters
  import KnockbackConfig
  import ConfigLoad
  import Tasks
  import HitSink

  // ---------------------------------------------------------------------
  // Configuration
  // ---------------------------------------------------------------------

  datatype LegacyConfig = LegacyConfig(
    shoveMagnitude: real,
    shoveDuration: real,
    applyCurrentMinVelocity: real,
    minDurationScale: real,
    shoveRetries: int,
    shoveRetryDelayFrames: int,
    disableInFirstPerson: bool,
    allowRaces: set<FormID>,
    denyRaces: set<FormID>)
  {
    predicate HasAllowList()
    {
      allowRaces != {}
    }
  }

  /** `Config{}` of the legacy plugin. */
  function LegacyDefault(): LegacyConfig
  {
    LegacyConfig(
      shoveMagnitude := 2.5,
      shoveDuration := 0.12,
      applyCurrentMinVelocity := 4.0,
      minDurationScale := 0.15,
      shoveRetries := 3,
      shoveRetryDelayFrames := 1,
      disableInFirstPerson := true,
      allowRaces := {},
      denyRaces := {})
  }

  /** The ranges the legacy loader clamps into. */
  predicate LegacyWithinClamps(c: LegacyConfig)
  {
    && 1 <= c.shoveRetries <= 10
    && 0 <= c.shoveRetryDelayFrames <= 10
    && 0.0 <= c.minDurationScale <= 1.0
    && c.applyCurrentMinVelocity >= 0.0
  }

  /**
   * The newer configuration holding the legacy values; the settings the
   * legacy plugin does not have keep their newer defaults.
   */
  function AsConfig(c: LegacyConfig): KnockbackConfig.Config
  {
    KnockbackConfig.Default().(
      shoveMagnitude := c.shoveMagnitude,
      shoveDuration := c.shoveDuration,
      applyCurrentMinVelocity := c.applyCurrentMinVelocity,
      minDurationScale := c.minDurationScale,
      shoveRetries := c.shoveRetries,
      shoveRetryDelayFrames := c.shoveRetryDelayFrames,
      disableInFirstPerson := c.disableInFirstPerson,
      allowRaces := c.allowRaces,
      denyRaces := c.denyRaces)
  }

  /** The legacy defaults are in range and agree with the newer defaults on every shared setting. */
  lemma LegacyDefaultSane()
    ensures LegacyWithinClamps(LegacyDefault())
    ensures AsConfig(LegacyDefault()) == KnockbackConfig.Default()
  {
  }

  /** The [General] keys the legacy loader reads. */
  datatype LegacyGeneral = LegacyGeneral(
    shoveMagnitude: Option<real>,
    shoveDuration: Option<real>,
    shoveRetries: Option<int>,
    shoveRetryDelayFrames: Option<int>,
    disableInFirstPerson: Option<bool>,
    applyCurrentMinVelocity: Option<real>,
    minDurationScale: Option<real>)

  /** The legacy INI file: unreadable, or the [General] keys and the raw [Races] lists. */
  datatype LegacyIni =
    | LegacyUnreadable
    | LegacyIni(general: LegacyGeneral, allow: string, deny: string)

  function LegacyReadGeneral(g: LegacyGeneral, d: LegacyConfig): LegacyConfig
  {
    d.(
      shoveMagnitude := g.shoveMagnitude.GetOr(d.shoveMagnitude),
      shoveDuration := g.shoveDuration.GetOr(d.shoveDuration),
      shoveRetries := g.shoveRetries.GetOr(d.shoveRetries),
      shoveRetryDelayFrames := g.shoveRetryDelayFrames.GetOr(d.shoveRetryDelayFrames),
      disableInFirstPerson := g.disableInFirstPerson.GetOr(d.disableInFirstPerson),
      applyCurrentMinVelocity := g.applyCurrentMinVelocity.GetOr(d.applyCurrentMinVelocity),
      minDurationScale := g.minDurationScale.GetOr(d.minDurationScale))
  }

  /** The legacy clamp pass: the four tunables forced into range, everything else kept. */
  function LegacyClamped(c: LegacyConfig): (r: LegacyConfig)
    ensures LegacyWithinClamps(r)
    ensures LegacyWithinClamps(c) ==> r == c
    ensures r.shoveMagnitude == c.shoveMagnitude && r.shoveDuration == c.shoveDuration
    ensures r.disableInFirstPerson == c.disableInFirstPerson
    ensures r.allowRaces == c.allowRaces && r.denyRaces == c.denyRaces
  {
    c.(
      applyCurrentMinVelocity := ConfigLoad.AtLeast(c.applyCurrentMinVelocity, 0.0),
      minDurationScale := ConfigLoad.ClampScale(c.minDurationScale),
      shoveRetries := ConfigLoad.ClampInt(c.shoveRetries, 1, 10),
      shoveRetryDelayFrames := ConfigLoad.ClampInt(c.shoveRetryDelayFrames, 0, 10))
  }

  /** The configuration the legacy `LoadConfig` leaves behind. */
  function LegacyLoaded(ini: LegacyIni, parse: string -> FormID): LegacyConfig
  {
    match ini
    case LegacyUnreadable => LegacyDefault()
    case LegacyIni(general, allow, deny) =>
      LegacyClamped(LegacyReadGeneral(general, LegacyDefault())).(
        allowRaces := ConfigLoad.RaceIds(SplitCSVSpec(allow), parse),
        denyRaces := ConfigLoad.RaceIds(SplitCSVSpec(deny), parse))
  }

  /** An unreadable file leaves the defaults; any load leaves the tunables in range and no 0 in the race sets. */
  lemma LegacyLoadedSane(ini: LegacyIni, parse: string -> FormID)
    ensures ini.LegacyUnreadable? ==> LegacyLoaded(ini, parse) == LegacyDefault()
    ensures LegacyWithinClamps(LegacyLoaded(ini, parse))
    ensures 0 !in LegacyLoaded(ini, parse).allowRaces && 0 !in LegacyLoaded(ini, parse).denyRaces
  {
    LegacyDefaultSane();
  }

  /** Each of the seven keys: a present value is loaded (clamped where the loader clamps), an absent one gives the default. */
  lemma LegacyLoadedTunables(ini: LegacyIni, parse: string -> FormID)
    requires ini.LegacyIni?
    ensures LegacyLoaded(ini, parse).shoveMagnitude == ini.general.shoveMagnitude.GetOr(2.5)
    ensures LegacyLoaded(ini, parse).shoveDuration == ini.general.shoveDuration.GetOr(0.12)
    ensures LegacyLoaded(ini, parse).disableInFirstPerson == ini.general.disableInFirstPerson.GetOr(true)
    ensures LegacyLoaded(ini, parse).shoveRetries == ConfigLoad.ClampInt(ini.general.shoveRetries.GetOr(3), 1, 10)
    ensures LegacyLoaded(ini, parse).shoveRetryDelayFrames == ConfigLoad.ClampInt(ini.general.shoveRetryDelayFrames.GetOr(1), 0, 10)
    ensures LegacyLoaded(ini, parse).minDurationScale == ConfigLoad.ClampScale(ini.general.minDurationScale.GetOr(0.15))
    ensures LegacyLoaded(ini, parse).applyCurrentMinVelocity == ConfigLoad.AtLeast(ini.general.applyCurrentMinVelocity.GetOr(4.0), 0.0)
  {
  }

  /** The legacy plugin's global configuration and its loader. */
  class LegacyStore {
    var cfg: LegacyConfig

    constructor()
      ensures cfg == LegacyDefault()
    {
      cfg := LegacyDefault();
    }

    /** The clamp pass, in the loader's order. */
    method ApplyClamps()
      modifies this
      ensures cfg == LegacyClamped(old(cfg))
    {
      var c := cfg;
      c := c.(applyCurrentMinVelocity := ConfigLoad.AtLeast(c.applyCurrentMinVelocity, 0.0));
      c := c.(minDurationScale := ConfigLoad.ClampScale(c.minDurationScale));
      c := c.(shoveRetries := ConfigLoad.ClampInt(c.shoveRetries, 1, 10));
      c := c.(shoveRetryDelayFrames := ConfigLoad.ClampInt(c.shoveRetryDelayFrames, 0, 10));
      cfg := c;
    }

    /** The legacy `LoadConfig`: defaults, the [General] keys, the clamps, then both race lists. */
    method LoadConfig(ini: LegacyIni, data: DataHandler)
      modifies this
      ensures cfg == LegacyLoaded(ini, ConfigLoad.SpecParser(data))
    {
      cfg := LegacyDefault();
      if ini.LegacyUnreadable? {
        return;
      }
      cfg := LegacyReadGeneral(ini.general, cfg);
      ApplyClamps();
      ghost var clamped := cfg;
      var allowItems := SplitCSV(ini.allow);
      var allow := ConfigLoad.InsertParsedRaces(cfg.allowRaces, allowItems, data);
      cfg := cfg.(allowRaces := allow);
      var denyItems := SplitCSV(ini.deny);
      var deny := ConfigLoad.InsertParsedRaces(cfg.denyRaces, denyItems, data);
      cfg := cfg.(denyRaces := deny);
      ghost var parse := ConfigLoad.SpecParser(data);
      ConfigLoad.UnionWithEmpty(clamped.allowRaces, ConfigLoad.RaceIds(SplitCSVSpec(ini.allow), parse));
      ConfigLoad.UnionWithEmpty(clamped.denyRaces, ConfigLoad.RaceIds(SplitCSVSpec(ini.deny), parse));
    }
  }

  // ---------------------------------------------------------------------
  // Filters
  // ---------------------------------------------------------------------

  /** The legacy first-person suppression. */
  function LegacyShouldDisableDueToFirstPerson(c: LegacyConfig, w: World, aggressor: Option<Actor>): bool
  {
    if !c.disableInFirstPerson then false
    else if aggressor.None? then false
    else if w.player.None? || aggressor.value.ref != w.player.value then false
    else if w.camera.None? then false
    else w.camera.value.firstPerson
  }

  /** The legacy humanoid filter. */
  function LegacyIsHumanoidAllowed(c: LegacyConfig, kw: KeywordCache, target: Option<Actor>): bool
  {
    if target.None? then false
    else if target.value.race.None? then false
    else
      var raceID := target.value.race.value.formID;
      if raceID in c.denyRaces then false
      else if c.HasAllowList() && raceID !in c.allowRaces then false
      else if HasKW(target, kw.dragon) || HasKW(target, kw.giant) || HasKW(target, kw.dwarvenAuto) then false
      else if HasKW(target, kw.npc) || HasKW(target, kw.undead) then true
      else if c.HasAllowList() then true
      else false
  }

  /** The legacy first-person test decides exactly as the newer one on the same settings. */
  lemma LegacyFirstPersonAgrees(c: LegacyConfig, w: World, a: Option<Actor>)
    ensures LegacyShouldDisableDueToFirstPerson(c, w, a) == ShouldDisableDueToFirstPerson(AsConfig(c), w, a)
    ensures LegacyShouldDisableDueToFirstPerson(c, w, a) <==>
      c.disableInFirstPerson && IsPlayer(w, a) && w.camera == Some(Camera(true))
  {
  }

  /** The legacy humanoid filter decides exactly as the newer one on the same race lists. */
  lemma LegacyHumanoidAgrees(c: LegacyConfig, kw: KeywordCache, target: Option<Actor>)
    ensures LegacyIsHumanoidAllowed(c, kw, target) == IsHumanoidAllowed(AsConfig(c), kw, target)
  {
  }

  /** Hence the same order of decisions: deny wins, then the allow list, then the large-archetype exclusion. */
  lemma LegacyFilterOrder(c: LegacyConfig, kw: KeywordCache, target: Actor)
    ensures target.race.Some? && target.race.value.formID in c.denyRaces ==> !LegacyIsHumanoidAllowed(c, kw, Some(target))
    ensures target.race.Some? && c.allowRaces != {} && target.race.value.formID !in c.allowRaces ==>
      !LegacyIsHumanoidAllowed(c, kw, Some(target))
    ensures LargeArchetype(kw, Some(target)) ==> !LegacyIsHumanoidAllowed(c, kw, Some(target))
  {
    LegacyHumanoidAgrees(c, kw, Some(target));
    if target.race.Some? && target.race.value.formID in c.denyRaces {
      DenyWins(AsConfig(c), kw, target);
    }
    if target.race.Some? && c.allowRaces != {} && target.race.value.formID !in c.allowRaces {
      AllowListEnforced(AsConfig(c), kw, target);
    }
    if LargeArchetype(kw, Some(target)) {
      LargeArchetypeRejected(AsConfig(c), kw, target);
    }
  }

  // ---------------------------------------------------------------------
  // The shove queue
  // ---------------------------------------------------------------------

  /** The legacy shove burst: the configured speed, not scaled by any weapon, shaped inline. */
  function LegacyShoveBurst(c: LegacyConfig): Burst
  {
    var mag := c.shoveMagnitude;
    var dur := c.shoveDuration;
    if c.applyCurrentMinVelocity > 0.0 && mag > 0.0 then
      var peak := Max(mag, c.applyCurrentMinVelocity);
      var scaled := dur * (mag / peak);
      var minDur := dur * c.minDurationScale;
      Burst(peak, Max(scaled, minDur))
    else Burst(mag, dur)
  }

  /** The inline shaping is `ShapeForApplyCurrent`, and the burst is the newer one's at multiplier 1. */
  lemma LegacyShapeAgrees(c: LegacyConfig)
    ensures LegacyShoveBurst(c) == ShapeForApplyCurrent(AsConfig(c), Burst(c.shoveMagnitude, c.shoveDuration))
    ensures LegacyShoveBurst(c) == Tasks.ShoveBurst(AsConfig(c), 1.0)
  {
    assert c.shoveMagnitude * 1.0 == c.shoveMagnitude;
  }

  datatype LegacyTask = LegacyShove(aggressor: Handle, target: Handle, tries: int, delay: int)

  datatype LegacyOutcome = LegacyOutcome(call: Option<Tasks.Call>, next: seq<LegacyTask>)

  /** The legacy checks before a shove: two distinct living actors, no suppression, an allowed target. */
  predicate LegacyEngageable(c: LegacyConfig, w: World, a: Actor, t: Actor)
  {
    a.ref != t.ref && !a.dead && !t.dead
    && !LegacyShouldDisableDueToFirstPerson(c, w, Some(a)) && LegacyIsHumanoidAllowed(c, w.keywords, Some(t))
  }

  /** One run of a legacy shove task. */
  function RunLegacyShove(c: LegacyConfig, w: World, t: LegacyTask): LegacyOutcome
  {
    if t.delay > 0 then LegacyOutcome(None, [LegacyShove(t.aggressor, t.target, t.tries, t.delay - 1)])
    else if t.aggressor !in w.actors || t.target !in w.actors then LegacyOutcome(None, [])
    else
      var a := w.actors[t.aggressor];
      var tg := w.actors[t.target];
      if !LegacyEngageable(c, w, a, tg) then LegacyOutcome(None, [])
      else
        var b := LegacyShoveBurst(c);
        var res := ApplyPhysicsShove(Some(a), Some(tg), b.mag, b.dur, w.currentAccepted);
        LegacyOutcome(Some(Tasks.Call(a, tg, b, res)),
          if res.ok then []
          else if t.tries - 1 > 0 then [LegacyShove(t.aggressor, t.target, t.tries - 1, c.shoveRetryDelayFrames)]
          else [])
  }

  /**
   * A counting-down task only re-enqueues itself one frame closer; a due
   * task that fails a check ends with nothing; an accepted shove ends the
   * chain; a refused one retries with one try fewer after the retry delay
   * while tries remain.
   */
  lemma LegacyShoveRules(c: LegacyConfig, w: World, t: LegacyTask)
    ensures t.delay > 0 ==>
      RunLegacyShove(c, w, t) == LegacyOutcome(None, [LegacyShove(t.aggressor, t.target, t.tries, t.delay - 1)])
    ensures t.delay <= 0 && (t.aggressor !in w.actors || t.target !in w.actors
                             || !LegacyEngageable(c, w, w.actors[t.aggressor], w.actors[t.target])) ==>
      RunLegacyShove(c, w, t) == LegacyOutcome(None, [])
    ensures RunLegacyShove(c, w, t).call.Some? && RunLegacyShove(c, w, t).call.value.result.ok ==>
      RunLegacyShove(c, w, t).next == []
    ensures RunLegacyShove(c, w, t).call.Some? && !RunLegacyShove(c, w, t).call.value.result.ok ==>
      RunLegacyShove(c, w, t).next ==
        (if t.tries - 1 > 0 then [LegacyShove(t.aggressor, t.target, t.tries - 1, c.shoveRetryDelayFrames)] else [])
    ensures RunLegacyShove(c, w, t).call.Some? ==> RunLegacyShove(c, w, t).call.value.burst == LegacyShoveBurst(c)
  {
  }

  datatype LegacyTrace = LegacyTrace(calls: seq<Tasks.Call>, queue: seq<LegacyTask>)

  /** `k` runs of the legacy FIFO in one world and configuration. */
  function LegacyExec(c: LegacyConfig, w: World, q: seq<LegacyTask>, k: nat): LegacyTrace
    decreases k
  {
    if k == 0 || |q| == 0 then LegacyTrace([], q)
    else
      var o := RunLegacyShove(c, w, q[0]);
      var rest := LegacyExec(c, w, q[1..] + o.next, k - 1);
      LegacyTrace(Tasks.CallsOf(o.call) + rest.calls, rest.queue)
  }

  lemma {:induction false} LegacyExecSplit(c: LegacyConfig, w: World, q: seq<LegacyTask>, k1: nat, k2: nat)
    ensures LegacyExec(c, w, q, k1 + k2) ==
      LegacyTrace(LegacyExec(c, w, q, k1).calls + LegacyExec(c, w, LegacyExec(c, w, q, k1).queue, k2).calls,
                  LegacyExec(c, w, LegacyExec(c, w, q, k1).queue, k2).queue)
    decreases k1
  {
    if k1 == 0 {
      assert [] + LegacyExec(c, w, q, k2).calls == LegacyExec(c, w, q, k2).calls;
    } else if |q| == 0 {
      assert LegacyExec(c, w, q, k1 + k2) == LegacyTrace([], []);
      assert LegacyExec(c, w, [], k2) == LegacyTrace([], []);
    } else {
      var o := RunLegacyShove(c, w, q[0]);
      var q' := q[1..] + o.next;
      LegacyExecSplit(c, w, q', k1 - 1, k2);
      assert k1 + k2 - 1 == (k1 - 1) + k2;
      var a := LegacyExec(c, w, q', k1 - 1);
      var b := LegacyExec(c, w, a.queue, k2);
      assert Tasks.CallsOf(o.call) + (a.calls + b.calls) == (Tasks.CallsOf(o.call) + a.calls) + b.calls;
    }
  }

  lemma {:induction false} LegacyCountdown(c: LegacyConfig, w: World, aH: Handle, tH: Handle, n: int, d: nat)
    ensures LegacyExec(c, w, [LegacyShove(aH, tH, n, d)], d) == LegacyTrace([], [LegacyShove(aH, tH, n, 0)])
    decreases d
  {
    if d > 0 {
      assert [LegacyShove(aH, tH, n, d)][1..] + RunLegacyShove(c, w, LegacyShove(aH, tH, n, d)).next
          == [LegacyShove(aH, tH, n, d - 1)];
      LegacyCountdown(c, w, aH, tH, n, d - 1);
    }
  }

  /** The call each legacy try makes in a world where nothing changes. */
  function LegacyCallIn(c: LegacyConfig, w: World, aH: Handle, tH: Handle): Tasks.Call
    requires aH in w.actors && tH in w.actors
  {
    var b := LegacyShoveBurst(c);
    Tasks.Call(w.actors[aH], w.actors[tH], b,
               ApplyPhysicsShove(Some(w.actors[aH]), Some(w.actors[tH]), b.mag, b.dur, w.currentAccepted))
  }

  /** A legacy shove `d` frames out runs `d + k` times as its due try runs `k` times. */
  lemma LegacyCountdownThen(c: LegacyConfig, w: World, aH: Handle, tH: Handle, n: int, d: nat, k: nat)
    ensures LegacyExec(c, w, [LegacyShove(aH, tH, n, d)], d + k) == LegacyExec(c, w, [LegacyShove(aH, tH, n, 0)], k)
  {
    var due := LegacyExec(c, w, [LegacyShove(aH, tH, n, 0)], k);
    LegacyCountdown(c, w, aH, tH, n, d);
    LegacyExecSplit(c, w, [LegacyShove(aH, tH, n, d)], d, k);
    assert [] + due.calls == due.calls;
  }

  /** A due legacy try whose shove fails makes its call, then the next try runs. */
  lemma LegacyRefusedTryThen(c: LegacyConfig, w: World, aH: Handle, tH: Handle, n: nat, k: nat)
    requires n >= 1
    requires aH in w.actors && tH in w.actors && LegacyEngageable(c, w, w.actors[aH], w.actors[tH])
    requires !LegacyCallIn(c, w, aH, tH).result.ok
    ensures var after := if n - 1 > 0 then [LegacyShove(aH, tH, n - 1, c.shoveRetryDelayFrames)] else [];
      LegacyExec(c, w, [LegacyShove(aH, tH, n, 0)], 1 + k)
      == LegacyTrace([LegacyCallIn(c, w, aH, tH)] + LegacyExec(c, w, after, k).calls, LegacyExec(c, w, after, k).queue)
  {
    var due := LegacyShove(aH, tH, n, 0);
    LegacyExecSplit(c, w, [due], 1, k);
    var o := RunLegacyShove(c, w, due);
    var after := if n - 1 > 0 then [LegacyShove(aH, tH, n - 1, c.shoveRetryDelayFrames)] else [];
    assert o.call == Some(LegacyCallIn(c, w, aH, tH));
    assert o.next == after;
    assert LegacyExec(c, w, [due], 1) == LegacyTrace([LegacyCallIn(c, w, aH, tH)], after) by {
      assert [due][1..] + o.next == after;
      assert LegacyExec(c, w, after, 0) == LegacyTrace([], after);
    }
  }

  /**
   * A legacy chain started with `n` tries against a target that passes
   * every check, in a world where `ApplyPhysicsShove` always fails (too
   * close, or refused), applies the shove exactly `n` times and leaves
   * nothing queued.
   */
  lemma {:induction false} LegacyFailingChain(c: LegacyConfig, w: World, aH: Handle, tH: Handle, n: nat, d: nat)
    requires n >= 1 && c.shoveRetryDelayFrames >= 0
    requires aH in w.actors && tH in w.actors && LegacyEngageable(c, w, w.actors[aH], w.actors[tH])
    requires !LegacyCallIn(c, w, aH, tH).result.ok
    ensures LegacyExec(c, w, [LegacyShove(aH, tH, n, d)], Tasks.FailingChainRuns(n, d, c.shoveRetryDelayFrames))
         == LegacyTrace(Tasks.Repeat(LegacyCallIn(c, w, aH, tH), n), [])
    decreases n
  {
    var r: nat := c.shoveRetryDelayFrames;
    var call := LegacyCallIn(c, w, aH, tH);
    var rest := Tasks.FailingChainRuns(n - 1, r, r);
    var after := if n - 1 > 0 then [LegacyShove(aH, tH, n - 1, r)] else [];
    LegacyCountdownThen(c, w, aH, tH, n, d, 1 + rest);
    LegacyRefusedTryThen(c, w, aH, tH, n, rest);
    if n - 1 > 0 {
      LegacyFailingChain(c, w, aH, tH, n - 1, r);
    } else {
      assert rest == 0 && after == [];
    }
    assert [call] + Tasks.Repeat(call, n - 1) == Tasks.Repeat(call, n);
  }

  /** An upper bound on the runs a legacy task and its retries can still take. */
  function LegacyWeight(t: LegacyTask): nat
  {
    Tasks.Max0(t.tries) * Tasks.TRY_WEIGHT + Tasks.Max0(t.delay) + 1
  }

  function LegacyQueueWeight(q: seq<LegacyTask>): nat
  {
    if q == [] then 0 else LegacyWeight(q[0]) + LegacyQueueWeight(q[1..])
  }

  lemma {:induction false} LegacyQueueWeightAppend(a: seq<LegacyTask>, b: seq<LegacyTask>)
    ensures LegacyQueueWeight(a + b) == LegacyQueueWeight(a) + LegacyQueueWeight(b)
  {
    if a == [] {
      assert a + b == b;
    } else {
      assert (a + b)[0] == a[0];
      assert (a + b)[1..] == a[1..] + b;
      LegacyQueueWeightAppend(a[1..], b);
    }
  }

  /** Under a configuration the legacy loader produced, each frame's run strictly lowers the queue's weight. */
  lemma LegacyStepDecreasesWeight(c: LegacyConfig, w: World, q: seq<LegacyTask>)
    requires LegacyWithinClamps(c) && q != []
    ensures LegacyQueueWeight(q[1..] + RunLegacyShove(c, w, q[0]).next) < LegacyQueueWeight(q)
  {
    var next := RunLegacyShove(c, w, q[0]).next;
    LegacyQueueWeightAppend(q[1..], next);
    if next != [] {
      assert next == [next[0]];
    }
  }

  /** Under configurations the legacy loader produced, the queue is empty after as many runs as it weighs. */
  lemma {:induction false} LegacyExecDrains(c: LegacyConfig, w: World, q: seq<LegacyTask>, k: nat)
    requires LegacyWithinClamps(c) && k >= LegacyQueueWeight(q)
    ensures LegacyExec(c, w, q, k).queue == []
    decreases k
  {
    if k > 0 && q != [] {
      LegacyStepDecreasesWeight(c, w, q);
      LegacyExecDrains(c, w, q[1..] + RunLegacyShove(c, w, q[0]).next, k - 1);
    }
  }

  // ---------------------------------------------------------------------
  // The hit sink
  // ---------------------------------------------------------------------

  /** A melee hit for the legacy sink: a melee weapon, or no resolved weapon at all (fists). */
  predicate LegacyMelee(weap: Option<Weapon>)
  {
    IsMeleeWeapon(weap) || weap.None?
  }

  /** What the legacy sink answers, and the shove task it enqueues if any. */
  datatype LegacyReply = LegacyReply(control: HitSink.Control, queued: Option<LegacyTask>)

  /** The legacy `ProcessEvent` guard chain. */
  function LegacyProcessEvent(c: LegacyConfig, w: World, forms: map<FormID, Form>, handleOf: Actor -> Handle,
                              evt: Option<HitSink.HitEvent>): (r: LegacyReply)
    ensures r.control == HitSink.Continue
    ensures r.queued.Some? ==> r.queued.value.tries == c.shoveRetries && r.queued.value.delay == 0
  {
    if evt.None? then LegacyReply(HitSink.Continue, None)
    else
      var e := evt.value;
      if e.target.None? || e.cause.None? then LegacyReply(HitSink.Continue, None)
      else
        var target := e.target.value;
        var aggressor := e.cause.value;
        if target.ref == aggressor.ref then LegacyReply(HitSink.Continue, None)
        else if target.dead || aggressor.dead then LegacyReply(HitSink.Continue, None)
        else if LegacyShouldDisableDueToFirstPerson(c, w, Some(aggressor)) then LegacyReply(HitSink.Continue, None)
        else if !LegacyIsHumanoidAllowed(c, w.keywords, Some(target)) then LegacyReply(HitSink.Continue, None)
        else if e.projectile != 0 then LegacyReply(HitSink.Continue, None)
        else if IsMagicSource(forms, e.source) then LegacyReply(HitSink.Continue, None)
        else
          var weap := ResolveWeaponFromEventOrEquipped(forms, e.source);
          var isMelee := IsMeleeWeapon(weap) || weap.None?;
          if !isMelee then LegacyReply(HitSink.Continue, None)
          else LegacyReply(HitSink.Continue, Some(LegacyShove(handleOf(aggressor), handleOf(target), c.shoveRetries, 0)))
  }

  /** A hit the legacy sink shoves for. */
  predicate LegacyQualifies(c: LegacyConfig, w: World, forms: map<FormID, Form>, e: HitSink.HitEvent)
  {
    && e.target.Some? && e.cause.Some?
    && e.target.value.ref != e.cause.value.ref
    && !e.target.value.dead && !e.cause.value.dead
    && !LegacyShouldDisableDueToFirstPerson(c, w, e.cause)
    && LegacyIsHumanoidAllowed(c, w.keywords, e.target)
    && e.projectile == 0
    && !IsMagicSource(forms, e.source)
    && LegacyMelee(ResolveWeaponFromEventOrEquipped(forms, e.source))
  }

  /** Exactly the qualifying hits queue one shove, for both actors' handles, all tries and no delay. */
  lemma LegacyQueuesIff(c: LegacyConfig, w: World, forms: map<FormID, Form>, handleOf: Actor -> Handle,
                        evt: Option<HitSink.HitEvent>)
    ensures LegacyProcessEvent(c, w, forms, handleOf, evt).queued.Some? <==>
      evt.Some? && LegacyQualifies(c, w, forms, evt.value)
    ensures LegacyProcessEvent(c, w, forms, handleOf, evt).queued.Some? ==>
      LegacyProcessEvent(c, w, forms, handleOf, evt).queued.value ==
        LegacyShove(handleOf(evt.value.cause.value), handleOf(evt.value.target.value), c.shoveRetries, 0)
  {
  }

  /**
   * The weapon policy: a hit whose source resolves to no weapon counts as
   * melee and is queued; one with a resolved weapon of a non-melee type is
   * dropped.
   */
  lemma LegacyWeaponPolicy(c: LegacyConfig, w: World, forms: map<FormID, Form>, handleOf: Actor -> Handle,
                           e: HitSink.HitEvent)
    requires && e.target.Some? && e.cause.Some?
             && e.target.value.ref != e.cause.value.ref
             && !e.target.value.dead && !e.cause.value.dead
             && !LegacyShouldDisableDueToFirstPerson(c, w, e.cause)
             && LegacyIsHumanoidAllowed(c, w.keywords, e.target)
             && e.projectile == 0 && !IsMagicSource(forms, e.source)
    ensures ResolveWeaponFromEventOrEquipped(forms, e.source).None? ==>
      LegacyProcessEvent(c, w, forms, handleOf, Some(e)).queued.Some?
    ensures ResolveWeaponFromEventOrEquipped(forms, e.source).Some? &&
            !MeleeType(ResolveWeaponFromEventOrEquipped(forms, e.source).value.weaponType) ==>
      LegacyProcessEvent(c, w, forms, handleOf, Some(e)).queued.None?
  {
  }

  /** The legacy task queue with its shove task body and hit sink. */
  class LegacyScheduler {
    var pending: seq<LegacyTask>

    constructor()
      ensures pending == []
    {
      pending := [];
    }

    /** The legacy `QueuePhysicsShove`: the task goes to the back of the queue. */
    method QueuePhysicsShove(aH: Handle, tH: Handle, tries: int, delay: int)
      modifies this
      ensures pending == old(pending) + [LegacyShove(aH, tH, tries, delay)]
    {
      pending := pending + [LegacyShove(aH, tH, tries, delay)];
    }

    /** One frame: the head task leaves the queue and runs. */
    method Step(c: LegacyConfig, w: World) returns (call: Option<Tasks.Call>)
      modifies this
      ensures old(pending) == [] ==> pending == [] && call.None?
      ensures old(pending) != [] ==>
        && call == RunLegacyShove(c, w, old(pending)[0]).call
        && pending == old(pending)[1..] + RunLegacyShove(c, w, old(pending)[0]).next
    {
      if pending == [] {
        return None;
      }
      var t := pending[0];
      pending := pending[1..];
      call := None;
      if t.delay > 0 {
        QueuePhysicsShove(t.aggressor, t.target, t.tries, t.delay - 1);
        return;
      }
      var aggressorPtr := Resolve(w, t.aggressor);
      var targetPtr := Resolve(w, t.target);
      if aggressorPtr.None? || targetPtr.None? {
        return;
      }
      var aggressor, target := aggressorPtr.value, targetPtr.value;
      if aggressor.ref == target.ref {
        return;
      }
      if aggressor.dead || target.dead {
        return;
      }
      if LegacyShouldDisableDueToFirstPerson(c, w, Some(aggressor)) {
        return;
      }
      if !LegacyIsHumanoidAllowed(c, w.keywords, Some(target)) {
        return;
      }
      var mag := c.shoveMagnitude;
      var dur := c.shoveDuration;
      if c.applyCurrentMinVelocity > 0.0 && mag > 0.0 {
        var peak := Max(mag, c.applyCurrentMinVelocity);
        var scaled := dur * (mag / peak);
        var minDur := dur * c.minDurationScale;
        mag := peak;
        dur := Max(scaled, minDur);
      }
      assert Burst(mag, dur) == LegacyShoveBurst(c);
      var res := ApplyPhysicsShove(Some(aggressor), Some(target), mag, dur, w.currentAccepted);
      call := Some(Tasks.Call(aggressor, target, Burst(mag, dur), res));
      if res.ok {
        return;
      }
      var nextTries := t.tries - 1;
      if nextTries > 0 {
        QueuePhysicsShove(t.aggressor, t.target, nextTries, c.shoveRetryDelayFrames);
      }
    }

    /** The legacy sink: a qualifying hit enqueues its shove directly. */
    method ProcessEvent(c: LegacyConfig, w: World, forms: map<FormID, Form>, handleOf: Actor -> Handle,
                        evt: Option<HitSink.HitEvent>) returns (control: HitSink.Control)
      modifies this
      ensures control == HitSink.Continue
      ensures LegacyProcessEvent(c, w, forms, handleOf, evt).queued.None? ==> pending == old(pending)
      ensures LegacyProcessEvent(c, w, forms, handleOf, evt).queued.Some? ==>
        pending == old(pending) + [LegacyProcessEvent(c, w, forms, handleOf, evt).queued.value]
    {
      var reply := LegacyProcessEvent(c, w, forms, handleOf, evt);
      if reply.queued.Some? {
        var t := reply.queued.value;
        QueuePhysicsShove(t.aggressor, t.target, t.tries, t.delay);
      }
      return HitSink.Continue;
    }
  }
}
