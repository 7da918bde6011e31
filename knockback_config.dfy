/**
 * The plugin's configuration record, its built-in defaults and the ranges
 * the loader clamps every loaded value into.
 */
module KnockbackConfig {
  import opened Engine

  datatype Config = Config(
    // velocity ("speed") and length of the shove burst
    shoveMagnitude: real,
    shoveDuration: real,
    // acceptance helper for the impulse primitive
    applyCurrentMinVelocity: real,
    minDurationScale: real,
    // shove attempts and the frames between them
    shoveRetries: int,
    shoveRetryDelayFrames: int,
    shoveInitialDelayFrames: int,
    // gain in distance below which a shove is reapplied
    minShoveSeparationDelta: real,
    disableInFirstPerson: bool,
    allowRaces: set<FormID>,
    denyRaces: set<FormID>,
    // separation enforcement (player aggressor only)
    enforceMinSeparation: bool,
    minSeparationDistance: real,
    separationPushDuration: real,
    separationMaxVelocity: real,
    separationRetries: int,
    separationInitialDelayFrames: int,
    separationRetryDelayFrames: int,
    // weapon-type multipliers, keyed by keyword form id
    weaponTypeMultipliers: map<FormID, real>,
    weaponTypeKeywordMultipliers: map<FormID, real>,
    unarmedMultiplier: real)
  {
    /** An allow list is in force exactly when it names at least one race. */
    predicate HasAllowList()
    {
      allowRaces != {}
    }
  }

  /** `Config{}`: the value of every field before anything is loaded. */
  function Default(): Config
  {
    Config(
      shoveMagnitude := 2.5,
      shoveDuration := 0.12,
      applyCurrentMinVelocity := 4.0,
      minDurationScale := 0.15,
      shoveRetries := 3,
      shoveRetryDelayFrames := 1,
      shoveInitialDelayFrames := 1,
      minShoveSeparationDelta := 8.0,
      disableInFirstPerson := true,
      allowRaces := {},
      denyRaces := {},
      enforceMinSeparation := true,
      minSeparationDistance := 110.0,
      separationPushDuration := 0.10,
      separationMaxVelocity := 10.0,
      separationRetries := 6,
      separationInitialDelayFrames := 1,
      separationRetryDelayFrames := 1,
      weaponTypeMultipliers := map[],
      weaponTypeKeywordMultipliers := map[],
      unarmedMultiplier := 0.85)
  }

  /** The ranges the loader forces every tunable into. */
  predicate WithinLoadClamps(c: Config)
  {
    && 1 <= c.shoveRetries <= 10
    && 0 <= c.shoveRetryDelayFrames <= 10
    && 0 <= c.shoveInitialDelayFrames <= 10
    && 0 <= c.separationRetries <= 20
    && 0 <= c.separationInitialDelayFrames <= 10
    && 1 <= c.separationRetryDelayFrames <= 10
    && 0.0 <= c.minDurationScale <= 1.0
    && c.applyCurrentMinVelocity >= 0.0
    && c.minShoveSeparationDelta >= 0.0
    && c.minSeparationDistance >= 0.0
    && c.separationMaxVelocity >= 0.0
    && c.separationPushDuration >= 0.01
  }

  /** `HasAllowList` is exactly non-emptiness of the allow set. */
  lemma HasAllowListIffNonEmpty(c: Config)
    ensures c.HasAllowList() <==> exists id :: id in c.allowRaces
  {
    if c.allowRaces != {} {
      var id :| id in c.allowRaces;
    }
  }

  /**
   * The defaults already lie inside every range the loader clamps to, so a
   * configuration that is never loaded is as sane as a loaded one.
   */
  lemma DefaultWithinLoadClamps()
    ensures WithinLoadClamps(Default())
    ensures !Default().HasAllowList() && Default().denyRaces == {}
  {
  }

  /**
   * The shipped tuning: shove 2.5 for 0.12 s, acceptance floor 4.0 with a
   * 0.15 duration floor, effectiveness check on (threshold 8 > 0), separation
   * enforced at 110 units with 6 retries, unarmed hits scaled by 0.85.
   */
  lemma DefaultTuning()
    ensures Default().shoveMagnitude == 2.5 && Default().shoveDuration == 0.12
    ensures Default().applyCurrentMinVelocity == 4.0 && Default().minDurationScale == 0.15
    ensures Default().shoveRetries == 3 && Default().shoveRetryDelayFrames == 1
    ensures Default().shoveInitialDelayFrames == 1 && Default().disableInFirstPerson
    ensures Default().minShoveSeparationDelta == 8.0
    ensures Default().enforceMinSeparation && Default().minSeparationDistance == 110.0
    ensures Default().separationPushDuration == 0.10 && Default().separationMaxVelocity == 10.0
    ensures Default().separationRetries == 6
    ensures Default().separationInitialDelayFrames == 1 && Default().separationRetryDelayFrames == 1
    ensures Default().unarmedMultiplier == 0.85
  {
  }
}
