/**
 * The deferred shove machinery: three kinds of self-rescheduling task on the
 * host's FIFO task queue.
 *
 *   Shove      - one attempt at the shove; on failure it retries later, on
 *                success it starts the two follow-up chains below.
 *   Effect     - re-measures the distance a shove gained and reapplies the
 *                shove while the gain stays under the threshold.
 *   Separation - for a player aggressor, pushes the player back until the
 *                pair is far enough apart or stops making progress.
 *
 * Every task first counts its delay down by re-enqueueing itself, one frame
 * per run. `Run` is what one task does when it runs; the `Scheduler` class
 * is the queue and the task bodies as the host executes them.
 */
module Tasks {
  import opened Wrappers
  import opened Engine
  import opened KnockbackConfig
  import opened Physics
  import opened Filters

  datatype Task =
    | Shove(aggressor: Handle, target: Handle, tries: int, delay: int, mult: real)
    | Effect(aggressor: Handle, target: Handle, tries: int, distBefore: real, delay: int, mult: real)
    | Separation(aggressor: Handle, target: Handle, tries: int, delay: int, lastDist: real, noProgress: int)

  /** One call of `ApplyPhysicsShove`: the actor pushing, the actor pushed, the burst and the answer. */
  datatype Call = Call(from: Actor, who: Actor, burst: Burst, result: ShoveResult)

  /** What running one task does: at most one call, then the tasks it enqueues, in order. */
  datatype Outcome = Outcome(call: Option<Call>, next: seq<Task>)

  /** The separation loop's starting state: no distance measured yet, no stalls. */
  const SEPARATION_START_DIST: real := -1.0
  const SEPARATION_START_NO_PROGRESS: int := 0

  /** Frames before the first effectiveness check. */
  const EFFECT_CHECK_DELAY: int := 1

  /** Durations at or below this give the separation push its maximum speed. */
  const MIN_PUSH_DURATION: real := 0.0001

  /** Consecutive stalled measurements that end the separation loop. */
  const MAX_NO_PROGRESS: int := 2

  function Abs(x: real): (r: real)
    ensures r >= 0.0 && (r == x || r == -x)
  {
    if x < 0.0 then -x else x
  }

  function Min(x: real, y: real): (r: real)
    ensures r <= x && r <= y && (r == x || r == y)
  {
    if x <= y then x else y
  }

  /** `std::max(1, d)`. */
  function AtLeastOne(d: int): (r: int)
    ensures r >= 1 && r >= d && (r == 1 || r == d)
  {
    if d > 1 then d else 1
  }

  // ---------------------------------------------------------------------
  // What one run of a task does
  // ---------------------------------------------------------------------

  /** The same task with another delay. */
  function WithDelay(t: Task, d: int): (r: Task)
    ensures r.delay == d && r.tries == t.tries && r.aggressor == t.aggressor && r.target == t.target
    ensures (r.Shove? <==> t.Shove?) && (r.Effect? <==> t.Effect?) && (r.Separation? <==> t.Separation?)
  {
    match t
    case Shove(aH, tH, tries, _, mult) => Shove(aH, tH, tries, d, mult)
    case Effect(aH, tH, tries, distBefore, _, mult) => Effect(aH, tH, tries, distBefore, d, mult)
    case Separation(aH, tH, tries, _, lastDist, noProgress) => Separation(aH, tH, tries, d, lastDist, noProgress)
  }

  /** `QueueEnforceMinSeparation` enqueues only while enforcement is on, the goal positive and tries remain. */
  predicate SeparationGate(cfg: Config, tries: int)
  {
    cfg.enforceMinSeparation && cfg.minSeparationDistance > 0.0 && tries > 0
  }

  /** The tasks `QueueEnforceMinSeparation` enqueues: the loop's next step when the gate is open, else none. */
  function QueueSeparation(cfg: Config, aH: Handle, tH: Handle, tries: int, delay: int, lastDist: real, noProgress: int): (r: seq<Task>)
    ensures r != [] <==> SeparationGate(cfg, tries)
    ensures r != [] ==> r == [Separation(aH, tH, tries, delay, lastDist, noProgress)]
  {
    if !cfg.enforceMinSeparation || cfg.minSeparationDistance <= 0.0 || tries <= 0 then []
    else [Separation(aH, tH, tries, delay, lastDist, noProgress)]
  }

  /** The checks every task repeats when it runs: two distinct living actors, no suppression, an allowed target. */
  predicate Engageable(cfg: Config, w: World, a: Actor, t: Actor)
  {
    a.ref != t.ref && !a.dead && !t.dead
    && !ShouldDisableDueToFirstPerson(cfg, w, Some(a)) && IsHumanoidAllowed(cfg, w.keywords, Some(t))
  }

  /** The weapon-scaled shove burst, shaped for the current primitive. */
  function ShoveBurst(cfg: Config, mult: real): Burst
  {
    ShapeForApplyCurrent(cfg, Burst(cfg.shoveMagnitude * mult, cfg.shoveDuration))
  }

  /**
   * The separation push speed for a pair `dist` apart: the deficit covered in
   * one push duration (the maximum speed for a near-zero duration), capped at
   * the maximum speed when one is set.
   */
  function SeparationSpeed(cfg: Config, dist: real): (r: real)
    ensures cfg.separationMaxVelocity > 0.0 ==> r <= cfg.separationMaxVelocity
    ensures (&& cfg.separationPushDuration > MIN_PUSH_DURATION
             && (|| cfg.separationMaxVelocity <= 0.0
                 || (cfg.minSeparationDistance - dist) / cfg.separationPushDuration <= cfg.separationMaxVelocity)) ==>
      r * cfg.separationPushDuration == cfg.minSeparationDistance - dist
    ensures (&& cfg.separationMaxVelocity > 0.0 && cfg.separationPushDuration > MIN_PUSH_DURATION
             && (cfg.minSeparationDistance - dist) / cfg.separationPushDuration > cfg.separationMaxVelocity) ==>
      r == cfg.separationMaxVelocity
    ensures cfg.separationPushDuration > MIN_PUSH_DURATION && dist < cfg.minSeparationDistance && cfg.separationMaxVelocity > 0.0 ==>
      r > 0.0
  {
    var deficit := cfg.minSeparationDistance - dist;
    var dur := cfg.separationPushDuration;
    var mag := if dur > MIN_PUSH_DURATION then deficit / dur else cfg.separationMaxVelocity;
    if cfg.separationMaxVelocity > 0.0 then Min(mag, cfg.separationMaxVelocity) else mag
  }

  /** Under the defaults a pair 109.5 apart is pushed at 5.0, and one 100 apart at the cap 10. */
  lemma SeparationSpeedDefaults()
    ensures SeparationSpeed(Default(), 109.5) == 5.0
    ensures SeparationSpeed(Default(), 100.0) == 10.0
  {
  }

  /** The separation push burst, shaped for the current primitive. */
  function SeparationBurst(cfg: Config, dist: real): Burst
  {
    ShapeForApplyCurrent(cfg, Burst(SeparationSpeed(cfg, dist), cfg.separationPushDuration))
  }

  /**
   * The stall counter after measuring `dist`: once a previous distance
   * exists, a change under one unit counts a stall and any larger change
   * clears the count; before that the count is left alone.
   */
  function NextNoProgress(lastDist: real, dist: real, noProgress: int): (r: int)
    ensures lastDist < 0.0 ==> r == noProgress
    ensures lastDist >= 0.0 && Abs(dist - lastDist) < 1.0 ==> r == noProgress + 1
    ensures lastDist >= 0.0 && Abs(dist - lastDist) >= 1.0 ==> r == 0
  {
    if lastDist >= 0.0 then (if Abs(dist - lastDist) < 1.0 then noProgress + 1 else 0) else noProgress
  }

  /** The follow-ups of a shove the engine accepted. */
  function AfterShoveAccepted(cfg: Config, w: World, t: Task, a: Actor, distBefore: real): seq<Task>
    requires t.Shove?
  {
    (if cfg.minShoveSeparationDelta > 0.0
     then [Effect(t.aggressor, t.target, t.tries, distBefore, EFFECT_CHECK_DELAY, t.mult)] else [])
    + (if cfg.enforceMinSeparation && cfg.separationRetries > 0 && IsPlayer(w, Some(a))
       then QueueSeparation(cfg, t.aggressor, t.target, cfg.separationRetries, cfg.separationInitialDelayFrames,
                            SEPARATION_START_DIST, SEPARATION_START_NO_PROGRESS)
       else [])
  }

  /** A shove attempt (`QueuePhysicsShove`'s task). */
  function RunShove(cfg: Config, w: World, t: Task): Outcome
    requires t.Shove?
  {
    if t.delay > 0 then Outcome(None, [WithDelay(t, t.delay - 1)])
    else if t.aggressor !in w.actors || t.target !in w.actors then Outcome(None, [])
    else
      var a := w.actors[t.aggressor];
      var tg := w.actors[t.target];
      if !Engageable(cfg, w, a, tg) || t.mult <= 0.0 then Outcome(None, [])
      else
        var b := ShoveBurst(cfg, t.mult);
        var distBefore := HorizontalDistance(w.sqrt, Some(a), Some(tg));
        var res := ApplyPhysicsShove(Some(a), Some(tg), b.mag, b.dur, w.currentAccepted);
        Outcome(Some(Call(a, tg, b, res)),
          if res.ok then AfterShoveAccepted(cfg, w, t, a, distBefore)
          else if t.tries - 1 > 0 then [Shove(t.aggressor, t.target, t.tries - 1, cfg.shoveRetryDelayFrames, t.mult)]
          else [])
  }

  /** An effectiveness check (`QueueShoveEffectivenessCheck`'s task). */
  function RunEffect(cfg: Config, w: World, t: Task): Outcome
    requires t.Effect?
  {
    if t.delay > 0 then Outcome(None, [WithDelay(t, t.delay - 1)])
    else if t.aggressor !in w.actors || t.target !in w.actors then Outcome(None, [])
    else
      var a := w.actors[t.aggressor];
      var tg := w.actors[t.target];
      if !Engageable(cfg, w, a, tg) || t.mult <= 0.0 then Outcome(None, [])
      else
        var distAfter := HorizontalDistance(w.sqrt, Some(a), Some(tg));
        if distAfter - t.distBefore >= cfg.minShoveSeparationDelta then Outcome(None, [])
        else if t.tries - 1 <= 0 then Outcome(None, [])
        else
          var b := ShoveBurst(cfg, t.mult);
          var res := ApplyPhysicsShove(Some(a), Some(tg), b.mag, b.dur, w.currentAccepted);
          Outcome(Some(Call(a, tg, b, res)),
            [Effect(t.aggressor, t.target, t.tries - 1, distAfter, AtLeastOne(cfg.shoveRetryDelayFrames), t.mult)])
  }

  /** A separation step (`QueueEnforceMinSeparation`'s task). */
  function RunSeparation(cfg: Config, w: World, t: Task): Outcome
    requires t.Separation?
  {
    if t.delay > 0 then
      Outcome(None, QueueSeparation(cfg, t.aggressor, t.target, t.tries, t.delay - 1, t.lastDist, t.noProgress))
    else if t.aggressor !in w.actors || t.target !in w.actors then Outcome(None, [])
    else
      var a := w.actors[t.aggressor];
      var tg := w.actors[t.target];
      if !Engageable(cfg, w, a, tg) || !IsPlayer(w, Some(a)) then Outcome(None, [])
      else
        var dist := HorizontalDistance(w.sqrt, Some(a), Some(tg));
        var noProgress := NextNoProgress(t.lastDist, dist, t.noProgress);
        if t.lastDist >= 0.0 && noProgress >= MAX_NO_PROGRESS then Outcome(None, [])
        else if dist >= cfg.minSeparationDistance then Outcome(None, [])
        else
          var b := SeparationBurst(cfg, dist);
          var res := ApplyVelocityAwayFrom(Some(tg), Some(a), b.mag, b.dur, w.currentAccepted);
          Outcome(Some(Call(tg, a, b, res)),
            if t.tries - 1 > 0
            then QueueSeparation(cfg, t.aggressor, t.target, t.tries - 1, cfg.separationRetryDelayFrames, dist, noProgress)
            else [])
  }

  /** One run of any task, against the configuration and world of its frame. */
  function Run(cfg: Config, w: World, t: Task): Outcome
  {
    match t
    case Shove(_, _, _, _, _) => RunShove(cfg, w, t)
    case Effect(_, _, _, _, _, _) => RunEffect(cfg, w, t)
    case Separation(_, _, _, _, _, _) => RunSeparation(cfg, w, t)
  }

  // ---------------------------------------------------------------------
  // Properties of one run
  // ---------------------------------------------------------------------

  /** A task still counting down only re-enqueues itself one frame closer; it calls nothing. */
  lemma CountdownOnly(cfg: Config, w: World, t: Task)
    requires t.delay > 0
    ensures Run(cfg, w, t).call.None?
    ensures !t.Separation? ==> Run(cfg, w, t).next == [WithDelay(t, t.delay - 1)]
    ensures t.Separation? && SeparationGate(cfg, t.tries) ==> Run(cfg, w, t).next == [WithDelay(t, t.delay - 1)]
    ensures t.Separation? && !SeparationGate(cfg, t.tries) ==> Run(cfg, w, t).next == []
  {
  }

  /**
   * A due task whose actors fail a check ends its chain with no call and no
   * continuation: a handle that no longer resolves, one actor on both sides,
   * a dead actor, first-person suppression, a disallowed target, and for the
   * shove and the effectiveness check a multiplier of at most zero, for
   * separation an aggressor that is not the player.
   */
  lemma FailedCheckEndsChain(cfg: Config, w: World, t: Task)
    requires t.delay <= 0
    requires
      || t.aggressor !in w.actors || t.target !in w.actors
      || w.actors[t.aggressor].ref == w.actors[t.target].ref
      || w.actors[t.aggressor].dead || w.actors[t.target].dead
      || ShouldDisableDueToFirstPerson(cfg, w, Some(w.actors[t.aggressor]))
      || !IsHumanoidAllowed(cfg, w.keywords, Some(w.actors[t.target]))
      || (!t.Separation? && t.mult <= 0.0)
      || (t.Separation? && !IsPlayer(w, Some(w.actors[t.aggressor])))
    ensures Run(cfg, w, t) == Outcome(None, [])
  {
  }

  /** A due shove that passes its checks makes exactly one call, with the weapon-scaled shaped burst. */
  lemma ShoveCalls(cfg: Config, w: World, t: Task)
    requires t.Shove? && t.delay <= 0 && t.aggressor in w.actors && t.target in w.actors
    requires Engageable(cfg, w, w.actors[t.aggressor], w.actors[t.target]) && t.mult > 0.0
    ensures Run(cfg, w, t).call.Some?
    ensures Run(cfg, w, t).call.value.from == w.actors[t.aggressor]
    ensures Run(cfg, w, t).call.value.who == w.actors[t.target]
    ensures Run(cfg, w, t).call.value.burst == ShoveBurst(cfg, t.mult)
  {
  }

  /** The outcome of a due shove that passes its checks, spelled out. */
  lemma ShoveFires(cfg: Config, w: World, t: Task)
    requires t.Shove? && t.delay <= 0 && t.aggressor in w.actors && t.target in w.actors
    requires Engageable(cfg, w, w.actors[t.aggressor], w.actors[t.target]) && t.mult > 0.0
    ensures var a := w.actors[t.aggressor];
      var tg := w.actors[t.target];
      var b := ShoveBurst(cfg, t.mult);
      var res := ApplyPhysicsShove(Some(a), Some(tg), b.mag, b.dur, w.currentAccepted);
      RunShove(cfg, w, t) == Outcome(Some(Call(a, tg, b, res)),
        if res.ok then AfterShoveAccepted(cfg, w, t, a, HorizontalDistance(w.sqrt, Some(a), Some(tg)))
        else if t.tries - 1 > 0 then [Shove(t.aggressor, t.target, t.tries - 1, cfg.shoveRetryDelayFrames, t.mult)]
        else [])
  {
  }

  /**
   * An accepted shove never queues another shove; it queues an
   * effectiveness check exactly when the gain threshold is positive (same
   * tries, the distance before the shove, one frame's delay), and then a
   * separation loop exactly when enforcement is on with a positive goal and
   * retries and the aggressor is the player.
   */
  lemma ShoveSuccessFanOut(cfg: Config, w: World, t: Task)
    requires t.Shove? && t.delay <= 0
    requires Run(cfg, w, t).call.Some? && Run(cfg, w, t).call.value.result.ok
    ensures forall u | u in Run(cfg, w, t).next :: !u.Shove?
    ensures (exists u | u in Run(cfg, w, t).next :: u.Effect?) <==> cfg.minShoveSeparationDelta > 0.0
    ensures cfg.minShoveSeparationDelta > 0.0 ==>
      Run(cfg, w, t).next[0] == Effect(t.aggressor, t.target, t.tries,
        HorizontalDistance(w.sqrt, Some(w.actors[t.aggressor]), Some(w.actors[t.target])), 1, t.mult)
    ensures (exists u | u in Run(cfg, w, t).next :: u.Separation?) <==>
      cfg.enforceMinSeparation && cfg.separationRetries > 0 && cfg.minSeparationDistance > 0.0
      && IsPlayer(w, Some(w.actors[t.aggressor]))
    ensures forall u | u in Run(cfg, w, t).next && u.Separation? ::
      u == Separation(t.aggressor, t.target, cfg.separationRetries, cfg.separationInitialDelayFrames, -1.0, 0)
  {
    var a := w.actors[t.aggressor];
    var tg := w.actors[t.target];
    var distBefore := HorizontalDistance(w.sqrt, Some(a), Some(tg));
    var effect := if cfg.minShoveSeparationDelta > 0.0
      then [Effect(t.aggressor, t.target, t.tries, distBefore, EFFECT_CHECK_DELAY, t.mult)] else [];
    var separation := if cfg.enforceMinSeparation && cfg.separationRetries > 0 && IsPlayer(w, Some(a))
      then QueueSeparation(cfg, t.aggressor, t.target, cfg.separationRetries, cfg.separationInitialDelayFrames,
                           SEPARATION_START_DIST, SEPARATION_START_NO_PROGRESS)
      else [];
    assert Run(cfg, w, t).next == effect + separation;
    assert forall u | u in separation :: u.Separation?;
    assert forall u | u in effect :: u.Effect?;
    if cfg.minShoveSeparationDelta > 0.0 {
      assert effect[0] in Run(cfg, w, t).next;
    }
    if separation != [] {
      assert separation[0] in Run(cfg, w, t).next;
    }
  }

  /** A refused shove retries with one try fewer after the retry delay, while tries remain. */
  lemma ShoveFailureRetries(cfg: Config, w: World, t: Task)
    requires t.Shove? && t.delay <= 0
    requires Run(cfg, w, t).call.Some? && !Run(cfg, w, t).call.value.result.ok
    ensures t.tries - 1 > 0 ==>
      Run(cfg, w, t).next == [Shove(t.aggressor, t.target, t.tries - 1, cfg.shoveRetryDelayFrames, t.mult)]
    ensures t.tries - 1 <= 0 ==> Run(cfg, w, t).next == []
  {
  }

  /**
   * A due effectiveness check that passes its checks stops without a call
   * once the shove gained at least the threshold, or on the last try;
   * otherwise it reapplies the shove and checks again with one try fewer,
   * the new distance and a delay of at least one frame, whatever the answer.
   */
  lemma EffectRules(cfg: Config, w: World, t: Task)
    requires t.Effect? && t.delay <= 0 && t.aggressor in w.actors && t.target in w.actors
    requires Engageable(cfg, w, w.actors[t.aggressor], w.actors[t.target]) && t.mult > 0.0
    ensures var distAfter := HorizontalDistance(w.sqrt, Some(w.actors[t.aggressor]), Some(w.actors[t.target]));
      && (distAfter - t.distBefore >= cfg.minShoveSeparationDelta ==> Run(cfg, w, t) == Outcome(None, []))
      && (t.tries - 1 <= 0 ==> Run(cfg, w, t) == Outcome(None, []))
      && (distAfter - t.distBefore < cfg.minShoveSeparationDelta && t.tries - 1 > 0 ==>
            && Run(cfg, w, t).call.Some?
            && Run(cfg, w, t).call.value.who == w.actors[t.target]
            && Run(cfg, w, t).call.value.burst == ShoveBurst(cfg, t.mult)
            && Run(cfg, w, t).next ==
                 [Effect(t.aggressor, t.target, t.tries - 1, distAfter, AtLeastOne(cfg.shoveRetryDelayFrames), t.mult)])
  {
  }

  /**
   * A due separation step that passes its checks: two stalls in a row stop
   * it before the goal is even tested; reaching the goal stops it;
   * otherwise it pushes the player away from the target and, while tries
   * remain, schedules the next step with the distance just measured.
   */
  lemma SeparationRules(cfg: Config, w: World, t: Task)
    requires t.Separation? && t.delay <= 0 && t.aggressor in w.actors && t.target in w.actors
    requires Engageable(cfg, w, w.actors[t.aggressor], w.actors[t.target]) && IsPlayer(w, Some(w.actors[t.aggressor]))
    ensures var a := w.actors[t.aggressor];
      var tg := w.actors[t.target];
      var dist := HorizontalDistance(w.sqrt, Some(a), Some(tg));
      var np := NextNoProgress(t.lastDist, dist, t.noProgress);
      && (t.lastDist >= 0.0 && np >= 2 ==> Run(cfg, w, t) == Outcome(None, []))
      && (dist >= cfg.minSeparationDistance ==> Run(cfg, w, t) == Outcome(None, []))
      && (!(t.lastDist >= 0.0 && np >= 2) && dist < cfg.minSeparationDistance ==>
            && Run(cfg, w, t).call.Some?
            && Run(cfg, w, t).call.value.from == tg
            && Run(cfg, w, t).call.value.who == a
            && Run(cfg, w, t).call.value.burst == SeparationBurst(cfg, dist)
            && (Run(cfg, w, t).call.value.result.impulse.Some? ==> Run(cfg, w, t).call.value.result.impulse.value.recipient == a)
            && Run(cfg, w, t).next ==
                 (if t.tries - 1 > 0
                  then QueueSeparation(cfg, t.aggressor, t.target, t.tries - 1, cfg.separationRetryDelayFrames, dist, np)
                  else []))
  {
  }

  /** The starting distance of -1 skips the stall bookkeeping on the first measurement. */
  lemma FirstMeasurementNotTracked(dist: real)
    ensures NextNoProgress(SEPARATION_START_DIST, dist, SEPARATION_START_NO_PROGRESS) == 0
  {
  }

  /** Two stalls in a row are needed to stop; a moving pair never stops for stalling. */
  lemma StallCounting(lastDist: real, dist: real, noProgress: int)
    requires lastDist >= 0.0
    ensures Abs(dist - lastDist) >= 1.0 ==> NextNoProgress(lastDist, dist, noProgress) < MAX_NO_PROGRESS
    ensures noProgress == 0 ==> NextNoProgress(lastDist, dist, noProgress) < MAX_NO_PROGRESS
    ensures noProgress == 1 && Abs(dist - lastDist) < 1.0 ==> NextNoProgress(lastDist, dist, noProgress) >= MAX_NO_PROGRESS
  {
  }

  // ---------------------------------------------------------------------
  // Termination
  // ---------------------------------------------------------------------

  /** `(t1, d1)` is below `(t2, d2)` in the order tries first, then delay. */
  predicate LexBelow(t1: int, d1: int, t2: int, d2: int)
  {
    t1 < t2 || (t1 == t2 && d1 < d2)
  }

  predicate SameKind(u: Task, t: Task)
  {
    (u.Shove? && t.Shove?) || (u.Effect? && t.Effect?) || (u.Separation? && t.Separation?)
  }

  /**
   * Every task that re-enqueues its own kind does so with (tries, delay)
   * strictly lower: the countdown keeps the tries and lowers the delay, a
   * retry lowers the tries and never drops below one.
   */
  lemma ReenqueueDecreases(cfg: Config, w: World, t: Task)
    ensures forall u | u in Run(cfg, w, t).next && SameKind(u, t) ::
      && LexBelow(u.tries, u.delay, t.tries, t.delay)
      && (u.tries == t.tries ==> u.delay == t.delay - 1 && u.delay >= 0)
      && (u.tries < t.tries ==> u.tries == t.tries - 1 && u.tries >= 1)
  {
  }

  /** A shove starts follow-ups but follow-ups never start a shove or another kind. */
  lemma KindsOnlyDescend(cfg: Config, w: World, t: Task)
    ensures t.Effect? ==> forall u | u in Run(cfg, w, t).next :: u.Effect?
    ensures t.Separation? ==> forall u | u in Run(cfg, w, t).next :: u.Separation?
    ensures |Run(cfg, w, t).next| <= 2
  {
  }

  function Max0(x: int): nat
  {
    if x > 0 then x else 0
  }

  /** Frames a try can cost: one more than the largest delay the loader allows. */
  const TRY_WEIGHT: nat := 11

  /** Weight of a shove on top of its own tries: more than any follow-up it can start. */
  const SHOVE_WEIGHT: nat := 240

  /** An upper bound on the runs a task and everything it starts can still take. */
  function Weight(t: Task): nat
  {
    match t
    case Shove(_, _, tries, delay, _) => SHOVE_WEIGHT + Max0(tries) * TRY_WEIGHT + Max0(delay) + 1
    case Effect(_, _, tries, _, delay, _) => Max0(tries) * TRY_WEIGHT + Max0(delay) + 1
    case Separation(_, _, tries, delay, _, _) => Max0(tries) * TRY_WEIGHT + Max0(delay) + 1
  }

  function QueueWeight(q: seq<Task>): nat
  {
    if q == [] then 0 else Weight(q[0]) + QueueWeight(q[1..])
  }

  lemma {:induction false} QueueWeightAppend(a: seq<Task>, b: seq<Task>)
    ensures QueueWeight(a + b) == QueueWeight(a) + QueueWeight(b)
  {
    if a == [] {
      assert a + b == b;
    } else {
      assert (a + b)[0] == a[0];
      assert (a + b)[1..] == a[1..] + b;
      QueueWeightAppend(a[1..], b);
    }
  }

  /**
   * Under a configuration the loader produced, everything a run enqueues
   * weighs less than the task that ran, whatever the world answered.
   */
  lemma RunDecreasesWeight(cfg: Config, w: World, t: Task)
    requires WithinLoadClamps(cfg)
    ensures QueueWeight(Run(cfg, w, t).next) < Weight(t)
  {
    match t
    case Shove(_, _, _, _, _) => ShoveDecreasesWeight(cfg, w, t);
    case Effect(_, _, _, _, _, _) => EffectDecreasesWeight(cfg, w, t);
    case Separation(_, _, _, _, _, _) => SeparationDecreasesWeight(cfg, w, t);
  }

  lemma ShoveDecreasesWeight(cfg: Config, w: World, t: Task)
    requires WithinLoadClamps(cfg) && t.Shove?
    ensures QueueWeight(RunShove(cfg, w, t).next) < Weight(t)
  {
    var next := RunShove(cfg, w, t).next;
    if |next| == 2 {
      assert next == [next[0]] + [next[1]];
      QueueWeightAppend([next[0]], [next[1]]);
    }
  }

  lemma EffectDecreasesWeight(cfg: Config, w: World, t: Task)
    requires WithinLoadClamps(cfg) && t.Effect?
    ensures QueueWeight(RunEffect(cfg, w, t).next) < Weight(t)
  {
  }

  lemma SeparationDecreasesWeight(cfg: Config, w: World, t: Task)
    requires WithinLoadClamps(cfg) && t.Separation?
    ensures QueueWeight(RunSeparation(cfg, w, t).next) < Weight(t)
  {
  }

  /** Each frame's run strictly lowers the weight of the whole queue. */
  lemma StepDecreasesWeight(cfg: Config, w: World, q: seq<Task>)
    requires WithinLoadClamps(cfg) && q != []
    ensures QueueWeight(q[1..] + Run(cfg, w, q[0]).next) < QueueWeight(q)
  {
    QueueWeightAppend(q[1..], Run(cfg, w, q[0]).next);
    RunDecreasesWeight(cfg, w, q[0]);
  }

  // ---------------------------------------------------------------------
  // Runs of the queue
  // ---------------------------------------------------------------------

  /** The calls made and the queue left after `k` runs. */
  datatype Trace = Trace(calls: seq<Call>, queue: seq<Task>)

  function CallsOf(c: Option<Call>): seq<Call>
  {
    if c.Some? then [c.value] else []
  }

  /** `k` runs of the FIFO in one world and configuration. */
  function Exec(cfg: Config, w: World, q: seq<Task>, k: nat): Trace
    decreases k
  {
    if k == 0 || |q| == 0 then Trace([], q)
    else
      var o := Run(cfg, w, q[0]);
      var rest := Exec(cfg, w, q[1..] + o.next, k - 1);
      Trace(CallsOf(o.call) + rest.calls, rest.queue)
  }

  /** Running `k1 + k2` times is running `k1` times, then `k2` times on what is left. */
  lemma {:induction false} ExecSplit(cfg: Config, w: World, q: seq<Task>, k1: nat, k2: nat)
    ensures Exec(cfg, w, q, k1 + k2) ==
      Trace(Exec(cfg, w, q, k1).calls + Exec(cfg, w, Exec(cfg, w, q, k1).queue, k2).calls,
            Exec(cfg, w, Exec(cfg, w, q, k1).queue, k2).queue)
    decreases k1
  {
    if k1 == 0 {
      assert [] + Exec(cfg, w, q, k2).calls == Exec(cfg, w, q, k2).calls;
    } else if |q| == 0 {
      assert Exec(cfg, w, q, k1 + k2) == Trace([], []);
      assert Exec(cfg, w, [], k2) == Trace([], []);
    } else {
      var o := Run(cfg, w, q[0]);
      var q' := q[1..] + o.next;
      ExecSplit(cfg, w, q', k1 - 1, k2);
      assert k1 + k2 - 1 == (k1 - 1) + k2;
      var a := Exec(cfg, w, q', k1 - 1);
      var b := Exec(cfg, w, a.queue, k2);
      assert CallsOf(o.call) + (a.calls + b.calls) == (CallsOf(o.call) + a.calls) + b.calls;
    }
  }

  /**
   * Under configurations the loader produced, the queue is empty after as
   * many runs as it weighs: every chain terminates.
   */
  lemma {:induction false} ExecDrains(cfg: Config, w: World, q: seq<Task>, k: nat)
    requires WithinLoadClamps(cfg) && k >= QueueWeight(q)
    ensures Exec(cfg, w, q, k).queue == []
    decreases k
  {
    if k > 0 && q != [] {
      StepDecreasesWeight(cfg, w, q);
      ExecDrains(cfg, w, q[1..] + Run(cfg, w, q[0]).next, k - 1);
    }
  }

  /** `n` copies of one call. */
  function Repeat(c: Call, n: nat): (r: seq<Call>)
    ensures |r| == n && forall i | 0 <= i < n :: r[i] == c
  {
    if n == 0 then [] else [c] + Repeat(c, n - 1)
  }

  /** A lone shove counting down `d` frames ends up due, having called nothing. */
  lemma {:induction false} ShoveCountdown(cfg: Config, w: World, t: Task, d: nat)
    requires t.Shove? && t.delay == d
    ensures Exec(cfg, w, [t], d) == Trace([], [WithDelay(t, 0)])
    decreases d
  {
    if d > 0 {
      CountdownOnly(cfg, w, t);
      assert [t][1..] + Run(cfg, w, t).next == [WithDelay(t, d - 1)];
      ShoveCountdown(cfg, w, WithDelay(t, d - 1), d - 1);
      assert WithDelay(WithDelay(t, d - 1), 0) == WithDelay(t, 0);
    }
  }

  /** The runs a shove chain of `n` refused tries takes, starting `d` frames out with retry delay `r`. */
  function FailingChainRuns(n: nat, d: nat, r: nat): nat
  {
    if n == 0 then 0 else d + 1 + FailingChainRuns(n - 1, r, r)
  }

  /** The call each try makes in a world where nothing changes. */
  function ShoveCallIn(cfg: Config, w: World, aH: Handle, tH: Handle, mult: real): Call
    requires aH in w.actors && tH in w.actors
  {
    var b := ShoveBurst(cfg, mult);
    Call(w.actors[aH], w.actors[tH], b,
         ApplyPhysicsShove(Some(w.actors[aH]), Some(w.actors[tH]), b.mag, b.dur, w.currentAccepted))
  }

  /** One due try whose shove fails makes its call and queues the next try, if any. */
  lemma RefusedTryOnce(cfg: Config, w: World, aH: Handle, tH: Handle, n: nat, mult: real)
    requires n >= 1
    requires aH in w.actors && tH in w.actors && Engageable(cfg, w, w.actors[aH], w.actors[tH]) && mult > 0.0
    requires !ShoveCallIn(cfg, w, aH, tH, mult).result.ok
    ensures Exec(cfg, w, [Shove(aH, tH, n, 0, mult)], 1)
         == Trace([ShoveCallIn(cfg, w, aH, tH, mult)],
                  if n - 1 > 0 then [Shove(aH, tH, n - 1, cfg.shoveRetryDelayFrames, mult)] else [])
  {
    var due := Shove(aH, tH, n, 0, mult);
    var o := Run(cfg, w, due);
    var after := if n - 1 > 0 then [Shove(aH, tH, n - 1, cfg.shoveRetryDelayFrames, mult)] else [];
    assert o.call == Some(ShoveCallIn(cfg, w, aH, tH, mult));
    assert o.next == after;
    assert [due][1..] + o.next == after;
    assert Exec(cfg, w, after, 0) == Trace([], after);
  }

  /** A shove `d` frames out runs `d + k` times as its due try runs `k` times. */
  lemma CountdownThen(cfg: Config, w: World, t: Task, d: nat, k: nat)
    requires t.Shove? && t.delay == d
    ensures Exec(cfg, w, [t], d + k) == Exec(cfg, w, [WithDelay(t, 0)], k)
  {
    ShoveCountdown(cfg, w, t, d);
    ExecSplit(cfg, w, [t], d, k);
    assert [] + Exec(cfg, w, [WithDelay(t, 0)], k).calls == Exec(cfg, w, [WithDelay(t, 0)], k).calls;
  }

  /** A due try whose shove fails makes its call, then the next try runs. */
  lemma RefusedTryThen(cfg: Config, w: World, aH: Handle, tH: Handle, n: nat, mult: real, k: nat)
    requires n >= 1
    requires aH in w.actors && tH in w.actors && Engageable(cfg, w, w.actors[aH], w.actors[tH]) && mult > 0.0
    requires !ShoveCallIn(cfg, w, aH, tH, mult).result.ok
    ensures var after := if n - 1 > 0 then [Shove(aH, tH, n - 1, cfg.shoveRetryDelayFrames, mult)] else [];
      Exec(cfg, w, [Shove(aH, tH, n, 0, mult)], 1 + k)
      == Trace([ShoveCallIn(cfg, w, aH, tH, mult)] + Exec(cfg, w, after, k).calls, Exec(cfg, w, after, k).queue)
  {
    ExecSplit(cfg, w, [Shove(aH, tH, n, 0, mult)], 1, k);
    RefusedTryOnce(cfg, w, aH, tH, n, mult);
  }

  /**
   * A shove chain started with `n` tries against a target that passes every
   * check, in a world where `ApplyPhysicsShove` always fails (the actors are
   * too close for a direction, or `ApplyCurrent` refuses the burst), calls
   * it exactly `n` times and leaves nothing queued.
   */
  lemma {:induction false} FailingShoveChain(cfg: Config, w: World, aH: Handle, tH: Handle, n: nat, d: nat, mult: real)
    requires n >= 1 && cfg.shoveRetryDelayFrames >= 0
    requires aH in w.actors && tH in w.actors && Engageable(cfg, w, w.actors[aH], w.actors[tH]) && mult > 0.0
    requires !ShoveCallIn(cfg, w, aH, tH, mult).result.ok
    ensures Exec(cfg, w, [Shove(aH, tH, n, d, mult)], FailingChainRuns(n, d, cfg.shoveRetryDelayFrames))
         == Trace(Repeat(ShoveCallIn(cfg, w, aH, tH, mult), n), [])
    decreases n
  {
    var r: nat := cfg.shoveRetryDelayFrames;
    var t := Shove(aH, tH, n, d, mult);
    var c := ShoveCallIn(cfg, w, aH, tH, mult);
    var rest := FailingChainRuns(n - 1, r, r);
    var after := if n - 1 > 0 then [Shove(aH, tH, n - 1, r, mult)] else [];
    CountdownThen(cfg, w, t, d, 1 + rest);
    assert WithDelay(t, 0) == Shove(aH, tH, n, 0, mult);
    RefusedTryThen(cfg, w, aH, tH, n, mult, rest);
    if n - 1 > 0 {
      FailingShoveChain(cfg, w, aH, tH, n - 1, r, mult);
    } else {
      assert rest == 0 && after == [];
    }
    assert [c] + Repeat(c, n - 1) == Repeat(c, n);
  }

  // ---------------------------------------------------------------------
  // The host queue
  // ---------------------------------------------------------------------

  /** The host's task queue, and the task bodies as it runs them, one per frame. */
  class Scheduler {
    var pending: seq<Task>

    constructor()
      ensures pending == []
    {
      pending := [];
    }

    /** `AddTask`: the task goes to the back of the queue. */
    method AddTask(t: Task)
      modifies this
      ensures pending == old(pending) + [t]
    {
      pending := pending + [t];
    }

    /** `QueuePhysicsShove`. */
    method QueuePhysicsShove(aH: Handle, tH: Handle, tries: int, delay: int, mult: real)
      modifies this
      ensures pending == old(pending) + [Shove(aH, tH, tries, delay, mult)]
    {
      AddTask(Shove(aH, tH, tries, delay, mult));
    }

    /** `QueueShoveEffectivenessCheck`. */
    method QueueShoveEffectivenessCheck(aH: Handle, tH: Handle, tries: int, distBefore: real, delay: int, mult: real)
      modifies this
      ensures pending == old(pending) + [Effect(aH, tH, tries, distBefore, delay, mult)]
    {
      AddTask(Effect(aH, tH, tries, distBefore, delay, mult));
    }

    /** `QueueEnforceMinSeparation`: enqueues nothing when its gate is closed. */
    method QueueEnforceMinSeparation(cfg: Config, aH: Handle, tH: Handle, tries: int, delay: int, lastDist: real, noProgress: int)
      modifies this
      ensures pending == old(pending) + QueueSeparation(cfg, aH, tH, tries, delay, lastDist, noProgress)
    {
      if !cfg.enforceMinSeparation || cfg.minSeparationDistance <= 0.0 || tries <= 0 {
        return;
      }
      AddTask(Separation(aH, tH, tries, delay, lastDist, noProgress));
    }

    /**
     * One frame: the task at the head of the queue leaves it and runs; what
     * it enqueues goes to the back. An empty queue does nothing.
     */
    method Step(cfg: Config, w: World) returns (call: Option<Call>)
      modifies this
      ensures old(pending) == [] ==> pending == [] && call.None?
      ensures old(pending) != [] ==>
        && call == Run(cfg, w, old(pending)[0]).call
        && pending == old(pending)[1..] + Run(cfg, w, old(pending)[0]).next
    {
      if pending == [] {
        return None;
      }
      var t := pending[0];
      pending := pending[1..];
      match t
      case Shove(_, _, _, _, _) => call := ShoveTask(cfg, w, t);
      case Effect(_, _, _, _, _, _) => call := EffectTask(cfg, w, t);
      case Separation(_, _, _, _, _, _) => call := SeparationTask(cfg, w, t);
    }

    /** What an accepted shove queues: the effectiveness check, then the separation pass for the player. */
    method QueueAfterAccepted(cfg: Config, w: World, t: Task, aggressor: Actor, distBefore: real)
      requires t.Shove?
      modifies this
      ensures pending == old(pending) + AfterShoveAccepted(cfg, w, t, aggressor, distBefore)
    {
      if cfg.minShoveSeparationDelta > 0.0 {
        QueueShoveEffectivenessCheck(t.aggressor, t.target, t.tries, distBefore, EFFECT_CHECK_DELAY, t.mult);
      }
      if cfg.enforceMinSeparation && cfg.separationRetries > 0 && IsPlayer(w, Some(aggressor)) {
        QueueEnforceMinSeparation(cfg, t.aggressor, t.target, cfg.separationRetries, cfg.separationInitialDelayFrames,
                                  SEPARATION_START_DIST, SEPARATION_START_NO_PROGRESS);
      }
    }

    /** The body of a shove task. */
    method ShoveTask(cfg: Config, w: World, t: Task) returns (call: Option<Call>)
      requires t.Shove?
      modifies this
      ensures call == RunShove(cfg, w, t).call
      ensures pending == old(pending) + RunShove(cfg, w, t).next
    {
      call := None;
      if t.delay > 0 {
        QueuePhysicsShove(t.aggressor, t.target, t.tries, t.delay - 1, t.mult);
        return;
      }
      var aggressorPtr := Resolve(w, t.aggressor);
      var targetPtr := Resolve(w, t.target);
      if aggressorPtr.None? || targetPtr.None? {
        return;
      }
      var aggressor, target := aggressorPtr.value, targetPtr.value;
      if aggressor.ref == target.ref {
        return;
      }
      if aggressor.dead || target.dead {
        return;
      }
      if ShouldDisableDueToFirstPerson(cfg, w, Some(aggressor)) {
        return;
      }
      if !IsHumanoidAllowed(cfg, w.keywords, Some(target)) {
        return;
      }
      if t.mult <= 0.0 {
        return;
      }
      call := FireShove(cfg, w, t, aggressor, target);
    }

    /** A due shove that passed every check: the burst goes out, then its follow-ups or a retry are queued. */
    method FireShove(cfg: Config, w: World, t: Task, aggressor: Actor, target: Actor) returns (call: Option<Call>)
      requires t.Shove? && t.delay <= 0 && t.aggressor in w.actors && t.target in w.actors
      requires aggressor == w.actors[t.aggressor] && target == w.actors[t.target]
      requires Engageable(cfg, w, aggressor, target) && t.mult > 0.0
      modifies this
      ensures call == RunShove(cfg, w, t).call
      ensures pending == old(pending) + RunShove(cfg, w, t).next
    {
      ShoveFires(cfg, w, t);
      var burst := ShapeForApplyCurrent(cfg, Burst(cfg.shoveMagnitude * t.mult, cfg.shoveDuration));
      assert burst == ShoveBurst(cfg, t.mult);
      var distBefore := HorizontalDistance(w.sqrt, Some(aggressor), Some(target));
      var res := ApplyPhysicsShove(Some(aggressor), Some(target), burst.mag, burst.dur, w.currentAccepted);
      call := Some(Call(aggressor, target, burst, res));
      if res.ok {
        QueueAfterAccepted(cfg, w, t, aggressor, distBefore);
        return;
      }
      var nextTries := t.tries - 1;
      if nextTries > 0 {
        QueuePhysicsShove(t.aggressor, t.target, nextTries, cfg.shoveRetryDelayFrames, t.mult);
      }
    }

    method EffectTask(cfg: Config, w: World, t: Task) returns (call: Option<Call>)
      requires t.Effect?
      modifies this
      ensures call == RunEffect(cfg, w, t).call
      ensures pending == old(pending) + RunEffect(cfg, w, t).next
    {
      call := None;
      if t.delay > 0 {
        QueueShoveEffectivenessCheck(t.aggressor, t.target, t.tries, t.distBefore, t.delay - 1, t.mult);
        return;
      }
      var aggressorPtr := Resolve(w, t.aggressor);
      var targetPtr := Resolve(w, t.target);
      if aggressorPtr.None? || targetPtr.None? {
        return;
      }
      var aggressor, target := aggressorPtr.value, targetPtr.value;
      if aggressor.ref == target.ref {
        return;
      }
      if aggressor.dead || target.dead {
        return;
      }
      if ShouldDisableDueToFirstPerson(cfg, w, Some(aggressor)) {
        return;
      }
      if !IsHumanoidAllowed(cfg, w.keywords, Some(target)) {
        return;
      }
      if t.mult <= 0.0 {
        return;
      }
      var distAfter := HorizontalDistance(w.sqrt, Some(aggressor), Some(target));
      var gained := distAfter - t.distBefore;
      if gained >= cfg.minShoveSeparationDelta {
        return;
      }
      var nextTries := t.tries - 1;
      if nextTries <= 0 {
        return;
      }
      var burst := ShapeForApplyCurrent(cfg, Burst(cfg.shoveMagnitude * t.mult, cfg.shoveDuration));
      assert burst == ShoveBurst(cfg, t.mult);
      var res := ApplyPhysicsShove(Some(aggressor), Some(target), burst.mag, burst.dur, w.currentAccepted);
      call := Some(Call(aggressor, target, burst, res));
      QueueShoveEffectivenessCheck(t.aggressor, t.target, nextTries, distAfter, AtLeastOne(cfg.shoveRetryDelayFrames), t.mult);
    }

    /** The body of a separation task; the stall counter is the task's own mutable copy. */
    method SeparationTask(cfg: Config, w: World, t: Task) returns (call: Option<Call>)
      requires t.Separation?
      modifies this
      ensures call == RunSeparation(cfg, w, t).call
      ensures pending == old(pending) + RunSeparation(cfg, w, t).next
    {
      call := None;
      if t.delay > 0 {
        QueueEnforceMinSeparation(cfg, t.aggressor, t.target, t.tries, t.delay - 1, t.lastDist, t.noProgress);
        return;
      }
      var aggressorPtr := Resolve(w, t.aggressor);
      var targetPtr := Resolve(w, t.target);
      if aggressorPtr.None? || targetPtr.None? {
        return;
      }
      var aggressor, target := aggressorPtr.value, targetPtr.value;
      if aggressor.ref == target.ref {
        return;
      }
      if aggressor.dead || target.dead {
        return;
      }
      if !IsPlayer(w, Some(aggressor)) {
        return;
      }
      if ShouldDisableDueToFirstPerson(cfg, w, Some(aggressor)) {
        return;
      }
      if !IsHumanoidAllowed(cfg, w.keywords, Some(target)) {
        return;
      }
      var dist := HorizontalDistance(w.sqrt, Some(aggressor), Some(target));
      var minDist := cfg.minSeparationDistance;
      var noProgress := t.noProgress;
      if t.lastDist >= 0.0 {
        var delta := Abs(dist - t.lastDist);
        if delta < 1.0 {
          noProgress := noProgress + 1;
        } else {
          noProgress := 0;
        }
        if noProgress >= MAX_NO_PROGRESS {
          return;
        }
      }
      if dist >= minDist {
        return;
      }
      var deficit := minDist - dist;
      var dur := cfg.separationPushDuration;
      var mag := if dur > MIN_PUSH_DURATION then deficit / dur else cfg.separationMaxVelocity;
      if cfg.separationMaxVelocity > 0.0 {
        mag := Min(mag, cfg.separationMaxVelocity);
      }
      var burst := ShapeForApplyCurrent(cfg, Burst(mag, dur));
      var res := ApplyVelocityAwayFrom(Some(target), Some(aggressor), burst.mag, burst.dur, w.currentAccepted);
      call := Some(Call(target, aggressor, burst, res));
      var nextTries := t.tries - 1;
      if nextTries > 0 {
        QueueEnforceMinSeparation(cfg, t.aggressor, t.target, nextTries, cfg.separationRetryDelayFrames, dist, noProgress);
      }
    }
  }
}
