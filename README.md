# Knockback-SKSE, modelled in Dafny

Knockback-SKSE is a Skyrim SKSE plugin. When a melee hit lands on an
allowed humanoid target, it shoves the target away from the attacker. The
shove is a short velocity burst handed to the engine's `ApplyCurrent`
primitive from a deferred task on SKSE's per-frame task queue, and the
deferred task repeats every check before it pushes. When the engine
refuses the burst, the task retries a few frames later.

An accepted shove starts two follow-up chains:
- an effectiveness check, which re-measures the distance gained and
  reapplies the shove while the gain is under a threshold;
- for a player attacker, a separation loop, which pushes the player back
  until the pair is far enough apart or the loop stops making progress.

Everything is driven by an INI file of tunables, weapon-type multipliers
and race allow/deny lists.

The model has one module per part of the plugin:

- `Engine` holds what the host engine provides: actors with identity, race and keywords; forms; the data handler; the camera and player singletons; the world a deferred task sees in its frame.
- `KnockbackConfig` is the configuration record, its defaults and the ranges the loader clamps into.
- `IniText` and `IniTextFacts` cover the text helpers of the loader (`Trim`, `StripIniComment`, `SplitCSV`, `NormalizeHexToken`, `ParseFormSpec`) and their properties.
- `ConfigLoad` is `LoadConfig`: a pure function `LoadedConfig` of the parsed INI file, plus a `ConfigStore` class whose `LoadConfig` method performs the load step by step and is proved to produce `LoadedConfig`.
- `Physics` covers the horizontal distance, the shaping of a burst for `ApplyCurrent`, and the guarded shove primitives.
- `Filters` holds the keyword, player, first-person, humanoid-race, melee-weapon and spell-source tests.
- `Tasks` covers the three self-rescheduling tasks, as a pure `Run` function and as a `Scheduler` class holding the FIFO queue.
  - Its `Step` method runs the head task exactly as `Run` says.
  - Lemmas cover one run, runs of the whole queue, and termination of every chain.
- `HitSink` is the hit-event sink: its guard chain and the deferred-shove request it produces.
- `Legacy` is the earlier single-file plugin (`plugin.cpp`). It has a smaller configuration and loader, and its own copies of the filters, proved to agree with the newer ones. Its shove queue has retries only. Its hit sink treats "no weapon" as unarmed melee.

Floats are modelled as reals. Integers are unbounded. A form id is a 32-bit
natural number.

## Model

| member | source | states |
|---|---|---|
| Engine.LookupByID | src/Knockback/Filters.cpp:156-157 | the form registered under an id is found exactly when the id is registered |
| Engine.Resolve | src/Knockback/Tasks.cpp:201-205 | a handle resolves exactly when its actor still exists in this frame (liveness is the separate `IsDead` test) |
| KnockbackConfig.HasAllowListIffNonEmpty | include/Knockback/Config.h:50 | an allow list is in force exactly when some race is on it |
| KnockbackConfig.DefaultWithinLoadClamps | include/Knockback/Config.h:12-48 | the built-in defaults already lie in every range the loader clamps to; both race lists start empty |
| KnockbackConfig.DefaultTuning | include/Knockback/Config.h:12-48 | the shipped defaults: shove 2.5 for 0.12 s, speed floor 4.0 and duration floor 0.15, 3 shove tries, 1-frame delays, first-person suppression on, effectiveness threshold 8, separation at 110 units with 6 retries, push 0.10 s capped at 10, unarmed factor 0.85 |
| IniText.Trim | src/Knockback/Config.cpp:26-33 | the result has no white space at either end |
| IniText.TrimIsSlice | src/Knockback/Config.cpp:26-33 | the result is the input between a space-only prefix and a space-only suffix |
| IniText.TrimIdempotent | src/Knockback/Config.cpp:26-33 | trimming twice equals trimming once |
| IniText.StripIniComment | src/Knockback/Config.cpp:35-42 | the result is trimmed and holds no ';' and no '#' |
| IniText.StripIniCommentKeepsCharacters | src/Knockback/Config.cpp:35-42 | every character of the result comes from the input |
| IniText.StripIniCommentOfClean | src/Knockback/Config.cpp:35-42 | a trimmed value without markers comes back unchanged |
| IniText.FieldsShape | src/Knockback/Config.cpp:44-66 | for n commas there are n + 1 raw pieces, none holds a comma, and joining them with commas gives back the text |
| IniText.CleanItems | src/Knockback/Config.cpp:44-66 | every piece kept after stripping is non-empty, trimmed and free of ';' and '#' |
| IniText.CleanCommaFree | src/Knockback/Config.cpp:44-66 | stripping comma-free pieces leaves them comma-free |
| IniText.SplitCSV | src/Knockback/Config.cpp:44-66 | the one-pass loop returns exactly the cleaned pieces (`SplitCSVSpec`) |
| IniText.SplitCSVItems | src/Knockback/Config.cpp:44-66 | every item is non-empty, trimmed and free of ',', ';' and '#'; there are at most commas + 1 items |
| IniText.SplitCSVJoinRoundTrip | src/Knockback/Config.cpp:44-66 | clean items joined with commas split back into the same items |
| IniText.NormalizeHexToken | src/Knockback/Config.cpp:68-80 | the normalised token (as written) is trimmed |
| IniText.ParseHex32Hex8 | src/Knockback/Config.cpp:96-102 | parsing reads back the eight hex digits a form id prints as |
| IniText.ParseHex32NeedsDigit | src/Knockback/Config.cpp:96-102 | text not starting with a hex digit does not parse |
| IniText.ParseHex32Prefixed | src/Knockback/Config.cpp:96-102 | a base-16 `stoul` skips a "0x" or "0X" in front of the digits, so "0x13" reads 0x13 |
| IniText.SpecParts | src/Knockback/Config.cpp:83-90 | no '\|' in the uncommented text gives None; otherwise the trimmed file part is free of '\|', ';' and '#' |
| IniText.MakeFormSpec | src/Knockback/Config.cpp:92-101 | a result exactly when both parts are non-empty and the hex part parses, carrying the file and the parsed id |
| IniText.SplitFormSpec | src/Knockback/Config.cpp:82-103 | as written (with `NormalizeHexToken`): text without '\|' fails; a success names a non-empty trimmed file free of '\|', ';' and '#' |
| IniText.SplitFormSpecIntended | src/Knockback/Config.cpp:72-74 | the same with the corrected "FormID:" step |
| IniText.LookupFormSpec | src/Knockback/Config.cpp:104-114 | 0 for no specification or no data handler, else the handler's id for the file and the local id |
| IniText.ParseFormSpec | src/Knockback/Config.cpp:82-114 | as written: 0 on any parse failure or without a data handler, else the handler's id for the file and the local id |
| IniText.ParseFormSpecIntended | src/Knockback/Config.cpp:72-74 | the same with the corrected "FormID:" step |
| IniTextFacts.ParseFormSpecCases | src/Knockback/Config.cpp:82-114 | with the first '\|' at a given place: a blank file part, an empty normalised hex part or a hex part that does not parse each give 0; otherwise the handler's id for the trimmed file and the parsed id |
| IniTextFacts.ParseFormSpecIntendedCases | src/Knockback/Config.cpp:82-114 | the same cases for the corrected parser |
| IniTextFacts.SpecPartsAt | src/Knockback/Config.cpp:83-90 | the split is at the first '\|' of the uncommented text |
| IniTextFacts.FormIdSpecRejectedAsWritten | src/Knockback/Config.cpp:72-101 | as written "File\|FormID:XXXXXXXX" names no form (0); the corrected parser gives the handler's id for the file and the printed id |
| IniTextFacts.FormIdPrefixRejectedAsWritten | src/Knockback/Config.cpp:72-74 | as written, "FormID:" + digits normalises to ":" + digits, which does not parse |
| IniTextFacts.FormIdPrefixAcceptedIntended | src/Knockback/Config.cpp:72-74 | with all seven characters cut, "FormID:" + digits normalises to the digits |
| IniTextFacts.NormalizeHexPrefix | src/Knockback/Config.cpp:75-78 | a leading "0x" or "0X" in front of hex digits is cut |
| IniTextFacts.NormalizeHexBare | src/Knockback/Config.cpp:68-80 | bare hex digits are left unchanged by both normalisers |
| IniTextFacts.FormSpecRoundTrip | src/Knockback/Config.cpp:82-114 | "File\|XXXXXXXX" splits back into the file and the printed id, as written and corrected alike |
| IniTextFacts.FormSpecRoundTripPrefixed | src/Knockback/Config.cpp:82-114 | the same for "File\|0xXXXXXXXX" |
| IniTextFacts.ParseFormSpecNeedsBar | src/Knockback/Config.cpp:83-87 | a spec whose uncommented text has no '\|' names no form, for either parser |
| ConfigLoad.ClampInt | src/Knockback/Config.cpp:162-176 | the result lies in [lo, hi]; an in-range value is kept; an out-of-range value goes to the nearer bound |
| ConfigLoad.ClampScale | src/Knockback/Config.cpp:170-171 | the duration scale is forced into [0, 1], and an in-range value is kept |
| ConfigLoad.Clamped | src/Knockback/Config.cpp:157-176 | every tunable ends in its range, an in-range configuration is unchanged, and the non-tunables are untouched |
| ConfigLoad.UnarmedSpellings | src/Knockback/Config.cpp:206-209 | "Unarmed" is matched in any letter case; a key with a trailing space, or a form spec, is not |
| ConfigLoad.WeaponMaps | src/Knockback/Config.cpp:185-250 | the multiplier maps hold only positive values under non-zero ids; a keyword entry exists exactly for ids that resolve to keywords, with the same value |
| ConfigLoad.AddEntryById | src/Knockback/Config.cpp:211-249 | one key either sets its own id's multiplier or leaves every id as it was |
| ConfigLoad.WeaponMapsProvenance | src/Knockback/Config.cpp:185-250 | every mapped id comes from an admitted key carrying that multiplier |
| ConfigLoad.WeaponMapsComplete | src/Knockback/Config.cpp:185-250 | every admitted key's id is mapped |
| ConfigLoad.LaterEntryWins | src/Knockback/Config.cpp:239-248 | the last admitted key for an id decides its multiplier |
| ConfigLoad.WeaponMapsSkipUnarmed | src/Knockback/Config.cpp:206-209 | the "Unarmed" key never reaches the maps |
| ConfigLoad.FormIdKeySkipped | src/Knockback/Config.cpp:230-234 | a "File\|FormID:XXXXXXXX" weapon key names no form for the loader as written and is skipped |
| ConfigLoad.RaceIdsSnoc | src/Knockback/Config.cpp:258-265 | one more list item adds its id exactly when it names a form |
| ConfigLoad.ReadWeaponMultipliers | src/Knockback/Config.cpp:193-250 | the loop builds exactly the maps `WeaponMaps` describes |
| ConfigLoad.RaceIds | src/Knockback/Config.cpp:255-274 | the loaded race sets never contain 0 |
| ConfigLoad.RaceIdsMembers | src/Knockback/Config.cpp:255-274 | an id is in a race set exactly when some list item names it |
| ConfigLoad.InsertParsedRaces | src/Knockback/Config.cpp:258-265 | the loop inserts exactly the ids the items name |
| ConfigLoad.UnreadableGivesDefaults | src/Knockback/Config.cpp:127-134 | a file that fails to load leaves the defaults |
| ConfigLoad.EmptyIniGivesDefaults | src/Knockback/Config.cpp:116-275 | a file that sets nothing leaves the defaults too |
| ConfigLoad.LoadedConfigSane | src/Knockback/Config.cpp:116-275 | after any load, every tunable is in range, the race sets hold no 0, and the multiplier maps are consistent |
| ConfigLoad.LoadedTunables | src/Knockback/Config.cpp:136-176 | for each of the sixteen [General] keys, a present value is loaded (clamped where the loader clamps it) and an absent key gives its default |
| ConfigLoad.ConfigStore.ApplyClamps | src/Knockback/Config.cpp:157-176 | the clamp sequence computes `Clamped` |
| ConfigLoad.ConfigStore.LoadWeaponSection | src/Knockback/Config.cpp:185-250 | both maps are cleared and rebuilt, and the unarmed value is read |
| ConfigLoad.ConfigStore.LoadRaceSection | src/Knockback/Config.cpp:255-274 | both race lists are split and added to the sets |
| ConfigLoad.ConfigStore.LoadConfig | src/Knockback/Config.cpp:116-275 | the global configuration becomes exactly `LoadedConfig` of the file |
| Physics.HorizontalDistanceSq | src/Knockback/Physics.cpp:13-21 | never negative; 0 when an actor is missing |
| Physics.HorizontalDistanceSymmetric | src/Knockback/Physics.cpp:13-21 | the distance is the same in both directions |
| Physics.HorizontalDistanceIgnoresHeight | src/Knockback/Physics.cpp:13-21 | height plays no part |
| Physics.ShapeForApplyCurrent | src/Knockback/Physics.cpp:23-34 | below the floor the speed is raised to it; the length is never below `minDurationScale` of the original; inactive shaping leaves the burst alone |
| Physics.ShapeNeverLengthens | src/Knockback/Physics.cpp:23-34 | under a scale in [0, 1] the burst never gets longer |
| Physics.ShapePreservesDisplacement | src/Knockback/Physics.cpp:27-33 | when the proportional length is kept, speed × length is unchanged |
| Physics.ShapeNeverLosesDisplacement | src/Knockback/Physics.cpp:23-34 | speed × length never drops |
| Physics.ShapeKeepsFastBurst | src/Knockback/Physics.cpp:23-34 | a burst already at or above the floor passes unchanged |
| Physics.ShapeIdempotent | src/Knockback/Physics.cpp:23-34 | shaping twice equals shaping once |
| Physics.ShapeDefaults | src/Knockback/Physics.cpp:23-34 | the default shove (2.5 for 0.12 s) becomes 4.0 for 0.075 s |
| Physics.ApplyPhysicsShove | src/Knockback/Physics.cpp:36-72 | an impulse is sent exactly when both actors exist and are far enough apart to give a direction; it goes to the target, flat, with the given speed and length; without it the answer is false, otherwise it is the primitive's answer |
| Physics.ShovePointsAway | src/Knockback/Physics.cpp:43-50 | the impulse points from the aggressor towards the target |
| Physics.NoSelfShove | src/Knockback/Physics.cpp:52-57 | an actor cannot shove itself |
| Physics.ApplyVelocityAwayFrom | src/Knockback/Physics.cpp:74-77 | `who` is pushed directly away from `from`, under the same guard |
| Filters.HasKW | src/Knockback/Filters.cpp:40-55 | a keyword found at start-up is present when the actor or its race carries it |
| Filters.IsPlayer | src/Knockback/Filters.cpp:57-61 | the actor is the player singleton |
| Filters.ShouldDisableDueToFirstPerson | src/Knockback/Filters.cpp:63-85 | suppression happens exactly when the switch is on, the player struck, and the camera is in first person |
| Filters.IsHumanoidAllowedIff | src/Knockback/Filters.cpp:87-128 | the filter as one condition: a race not denied, the allow list respected, no large archetype, and humanoid or allow-listed |
| Filters.NoActorOrRaceRejected | src/Knockback/Filters.cpp:91-98 | no actor or no race means no shove |
| Filters.DenyWins | src/Knockback/Filters.cpp:103-105 | a denied race is rejected even if allowed |
| Filters.AllowListEnforced | src/Knockback/Filters.cpp:108-110 | under an allow list, a race off it is rejected |
| Filters.LargeArchetypeRejected | src/Knockback/Filters.cpp:113-115 | dragons, giants and automatons are rejected even when allow-listed |
| Filters.HumanoidAccepted | src/Knockback/Filters.cpp:118-120 | a humanoid that passes the lists is accepted |
| Filters.FallbackFollowsAllowList | src/Knockback/Filters.cpp:123-127 | a target with no keyword is accepted exactly under an allow list |
| Filters.IsMeleeWeapon | src/Knockback/Filters.cpp:130-149 | melee exactly for the seven melee types; no weapon is not melee |
| Filters.RangedNotMelee | src/Knockback/Filters.cpp:130-149 | bows, crossbows and staves are not melee |
| Filters.IsMagicSource | src/Knockback/Filters.cpp:151-163 | a spell source exactly when a non-zero id resolves to a magic item |
| Filters.ResolveWeaponFromEventOrEquipped | src/Knockback/Filters.cpp:165-175 | a weapon exactly when a non-zero source id resolves to a weapon form, and it is that weapon |
| Filters.SourceKindsExclusive | src/Knockback/Filters.cpp:151-175 | source 0 is neither a spell nor a weapon, and a spell is never a weapon |
| Tasks.QueueSeparation | src/Knockback/Tasks.cpp:97-99 | the separation task is enqueued exactly when enforcement is on, the goal is positive and tries remain |
| Tasks.SeparationSpeed | src/Knockback/Tasks.cpp:157-164 | the speed covers the distance deficit in one push (speed × duration = deficit) when there is no cap or the deficit speed is within it, and is exactly the cap when the deficit speed exceeds it |
| Tasks.SeparationSpeedDefaults | src/Knockback/Tasks.cpp:157-164 | under the shipped defaults a pair 109.5 apart is pushed at 5.0 and a pair 100 apart at the cap 10 |
| Tasks.NextNoProgress | src/Knockback/Tasks.cpp:135-150 | once a distance exists, a change under one unit counts a stall and a larger change clears the count |
| Tasks.CountdownOnly | src/Knockback/Tasks.cpp:29-33 | a task still delayed calls nothing and re-enqueues itself one frame closer (separation only past its gate) |
| Tasks.FailedCheckEndsChain | src/Knockback/Tasks.cpp:207-224 | a due task failing any check ends its chain without a call |
| Tasks.ShoveCalls | src/Knockback/Tasks.cpp:226-231 | a due shove passing its checks makes one call with the weapon-scaled, shaped burst |
| Tasks.ShoveSuccessFanOut | src/Knockback/Tasks.cpp:233-256 | an accepted shove queues no other shove; it queues the effectiveness check exactly when that check is on, and separation exactly for a player under enforcement |
| Tasks.ShoveFailureRetries | src/Knockback/Tasks.cpp:262-265 | a refused shove retries with one try fewer after the retry delay while tries remain |
| Tasks.EffectRules | src/Knockback/Tasks.cpp:40-83 | the check stops once the gain reaches the threshold or on the last try; otherwise it reapplies the shove and re-checks with the new distance one try later |
| Tasks.SeparationRules | src/Knockback/Tasks.cpp:120-176 | two stalls or reaching the goal stop the loop; otherwise the player is pushed away from the target and the next step is scheduled |
| Tasks.FirstMeasurementNotTracked | src/Knockback/Tasks.cpp:135-136 | the starting distance -1 skips stall counting on the first measurement |
| Tasks.StallCounting | src/Knockback/Tasks.cpp:135-150 | it takes two stalls in a row to stop; a moving pair never stops for stalling |
| Tasks.ReenqueueDecreases | src/Knockback/Tasks.cpp:15-267 | every same-kind re-enqueue lowers (tries, delay) lexicographically |
| Tasks.KindsOnlyDescend | src/Knockback/Tasks.cpp:15-178 | effectiveness checks and separation steps only ever enqueue their own kind, and at most two tasks are enqueued |
| Tasks.QueueWeightAppend | src/Knockback/Tasks.cpp:28 | the queue weight adds up over concatenation |
| Tasks.RunDecreasesWeight | src/Knockback/Tasks.cpp:15-267 | under loaded settings, whatever a run enqueues weighs less than the task that ran |
| Tasks.StepDecreasesWeight | src/Knockback/Tasks.cpp:15-267 | every frame lowers the weight of the whole queue |
| Tasks.ExecSplit | src/Knockback/Tasks.cpp:193 | k1 + k2 frames equal k1 frames followed by k2 frames |
| Tasks.ExecDrains | src/Knockback/Tasks.cpp:15-267 | under loaded settings the queue empties within its weight in frames, so every chain terminates |
| Tasks.ShoveCountdown | src/Knockback/Tasks.cpp:196-199 | a shove delayed d frames is due after d frames, having called nothing |
| Tasks.FailingShoveChain | src/Knockback/Tasks.cpp:180-267 | if `ApplyPhysicsShove` always fails (the actors too close for a direction, or `ApplyCurrent` refusing), a shove with n tries calls the primitive exactly n times and then leaves nothing queued |
| Tasks.Scheduler.AddTask | src/Knockback/Tasks.cpp:193 | the task goes to the back of the FIFO queue |
| Tasks.Scheduler.QueuePhysicsShove | src/Knockback/Tasks.cpp:180-193 | appends one shove task |
| Tasks.Scheduler.QueueShoveEffectivenessCheck | src/Knockback/Tasks.cpp:15-28 | appends one effectiveness check |
| Tasks.Scheduler.QueueEnforceMinSeparation | src/Knockback/Tasks.cpp:88-107 | appends the separation task only when its gate is open |
| Tasks.Scheduler.Step | src/Knockback/Tasks.cpp:28-84 | the head task leaves the queue, makes `Run`'s call and appends `Run`'s follow-ups; an empty queue does nothing |
| Tasks.Scheduler.ShoveTask | src/Knockback/Tasks.cpp:193-266 | the shove body does exactly what `RunShove` describes |
| Tasks.Scheduler.FireShove | src/Knockback/Tasks.cpp:226-265 | a due shove past every check makes `RunShove`'s call and queues its follow-ups or its retry |
| Tasks.Scheduler.QueueAfterAccepted | src/Knockback/Tasks.cpp:238-254 | an accepted shove appends exactly `AfterShoveAccepted`: the check when the gain threshold is positive, then the separation pass for the player |
| Tasks.Scheduler.EffectTask | src/Knockback/Tasks.cpp:28-84 | the effectiveness body does exactly what `RunEffect` describes |
| Tasks.Scheduler.SeparationTask | src/Knockback/Tasks.cpp:107-177 | the separation body, with its mutable stall counter, does exactly what `RunSeparation` describes |
| HitSink.ProcessEvent | src/Knockback/HitSink.cpp:27-88 | the event always continues; a request carries both handles, the configured tries, the weapon multiplier (always positive) and 20 frames of deferral |
| HitSink.RequestIffQualifies | src/Knockback/HitSink.cpp:27-88 | a request is made exactly for a qualifying hit |
| HitSink.EachGateBlocks | src/Knockback/HitSink.cpp:30-69 | each early return on its own prevents the request |
| HitSink.SpellHitIgnoresMultiplier | src/Knockback/HitSink.cpp:58-65 | a spell hit is dropped before the multiplier is consulted |
| Legacy.LegacyDefaultSane | plugin.cpp:53-80 | the legacy defaults are in range and match the newer defaults on every shared field |
| Legacy.LegacyClamped | plugin.cpp:210-226 | the four tunables end in range, in-range values are kept, and nothing else changes |
| Legacy.LegacyLoadedSane | plugin.cpp:179-252 | an unreadable file gives the defaults; any load leaves the tunables in range and no 0 in the race sets |
| Legacy.LegacyLoadedTunables | plugin.cpp:200-226 | for each of the seven keys, a present value is loaded (clamped where the loader clamps it) and an absent key gives its default |
| Legacy.LegacyStore.ApplyClamps | plugin.cpp:210-226 | the clamp sequence computes `LegacyClamped` |
| Legacy.LegacyStore.LoadConfig | plugin.cpp:179-252 | the global configuration becomes exactly `LegacyLoaded` of the file |
| Legacy.LegacyFirstPersonAgrees | plugin.cpp:255-275 | the legacy first-person test equals the newer one, and suppresses exactly a first-person player under the switch |
| Legacy.LegacyHumanoidAgrees | plugin.cpp:320-358 | the legacy humanoid filter equals the newer one on the same lists |
| Legacy.LegacyFilterOrder | plugin.cpp:332-345 | deny wins, then the allow list, then the large-archetype exclusion |
| Legacy.LegacyShapeAgrees | plugin.cpp:497-508 | the inline shaping is `ShapeForApplyCurrent`, and the burst is the newer one at multiplier 1 |
| Legacy.LegacyShoveRules | plugin.cpp:464-522 | the countdown re-enqueues; a failed check ends the chain; an accepted shove ends it; a refused one retries one try lower after the retry delay |
| Legacy.LegacyExecSplit | plugin.cpp:462 | k1 + k2 frames equal k1 frames followed by k2 frames |
| Legacy.LegacyCountdown | plugin.cpp:465-468 | a delayed shove is due after its delay in frames, having called nothing |
| Legacy.LegacyFailingChain | plugin.cpp:510-522 | if `ApplyPhysicsShove` always fails (too close, or refused), n tries call the primitive exactly n times and then leave nothing queued |
| Legacy.LegacyQueueWeightAppend | plugin.cpp:462 | the queue weight adds up over concatenation |
| Legacy.LegacyStepDecreasesWeight | plugin.cpp:464-522 | under loaded settings every frame lowers the queue's weight |
| Legacy.LegacyExecDrains | plugin.cpp:455-524 | under loaded settings the legacy queue empties: every chain terminates |
| Legacy.LegacyProcessEvent | plugin.cpp:536-602 | the event always continues; a queued shove has all configured tries and no delay |
| Legacy.LegacyQueuesIff | plugin.cpp:536-602 | a shove is queued exactly for a qualifying hit, for the handles of both actors |
| Legacy.LegacyWeaponPolicy | plugin.cpp:583-591 | a hit with no resolvable weapon counts as unarmed melee and is queued; a resolved non-melee weapon is dropped |
| Legacy.LegacyScheduler.QueuePhysicsShove | plugin.cpp:455-463 | appends one legacy shove task |
| Legacy.LegacyScheduler.Step | plugin.cpp:462-523 | the head task leaves the queue and its body does exactly what `RunLegacyShove` describes |
| Legacy.LegacyScheduler.ProcessEvent | plugin.cpp:536-602 | a qualifying hit appends its shove; any other hit leaves the queue alone |

## Left out

- The INI parser (SimpleIni) and `std::stof`/`GetDoubleValue` number parsing are outside the model. The loader receives each key already parsed: None when a key is absent or does not parse.
- Float and int32 casts are not modelled. Values are reals and unbounded integers. The loader clamps every counter to at most 20, so a 32-bit overflow cannot arise.
- Engine lookups (`LookupByID`, `LookupFormID`, `ActorHandle::get`, `IsDead`, `GetRace`, the player and camera singletons) are data held in the `World`, `DataHandler` and form map given to each call.
- Logging, the plugin's registration with SKSE, the messaging callback and `InitKeywords` (the keyword cache arrives already filled) are left out.
- A missing task interface (`GetTaskInterface()` returning null) is not modelled. Enqueueing always succeeds.
- Host frame batching is not modelled: `Scheduler.Step` runs one task per call. The host may run several tasks in a frame, all in FIFO order.
- `std::sqrt` and the normalisation of the direction vector are left out. The distance takes the host's square root as a parameter. An impulse carries the un-normalised direction, which has the same sign and orientation.
- `ApplyCurrent`'s answer comes from the world of that frame (`currentAccepted`).
- `MaybeReloadConfig`, `IsValidKnockbackTarget`, `GetWeaponMultiplier` and `QueuePhysicsShoveWithAttackDeferral` are declared in headers that are not part of this model.
  - The hit sink consults the first three as parameters (`Hooks`; the configuration given is the one after the reload check).
  - It reports the fourth as a `Request` value.
- `std::stoul` also accepts a leading '+' or '-' (a '-' negates the value modulo the width of `unsigned long`); the model rejects a signed hex part, so "File\|-13" names no form where the program looks up a wrapped id.
- `shoveInitialDelayFrames` is loaded and clamped, but no modelled code path reads it.
- Physics.ShapeForApplyCurrent: the source overwrites two by-reference floats. The model returns a new `Burst`, so the aliasing of the two arguments is not captured.

## Findings

| source | as written | input that shows it | evidently intended | confidence | as-written member | corrected member |
|---|---|---|---|---|---|---|
| src/Knockback/Config.cpp:72-74 | the "FormID:" prefix is cut with `substr(6)`, which keeps the ':' | "Skyrim.esm\|FormID:00013796" normalises to ":00013796", which does not parse, so the spec names no form | cut all seven characters of "FormID:" | high, not executed | IniTextFacts.FormIdPrefixRejectedAsWritten | IniTextFacts.FormIdPrefixAcceptedIntended |
| plugin.cpp:131-134 | the same `substr(6)` in the legacy copy of the normaliser | "Skyrim.esm\|FormID:00013796" | cut all seven characters of "FormID:" | high, not executed | IniTextFacts.FormIdPrefixRejectedAsWritten | IniTextFacts.FormIdPrefixAcceptedIntended |

`ParseFormSpec`, and through `SpecParser` every loader, follows the code as
written: `IniTextFacts.FormIdSpecRejectedAsWritten` shows that
"File|FormID:XXXXXXXX" names no form, and `ConfigLoad.FormIdKeySkipped` that
such a weapon key is skipped. The corrected parser is `ParseFormSpecIntended`
(with `SplitFormSpecIntended`), which the same lemma and
`ParseFormSpecIntendedCases` describe. The loader functions take the parser
as a parameter (`Lookups`, the `parse` argument of the race sets and of
`LegacyLoaded`), so every lemma about them holds for the corrected parser as
well.
