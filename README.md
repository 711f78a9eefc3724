# UnderTheSea diving logic in Dafny

UnderTheSea is a Valheim mod that lets the player dive. The game engine owns the player and
the camera. The mod's own logic is small, and this project models it:

- **The Diver component** (`Diver.cs`). It works on one number, the player's swim depth.
  The vertical component of the look direction is sorted into DOWN, UP or NEUTRAL by two
  thresholds (-0.25 and 0.15). Ascending and steering change the depth, and the depth never
  goes shallower than the surface depth 1.5. A player whose depth is beyond 2.2 is diving.
  While diving, a timer raises the swim skill once more than a second has built up.
- **The water camera patch** (`Patches/WaterCameraPatches.cs`). A static cache saves the
  camera's minimum water distance once, forces it to -5000 so the camera can go under the
  surface, and later puts it back. The fog colour is darkened with depth, one channel at a
  time. The fog density is clamped to the configured minimum and maximum.

Every float is a Dafny `real`; IEEE rounding is not modelled. `Mathf.Max` and `Mathf.Clamp`
follow Unity's definitions (module `Unity`).

Layout:

- `unity.dfy`: module `Unity`, with `Vec3`, `Color`, `Max` and `Clamp`.
- `dive_rules.dfy`: module `DiveRules`. It holds the diving rules as functions of plain values.
  It also holds lemmas that follow those rules over any sequence of frames.
- `diver.dfy`: module `Diving`. The host `Player` is a class with only the fields the
  component reads and writes. `Diver` is a class whose methods update those fields in
  place. Each method names the fields it changes with a field frame
  (`modifies player`swimDepth`), so nothing else can change. Each method is proved against
  the rules in `DiveRules`.
- `water_camera_patches.dfy`: module `WaterCameraPatches`. The static cache is a
  `CameraCache` object and the host camera is a `GameCamera` object. Both are updated in
  place and proved against the value-level `SetUnderWater`/`Restore`. The fog colour and
  fog density are pure functions.

## Model

| member | source | states |
|---|---|---|
| Unity.Max | Diver.cs:115 | Mathf.Max gives a value at least as large as both arguments and equal to one of them |
| Unity.Clamp | Patches/WaterCameraPatches.cs:81 | Mathf.Clamp gives min for a value below min, otherwise max for a value above max, otherwise the value itself; so it lies in [min, max] when min <= max |
| Unity.ClampMonotone | Patches/WaterCameraPatches.cs:81 | when min <= max, a larger value never clamps to a smaller result |
| DiveRules.Classify | Diver.cs:148-162 | DOWN exactly when y < -0.25, UP exactly when y > 0.15, NEUTRAL exactly when -0.25 <= y <= 0.15, so the three cases are disjoint and exhaustive |
| DiveRules.Ascended | Diver.cs:111-116 | ascending never goes shallower than DefaultSwimDepth 1.5 nor than depth - dt, is one of the two; for dt >= 0 and a starting depth of at least 1.5 it never deepens |
| DiveRules.LookDepth | Diver.cs:121-141 | NEUTRAL leaves the depth unchanged; DOWN adds y*y*dt, so the depth does not decrease for dt >= 0 and strictly increases for dt > 0; UP lowers by y*y*dt but never past 1.5, and for dt >= 0 ends no deeper than the larger of the old depth and 1.5 |
| DiveRules.SkillStep | Diver.cs:86-94 | the skill is raised exactly when timer + dt > 1, and then the timer is 0; otherwise the timer is timer + dt; afterwards the timer is at most 1, and it is non-negative when both the old timer and dt are |
| DiveRules.DepthNeverBelowDefault | Diver.cs:111-140 | over any sequence of steering, ascending and reset frames with dt >= 0, a depth that starts at 1.5 or deeper stays at 1.5 or deeper |
| DiveRules.NoDivingWithoutLookingDown | Diver.cs:121-162 | a player who is not diving stays out of the diving range through any frames with dt >= 0 that do not look down |
| DiveRules.ResetEndsDive | Diver.cs:41-62 | after any frames ending with a reset to the default depth, the player is not diving |
| DiveRules.RaisesBoundedByDivingTime | Diver.cs:86-94 | from a non-negative starting timer and over any sequence of non-negative frame times, skill raises plus the final timer never exceed the starting timer plus the total time, so there is at most one raise per second; the final timer is non-negative, and after at least one frame it is at most 1 |
| Diving.Diver.constructor | Diver.cs:25-31 | Awake attaches to the player, sets its swim depth to 1.5 (so it is not diving) and records the base swim speed |
| Diving.Diver.ResetSwimDepthIfNotInWater | Diver.cs:33-39 | in water the depth is unchanged; out of water it becomes 1.5 and the player is not diving; no other field changes |
| Diving.Diver.ResetSwimDepthToDefault | Diver.cs:41-44 | the depth becomes 1.5, so IsDiving is false; no other field changes |
| Diving.Diver.CanDive | Diver.cs:50-53 | holds exactly when the player is in water, not on the ground and swimming |
| Diving.Diver.IsDiving | Diver.cs:59-62 | holds exactly when the depth is beyond 2.2, which is deeper than the surface depth |
| Diving.Diver.IsRestingInWater | Diver.cs:68-71 | holds exactly when the player is not diving, is swimming and moves slower than 1; resting therefore implies not diving |
| Diving.Diver.UpdateSwimSkill | Diver.cs:86-94 | the timer and the raise count move exactly as SkillStep says; the timer ends at most 1; only these two fields change |
| Diving.Diver.UpdateDiveDirection | Diver.cs:99-105 | while diving the move direction becomes the look direction; otherwise it is unchanged |
| Diving.Diver.Ascend | Diver.cs:111-116 | the move direction becomes the player's forward vector and the depth becomes Ascended(old depth, dt), so it is at least 1.5 |
| Diving.Diver.UpdateDivingDepth | Diver.cs:121-146 | the depth becomes LookDepth(old depth, look y, dt), so it is unchanged when NEUTRAL and does not decrease going DOWN with dt >= 0; the move direction becomes the look direction exactly when the direction is not NEUTRAL and the player is diving afterwards |
| Diving.Diver.GetDiveDirection | Diver.cs:148-162 | classifies the player's look y with both directions of each threshold rule |
| WaterCameraPatches.SetUnderWater | Patches/WaterCameraPatches.cs:22-29 | the field becomes -5000 and the cache is non-empty; an existing saved value is kept; otherwise the field's previous value is saved |
| WaterCameraPatches.Restore | Patches/WaterCameraPatches.cs:36-43 | the cache becomes empty; with an empty cache nothing changes; otherwise the field gets the saved value |
| WaterCameraPatches.SetKeepsFirstSave | Patches/WaterCameraPatches.cs:24-27 | setting twice is setting once: the cache holds the value from before the first set |
| WaterCameraPatches.SetThenRestoreIsIdentity | Patches/WaterCameraPatches.cs:22-43 | with an empty cache, set followed by reset restores the camera field and empties the cache |
| WaterCameraPatches.RestoreIdempotent | Patches/WaterCameraPatches.cs:36-43 | resetting twice is the same as resetting once |
| WaterCameraPatches.RunTracksOriginal | Patches/WaterCameraPatches.cs:22-43 | under any interleaving of sets and resets, either nothing is saved and the field holds the original value, or the original is saved and the field is -5000 |
| WaterCameraPatches.RestoreAfterAnyRun | Patches/WaterCameraPatches.cs:22-43 | starting from an empty cache, one reset after any sets and resets gives back the camera's original field and an empty cache |
| WaterCameraPatches.CameraCache.constructor | Patches/WaterCameraPatches.cs:15 | the static cache starts empty |
| WaterCameraPatches.CameraCache.SetMinWaterDistanceUnderWater | Patches/WaterCameraPatches.cs:22-29 | the cache and the camera field change as SetUnderWater says: the field is -5000, the cache is non-empty, and an existing saved value is not overwritten |
| WaterCameraPatches.CameraCache.ResetMinWaterDistance | Patches/WaterCameraPatches.cs:36-43 | the cache and the camera field change as Restore says; with an empty cache neither object changes; afterwards the cache is empty |
| WaterCameraPatches.RepeatedSetAndReset | Patches/WaterCameraPatches.cs:22-43 | on the objects, set, set, reset, reset from an empty cache leaves the camera field as it was and the cache empty |
| WaterCameraPatches.ChangeColorBrightness | Patches/WaterCameraPatches.cs:157-186 | a factor >= 0 returns the colour unchanged; a negative factor f gives each of r, g, b as max(c + c*f, 0), never negative; alpha is always kept |
| WaterCameraPatches.DarkenWithin | Patches/WaterCameraPatches.cs:166-172 | a non-negative channel darkened by a non-negative amount stays in [0, c]; it is c*(1 - amount) up to amount 1 and 0 beyond |
| WaterCameraPatches.DarkeningStaysInChannel | Patches/WaterCameraPatches.cs:166-185 | for non-negative channels every output channel lies in [0, c]; a factor in [-1, 0] scales each channel by 1 + f; a factor <= -1 gives black with the same alpha |
| WaterCameraPatches.DarkenMonotone | Patches/WaterCameraPatches.cs:168-172 | darkening a non-negative channel by more never gives a brighter channel |
| WaterCameraPatches.DarkeningMonotone | Patches/WaterCameraPatches.cs:157-186 | for a colour with non-negative channels, a smaller (more negative) correction factor never gives a brighter r, g or b |
| WaterCameraPatches.UnderwaterFogColor | Patches/WaterCameraPatches.cs:74-77 | the fog colour written is opaque (alpha 1) |
| WaterCameraPatches.DeeperIsDarker | Patches/WaterCameraPatches.cs:74-77 | for an environment colour with non-negative channels and a non-negative darkness factor, a deeper swim depth never gives a brighter fog colour, and every channel stays within [0, the environment's channel] |
| WaterCameraPatches.UnderwaterFogDensity | Patches/WaterCameraPatches.cs:80-81 | the density written is Mathf.Clamp(density + depth * factor, Min, Max): Min when the raw density is below Min, otherwise Max when it is above Max, otherwise the raw density; so it lies in [Min, Max] when Min <= Max |
| WaterCameraPatches.ConfiguredFogWithinBounds | UnderTheSea.cs:148-163 | the configured ranges (Min in [0.05, 1], Max in [1, 5]) give Min <= Max, so the fog density written always lies in [Min, Max] |
| WaterCameraPatches.DeeperIsFoggier | Patches/WaterCameraPatches.cs:80-81 | when Min <= Max and the density factor is non-negative, a deeper swim depth never gives thinner fog |

## Left out

- Floating point: floats are reals, so rounding, NaN and infinities are not modelled. The constants 2.2, -0.25 and 0.15 are exact reals here.
- Host objects: `Player` and `GameCamera` are represented only by the fields the modelled code reads and writes. The host queries `InWater()`, `IsOnGround()`, `IsSwimming()` and `GetVelocity().magnitude` become fields that the host keeps up to date. `RaiseSkill(Swim)` is modelled as a counter. `SetMoveDir` is modelled as a write of `moveDir`.
- WaterCameraPatches.RunTracksOriginal: assumes nothing else writes the camera's minimum water distance between the patch's calls, since the host's own writes are not visible here.
- `Diver.Awake`: the registration in the static player-to-diver dictionary (Diver.cs:30) is Unity lifecycle bookkeeping and is not modelled. The depth initialisation and base swim speed are modelled by the constructor.
- `Diver.DrainDivingStamina` (Diver.cs:74-81): it interpolates between host stamina settings using host skill, equipment and status-effect calls, none of which are visible.
- `Diver.SprintSwimSpeed` is declared as a constant but no modelled member uses it.
- The hook bodies of `Patches/WaterCameraPatches.cs` (`GameCamera_UpdateCamera_Prefix`, `WaterVolume_UpdateMaterials_Prefix`): they do rendering, shader properties, transform rotation and environment forcing. Only their value computations are modelled: the fog colour and the fog density (lines 74-82, as `UnderwaterFogColor` and `UnderwaterFogDensity`), and the cache operations they call.
- `Patches/DivingPatches.cs`: it polls input, rotates quaternions and writes host `Character` fields. It also calls `Diver` members (`Dive`, `IsUnderSurface`, `IsInsideLiquid`, `UpdateSwimSpeed`, `RegenRestingStamina`) whose definitions are not part of this model.
- `Patches/UseEquipPatches.cs`: IL transpilers whose meaning depends on one compiled method body of the game.
- `UnderTheSea.cs`: plugin bootstrap and configuration binding. Only the accepted fog density ranges are used, in `FogDensityConfigured`. `IsEnvAllowed` is a lookup into the host's environment manager and is not modelled.
- `Utils.cs`: Unity object-truthiness and component lookups on engine-owned objects.
