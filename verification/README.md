# Argyros platformer: the gameplay state machines

This project models the rule-bearing components of a small engine-hosted
2.5D platformer written in C#. Each one becomes an immutable Dafny state
with pure step functions, one per engine callback or public method. The
components are:

- the player's copy/cut/paste platform clipboard, with its three bounded
  usage counters (`PlatformInteractor`, interactor.dfy);
- the menu navigation of the UI scenes (`SceneNavigation`, scenes.dfy);
- the operation-limit panel: its "Name: used/max" text and its colour
  rule (`LimitDisplay`, limit_display.dfy);
- the one-shot reset box (`ResetBox`, reset_box.dfy);
- the editor pass that attaches a platform hazard to every platform
  (`AutoAddHazards`, auto_hazards.dfy);
- the death and respawn manager (`Respawn`, respawn.dfy);
- the platform danger latch and its throttled player detection
  (`PlatformHazard`, hazard.dfy);
- the enemy shooter's firing rule (`EnemyShooter`, shooter.dfy);
- the fire missile's impact dispatch (`FireMissile`, missile.dfy).

`Common` (common.dfy) holds `Option`, the engine's vectors and colours as
plain records, and the 32-bit integer range.

The engine stays outside the model. What it answers becomes an input:
the raycast hit, the overlap query's colliders, the touched collider's
tag and layer, the distance to the target and the time. What it does
becomes an output: hidden, destroyed and spawned platforms, a scene to
load, the teleport and controller switches of a respawn. A destroyed
object compares equal to null in the engine, so a clipboard whose
platform was destroyed counts as empty. The model expresses this as
membership in the `destroyed` set. Delayed calls become explicit events:

- `RespawnDue` is the respawn scheduled by a death;
- `DeactivateDanger` is the end of a hazard's danger window, which
  `deactivateAt` records.

The counters are C# `int`s. `PlatformInteractor.Remaining` proves that
with 32-bit limits no counter or remaining value leaves the 32-bit range,
so unbounded integers describe them exactly.

Every rule here is taken from the C# code.

## Model

| member | source | states |
|---|---|---|
| PlatformInteractor.Start | Assets/Script/Player/PlayerPlatformInteractor.cs:13-31 | A new interactor satisfies the counter invariant, with limits of 1 copy, 1 cut and 3 pastes, all counters at zero (so the full allowance remains), an empty clipboard, and the player facing right. |
| PlatformInteractor.Remaining | Assets/Script/Player/PlayerPlatformInteractor.cs:207-230 | Remaining plus usage equals the limit for each operation. In a valid state with a non-negative limit, remaining is between 0 and the limit, and it is 0 exactly when the operation is refused. With 32-bit limits, every value stays 32-bit. |
| PlatformInteractor.UpdateFacing | Assets/Script/Player/PlayerPlatformInteractor.cs:48-53 | A positive axis faces right and a negative one faces left. At zero the state is unchanged, and nothing but the facing ever changes. |
| PlatformInteractor.Copy | Assets/Script/Player/PlayerPlatformInteractor.cs:55-84 | At the copy limit, or without a hit, the whole state is unchanged. Otherwise the clipboard holds (platform, scale, not cut), copy-remaining drops by exactly 1, and the other counters, limits, facing and level are untouched. The invariant is preserved. |
| PlatformInteractor.Cut | Assets/Script/Player/PlayerPlatformInteractor.cs:86-108 | A cut succeeds only under the limit, on a hit, on a cutable platform. It then stores (platform, scale, cut), hides the platform without destroying it, and drops only cut-remaining, by 1. Otherwise nothing changes. |
| PlatformInteractor.Paste | Assets/Script/Player/PlayerPlatformInteractor.cs:110-150 | A paste is refused, with no change, at the limit, with an empty clipboard, or when the clipboard's platform was destroyed. Otherwise it spawns one clone on the facing side and drops only paste-remaining, by 1. A cut clipboard is consumed: the original is destroyed and the clipboard emptied. A copy clipboard is kept. |
| PlatformInteractor.ResetLimits | Assets/Script/Player/PlayerPlatformInteractor.cs:183-190 | All usage is zero, the clipboard is empty, the limits are unchanged, and the full limits are available again. |
| PlatformInteractor.SetLimits | Assets/Script/Player/PlayerPlatformInteractor.cs:195-202 | The limits become exactly the arguments, followed by a full reset. |
| PlatformInteractor.Update | Assets/Script/Player/PlayerPlatformInteractor.cs:33-46 | Facing is updated first. With Ctrl held, C wins over X and X over V. Without Ctrl or a key, only the facing changes. The invariant is preserved. |
| PlatformInteractor.RunKeepsValid | Assets/Script/Player/PlayerPlatformInteractor.cs:55-150 | No sequence of frames, resets and new limits takes a counter below zero or past a non-negative limit. |
| PlatformInteractor.CopyClipboardPastesRepeatedly | Assets/Script/Player/PlayerPlatformInteractor.cs:140-149 | A copy clipboard survives pastes: n pastes within the limit all succeed, spawn n platforms, destroy nothing and leave the clipboard as it was. |
| PlatformInteractor.CutThenPasteMovesPlatform | Assets/Script/Player/PlayerPlatformInteractor.cs:95-149 | A cut followed by a paste spawns the clone, destroys the original and empties the clipboard, and a further paste does nothing. |
| SceneNavigation.LoadScene | Assets/Script/UI/SceneController.cs:420-430 | A load happens exactly when the name is non-empty, and it loads that name. The empty name does nothing. |
| SceneNavigation.Click | Assets/Script/UI/SceneController.cs:159-406 | No click loads an empty name. Time is resumed only from the pause menu. The pause scene is unloaded exactly for Continue on the pause menu. The game quits exactly for Exit Game on the main menu. |
| SceneNavigation.AchievementPagesCycle | Assets/Script/UI/SceneController.cs:360-406 | On the four achievement pages, Next and Back each move to another achievement page and undo each other. On any other scene both do nothing. |
| SceneNavigation.AchievementCycleLengthFour | Assets/Script/UI/SceneController.cs:360-382 | Four Next clicks return to the starting page, and the three pages in between are distinct from it and from each other. |
| SceneNavigation.BackTargets | Assets/Script/UI/SceneController.cs:233-267 | Back always loads a scene. Guide goes to Settings. Settings, SelectLevel and the achievement pages go to MainMenu. Any other scene goes to the custom return scene, or to MainMenu when none is set. |
| SceneNavigation.NoIsBackOutsideConfirmations | Assets/Script/UI/SceneController.cs:302-316 | No goes from Restart or Exit to Pause, and elsewhere it is exactly Back. |
| SceneNavigation.YesOnlyConfirmsExit | Assets/Script/UI/SceneController.cs:284-300 | Yes navigates if and only if the scene is Exit, and then it goes to MainMenu. |
| SceneNavigation.ExitGameQuitsOnlyFromMainMenu | Assets/Script/UI/SceneController.cs:214-230 | Exit Game quits on MainMenu and loads the Exit confirmation everywhere else. |
| SceneNavigation.ContinueResumesFromPause | Assets/Script/UI/SceneController.cs:159-177 | On Pause, Continue resumes time and unloads Pause. Elsewhere it loads SelectLevel. |
| SceneNavigation.RestartFromPause | Assets/Script/UI/SceneController.cs:319-336 | On Pause, Restart resumes time and loads "level1". Elsewhere it loads Restart. |
| SceneNavigation.HomeIsMainMenu | Assets/Script/UI/SceneController.cs:269-281 | Home and MainMenu are the same action: load MainMenu, resuming time only from Pause. |
| LimitDisplay.ShadeFor | Assets/Script/UI/OperationLimitUI.cs:58-64 | The colour is limit-reached if and only if remaining is 0, whatever the usage. It is the used colour if and only if remaining is non-zero and usage is positive, and the available colour otherwise. Exactly one applies. |
| LimitDisplay.NatTextRoundTrip | Assets/Script/UI/OperationLimitUI.cs:56 | The decimal digits of a natural number read back as that number. |
| LimitDisplay.IntTextRoundTrip | Assets/Script/UI/OperationLimitUI.cs:56 | An integer formatted as C# does (minus sign, digits) reads back as that integer. |
| LimitDisplay.PairRoundTrip | Assets/Script/UI/OperationLimitUI.cs:56 | The "used/max" part reads back as the two integers. |
| LimitDisplay.LabelRoundTrip | Assets/Script/UI/OperationLimitUI.cs:56 | For any name without a colon, the line "Name: used/max" reads back as exactly that name, usage and limit. |
| LimitDisplay.UpdateTextElement | Assets/Script/UI/OperationLimitUI.cs:51-65 | An unassigned element stays unassigned. An assigned one reads back as the name, usage and limit. Its colour is the three-way choice of `ShadeFor`: limit-reached exactly when nothing remains, otherwise used when usage is positive and available when it is not. |
| LimitDisplay.RefreshLine | Assets/Script/UI/OperationLimitUI.cs:37-48 | Each operation's line reads back as that operation's name with the interactor's usage and limit for it, and is coloured by `ShadeFor` from that operation's remaining count and usage. |
| LimitDisplay.UpdateUI | Assets/Script/UI/OperationLimitUI.cs:33-49 | Without an interactor the panel is unchanged. Otherwise each of the three lines is refreshed from its own operation. |
| LimitDisplay.PanelReadsBack | Assets/Script/UI/OperationLimitUI.cs:33-56 | With an interactor, every assigned line of the refreshed panel reads back as "Name: used/max" for its own operation, with the usage and limit the interactor reports. Unassigned lines stay unassigned. |
| LimitDisplay.ShadeTracksLimit | Assets/Script/UI/OperationLimitUI.cs:59-64 | For a valid interactor and a non-negative limit, the limit colour shows exactly when the interactor refuses the operation. The used colour shows when some but not all of it is spent, and the available colour when none is. |
| ResetBox.Start | Assets/Script/System/ResetBox.cs:20-33 | A new box is consistent, unused, out of range and unlinked, has its prompt hidden, and shows its original colour. |
| ResetBox.OnEnter | Assets/Script/System/ResetBox.cs:46-74 | A player entering sets in-range and records the interactor. The highlight and the prompt appear only on an unused box. Other colliders change nothing. |
| ResetBox.OnLeave | Assets/Script/System/ResetBox.cs:76-97 | A player leaving clears in-range and the link and always hides the prompt. The original colour returns only on an unused box. Other colliders change nothing. |
| ResetBox.ResetPlayerActions | Assets/Script/System/ResetBox.cs:99-123 | Only a linked, unused box resets. It calls the interactor's reset once, marks the box used, hides the prompt and shows the used colour. Otherwise nothing changes. |
| ResetBox.OnFrame | Assets/Script/System/ResetBox.cs:35-44 | A frame resets if and only if the player is in range, has an interactor, the box is unused and the key went down. |
| ResetBox.OneShot | Assets/Script/System/ResetBox.cs:35-123 | Over any event sequence there is at most one reset, none at all on a used box (which leaves the player untouched), and a box that reset ends up used. |
| ResetBox.RunKeepsConsistent | Assets/Script/System/ResetBox.cs:46-123 | The prompt and colour stay consistent with the in-range and used state through any event sequence. |
| AutoAddHazards.Attach | Assets/Script/System/AutoAddPlatformHazards.cs:41-64 | An eligible entry ends with a hazard. Every other entry, the parent included, is left exactly as it was. |
| AutoAddHazards.AttachAll | Assets/Script/System/AutoAddPlatformHazards.cs:39-65 | Every entry of the list gets the reference outcome, and the length is kept. |
| AutoAddHazards.AddHazardsToAllPlatforms | Assets/Script/System/AutoAddPlatformHazards.cs:18-68 | Without a parent, nothing changes and every counter is 0. Otherwise every eligible entry has a hazard and every other entry is unchanged. The total counts every entry, the parent included. Added counts eligible entries that lacked a hazard, and skipped counts those that had one. |
| AutoAddHazards.EligibleSplits | Assets/Script/System/AutoAddPlatformHazards.cs:50-63 | The eligible entries are exactly those that lack a hazard plus those that have one. |
| AutoAddHazards.AttachAllCounts | Assets/Script/System/AutoAddPlatformHazards.cs:50-63 | After the pass no eligible entry lacks a hazard, and as many have one as were eligible before. |
| AutoAddHazards.CountersCoverEligible | Assets/Script/System/AutoAddPlatformHazards.cs:50-63 | Added plus skipped equals the number of non-parent entries with a collider. |
| AutoAddHazards.SecondPassChangesNothing | Assets/Script/System/AutoAddPlatformHazards.cs:39-65 | A second pass leaves the list as the first left it, adds 0, and skips every eligible entry. |
| Respawn.Start | Assets/Script/System/RespawnManager.cs:21-44 | The player starts alive and coherent, keeps the pose it was given, and the starting position is the first safe position. |
| Respawn.Die | Assets/Script/System/RespawnManager.cs:62-83 | Dying while dead changes nothing. Otherwise the player is dead, a respawn is scheduled and movement is off. The renderers are hidden only when hiding is configured, and the pose and safe position are kept. Coherence is preserved. |
| Respawn.TriggerDeath | Assets/Script/System/RespawnManager.cs:148-151 | The public entry behaves exactly like a death. |
| Respawn.RespawnTarget | Assets/Script/System/RespawnManager.cs:96-110 | The target is the respawn point when there is one. Otherwise it is the last safe position with the rotation kept. |
| Respawn.GuardedTeleport | Assets/Script/System/RespawnManager.cs:89-120 | The controller-off, teleport, controller-on sequence teleports only while the controller is off and leaves it on. |
| Respawn.Respawn | Assets/Script/System/RespawnManager.cs:85-132 | The latch is cleared and the player moves to the respawn target. With a character controller, the teleport happens while it is off and it ends on. Movement and visibility come back unconditionally, and the safe position is kept. |
| Respawn.Frame | Assets/Script/System/RespawnManager.cs:46-60 | Falling below the death height kills only a living player. The safe position follows the player only while grounded with a character controller. Coherence is preserved. |
| Respawn.RunKeepsCoherent | Assets/Script/System/RespawnManager.cs:46-132 | Through any sequence of frames, deaths and due respawns, movement, visibility and the pending respawn stay in step with the dead latch. |
| Respawn.DieIsIdempotent | Assets/Script/System/RespawnManager.cs:62-66 | A second death is ignored: dying twice is dying once. |
| PlatformHazard.Start | Assets/Script/System/PlatformHazard.cs:17-53 | A new hazard is safe and coherent. It shows the original colour captured at start, has no deactivation scheduled, and its first detection time is 0. Whether a material and a collider were found is recorded as given. |
| PlatformHazard.ActivateDanger | Assets/Script/System/PlatformHazard.cs:65-76 | Activation does nothing when already dangerous or without a material. Otherwise the platform turns dangerous, shows the danger colour and schedules deactivation after the danger time, with nothing else changed. |
| PlatformHazard.DeactivateDanger | Assets/Script/System/PlatformHazard.cs:78-86 | Without a material nothing changes. Otherwise the platform is safe and shows its original colour again. |
| PlatformHazard.KillsOnContact | Assets/Script/System/PlatformHazard.cs:120-157 | Each of the four contact callbacks destroys the touching object if and only if it is the player and the platform is dangerous. |
| PlatformHazard.FirstPlayer | Assets/Script/System/PlatformHazard.cs:107-117 | The result is the first player-tagged collider of the query's answer. It is absent exactly when no collider is a player. |
| PlatformHazard.Update | Assets/Script/System/PlatformHazard.cs:55-118 | A check runs only when dangerous, detecting and due. It then pushes the next check one interval ahead and destroys at most one player, the first found, and only with a collider. Otherwise nothing happens. |
| PlatformHazard.DetectionThrottled | Assets/Script/System/PlatformHazard.cs:58-61 | Two consecutive checks are at least one detection interval apart. |
| PlatformHazard.DangerWindow | Assets/Script/System/PlatformHazard.cs:65-86 | Activating a safe platform that has a material makes every contact kill the player. Deactivating it afterwards restores the platform exactly as it was before. |
| EnemyShooter.Start | Assets/Script/Enemy/EnemyShooter.cs:21-77 | Start looks up a missing target and always ends with a shoot point. Without any prefab the shooter disables itself and sets no timer. Otherwise the first shot is due after the start delay. |
| EnemyShooter.ShootMissile | Assets/Script/Enemy/EnemyShooter.cs:94-109 | A missile is spawned exactly when the prefab and the shoot point exist. It is aimed exactly when it carries the missile script and there is a target. |
| EnemyShooter.Update | Assets/Script/Enemy/EnemyShooter.cs:79-92 | The timer moves to now plus the interval exactly when the shooter is enabled, has a target and a prefab, is in range and is due. Otherwise nothing changes. A missile appears only then. |
| EnemyShooter.ShootNow | Assets/Script/Enemy/EnemyShooter.cs:143-147 | Shooting now ignores range and timer but still needs the prefab and shoot point, and it always restarts the timer. |
| EnemyShooter.SetEnabled | Assets/Script/Enemy/EnemyShooter.cs:140-141 | Only the enabled switch changes. |
| EnemyShooter.SetTarget | Assets/Script/Enemy/EnemyShooter.cs:142 | Only the target changes. |
| EnemyShooter.ShotsAreSpaced | Assets/Script/Enemy/EnemyShooter.cs:87-91 | Over any frame times, even ones that go backwards: consecutive automatic shots are at least one interval apart, and the first is not before the pending timer. With a non-negative interval, no shot is before the timer. |
| EnemyShooter.ForwardClockShotsAfterTimer | Assets/Script/Enemy/EnemyShooter.cs:87-91 | When frame times never decrease, as the engine's clock does not, no automatic shot comes before the pending timer, whatever the interval. |
| EnemyShooter.ShotsNotBefore | Assets/Script/Enemy/EnemyShooter.cs:87-91 | Every automatic shot happens at the time of some frame. So if every frame is at or after a time, so is every shot. |
| EnemyShooter.NoShotBeforeDelay | Assets/Script/Enemy/EnemyShooter.cs:76-91 | After a successful start, and with frame times that never decrease, no automatic shot comes before the start time plus the delay, whatever the interval. Over arbitrary frame times this holds of the first shot, and of every shot when the interval is non-negative. |
| EnemyShooter.DisabledNeverFires | Assets/Script/Enemy/EnemyShooter.cs:68-81 | A shooter that disabled itself never fires automatically. |
| FireMissile.Spawned | Assets/Script/System/FireMissile.cs:6-13 | A new missile has no target and the default platform mask. |
| FireMissile.SetTarget | Assets/Script/System/FireMissile.cs:15-19 | The target is stored and the missile knows it has one. |
| FireMissile.InMaskIsBitTest | Assets/Script/System/FireMissile.cs:58 | The shifted-one platform test holds exactly when bit `layer` of the mask is set. |
| FireMissile.DefaultMaskIsLayerSix | Assets/Script/System/FireMissile.cs:9 | The default mask selects layer 6 and no other. |
| FireMissile.Classify | Assets/Script/System/FireMissile.cs:45-58 | The player tag wins. A platform is a non-player on a masked layer. |
| FireMissile.FindHazard | Assets/Script/System/FireMissile.cs:61-67 | The hazard in the children is used first, and otherwise the one in the parents. |
| FireMissile.OnTriggerEnter | Assets/Script/System/FireMissile.cs:45-82 | Hitting the player destroys both the player and the missile, with no platform handling. A platform hit destroys the missile whether or not a hazard was found, and activates the hazard found. Anything else destroys nothing. |
| FireMissile.ApplyImpact | Assets/Script/System/FireMissile.cs:69-72 | Only the named hazard is activated, and every other hazard is unchanged. |
| FireMissile.PlatformHitMakesItDeadly | Assets/Script/System/FireMissile.cs:56-81 | A missile hitting a platform whose safe hazard has a material destroys itself and makes the platform kill a touching player through every contact. |

## Left out

- Physics queries (raycast, overlap box, triggers and collisions) are inputs. Raycast distance, the layer filter of the raycast and the overlap box's bounds arithmetic are not modelled.
- Paste position and rotation: the `pasteOffset` vector arithmetic is reduced to the side the player faced.
- Float vector maths in general: missile velocity and normalisation, the shooter's distance and aim height offset. Distances and times are `real` inputs.
- The engine's delayed calls are explicit events, so their delays are not modelled. A death records only that a respawn is pending (`respawnPending`); the `respawnDelay` before `RespawnDue` arrives is not modelled. A hazard records the time its deactivation is due (`deactivateAt`); nothing makes `DeactivateDanger` happen at that time.
- Audio, background music, `PlayerPrefs` (New Game's save-key deletion), finding buttons by name and the actual scene loading. Navigation only returns the action.
- Gizmo drawing and debug logging.
- The missile's flight in its `Start` (setting the rigidbody's velocity) is not modelled.
- The lookups in `Start` methods are inputs: the UI's search for the interactor, the respawn point search, and the renderer and collider search of a hazard.
- Player locomotion and animation, lava trigger, respawn tester, pause button, billboard, respawn point offset and the editor fix-up tool are not part of this model.
- Frame times are inputs. The engine's clock never goes back; the model states this as `EnemyShooter.Monotone`, an assumption of the forward-clock shot bounds only.
- LimitDisplay.IntText: numbers are written with the invariant culture's ASCII minus sign. A culture whose negative sign differs (U+2212, for instance) would change the text of a negative number. Only a negative limit can produce one, because usage is never negative.
- LimitDisplay.ShadeTracksLimit: stated for non-negative limits only. With a negative limit nothing is ever used, remaining is non-zero and the panel shows the available colour, although the operation is refused.
