# Stealth game core, modelled in Dafny

This project models the simulation core of a small first-person stealth game that runs
in the browser. The game has these parts:

- **NPCs.** Each NPC idles, patrols a cyclic route of waypoints, or chases the player. It
  builds up an alert level while it sees the player through its view cone, and switches
  to chase once that level reaches the alert threshold.
- **The stealth system.** It keeps one suspicion meter between 0 and 100. The game raises
  the meter once per frame for each chasing NPC. The meter decays on frames when no NPC
  is chasing.
- **The player controller.** It handles walk, sprint and crouch speeds, stamina, health,
  gravity and the ground snap. A move into a wall or other obstacle is rejected whole.
  The key handlers set and clear the movement flags and trigger the jump.
- **The game object.** It holds the screen state machine (menu, playing, paused,
  inventory, dialogue, game over) and the frame loop with its timing guard. Its
  per-frame update runs the player, the NPCs and the meter in a fixed order. It also
  spawns NPCs from the level file and handles pickup of evidence.
- **The inventory.** It holds the evidence, items and notes lists. The inventory panel
  shows one of them according to the current tab.

Each file of the game that changes state in place becomes a Dafny class with the same
fields (`NpcBehaviour.Npc`, `Stealth.StealthSystem`, `PlayerController.Player`,
`GameMain.Game`, `Evidence.EvidenceSystem`). Each class has a function that reads its
fields as one value (`Snapshot`, `Current`, `ScreenState`). Every method is proved
against a pure function on those values: its `ensures` gives the new value in terms of
the old one. The properties of the game are then stated on the functions, as their
`ensures` and as lemmas. The angle normalisation in the NPC view cone keeps its two
`while` loops. Their result is proved equal to a loop-free reference, `AngularDistance`.

Modelling conventions:

- Numbers are reals. `Math.PI` is the decimal literal `3.141592653589793`.
- `Math.sqrt` and `Math.atan2` are the fields of a `MathOps` value that the caller passes
  in. Nothing is assumed about them. Lemmas that need an exact square root say so in
  their `requires` (`ExactRootAt`).
- The camera's horizontal forward and right vectors are an input of each player tick
  (`Basis`). The renderer's answer to "what is in reach" and the clock are inputs of
  the interaction handler.
- The key lists for moving forward and backward are optional parameters (`Bindings`).
  The shipped configuration does not define them (see Findings).
- The configuration constants (`Config`) have the values of `js/config.js`.

The model follows the code as written; in particular:

- The alert level has no upper bound.
- An idle NPC with an empty route never refreshes its idle timer.
- Leaving a chase always goes to patrol, even with an empty route.
- Game over has no latch of its own. It stops further updates only because it leaves
  the state at the main menu.

## Model

| member | source | states |
|---|---|---|
| `Geometry.AngularDistance` | js/npc.js:131-138 | the reference for the normalised angle difference: its size lies in [0, π] |
| `Geometry.AngularDistancePeriodic` | js/npc.js:131-138 | adding whole turns to an angle leaves its angular distance unchanged |
| `Geometry.RepresentativeSize` | js/npc.js:133-138 | any value in [-π, π] that differs from x by whole turns has size AngularDistance(x), so where the normalisation loops stop does not matter |
| `Geometry.UnitDirection` | js/npc.js:84-85 | dividing a vector by its exact non-zero length gives a unit vector |
| `Geometry.ScaledStep` | js/npc.js:87-88 | a step of length s along that unit direction has squared length s² |
| `NpcBehaviour.DivOrZero` | js/npc.js:106-107 | a non-zero divisor divides as usual (a zero one gives 0 where the host gives NaN) |
| `NpcBehaviour.StepToward` | js/npc.js:84-91 | a move changes only the position and the heading; state, alert level, timers, patrol index, animation and route are kept (the displacement itself is stated by StepLength) |
| `NpcBehaviour.IdleStep` | js/npc.js:57-65 | the idle timer drops by dt; the state changes only to Patrol, and only when the timer has run out and the route is non-empty; an empty route never leaves Idle; nothing else changes |
| `NpcBehaviour.PatrolStep` | js/npc.js:67-93 | an empty route switches to Idle with the timer reset and no move; on arrival (distance < 0.5) the index advances cyclically, the NPC idles and the timer is reset; otherwise state, timer and index are kept; the index stays inside the route |
| `NpcBehaviour.ChaseStep` | js/npc.js:95-115 | no player, no change; beyond 30 the NPC goes to Patrol with alert 0; otherwise it keeps its state and alert level while it moves; route, index and timer are kept |
| `NpcBehaviour.Behave` | js/npc.js:24-34 | the behaviour step for the current state keeps the NPC well formed (index inside a non-empty route, frame in 0..3) and keeps its profile |
| `NpcBehaviour.Perceive` | js/npc.js:37-45 | seen: alert rises by SUSPICION_INCREASE_BASE·dt with no upper bound; reaching ALERT_THRESHOLD forces Chase, and a sighting below it keeps the state; unseen: alert decays by 5·dt, floored at 0, and the state is kept; a non-negative alert level stays non-negative |
| `NpcBehaviour.Animate` | js/npc.js:47-54 | an idle NPC's animation is untouched; while patrolling or chasing, the frame advances iff the timer plus dt reaches FRAME_TIME, and then cyclically through 0..3 with the timer reset to 0; otherwise the timer accumulates dt |
| `NpcBehaviour.Tick` | js/npc.js:23-55 | one update keeps the NPC well formed and its profile unchanged, and never makes a non-negative alert level negative |
| `NpcBehaviour.PerceptionOverridesBehaviour` | js/npc.js:23-45 | a player seen from the pose the behaviour step left forces Chase iff the alert level is at or over the threshold, and otherwise leaves the behaviour's state; an unseen player leaves the behaviour's state |
| `NpcBehaviour.Sees` | js/npc.js:117-139 | the view-cone test Tick uses: with no player nothing is seen; a seen player is within detectionRange by the supplied square root and within half of detectionAngle of the heading; ConeIgnoresWholeTurns and SeenPlayerIsInRange state more of its meaning |
| `NpcBehaviour.ConeIgnoresWholeTurns` | js/npc.js:128-138 | the view-cone test gives the same answer when the heading is shifted by whole turns |
| `NpcBehaviour.SeenPlayerIsInRange` | js/npc.js:121-125 | with an exact square root, a player who is seen is within detectionRange |
| `NpcBehaviour.StepLength` | js/npc.js:84-88 | with an exact non-zero distance d, the NPC moves by exactly speed·dt along the unit direction (dx, dz)/d |
| `NpcBehaviour.ChaseMovesAtChaseSpeed` | js/npc.js:98-113 | within 30 and with an exact square root, a chasing NPC moves along the line to the player, by the fraction CHASE_SPEED·dt/d of the offset, so it covers exactly CHASE_SPEED·dt; it faces the direction of travel |
| `NpcBehaviour.PatrolMovesAtPatrolSpeed` | js/npc.js:74-91 | away from its waypoint and with an exact square root, a patrolling NPC moves along the line to the waypoint, by the fraction PATROL_SPEED·dt/d of the offset, so it covers exactly PATROL_SPEED·dt; it faces the direction of travel |
| `NpcBehaviour.LeavingChaseClearsAlert` | js/npc.js:102-104 | an NPC that stops chasing always goes to Patrol with alert 0, when its view does not reach past the chase-abandon distance |
| `NpcBehaviour.EmptyRouteStaysIdle` | js/npc.js:57-65 | an idle NPC with an empty route stays Idle unless forced into Chase, and its timer only keeps running down |
| `NpcBehaviour.Npc.constructor` | js/npc.js:3-21 | a new NPC idles at the given position with no route, a 3 s idle timer, range 200/10 and angle 90° in radians |
| `NpcBehaviour.Npc.Update` | js/npc.js:23-55 | the fields after update are Tick of the fields before; the NPC stays well formed |
| `NpcBehaviour.Npc.UpdateAlert` | js/npc.js:37-45 | the detection block is Perceive on the fields |
| `NpcBehaviour.Npc.UpdateAnimation` | js/npc.js:47-54 | the animation block is Animate on the fields |
| `NpcBehaviour.Npc.IdleBehavior` | js/npc.js:57-65 | idleBehavior is IdleStep on the fields |
| `NpcBehaviour.Npc.PatrolBehavior` | js/npc.js:67-93 | patrolBehavior is PatrolStep on the fields |
| `NpcBehaviour.Npc.MoveAlong` | js/npc.js:84-91 | the shared move-and-face block is StepToward on the fields |
| `NpcBehaviour.Npc.ChaseBehavior` | js/npc.js:95-115 | chaseBehavior is ChaseStep on the fields |
| `NpcBehaviour.Npc.CanSeePlayer` | js/npc.js:117-139 | the loop-based view-cone test returns exactly the reference test: the player is within detectionRange and the angular distance to the bearing is at most half of detectionAngle |
| `Stealth.Increased` | js/stealth.js:18-24 | the meter never exceeds MAX_SUSPICION; it is the sum or MAX; with room it is the sum; a non-negative amount never lowers an in-range meter, and adding 0 leaves it as it is |
| `Stealth.Decreased` | js/stealth.js:26-29 | the meter is never negative; it is the difference or 0; a non-negative amount never raises it and keeps it under MAX |
| `Stealth.AnyChasing` | js/stealth.js:31-33 | true iff some state in the list is Chase |
| `Stealth.Decayed` | js/stealth.js:6-11 | with a chaser the meter is unchanged; without one it decays, floored at 0; the tick never raises the meter, keeps it in range, and leaves 0 at 0 |
| `Stealth.StealthSystem.constructor` | js/stealth.js:2-4 | the meter starts at 0 |
| `Stealth.StealthSystem.Update` | js/stealth.js:6-16 | the meter after update is Decayed, with the chase test over the given NPCs |
| `Stealth.StealthSystem.IncreaseSuspicion` | js/stealth.js:18-24 | the meter after the call is Increased |
| `Stealth.StealthSystem.DecreaseSuspicion` | js/stealth.js:26-29 | the meter after the call is Decreased |
| `Stealth.StealthSystem.IsPlayerDetected` | js/stealth.js:31-33 | true iff some NPC of the list is in Chase |
| `Stealth.RunStaysInRange` | js/stealth.js:6-29 | from an in-range start, with non-negative amounts and steps, the meter stays in [0, MAX] through any sequence of increases, decreases and ticks |
| `Stealth.QuietTicksNeverRaise` | js/stealth.js:6-11 | with no chaser, any run of ticks ends no higher than it started and never below 0 |
| `Evidence.NamedMeans` | js/evidence.js:27-29 | the name query is true iff some entry carries exactly that name |
| `Evidence.NamedAfterAppend` | js/evidence.js:16-29 | after an append, a name is present iff it was present before or is the new entry's |
| `Evidence.PanelFor` | js/evidence.js:41-61 | the panel lists evidence, items or notes according to the tab, or shows the empty message when that list is empty; an unknown tab throws; a listing is never empty |
| `Evidence.EvidenceSystem.constructor` | js/evidence.js:2-7 | all three lists start empty and the tab is "evidence" |
| `Evidence.EvidenceSystem.CollectEvidence` | js/evidence.js:9-14 | the entry is appended to evidence; items, notes and tab are unchanged |
| `Evidence.EvidenceSystem.AddItem` | js/evidence.js:16-20 | the item is appended to items; the rest is unchanged |
| `Evidence.EvidenceSystem.AddNote` | js/evidence.js:22-25 | the note is appended to notes; the rest is unchanged |
| `Evidence.EvidenceSystem.HasItem` | js/evidence.js:27-29 | true iff some item has exactly that name |
| `Evidence.FreshInventoryIsEmpty` | js/evidence.js:2-7 | a new inventory shows the empty message on its starting tab |
| `Evidence.CollectedEvidenceIsListed` | js/evidence.js:9-14 | on the evidence tab, collected evidence is always listed, last, after the earlier entries |
| `PlayerController.ShippedBindings` | js/config.js:44-53 | the shipped key lists have no forward or backward list; Shift sprints and space jumps |
| `PlayerController.Initial` | js/player.js:3-45 | a new player stands at eye height with full health and stamina, cannot jump yet, and has no flag set and no key recorded |
| `PlayerController.AnyPressed` | js/player.js:247-249 | isKeyPressed: true only when some listed key is recorded as down, and true whenever one is; AnyPressedMeans states the same by index |
| `PlayerController.AnyPressedMeans` | js/player.js:247-249 | isKeyPressed is true iff some listed key is recorded as down |
| `PlayerController.Collides` | js/player.js:198-225 | any position beyond 19.5 on either axis collides |
| `PlayerController.CollisionFreeRegions` | js/player.js:198-225 | inside the outer walls, no obstacle lies in the band -8 ≤ z ≤ 4.5, in the side strips with \|x\| ≥ 10.5, or in the back area with z ≥ 5.5 and \|x\| ≤ 9.5 |
| `PlayerController.Speed` | js/player.js:126-133 | run speed iff sprinting with stamina left and not crouching; walk speed iff sprinting-with-stamina equals crouching; half walk speed iff crouching without a run; crouching is never faster than walking; speed is positive |
| `PlayerController.RawDirection` | js/player.js:116-119 | the stated cases of the sum of the pressed directions: opposite pairs cancel, forward alone (left and right agreeing) is the forward vector, right alone (forward and backward agreeing) the right vector; RawDirectionIsSignedSum states the whole sum |
| `PlayerController.Axis` | js/player.js:116-119 | a pair of opposite keys contributes +1 for the positive key alone, -1 for the negative key alone and 0 for both or neither |
| `PlayerController.RawDirectionIsSignedSum` | js/player.js:116-119 | the sum is Axis(forward, backward) times the forward vector plus Axis(right, left) times the right vector; so backward alone goes along -forward, left alone along -right, and forward with right along their sum |
| `PlayerController.Direction` | js/player.js:106-124 | no movement flag gives the zero direction; so do forward with backward when left and right agree, left with right when forward and backward agree, and any zero sum of the pressed directions; DirectionFollowsKeys states which way it points |
| `PlayerController.DirectionFollowsKeys` | js/player.js:116-124 | whatever the host's square root returns, the direction lies on the line of the pressed directions' sum and, unless they cancel out, points the same way (zero cross product, positive dot product) |
| `PlayerController.DirectionIsUnit` | js/player.js:121-124 | with an exact square root, a non-zero sum of the pressed directions is normalised to a unit vector parallel to it and pointing the same way |
| `PlayerController.Accelerate` | js/player.js:135-140 | gravity lowers the vertical velocity by 9.8·dt; without a movement flag the horizontal velocity is 0; the position is untouched; VelocityHasSpeed and VelocityFollowsKeys state that the horizontal velocity is the direction times the speed and points the way of the keys |
| `PlayerController.VelocityHasSpeed` | js/player.js:121-137 | the horizontal velocity is the direction times the speed chosen for the tick; with an exact square root and pressed directions that do not cancel out, its length is exactly that speed |
| `PlayerController.VelocityFollowsKeys` | js/player.js:116-137 | the horizontal velocity lies on the line of the pressed directions' sum and, unless they cancel out, points the same way |
| `PlayerController.AlongVelocity` | js/player.js:143-144 | the new position is the old one plus the velocity times dt·60, on every axis; the velocity is kept |
| `PlayerController.Integrate` | js/player.js:135-144 | the horizontal velocity is the one Accelerate chooses and gravity lowers the vertical one; the candidate position is one tick along the new velocity; with no movement flag the player does not move horizontally |
| `PlayerController.MoveCoversSpeed` | js/player.js:121-144 | with an exact square root and pressed directions that do not cancel out, the candidate position lies exactly speed·dt·60 from the start |
| `PlayerController.RejectCollision` | js/player.js:146-151 | a colliding candidate reverts to the position before the tick with horizontal velocity 0; a free one is kept; a free start never ends colliding |
| `PlayerController.SnapToGround` | js/player.js:153-158 | a player at or below eye height is put at exactly eye height with no vertical speed and a jump allowed; above it nothing changes; the player always ends at or above eye height |
| `PlayerController.StaminaStep` | js/player.js:163-175 | while sprinting and moving, stamina drops by STAMINA_DRAIN_RATE·dt, and a drain to 0 or below sets it to exactly 0 and ends the sprint; otherwise it rises by STAMINA_REGEN_RATE·dt, capped at MAX_STAMINA, and the flags are kept; an in-range stamina stays in range |
| `PlayerController.Tick` | js/player.js:99-182 | one update leaves health and the pressed keys alone |
| `PlayerController.TickProperties` | js/player.js:99-182 | after one update: a free candidate position is taken with its velocity; a colliding one is rejected whole; a clear position stays clear; a player at or below 1.6 after that is put at exactly 1.6 with no vertical speed and a jump allowed, otherwise motion and canJump are kept; stamina drains by the drain rate while sprinting and moving (to exactly 0 with the sprint ended once it runs dry) and otherwise regenerates, capped; only the sprint flag can change |
| `PlayerController.SpawnIsClear` | js/player.js:8 | the spawn point is clear of every obstacle |
| `PlayerController.Damaged` | js/player.js:227-230 | health is never below 0; it is the difference or 0; damage never raises it |
| `PlayerController.Healed` | js/player.js:239-245 | health is never above MAX_HEALTH; it is the sum or MAX; healing never lowers it |
| `PlayerController.HealthStaysInRange` | js/player.js:227-245 | with non-negative amounts, health stays in [0, MAX_HEALTH] through any sequence of damage and healing |
| `PlayerController.HeldLists` | js/player.js:247-249 | each held flag is isKeyPressed of its own key list; a movement list is queried only when the configuration defines it |
| `PlayerController.PressControls` | js/player.js:51-56 | the keydown flag logic completes iff both movement lists are defined; the strafe flags are set iff already set or a key of theirs is down |
| `PlayerController.PressControlsForward` | js/player.js:53 | the forward flag is set from its list when that list is defined, and is kept when it is not |
| `PlayerController.PressControlsRest` | js/player.js:54-56 | backward, sprint and crouch are set from their lists when the handler completes, and are kept when it throws |
| `PlayerController.ReleaseControls` | js/player.js:66-71 | the keyup flag logic completes iff both movement lists are defined; a strafe flag stays set iff a key of its list is still down |
| `PlayerController.ReleaseControlsForward` | js/player.js:68 | the forward flag is cleared from its list when that list is defined, and is kept when it is not |
| `PlayerController.ReleaseControlsRest` | js/player.js:69-71 | backward, sprint and crouch are cleared when the handler completes, and are kept when it throws |
| `PlayerController.Press` | js/player.js:51-60 | only the flags, the vertical speed and canJump change; a jump happens only when allowed, only when the handler completes, and only with a jump key down; it sets the vertical speed to 5 and forbids the next jump |
| `PlayerController.KeyDown` | js/player.js:48-61 | the key is recorded as down; the handler completes iff both movement lists are defined; it never clears a flag; it changes the motion only by a jump, which happens only when allowed and the handler completes |
| `PlayerController.KeyDownSetsFlags` | js/player.js:51-56 | each flag is set exactly when it was set or one of its own keys is down: strafe flags always, forward when its list is defined, backward, sprint and crouch when the handler completes |
| `PlayerController.Release` | js/player.js:66-71 | only the flags change, by the keyup flag logic |
| `PlayerController.KeyUp` | js/player.js:63-72 | the key is recorded as up; the handler never sets a flag and changes nothing but the flags and the key map |
| `PlayerController.KeyUpClearsFlags` | js/player.js:66-71 | each flag stays set exactly when it was set and one of its own keys is still down: strafe flags always, forward when its list is defined, backward, sprint and crouch when the handler completes |
| `PlayerController.ShippedBindingsNeverSprint` | js/player.js:53-56 | with the shipped key lists, no key press completes the handler or starts a sprint or a crouch |
| `PlayerController.SprintKeyStartsSprint` | js/player.js:55 | with both movement lists defined, pressing a sprint key starts a sprint |
| `PlayerController.JumpNeedsCompleteBindings` | js/player.js:57-60 | with the shipped key lists a jump key never jumps; with both movement lists defined it jumps when allowed |
| `PlayerController.Player.constructor` | js/player.js:3-45 | a new player is Initial |
| `PlayerController.Player.Update` | js/player.js:99-182 | the fields after update are Tick of the fields before |
| `PlayerController.Player.Move` | js/player.js:105-158 | the movement part: integrate, reject a colliding move, snap to the ground |
| `PlayerController.Player.SetVelocity` | js/player.js:135-140 | the velocity is set by Accelerate |
| `PlayerController.Player.Displace` | js/player.js:143-144 | the position moves by AlongVelocity |
| `PlayerController.Player.RevertIfColliding` | js/player.js:146-151 | the collision revert is RejectCollision against the saved position |
| `PlayerController.Player.LandIfLow` | js/player.js:153-158 | the ground check is SnapToGround |
| `PlayerController.Player.UpdateStamina` | js/player.js:163-175 | the stamina block is StaminaStep |
| `PlayerController.Player.TakeDamage` | js/player.js:227-237 | health becomes Damaged and nothing else changes |
| `PlayerController.Player.Heal` | js/player.js:239-245 | health becomes Healed and nothing else changes |
| `PlayerController.Player.OnKeyDown` | js/player.js:48-61 | the keydown listener is KeyDown on the fields, and reports whether it completed |
| `PlayerController.Player.ApplyPress` | js/player.js:51-60 | the listener after recording the key is Press |
| `PlayerController.Player.PressStrafeFlags` | js/player.js:51-52 | sets the strafe flags whose keys are down |
| `PlayerController.Player.PressForwardFlag` | js/player.js:53 | sets the forward flag when its key is down |
| `PlayerController.Player.PressRestFlags` | js/player.js:54-56 | sets backward, sprint and crouch when their keys are down |
| `PlayerController.Player.JumpIfAllowed` | js/player.js:57-60 | jumps when a jump key is down and a jump is allowed |
| `PlayerController.Player.OnKeyUp` | js/player.js:63-72 | the keyup listener is KeyUp on the fields, and reports whether it completed |
| `PlayerController.Player.ApplyRelease` | js/player.js:66-71 | the listener after recording the key is Release |
| `PlayerController.Player.ReleaseStrafeFlags` | js/player.js:66-67 | clears the strafe flags whose keys are all up |
| `PlayerController.Player.ReleaseForwardFlag` | js/player.js:68 | clears the forward flag when its keys are all up |
| `PlayerController.Player.ReleaseRestFlags` | js/player.js:69-71 | clears backward, sprint and crouch when their keys are all up |
| `GameMain.Pause` | js/main.js:230-236 | the state changes iff the game is playing, and then to Paused; nothing else changes |
| `GameMain.Resume` | js/main.js:238-245 | the state changes iff the game is paused, and then to Playing with the frame clock cleared |
| `GameMain.InventoryOpened` | js/main.js:255-260 | opening is unguarded: from any state the inventory opens; the clock is kept |
| `GameMain.InventoryClosed` | js/main.js:262-269 | the state changes iff the inventory is open, and then to Playing with the frame clock cleared |
| `GameMain.BackToMenu` | js/main.js:247-253 | the state becomes MainMenu from any state; the clock is kept |
| `GameMain.Ended` | js/main.js:445-449 | game over ends at MainMenu; the clock is kept |
| `GameMain.Started` | js/main.js:214-228 | starting is unguarded and does not clear the clock |
| `GameMain.DialogueStarted` | js/main.js:344-362 | the state becomes Dialogue and one more close-key listener is registered |
| `GameMain.DialogueClosed` | js/main.js:352-360 | a close key with a listener registered returns to Playing, clears the clock and unregisters every listener; anything else changes nothing |
| `GameMain.AfterPauseKey` | js/main.js:168-175 | a pause key toggles Playing and Paused; any other key, or any other state, changes nothing |
| `GameMain.AfterInventoryKey` | js/main.js:183-191 | an inventory key opens the inventory while playing and closes it when open; otherwise nothing changes |
| `GameMain.Elapsed` | js/main.js:368-379 | a frame updates iff the game is playing and the clock is set; the step is the elapsed time in seconds |
| `GameMain.Recorded` | js/main.js:368-380 | a running game's frame records its time; otherwise nothing changes |
| `GameMain.PauseThenResume` | js/main.js:230-245 | pausing then resuming returns to the game with the clock cleared, so the next frame only records the time and the pause is never simulated |
| `GameMain.ClosingDiscardsTheGap` | js/main.js:255-269 | closing the inventory or a dialogue returns to the game with the clock cleared, so the next frame simulates nothing |
| `GameMain.NothingRunsAfterGameOver` | js/main.js:445-449 | after game over no frame updates anything and the clock is left alone |
| `GameMain.KeyListsAreDisjoint` | js/config.js:50-52 | no key is in two of the pause, interact and inventory lists |
| `GameMain.Target` | js/main.js:399-400 | NPCs look for the player at its x and z when there is a player, and see nothing otherwise |
| `GameMain.TickAll` | js/main.js:399-400 | the closed form of the update loop over the NPCs; what it keeps is that every NPC stays well formed |
| `GameMain.CreditedOncePerChaser` | js/main.js:399-419 | the NPC loop raises the meter by the base rate times dt once per NPC left chasing, clamped at MAX |
| `GameMain.CreditedIsRepeatedIncrease` | js/main.js:414-418 | crediting in order equals adding one amount per chaser and clamping once |
| `GameMain.Credited` | js/main.js:414-418 | the per-chaser credit of the NPC loop: the meter is either left as it was or ends at most MAX; CreditedOncePerChaser gives its closed form |
| `GameMain.NoChaserNoCredit` | js/main.js:414-418 | no chaser, no credit; a chaser count of 0 is the absence of a chaser |
| `GameMain.CreditedInRange` | js/main.js:414-418 | from an in-range meter, the NPC loop keeps it in range and never lowers it |
| `GameMain.Step` | js/main.js:389-430 | one update keeps every NPC well formed and the player present or absent; the state changes only to MainMenu, and only on a full meter; a full meter always ends the game |
| `GameMain.PlayerMoved` | js/main.js:394-396 | the player is updated exactly when there is one |
| `GameMain.StateAfter` | js/main.js:425-429 | the state changes only to MainMenu and only with a full meter, and always then |
| `GameMain.LongFramesAreClamped` | js/main.js:391 | a frame longer than 0.1 s simulates exactly what a 0.1 s frame does |
| `GameMain.NpcsSeeTheMovedPlayer` | js/main.js:393-400 | the player moves first with the clamped step, and the NPCs then see its new position |
| `GameMain.SuspicionAccounting` | js/main.js:398-422 | over one frame, k chasers raise the meter by k times the base rate times the step, clamped; with none it decays, floored; it stays in [0, MAX] |
| `GameMain.SuspicionAfterAccounting` | js/main.js:414-422 | the same accounting on the meter alone |
| `GameMain.Route` | js/main.js:83-87 | waypoints are the record's points divided by 100, at height 1 |
| `GameMain.Spawned` | js/main.js:73-95 | a spawned NPC is well formed, at the scaled position, with the scaled route and index 0; it patrols iff its route is non-empty, otherwise idles with a full timer; its view reaches DETECTION_RANGE / 10 and spans DETECTION_ANGLE degrees in radians |
| `GameMain.MeshFor` | js/main.js:100-106 | the mesh sits at the same scaled position at height 1, with the record's name and type |
| `GameMain.SpawnedAll` | js/main.js:73-97 | the closed form of the loader loop that LoadLevel is proved against; what each NPC is, is Spawned's contract |
| `GameMain.MeshesFor` | js/main.js:99-107 | the closed form of the mesh pushes that LoadLevel is proved against; what each mesh is, is MeshFor's contract |
| `GameMain.FindIndex` | js/main.js:306 | the first position holding the id, or -1 exactly when no object has it |
| `GameMain.RemovesExactlyTheFirst` | js/main.js:305-310 | the pickup removes the first object with the id and keeps all others in order |
| `GameMain.PickupTakesOneObject` | js/main.js:305-310 | exactly one object leaves the list when the id is present; a missing id leaves it as it is |
| `GameMain.InteractionScreen` | js/main.js:287-318 | only an NPC in reach changes the screen, by starting a dialogue |
| `GameMain.InteractsOnlyWhilePlaying` | js/main.js:168-181 | the interaction branch runs iff the game was playing when an interaction key arrived |
| `GameMain.OneBranchPerKey` | js/main.js:168-191 | a key goes to exactly one branch: pause keys only pause or resume, inventory keys only toggle the inventory, interaction keys only interact, and other keys do nothing |
| `GameMain.MapEvidence` | js/main.js:293-298 | the record carries the picked object's id, the map's name and the pickup time |
| `GameMain.SpawnNpc` | js/main.js:74-95 | a new NPC is built as the loader builds it from a record |
| `GameMain.Game.constructor` | js/main.js:3-20 | the game starts Loading with a cleared clock, no player and no NPCs, a meter at 0 and an empty inventory |
| `GameMain.Game.Init` | js/main.js:22-46 | the level's NPCs are appended, then a new player is created; the screen state is unchanged |
| `GameMain.Game.LoadLevel` | js/main.js:67-118 | one new NPC and one mesh per record, appended in lockstep and in order; nothing else changes |
| `GameMain.Game.AddNpc` | js/main.js:73-107 | one pass of the loader's loop appends one NPC and its mesh |
| `GameMain.Game.StartGame` | js/main.js:214-228 | the screen becomes Started; nothing else changes |
| `GameMain.Game.PauseGame` | js/main.js:230-236 | the screen becomes Pause of the old one |
| `GameMain.Game.ResumeGame` | js/main.js:238-245 | the screen becomes Resume of the old one |
| `GameMain.Game.ReturnToMenu` | js/main.js:247-253 | the screen becomes BackToMenu of the old one |
| `GameMain.Game.OpenInventory` | js/main.js:255-260 | the screen becomes InventoryOpened of the old one |
| `GameMain.Game.CloseInventory` | js/main.js:262-269 | the screen becomes InventoryClosed of the old one |
| `GameMain.Game.OnInventoryButton` | js/main.js:199-202 | the pause menu's inventory button pauses, then opens the inventory |
| `GameMain.Game.GameOver` | js/main.js:445-449 | the screen becomes Ended of the old one |
| `GameMain.Game.StartDialogue` | js/main.js:344-362 | the screen becomes DialogueStarted of the old one |
| `GameMain.Game.OnDialogueKey` | js/main.js:352-361 | the screen becomes DialogueClosed of the old one |
| `GameMain.Game.HandleInteraction` | js/main.js:287-318 | evidence in reach is appended to the evidence list and its first scene object is removed; an NPC starts a dialogue; otherwise nothing changes |
| `GameMain.Game.OnGameKey` | js/main.js:166-192 | the screen becomes GameKeyScreen of the old one; evidence is picked up only for an interaction key while playing |
| `GameMain.Game.GameLoop` | js/main.js:364-387 | no update unless a running game has its clock set; otherwise the time is recorded and the world takes Step with the elapsed seconds |
| `GameMain.Game.Advance` | js/main.js:378-383 | a frame of a running game with its clock set records the time and takes Step with the elapsed milliseconds converted to seconds |
| `GameMain.Game.Update` | js/main.js:389-439 | the world after update is Step of the world before |
| `GameMain.Game.UpdatePlayer` | js/main.js:393-396 | the player part of update, and where the NPCs will look for the player |
| `GameMain.Game.RunNpcs` | js/main.js:398-419 | the NPC loop on the whole world |
| `GameMain.Game.UpdateNpcs` | js/main.js:399-419 | the NPCs after the loop are TickAll of those before, and the meter is credited once per chaser in order |
| `GameMain.Game.UpdateNpcAt` | js/main.js:400-418 | one pass: the NPC updates, the others are unchanged, and the meter rises iff it is now chasing |
| `GameMain.Game.Settle` | js/main.js:421-430 | the stealth system's update, then the game-over check |
| `GameMain.Game.EndIfFull` | js/main.js:424-430 | a full meter (past the detection threshold) calls gameOver; otherwise the screen is unchanged |

## Left out

- The renderer (`js/renderer.js`) is not part of this model. That includes the 3D meshes,
  the mesh updates in the NPC loop of update, the interaction check that shows or hides
  the prompt, and rendering. The renderer's list of interactable objects is a field of
  the game; what is in reach is an input of `HandleInteraction`.
- DOM and HUD side effects: `updateHUD`, `updateSuspicionUI`, `updateBoundingBox`,
  `showNotification`, the class toggles, `alert`, mouse-capture and fullscreen calls, the
  objective text, the red flash in `takeDamage`, and `showInventory`/`hideInventory`
  (their list selection is `PanelFor`).
- `updateInventoryDisplay` calls `evidenceSystem.getEvidence()`, which the inventory does
  not define, so `openInventory` throws after it has set the state. The model keeps the
  state change; the rest of that method is DOM work.
- The camera and mouse: the Euler/quaternion work of `Player.update` and the mouse-look
  handlers. The horizontal forward and right vectors are an input (`Basis`).
- `getForwardDirection`, `setupMenu`, the mouse-capture setup of js/player.js:75-97 and the registration of event
  listeners. The key handlers are modelled as operations, and the order in which the
  browser runs several listeners for one key is not modelled.
- Asynchronous plumbing: `fetch` and JSON parsing, `simulateLoading`, `setTimeout`, and
  `requestAnimationFrame`. The error handlers of `init` and `loadLevel` are not modelled.
  `LoadLevel` takes the parsed NPC records. `GameLoop` is one call per animation frame.
- Floating point: reals stand for doubles. `Math.sqrt` and `Math.atan2` are arbitrary
  functions passed in, and there is no rounding.
- `NpcBehaviour.DivOrZero`: a chase at distance exactly 0 divides 0 by 0 in the source and
  moves the NPC to NaN. The model moves it by 0 instead.
- `triggerDetection` only logs, so the stealth system's update changes nothing after the
  decay.
- The NPC states SUSPICIOUS and ALERT exist in the configuration, but no code assigns them.
- `PlayerController.Tick` states only what one update keeps. Its other properties are
  stated by `PlayerController.TickProperties`, to keep the proofs that use Tick small.
- `NpcBehaviour.Tick` states only what one update keeps. How perception overrides the
  behaviour is stated by `NpcBehaviour.PerceptionOverridesBehaviour`.
- `PlayerController.Jump` has no contract of its own. Its effect is stated by `Press` and
  `KeyDown`.

## Findings

| source | as written | input that shows it | evidently intended | confidence | as-written member | corrected member |
|---|---|---|---|---|---|---|
| js/player.js:53-54 | The keydown and keyup handlers read the MOVE_FORWARD and MOVE_BACKWARD key lists, which js/config.js:44-53 does not define. `isKeyPressed(undefined)` throws, so each handler stops before the forward, backward, sprint, crouch and jump lines. | any key press, for example "Shift" or " " | a sprint key starts a sprint, a jump key jumps when allowed, and the forward and backward keys move the player | high; not executed | `PlayerController.ShippedBindingsNeverSprint` | `PlayerController.SprintKeyStartsSprint` |
