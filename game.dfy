/** The game object: the screen state machine (menu, playing, paused, inventory,
    dialogue), the frame loop with its timing guard, the per-frame update that runs the
    player, the NPCs and the suspicion meter in a fixed order, the level loader's mapping
    from level records to NPCs, and the pickup of evidence. */
module GameMain {
  import opened Optional
  import opened Config
  import opened Geometry
  import NpcBehaviour
  import Stealth
  import PlayerController
  import Evidence

  /** The longest time step one frame may simulate, in seconds. */
  const MAX_FRAME_TIME: real := 0.1
  /** Level files use pixels; the 3D world uses units of 100 pixels. */
  const LEVEL_SCALE: real := 100.0
  /** The height at which NPCs and their waypoints are placed. */
  const GROUND_Y: real := 1.0
  /** Milliseconds per second, for the frame timestamps. */
  const MS_PER_SECOND: real := 1000.0

  const PAUSE_KEYS: seq<string> := ["Escape", "p", "P"]
  const INTERACT_KEYS: seq<string> := ["e", "E", "Enter"]
  const INVENTORY_KEYS: seq<string> := ["Tab", "i", "I"]
  /** The keys that close an open dialogue. */
  const DIALOGUE_KEYS: seq<string> := ["e", "E", "Enter", "Escape"]

  const MAP_NAME: string := "Hospital Map"
  const MAP_DESCRIPTION: string :=
    "A detailed layout of Saint Cross Hospital showing all floors and departments."

  datatype GameState = Loading | MainMenu | Playing | Paused | Dialogue | Inventory | GameOver | LevelComplete

  /** What the menus and key handlers change: the game state, the timestamp of the last
      frame (0 meaning "not yet recorded"), and how many dialogue close-key listeners are
      registered (each dialogue that is started registers one more). */
  datatype Screen = Screen(state: GameState, lastTime: real, dialogueListeners: nat)

  // ---------------------------------------------------------------------------------
  // Screen transitions

  /** pauseGame: only a running game is paused. */
  function Pause(s: Screen): (r: Screen)
    ensures r.state != s.state <==> s.state == Playing
    ensures s.state == Playing ==> r.state == Paused
    ensures r == s.(state := r.state)
  {
    if s.state == Playing then s.(state := Paused) else s
  }

  /** resumeGame: only a paused game resumes, and the frame clock is cleared so that the
      time spent paused is never simulated. */
  function Resume(s: Screen): (r: Screen)
    ensures r.state != s.state <==> s.state == Paused
    ensures s.state == Paused ==> r.state == Playing && r.lastTime == 0.0
    ensures s.state != Paused ==> r == s
    ensures r.dialogueListeners == s.dialogueListeners
  {
    if s.state == Paused then s.(state := Playing, lastTime := 0.0) else s
  }

  /** openInventory: unguarded, it opens the inventory from any state. */
  function InventoryOpened(s: Screen): (r: Screen)
    ensures r.state == Inventory
    ensures r.lastTime == s.lastTime && r.dialogueListeners == s.dialogueListeners
  {
    s.(state := Inventory)
  }

  /** closeInventory: only an open inventory closes, back to the running game, with the
      frame clock cleared. */
  function InventoryClosed(s: Screen): (r: Screen)
    ensures r.state != s.state <==> s.state == Inventory
    ensures s.state == Inventory ==> r.state == Playing && r.lastTime == 0.0
    ensures s.state != Inventory ==> r == s
    ensures r.dialogueListeners == s.dialogueListeners
  {
    if s.state == Inventory then s.(state := Playing, lastTime := 0.0) else s
  }

  /** returnToMenu: unguarded. */
  function BackToMenu(s: Screen): (r: Screen)
    ensures r.state == MainMenu
    ensures r.lastTime == s.lastTime && r.dialogueListeners == s.dialogueListeners
  {
    s.(state := MainMenu)
  }

  /** gameOver: the state passes through GAME_OVER and ends at MAIN_MENU. */
  function Ended(s: Screen): (r: Screen)
    ensures r.state == MainMenu
    ensures r.lastTime == s.lastTime && r.dialogueListeners == s.dialogueListeners
  {
    BackToMenu(s.(state := GameOver))
  }

  /** startGame: unguarded; the frame clock is not cleared. */
  function Started(s: Screen): (r: Screen)
    ensures r.state == Playing
    ensures r.lastTime == s.lastTime && r.dialogueListeners == s.dialogueListeners
  {
    s.(state := Playing)
  }

  /** startDialogue: enters the dialogue and registers one more close-key listener. */
  function DialogueStarted(s: Screen): (r: Screen)
    ensures r.state == Dialogue && r.dialogueListeners == s.dialogueListeners + 1
    ensures r.lastTime == s.lastTime
  {
    s.(state := Dialogue, dialogueListeners := s.dialogueListeners + 1)
  }

  /** A key reaching the registered close-key listeners: a close key makes each of them
      return to the game, clear the frame clock and unregister itself; any other key is
      ignored. */
  function DialogueClosed(s: Screen, key: string): (r: Screen)
    ensures r != s ==> s.dialogueListeners > 0 && key in DIALOGUE_KEYS
    ensures s.dialogueListeners > 0 && key in DIALOGUE_KEYS ==> r == Screen(Playing, 0.0, 0)
  {
    if s.dialogueListeners > 0 && key in DIALOGUE_KEYS then Screen(Playing, 0.0, 0) else s
  }

  /** The pause branch of the game's key listener: a pause key toggles between playing
      and paused. */
  function AfterPauseKey(s: Screen, key: string): (r: Screen)
    ensures key !in PAUSE_KEYS ==> r == s
    ensures key in PAUSE_KEYS ==> r == (if s.state == Playing then Pause(s) else Resume(s))
    ensures r.state != s.state ==> key in PAUSE_KEYS && (s.state == Playing || s.state == Paused)
  {
    if s.state == Playing && key in PAUSE_KEYS then Pause(s)
    else if s.state == Paused && key in PAUSE_KEYS then Resume(s)
    else s
  }

  /** The inventory branch of the game's key listener: an inventory key toggles between
      playing and the inventory. */
  function AfterInventoryKey(s: Screen, key: string): (r: Screen)
    ensures key !in INVENTORY_KEYS ==> r == s
    ensures r.state != s.state ==> key in INVENTORY_KEYS && (s.state == Playing || s.state == Inventory)
    ensures key in INVENTORY_KEYS && s.state == Playing ==> r == InventoryOpened(s)
    ensures key in INVENTORY_KEYS && s.state == Inventory ==> r == InventoryClosed(s)
  {
    if key in INVENTORY_KEYS then
      if s.state == Playing then InventoryOpened(s)
      else if s.state == Inventory then InventoryClosed(s)
      else s
    else s
  }

  /** The frame loop's timing guard: the time step to simulate, or None when the frame
      does no update (the game is not running, or this is the first frame since the
      clock was cleared). */
  function Elapsed(s: Screen, currentTime: real): (r: Option<real>)
    ensures r.Some? <==> s.state == Playing && s.lastTime != 0.0
    ensures r.Some? ==> r.value * MS_PER_SECOND == currentTime - s.lastTime
  {
    if s.state != Playing || s.lastTime == 0.0 then None
    else Some((currentTime - s.lastTime) / MS_PER_SECOND)
  }

  /** The frame clock after a frame: every frame of a running game records its time. */
  function Recorded(s: Screen, currentTime: real): (r: Screen)
    ensures s.state == Playing ==> r == s.(lastTime := currentTime)
    ensures s.state != Playing ==> r == s
  {
    if s.state == Playing then s.(lastTime := currentTime) else s
  }

  /** Pausing and resuming returns to the game, and the next frame only records the time:
      the time spent paused is never simulated. */
  lemma PauseThenResume(s: Screen, t: real)
    requires s.state == Playing
    ensures Resume(Pause(s)) == s.(lastTime := 0.0)
    ensures Elapsed(Resume(Pause(s)), t) == None
    ensures Elapsed(Recorded(Resume(Pause(s)), t), t) == (if t == 0.0 then None else Some(0.0))
  {
  }

  /** The same holds for the inventory and for a dialogue. */
  lemma ClosingDiscardsTheGap(s: Screen, key: string, t: real)
    ensures Elapsed(InventoryClosed(InventoryOpened(s)), t) == None
    ensures InventoryClosed(InventoryOpened(s)).state == Playing
    ensures key in DIALOGUE_KEYS ==>
      DialogueClosed(DialogueStarted(s), key) == Screen(Playing, 0.0, 0) &&
      Elapsed(DialogueClosed(DialogueStarted(s), key), t) == None
  {
  }

  /** No frame simulates anything between a game over and the next start of the game. */
  lemma NothingRunsAfterGameOver(s: Screen, t: real)
    ensures Elapsed(Ended(s), t) == None
    ensures Recorded(Ended(s), t) == Ended(s)
  {
  }

  /** A pause key never opens the inventory and an interaction key neither pauses nor
      opens it: the three key lists are disjoint. */
  lemma KeyListsAreDisjoint(key: string)
    ensures !(key in PAUSE_KEYS && key in INVENTORY_KEYS)
    ensures !(key in PAUSE_KEYS && key in INTERACT_KEYS)
    ensures !(key in INTERACT_KEYS && key in INVENTORY_KEYS)
  {
  }

  // ---------------------------------------------------------------------------------
  // The per-frame update

  /** The part of the game the frame update changes. */
  datatype World = World(
    state: GameState, suspicion: real,
    player: Option<PlayerController.Body>, agents: seq<NpcBehaviour.Agent>)

  /** Where the NPCs look for the player: its position, or nothing when there is no
      player yet. */
  function Target(player: Option<PlayerController.Body>): (r: Option<NpcBehaviour.Point>)
    ensures r.Some? <==> player.Some?
    ensures player.Some? ==> r.value.x == player.value.motion.x && r.value.z == player.value.motion.z
  {
    match player
    case None => None
    case Some(b) => Some(NpcBehaviour.Point(b.motion.x, b.motion.z))
  }

  predicate AllWellFormed(agents: seq<NpcBehaviour.Agent>)
  {
    forall i :: 0 <= i < |agents| ==> NpcBehaviour.WellFormed(agents[i])
  }

  /** Every NPC, in order, takes its own update. */
  function TickAll(agents: seq<NpcBehaviour.Agent>, dt: real, target: Option<NpcBehaviour.Point>, m: MathOps)
    : (r: seq<NpcBehaviour.Agent>)
    requires AllWellFormed(agents)
    ensures |r| == |agents| && AllWellFormed(r)
    ensures forall i :: 0 <= i < |r| ==> r[i] == NpcBehaviour.Tick(agents[i], dt, target, m)
  {
    seq(|agents|, i requires 0 <= i < |agents| => NpcBehaviour.Tick(agents[i], dt, target, m))
  }

  function StatesOf(agents: seq<NpcBehaviour.Agent>): (r: seq<NpcBehaviour.NpcState>)
    ensures |r| == |agents| && forall i :: 0 <= i < |r| ==> r[i] == agents[i].state
  {
    seq(|agents|, i requires 0 <= i < |agents| => agents[i].state)
  }

  /** How many of the states are Chase. */
  function ChaseCount(states: seq<NpcBehaviour.NpcState>): nat
    decreases |states|
  {
    if states == [] then 0
    else ChaseCount(states[..|states| - 1]) + (if states[|states| - 1] == NpcBehaviour.Chase then 1 else 0)
  }

  /** The meter after the NPC loop: one increase of amount for each chasing NPC, in the
      order of the list. */
  function Credited(s: real, states: seq<NpcBehaviour.NpcState>, amount: real): (r: real)
    ensures r == s || r <= MAX_SUSPICION
    decreases |states|
  {
    if states == [] then s
    else
      var before := Credited(s, states[..|states| - 1], amount);
      if states[|states| - 1] == NpcBehaviour.Chase then Stealth.Increased(before, amount) else before
  }

  /** Crediting once per chaser adds the amount once for each chasing NPC, clamped at
      the maximum. */
  lemma {:induction false} CreditedOncePerChaser(s: real, states: seq<NpcBehaviour.NpcState>, amount: real)
    requires s <= MAX_SUSPICION && 0.0 <= amount
    ensures Credited(s, states, amount) == Min(s + ChaseCount(states) as real * amount, MAX_SUSPICION)
  {
    CreditedIsRepeatedIncrease(s, states, amount);
    RepeatedIsProduct(ChaseCount(states), amount);
    var total := s + Repeated(ChaseCount(states), amount);
    assert total == s + ChaseCount(states) as real * amount;
    assert Credited(s, states, amount) == Min(total, MAX_SUSPICION);
  }

  /** k copies of a, added up. */
  function Repeated(k: nat, a: real): real
  {
    if k == 0 then 0.0 else Repeated(k - 1, a) + a
  }

  lemma {:induction false} CreditedIsRepeatedIncrease(s: real, states: seq<NpcBehaviour.NpcState>, amount: real)
    requires s <= MAX_SUSPICION && 0.0 <= amount
    ensures Credited(s, states, amount) == Min(s + Repeated(ChaseCount(states), amount), MAX_SUSPICION)
    decreases |states|
  {
    if states != [] {
      var front := states[..|states| - 1];
      CreditedIsRepeatedIncrease(s, front, amount);
      if states[|states| - 1] == NpcBehaviour.Chase {
        ClampTwice(s + Repeated(ChaseCount(front), amount), amount, MAX_SUSPICION);
      }
    }
  }

  lemma {:induction false} RepeatedIsProduct(k: nat, a: real)
    ensures Repeated(k, a) == k as real * a
  {
    if k > 0 {
      RepeatedIsProduct(k - 1, a);
      assert (k - 1) as real * a + a == k as real * a;
    }
  }

  /** Clamping, adding a non-negative amount and clamping again is adding, then clamping. */
  lemma ClampTwice(x: real, a: real, bound: real)
    requires 0.0 <= a
    ensures Min(Min(x, bound) + a, bound) == Min(x + a, bound)
  {
  }

  /** No chaser, no change; and a count of zero is exactly the absence of a chaser. */
  lemma {:induction false} NoChaserNoCredit(s: real, states: seq<NpcBehaviour.NpcState>, amount: real)
    ensures ChaseCount(states) == 0 <==> !Stealth.AnyChasing(states)
    ensures !Stealth.AnyChasing(states) ==> Credited(s, states, amount) == s
    decreases |states|
  {
    if states != [] {
      var front := states[..|states| - 1];
      NoChaserNoCredit(s, front, amount);
      assert states == front + [states[|states| - 1]];
      assert forall i :: 0 <= i < |front| ==> front[i] == states[i];
    }
  }

  /** Starting in range, crediting stays in range. */
  lemma {:induction false} CreditedInRange(s: real, states: seq<NpcBehaviour.NpcState>, amount: real)
    requires 0.0 <= s <= MAX_SUSPICION && 0.0 <= amount
    ensures s <= Credited(s, states, amount) <= MAX_SUSPICION
    decreases |states|
  {
    if states != [] {
      CreditedInRange(s, states[..|states| - 1], amount);
    }
  }

  /** The NPCs' view of the meter's final value for one frame: credit per chaser, then the
      stealth system's own decay. */
  function SuspicionAfter(s: real, states: seq<NpcBehaviour.NpcState>, dt: real): real
  {
    Stealth.Decayed(Credited(s, states, SUSPICION_INCREASE_BASE * dt), dt, Stealth.AnyChasing(states))
  }

  /** Game.update on the values it changes. The time step is clamped first; then the
      player moves; then each NPC updates, seeing the player where it has just moved to;
      then each chasing NPC raises the meter once; then the meter decays if nobody chases;
      last, a full meter ends the game. */
  function Step(w: World, dt: real, basis: PlayerController.Basis, m: MathOps): (r: World)
    requires AllWellFormed(w.agents)
    ensures |r.agents| == |w.agents| && AllWellFormed(r.agents)
    ensures r.player.Some? <==> w.player.Some?
    ensures r.state != w.state ==> r.state == MainMenu && r.suspicion >= MAX_SUSPICION
    ensures r.suspicion >= MAX_SUSPICION ==> r.state == MainMenu
  {
    var d := Min(dt, MAX_FRAME_TIME);
    Settled(NpcsRan(Moved(w, d, basis, m), d, m), d)
  }

  /** The first part of a frame: the player moves. */
  function Moved(w: World, d: real, basis: PlayerController.Basis, m: MathOps): World
  {
    w.(player := PlayerMoved(w.player, d, basis, m))
  }

  /** The NPC loop of a frame: each NPC updates, seeing the player where it now is, and
      each one left chasing credits the meter. */
  function NpcsRan(w: World, d: real, m: MathOps): World
    requires AllWellFormed(w.agents)
  {
    var agents := TickAll(w.agents, d, Target(w.player), m);
    w.(agents := agents, suspicion := Credited(w.suspicion, StatesOf(agents), SUSPICION_INCREASE_BASE * d))
  }

  /** The end of a frame: the meter decays unless someone chases, and a full meter ends
      the game. */
  function Settled(w: World, d: real): World
  {
    var s := Stealth.Decayed(w.suspicion, d, Stealth.AnyChasing(StatesOf(w.agents)));
    w.(suspicion := s, state := StateAfter(w.state, s))
  }

  /** The player after its update, when there is one. */
  function PlayerMoved(player: Option<PlayerController.Body>, d: real, basis: PlayerController.Basis, m: MathOps)
    : (r: Option<PlayerController.Body>)
    ensures r.Some? <==> player.Some?
  {
    if player.Some? then Some(PlayerController.Tick(player.value, d, basis, m)) else None
  }

  /** The game state after the frame's final check: a full meter (which is also past the
      detection threshold) calls gameOver, which passes through GAME_OVER and leaves the
      state at MAIN_MENU (see Ended). */
  function StateAfter(state: GameState, suspicion: real): (r: GameState)
    ensures r != state ==> r == MainMenu && suspicion >= MAX_SUSPICION
    ensures suspicion >= MAX_SUSPICION ==> r == MainMenu
  {
    var gameOver := suspicion >= DETECTION_THRESHOLD && suspicion >= MAX_SUSPICION;
    if gameOver then MainMenu else state
  }

  /** Every system sees the clamped time step: a long frame simulates exactly what a
      frame of MAX_FRAME_TIME does. */
  lemma LongFramesAreClamped(w: World, dt: real, basis: PlayerController.Basis, m: MathOps)
    requires AllWellFormed(w.agents)
    requires dt >= MAX_FRAME_TIME
    ensures Step(w, dt, basis, m) == Step(w, MAX_FRAME_TIME, basis, m)
  {
  }

  /** The update order: the player moves first, and the NPCs then see the position it
      has just moved to. */
  lemma NpcsSeeTheMovedPlayer(w: World, dt: real, basis: PlayerController.Basis, m: MathOps)
    requires AllWellFormed(w.agents)
    ensures var r := Step(w, dt, basis, m);
      var d := Min(dt, MAX_FRAME_TIME);
      && (w.player.Some? ==> r.player == Some(PlayerController.Tick(w.player.value, d, basis, m)))
      && (w.player.None? ==> r.player.None?)
      && r.agents == TickAll(w.agents, d, Target(r.player), m)
  {
  }

  /** The meter's accounting over one frame, for a meter in range and a non-negative step:
      with k NPCs chasing after their own updates, it rises by k copies of the base rate
      times the step (k times it, by RepeatedIsProduct), clamped; with none, it decays by the decay rate times the step, floored. */
  lemma {:induction false} SuspicionAccounting(w: World, dt: real, basis: PlayerController.Basis, m: MathOps)
    requires AllWellFormed(w.agents)
    requires 0.0 <= w.suspicion <= MAX_SUSPICION && 0.0 <= dt
    ensures var r := Step(w, dt, basis, m);
      var d := Min(dt, MAX_FRAME_TIME);
      var k := ChaseCount(StatesOf(r.agents));
      && (k > 0 ==> r.suspicion == Min(w.suspicion + Repeated(k, SUSPICION_INCREASE_BASE * d), MAX_SUSPICION))
      && (k == 0 ==> r.suspicion == Stealth.Decreased(w.suspicion, SUSPICION_DECAY_RATE * d))
      && 0.0 <= r.suspicion <= MAX_SUSPICION
  {
    var d := Min(dt, MAX_FRAME_TIME);
    var ran := NpcsRan(Moved(w, d, basis, m), d, m);
    assert Step(w, dt, basis, m) == Settled(ran, d);
    assert ran.suspicion == Credited(w.suspicion, StatesOf(ran.agents), SUSPICION_INCREASE_BASE * d);
    SuspicionAfterAccounting(w.suspicion, StatesOf(ran.agents), d);
  }

  /** SuspicionAccounting on the meter alone. */
  lemma SuspicionAfterAccounting(s: real, states: seq<NpcBehaviour.NpcState>, d: real)
    requires 0.0 <= s <= MAX_SUSPICION && 0.0 <= d
    ensures ChaseCount(states) > 0 ==>
      SuspicionAfter(s, states, d) == Min(s + Repeated(ChaseCount(states), SUSPICION_INCREASE_BASE * d), MAX_SUSPICION)
    ensures ChaseCount(states) == 0 ==>
      SuspicionAfter(s, states, d) == Stealth.Decreased(s, SUSPICION_DECAY_RATE * d)
    ensures 0.0 <= SuspicionAfter(s, states, d) <= MAX_SUSPICION
  {
    CreditedIsRepeatedIncrease(s, states, SUSPICION_INCREASE_BASE * d);
    NoChaserNoCredit(s, states, SUSPICION_INCREASE_BASE * d);
    CreditedInRange(s, states, SUSPICION_INCREASE_BASE * d);
  }



  // ---------------------------------------------------------------------------------
  // Level loading

  /** A point of the level file, in pixels; its y is the world's z. */
  datatype LevelPoint = LevelPoint(x: real, y: real)

  /** One NPC record of the parsed level file. */
  datatype NpcRecord = NpcRecord(position: LevelPoint, kind: string, name: string, patrolPoints: seq<LevelPoint>)

  /** The arguments the loader passes to the renderer for an NPC's mesh. */
  datatype MeshSpec = MeshSpec(x: real, y: real, z: real, name: string, kind: string)

  /** The route of a record in world units: scaled down by LEVEL_SCALE, on the ground. */
  function Route(points: seq<LevelPoint>): (r: seq<NpcBehaviour.Waypoint>)
    ensures |r| == |points|
    ensures forall i :: 0 <= i < |r| ==>
      r[i].x * LEVEL_SCALE == points[i].x && r[i].z * LEVEL_SCALE == points[i].y && r[i].y == GROUND_Y
  {
    seq(|points|, i requires 0 <= i < |points| =>
      NpcBehaviour.Waypoint(points[i].x / LEVEL_SCALE, GROUND_Y, points[i].y / LEVEL_SCALE))
  }

  /** The NPC the loader makes from a record: a new NPC at the scaled position, given the
      scaled route, patrolling when the route is non-empty and otherwise idling with a
      full idle timer. */
  function Spawned(rec: NpcRecord): (a: NpcBehaviour.Agent)
    ensures NpcBehaviour.WellFormed(a)
    ensures a.state == NpcBehaviour.Patrol <==> |rec.patrolPoints| > 0
    ensures a.state == NpcBehaviour.Idle <==> |rec.patrolPoints| == 0
    ensures a.idleTimer == a.idleDuration
    ensures a.x * LEVEL_SCALE == rec.position.x && a.z * LEVEL_SCALE == rec.position.y
    ensures a.patrolPoints == Route(rec.patrolPoints) && a.currentPatrolIndex == 0
    ensures a.alertLevel == 0.0
    ensures a.detectionRange == DETECTION_RANGE / 10.0 && a.detectionAngle == DETECTION_ANGLE * (PI / 180.0)
  {
    var points := Route(rec.patrolPoints);
    var made := NpcBehaviour.Agent(rec.position.x / LEVEL_SCALE, rec.position.y / LEVEL_SCALE, 0.0,
      NpcBehaviour.Idle, 0.0, NpcBehaviour.IDLE_DURATION, 0, 0, 0.0, [], NpcBehaviour.IDLE_DURATION,
      DETECTION_RANGE / 10.0, DETECTION_ANGLE * (PI / 180.0));
    var routed := made.(patrolPoints := points);
    if |points| > 0 then routed.(state := NpcBehaviour.Patrol)
    else routed.(state := NpcBehaviour.Idle, idleTimer := routed.idleDuration)
  }

  /** The mesh for a record: the same scaled position, on the ground. */
  function MeshFor(rec: NpcRecord): (r: MeshSpec)
    ensures r.x * LEVEL_SCALE == rec.position.x && r.z * LEVEL_SCALE == rec.position.y
    ensures r.y == GROUND_Y && r.name == rec.name && r.kind == rec.kind
  {
    MeshSpec(rec.position.x / LEVEL_SCALE, GROUND_Y, rec.position.y / LEVEL_SCALE, rec.name, rec.kind)
  }

  function SpawnedAll(records: seq<NpcRecord>): (r: seq<NpcBehaviour.Agent>)
    ensures |r| == |records| && forall i :: 0 <= i < |r| ==> r[i] == Spawned(records[i])
  {
    seq(|records|, i requires 0 <= i < |records| => Spawned(records[i]))
  }

  function MeshesFor(records: seq<NpcRecord>): (r: seq<MeshSpec>)
    ensures |r| == |records| && forall i :: 0 <= i < |r| ==> r[i] == MeshFor(records[i])
  {
    seq(|records|, i requires 0 <= i < |records| => MeshFor(records[i]))
  }

  // ---------------------------------------------------------------------------------
  // Picking up evidence

  /** The data of an interactable scene object. */
  datatype Interactable = Interactable(id: string, kind: string, name: string)

  /** findIndex by id: the first position holding that id, or -1. */
  function FindIndex(objects: seq<Interactable>, id: string): (r: int)
    ensures -1 <= r < |objects|
    ensures r == -1 <==> forall j :: 0 <= j < |objects| ==> objects[j].id != id
    ensures 0 <= r ==> objects[r].id == id && forall j :: 0 <= j < r ==> objects[j].id != id
  {
    if objects == [] then -1
    else if objects[0].id == id then 0
    else
      var k := FindIndex(objects[1..], id);
      if k == -1 then -1 else k + 1
  }

  /** The list after the pickup: splice at the found index, or unchanged when absent. */
  function WithoutFirst(objects: seq<Interactable>, id: string): (r: seq<Interactable>)
  {
    var index := FindIndex(objects, id);
    if index > -1 then objects[..index] + objects[index + 1..] else objects
  }

  /** The pickup removes exactly the first object with the id and keeps the rest in order. */
  lemma RemovesExactlyTheFirst(objects: seq<Interactable>, id: string)
    requires FindIndex(objects, id) >= 0
    ensures var r := WithoutFirst(objects, id);
      var k := FindIndex(objects, id);
      |r| == |objects| - 1 &&
      (forall j :: 0 <= j < k ==> r[j] == objects[j] && r[j].id != id) &&
      (forall j :: k <= j < |r| ==> r[j] == objects[j + 1])
  {
    var k := FindIndex(objects, id);
    var r := WithoutFirst(objects, id);
    assert r == objects[..k] + objects[k + 1..];
    assert forall j :: 0 <= j < k ==> r[j] == objects[..k][j];
    assert forall j :: k <= j < |r| ==> r[j] == objects[k + 1..][j - k];
  }

  /** The pickup takes one object with the id out of the list and no other; a list without
      that id is left as it is. */
  lemma PickupTakesOneObject(objects: seq<Interactable>, id: string)
    ensures FindIndex(objects, id) == -1 ==> WithoutFirst(objects, id) == objects
    ensures FindIndex(objects, id) >= 0 ==>
      multiset(WithoutFirst(objects, id)) + multiset{objects[FindIndex(objects, id)]} == multiset(objects)
  {
    var k := FindIndex(objects, id);
    if k >= 0 {
      assert objects == objects[..k] + [objects[k]] + objects[k + 1..];
    }
  }

  /** The screen after handleInteraction: talking to an NPC starts a dialogue; picking up
      evidence, an object of any other kind, or nothing in reach leave the screen as it is. */
  function InteractionScreen(s: Screen, found: Option<Interactable>): (r: Screen)
    ensures r != s ==> found.Some? && found.value.kind == "npc"
    ensures found.Some? && found.value.kind == "npc" ==> r == DialogueStarted(s)
  {
    if found.Some? && found.value.kind == "npc" then DialogueStarted(s) else s
  }

  /** Whether an interaction picks up evidence. */
  predicate PicksUp(found: Option<Interactable>)
  {
    found.Some? && found.value.kind == "evidence"
  }

  /** The screen after the game's key listener: the pause branch, then the interaction
      branch while playing, then the inventory branch, each seeing the state the branch
      before it left. */
  function GameKeyScreen(s: Screen, key: string, found: Option<Interactable>): (r: Screen)
  {
    var s1 := AfterPauseKey(s, key);
    var s2 := if s1.state == Playing && key in INTERACT_KEYS then InteractionScreen(s1, found) else s1;
    AfterInventoryKey(s2, key)
  }

  /** Whether the game's key listener runs handleInteraction: only for an interaction key
      while playing, since no interaction key is also a pause key. */
  lemma InteractsOnlyWhilePlaying(s: Screen, key: string)
    ensures (AfterPauseKey(s, key).state == Playing && key in INTERACT_KEYS) <==>
            (s.state == Playing && key in INTERACT_KEYS)
  {
    KeyListsAreDisjoint(key);
  }

  /** One key goes to exactly one branch of the game's key listener: a pause key only
      toggles the pause, an inventory key only toggles the inventory, an interaction key
      only interacts. */
  lemma {:induction false} OneBranchPerKey(s: Screen, key: string, found: Option<Interactable>)
    ensures key in PAUSE_KEYS ==> GameKeyScreen(s, key, found) == AfterPauseKey(s, key)
    ensures key in INVENTORY_KEYS ==> GameKeyScreen(s, key, found) == AfterInventoryKey(s, key)
    ensures key in INTERACT_KEYS ==>
      GameKeyScreen(s, key, found) == (if s.state == Playing then InteractionScreen(s, found) else s)
    ensures key !in PAUSE_KEYS && key !in INVENTORY_KEYS && key !in INTERACT_KEYS ==>
      GameKeyScreen(s, key, found) == s
  {
    KeyListsAreDisjoint(key);
  }

  /** The evidence record a pickup adds. */
  function MapEvidence(id: string, now: real): (e: Evidence.Entry)
    ensures e.id == id && e.name == Some(MAP_NAME) && e.collectedAt == now
  {
    Evidence.Entry(id, Some(MAP_NAME), None, MAP_DESCRIPTION, now)
  }

  /** A new NPC built from a level record, as the loader builds it: constructed at the
      scaled position, then given its route and its starting state. */
  method SpawnNpc(rec: NpcRecord) returns (npc: NpcBehaviour.Npc)
    ensures fresh(npc) && npc.Valid()
    ensures npc.Snapshot() == Spawned(rec)
    ensures npc.y == GROUND_Y && npc.kind == rec.kind && npc.name == rec.name
  {
    npc := new NpcBehaviour.Npc(rec.position.x / LEVEL_SCALE, GROUND_Y, rec.position.y / LEVEL_SCALE, rec.kind, rec.name);
    npc.patrolPoints := Route(rec.patrolPoints);
    if |npc.patrolPoints| > 0 {
      npc.state := NpcBehaviour.Patrol;
    } else {
      npc.state := NpcBehaviour.Idle;
      npc.idleTimer := npc.idleDuration;
    }
  }

  /** The behaviour snapshots of a list of NPCs, in order. */
  function Agents(ns: seq<NpcBehaviour.Npc>): (r: seq<NpcBehaviour.Agent>)
    reads ns
    ensures |r| == |ns| && forall i :: 0 <= i < |ns| ==> r[i] == ns[i].Snapshot()
  {
    seq(|ns|, i reads ns requires 0 <= i < |ns| => ns[i].Snapshot())
  }

  /** Loading one more record appends its NPC and its mesh. */
  lemma LoadedPrefix(records: seq<NpcRecord>, i: nat)
    requires i < |records|
    ensures SpawnedAll(records[..i + 1]) == SpawnedAll(records[..i]) + [Spawned(records[i])]
    ensures MeshesFor(records[..i + 1]) == MeshesFor(records[..i]) + [MeshFor(records[i])]
  {
  }

  /** Crediting one more NPC's state is one more step of Credited. */
  lemma CreditedPrefix(s: real, agents: seq<NpcBehaviour.Agent>, i: nat, amount: real)
    requires i < |agents|
    ensures Credited(s, StatesOf(agents[..i + 1]), amount) ==
      var before := Credited(s, StatesOf(agents[..i]), amount);
      if agents[i].state == NpcBehaviour.Chase then Stealth.Increased(before, amount) else before
  {
    assert StatesOf(agents[..i + 1])[..i] == StatesOf(agents[..i]);
  }

  /** The stealth system's detection query on the NPC objects is the chase test on
      their states. */
  lemma DetectedMeansChasing(st: Stealth.StealthSystem, ns: seq<NpcBehaviour.Npc>)
    ensures st.IsPlayerDetected(ns) == Stealth.AnyChasing(StatesOf(Agents(ns)))
  {
  }

  lemma AgentsAppend(ns: seq<NpcBehaviour.Npc>, n: NpcBehaviour.Npc)
    ensures Agents(ns + [n]) == Agents(ns) + [n.Snapshot()]
  {
  }

  class Game {
    var state: GameState
    var lastTime: real
    /** How many dialogue close-key listeners are registered. */
    var dialogueListeners: nat
    /** Null until initialisation has created the player. */
    var player: PlayerController.Player?
    var npcs: seq<NpcBehaviour.Npc>
    var npcMeshes: seq<MeshSpec>
    var stealthSystem: Stealth.StealthSystem
    var evidenceSystem: Evidence.EvidenceSystem
    /** The renderer's list of interactable scene objects. */
    var interactables: seq<Interactable>

    function ScreenState(): Screen
      reads this
    {
      Screen(state, lastTime, dialogueListeners)
    }

    function Current(): World
      reads this, player, stealthSystem, npcs
    {
      World(state, stealthSystem.suspicion,
            if player == null then None else Some(player.Snapshot()), Agents(npcs))
    }

    /** Every NPC keeps its own invariant, no NPC is listed twice, and there is one mesh
        per NPC. */
    ghost predicate Valid()
      reads this, npcs
    {
      && (forall i :: 0 <= i < |npcs| ==> npcs[i].Valid())
      && (forall i, j :: 0 <= i < j < |npcs| ==> npcs[i] != npcs[j])
      && |npcs| == |npcMeshes|
    }

    /** The player, the two systems and the interactable list stay the same. */
    twostate predicate KeepsParts()
      reads this
    {
      && player == old(player) && stealthSystem == old(stealthSystem)
      && evidenceSystem == old(evidenceSystem) && interactables == old(interactables)
    }

    /** The parts and the NPC lists stay the same: what the screen transitions leave alone. */
    twostate predicate KeepsSystems()
      reads this
    {
      KeepsParts() && npcs == old(npcs) && npcMeshes == old(npcMeshes)
    }

    /** The synchronous part of construction; initialisation is the separate Init. */
    constructor (objects: seq<Interactable>)
      ensures ScreenState() == Screen(Loading, 0.0, 0)
      ensures player == null && npcs == [] && npcMeshes == [] && interactables == objects
      ensures fresh(stealthSystem) && stealthSystem.suspicion == 0.0
      ensures fresh(evidenceSystem) && evidenceSystem.evidence == [] && evidenceSystem.items == []
      ensures evidenceSystem.notes == [] && evidenceSystem.currentTab == "evidence"
      ensures Valid()
    {
      state := Loading;
      lastTime := 0.0;
      dialogueListeners := 0;
      player := null;
      npcs := [];
      npcMeshes := [];
      stealthSystem := new Stealth.StealthSystem();
      evidenceSystem := new Evidence.EvidenceSystem();
      interactables := objects;
    }

    /** init, once loading has finished: spawn the level's NPCs, then create the player.
        The state stays as it was; only startGame sets it. */
    method Init(records: seq<NpcRecord>)
      requires Valid()
      modifies this
      ensures Valid()
      ensures fresh(player) && player.Snapshot() == PlayerController.Initial()
      ensures ScreenState() == old(ScreenState())
      ensures Agents(npcs) == old(Agents(npcs)) + SpawnedAll(records)
      ensures npcMeshes == old(npcMeshes) + MeshesFor(records)
    {
      LoadLevel(records);
      player := new PlayerController.Player();
    }

    /** The NPC part of loadLevel: one NPC and one mesh per record, appended in order. */
    method LoadLevel(records: seq<NpcRecord>)
      requires Valid()
      modifies this
      ensures Valid()
      ensures |npcs| == |old(npcs)| + |records| && npcs[..|old(npcs)|] == old(npcs)
      ensures forall n :: n in npcs[|old(npcs)|..] ==> fresh(n)
      ensures Agents(npcs) == old(Agents(npcs)) + SpawnedAll(records)
      ensures npcMeshes == old(npcMeshes) + MeshesFor(records)
      ensures ScreenState() == old(ScreenState()) && KeepsParts()
    {
      var i := 0;
      while i < |records|
        invariant 0 <= i <= |records|
        invariant |npcs| == |old(npcs)| + i && npcs[..|old(npcs)|] == old(npcs)
        invariant forall n :: n in npcs[|old(npcs)|..] ==> fresh(n)
        invariant Agents(npcs) == old(Agents(npcs)) + SpawnedAll(records[..i])
        invariant npcMeshes == old(npcMeshes) + MeshesFor(records[..i])
        invariant Valid()
        invariant ScreenState() == old(ScreenState()) && KeepsParts()
      {
        ghost var before := npcs;
        AddNpc(records[i]);
        assert npcs[|old(npcs)|..] == before[|old(npcs)|..] + [npcs[|before|]];
        LoadedPrefix(records, i);
        i := i + 1;
      }
      assert records[..i] == records;
    }

    /** One pass of the loader's loop: a new NPC made from the record, and its mesh. */
    method AddNpc(rec: NpcRecord)
      requires Valid()
      modifies this
      ensures Valid()
      ensures |npcs| == |old(npcs)| + 1 && npcs[..|old(npcs)|] == old(npcs)
      ensures fresh(npcs[|old(npcs)|])
      ensures Agents(npcs) == old(Agents(npcs)) + [Spawned(rec)]
      ensures npcMeshes == old(npcMeshes) + [MeshFor(rec)]
      ensures ScreenState() == old(ScreenState()) && KeepsParts()
    {
      ghost var agents := Agents(npcs);
      var npc := SpawnNpc(rec);
      assert Agents(npcs) == agents;
      AgentsAppend(npcs, npc);
      npcs := npcs + [npc];
      npcMeshes := npcMeshes + [MeshFor(rec)];
    }

    // -------------------------------------------------------------------------------
    // Screen transitions. Each one changes the screen state only.

    method StartGame()
      modifies this
      ensures ScreenState() == Started(old(ScreenState())) && KeepsSystems()
    {
      state := Playing;
    }

    method PauseGame()
      modifies this
      ensures ScreenState() == Pause(old(ScreenState())) && KeepsSystems()
    {
      if state == Playing {
        state := Paused;
      }
    }

    method ResumeGame()
      modifies this
      ensures ScreenState() == Resume(old(ScreenState())) && KeepsSystems()
    {
      if state == Paused {
        state := Playing;
        lastTime := 0.0;
      }
    }

    method ReturnToMenu()
      modifies this
      ensures ScreenState() == BackToMenu(old(ScreenState())) && KeepsSystems()
    {
      state := MainMenu;
    }

    method OpenInventory()
      modifies this
      ensures ScreenState() == InventoryOpened(old(ScreenState())) && KeepsSystems()
    {
      state := Inventory;
    }

    method CloseInventory()
      modifies this
      ensures ScreenState() == InventoryClosed(old(ScreenState())) && KeepsSystems()
    {
      if state == Inventory {
        state := Playing;
        lastTime := 0.0;
      }
    }

    /** The pause menu's inventory button: pause, then open the inventory. */
    method OnInventoryButton()
      modifies this
      ensures ScreenState() == InventoryOpened(Pause(old(ScreenState()))) && KeepsSystems()
    {
      PauseGame();
      OpenInventory();
    }

    method GameOver()
      modifies this
      ensures ScreenState() == Ended(old(ScreenState())) && KeepsSystems()
    {
      state := GameState.GameOver;
      ReturnToMenu();
    }

    method StartDialogue()
      modifies this
      ensures ScreenState() == DialogueStarted(old(ScreenState())) && KeepsSystems()
    {
      state := Dialogue;
      dialogueListeners := dialogueListeners + 1;
    }

    /** A key reaching the registered dialogue close-key listeners. */
    method OnDialogueKey(key: string)
      modifies this
      ensures ScreenState() == DialogueClosed(old(ScreenState()), key) && KeepsSystems()
    {
      if dialogueListeners > 0 && key in DIALOGUE_KEYS {
        state := Playing;
        lastTime := 0.0;
        dialogueListeners := 0;
      }
    }

    // -------------------------------------------------------------------------------
    // Interaction

    /** handleInteraction, given what the renderer reports in reach and the clock. Evidence
        is collected and its first scene object with the same id is removed; an NPC starts
        a dialogue; anything else, or nothing in reach, changes nothing. */
    method HandleInteraction(found: Option<Interactable>, now: real)
      modifies this, evidenceSystem
      ensures ScreenState() == InteractionScreen(old(ScreenState()), found)
      ensures player == old(player) && npcs == old(npcs) && npcMeshes == old(npcMeshes)
      ensures stealthSystem == old(stealthSystem) && evidenceSystem == old(evidenceSystem)
      ensures PicksUp(found) ==>
        && evidenceSystem.evidence == old(evidenceSystem.evidence) + [MapEvidence(found.value.id, now)]
        && interactables == WithoutFirst(old(interactables), found.value.id)
      ensures !PicksUp(found) ==>
        evidenceSystem.evidence == old(evidenceSystem.evidence) && interactables == old(interactables)
      ensures evidenceSystem.items == old(evidenceSystem.items) && evidenceSystem.notes == old(evidenceSystem.notes)
      ensures evidenceSystem.currentTab == old(evidenceSystem.currentTab)
    {
      if found.None? {
        return;
      }
      var interactable := found.value;
      if interactable.kind == "evidence" {
        evidenceSystem.CollectEvidence(MapEvidence(interactable.id, now));
        var index := FindIndex(interactables, interactable.id);
        if index > -1 {
          interactables := interactables[..index] + interactables[index + 1..];
        }
      } else if interactable.kind == "npc" {
        StartDialogue();
      }
    }

    /** The game's key listener: pause toggle, interaction while playing, inventory toggle. */
    method OnGameKey(key: string, found: Option<Interactable>, now: real)
      modifies this, evidenceSystem
      ensures ScreenState() == GameKeyScreen(old(ScreenState()), key, found)
      ensures player == old(player) && npcs == old(npcs) && npcMeshes == old(npcMeshes)
      ensures stealthSystem == old(stealthSystem) && evidenceSystem == old(evidenceSystem)
      ensures var picked := old(state) == Playing && key in INTERACT_KEYS && PicksUp(found);
        && (picked ==>
              && evidenceSystem.evidence == old(evidenceSystem.evidence) + [MapEvidence(found.value.id, now)]
              && interactables == WithoutFirst(old(interactables), found.value.id))
        && (!picked ==>
              evidenceSystem.evidence == old(evidenceSystem.evidence) && interactables == old(interactables))
    {
      InteractsOnlyWhilePlaying(ScreenState(), key);
      if state == Playing && key in PAUSE_KEYS {
        PauseGame();
      } else if state == Paused && key in PAUSE_KEYS {
        ResumeGame();
      }
      if state == Playing && key in INTERACT_KEYS {
        HandleInteraction(found, now);
      }
      if key in INVENTORY_KEYS {
        if state == Playing {
          OpenInventory();
        } else if state == Inventory {
          CloseInventory();
        }
      }
    }

    // -------------------------------------------------------------------------------
    // The frame loop and the per-frame update

    /** gameLoop, for one animation frame at currentTime (in milliseconds). Nothing
        happens unless the game is running; the first frame after the clock was cleared
        only records the time; any other frame records the time and updates the world by
        the elapsed time. */
    method GameLoop(currentTime: real, basis: PlayerController.Basis, m: MathOps)
      requires Valid()
      modifies this, player, stealthSystem, npcs
      ensures Valid() && KeepsSystems()
      ensures var e := Elapsed(old(ScreenState()), currentTime);
        && (e.None? ==> ScreenState() == Recorded(old(ScreenState()), currentTime) && Current() == old(Current()))
        && (e.Some? ==> lastTime == currentTime && dialogueListeners == old(dialogueListeners)
                        && Current() == Step(old(Current()), e.value, basis, m))
    {
      ghost var s := ScreenState();
      if state != Playing {
        assert Elapsed(s, currentTime) == None;
        return;
      }
      if lastTime == 0.0 {
        assert Elapsed(s, currentTime) == None;
        lastTime := currentTime;
        assert ScreenState() == Recorded(s, currentTime);
        return;
      }
      assert Elapsed(s, currentTime) == Some((currentTime - lastTime) / MS_PER_SECOND);
      Advance(currentTime, basis, m);
    }

    /** A frame of a running game after the first: record the time, then update the world
        by the time elapsed since the previous frame. */
    method Advance(currentTime: real, basis: PlayerController.Basis, m: MathOps)
      requires Valid() && state == Playing && lastTime != 0.0
      modifies this, player, stealthSystem, npcs
      ensures Valid() && KeepsSystems()
      ensures lastTime == currentTime && dialogueListeners == old(dialogueListeners)
      ensures Current() == Step(old(Current()), (currentTime - old(lastTime)) / MS_PER_SECOND, basis, m)
    {
      ghost var w := Current();
      var deltaTime := (currentTime - lastTime) / MS_PER_SECOND;
      lastTime := currentTime;
      assert Current() == w;
      Update(deltaTime, basis, m);
    }

    /** Game.update: clamp the time step, move the player, update each NPC and credit the
        meter for each one left chasing, let the meter decay, and end the game when the
        meter is full. */
    method Update(deltaTime: real, basis: PlayerController.Basis, m: MathOps)
      requires Valid()
      modifies this, player, stealthSystem, npcs
      ensures Valid() && KeepsSystems()
      ensures lastTime == old(lastTime) && dialogueListeners == old(dialogueListeners)
      ensures Current() == Step(old(Current()), deltaTime, basis, m)
    {
      var dt := Min(deltaTime, MAX_FRAME_TIME);
      var target := UpdatePlayer(dt, basis, m);
      RunNpcs(dt, target, m);
      Settle(dt);
    }

    /** The player's part of update, when there is a player; target is where the NPCs
        will then look for it. */
    method UpdatePlayer(dt: real, basis: PlayerController.Basis, m: MathOps)
      returns (target: Option<NpcBehaviour.Point>)
      requires Valid()
      modifies player
      ensures Valid()
      ensures Current() == Moved(old(Current()), dt, basis, m)
      ensures target == Target(Current().player)
    {
      if player != null {
        player.Update(dt, basis, m);
      }
      target := if player == null then None else Some(NpcBehaviour.Point(player.x, player.z));
    }

    /** The end of update: the stealth system's own update, then the game-over check. */
    method Settle(dt: real)
      requires Valid()
      modifies this, stealthSystem
      ensures Valid() && KeepsSystems()
      ensures lastTime == old(lastTime) && dialogueListeners == old(dialogueListeners)
      ensures Current() == Settled(old(Current()), dt)
    {
      DetectedMeansChasing(stealthSystem, npcs);
      stealthSystem.Update(dt, npcs);
      EndIfFull();
    }

    /** The check at the end of update: past the detection threshold, a full meter calls
        gameOver. */
    method EndIfFull()
      requires Valid()
      modifies this
      ensures Valid() && KeepsSystems()
      ensures ScreenState() == old(ScreenState()).(state := StateAfter(old(state), stealthSystem.suspicion))
    {
      if stealthSystem.suspicion >= DETECTION_THRESHOLD {
        if stealthSystem.suspicion >= MAX_SUSPICION {
          GameOver();
        }
      }
    }

    /** The NPC loop of update, seen on the whole world. */
    method RunNpcs(dt: real, target: Option<NpcBehaviour.Point>, m: MathOps)
      requires Valid() && target == Target(Current().player)
      modifies stealthSystem, npcs
      ensures Valid()
      ensures Current() == NpcsRan(old(Current()), dt, m)
    {
      UpdateNpcs(dt, target, m);
    }

    /** The NPC loop of update: each NPC in order takes its update, and each one that is
        chasing afterwards raises the meter by SUSPICION_INCREASE_BASE * dt. */
    method UpdateNpcs(dt: real, target: Option<NpcBehaviour.Point>, m: MathOps)
      requires Valid()
      modifies stealthSystem, npcs
      ensures Valid()
      ensures Agents(npcs) == TickAll(old(Agents(npcs)), dt, target, m)
      ensures stealthSystem.suspicion ==
        Credited(old(stealthSystem.suspicion), StatesOf(Agents(npcs)), SUSPICION_INCREASE_BASE * dt)
    {
      ghost var ticked := TickAll(Agents(npcs), dt, target, m);
      ghost var s0 := stealthSystem.suspicion;
      ghost var amount := SUSPICION_INCREASE_BASE * dt;
      var i := 0;
      while i < |npcs|
        invariant 0 <= i <= |npcs|
        invariant Valid()
        invariant forall j :: 0 <= j < i ==> npcs[j].Snapshot() == ticked[j]
        invariant forall j :: i <= j < |npcs| ==> npcs[j].Snapshot() == old(npcs[j].Snapshot())
        invariant stealthSystem.suspicion == Credited(s0, StatesOf(ticked[..i]), amount)
      {
        ghost var before := stealthSystem.suspicion;
        UpdateNpcAt(i, dt, target, m);
        assert npcs[i].Snapshot() == ticked[i];
        CreditedPrefix(s0, ticked, i, amount);
        i := i + 1;
      }
      assert ticked[..i] == ticked;
      assert Agents(npcs) == ticked;
    }

    /** One pass of the NPC loop: the i-th NPC updates, and raises the meter if it is
        chasing afterwards. */
    method UpdateNpcAt(i: nat, dt: real, target: Option<NpcBehaviour.Point>, m: MathOps)
      requires Valid() && i < |npcs|
      modifies npcs[i], stealthSystem
      ensures Valid()
      ensures npcs[i].Snapshot() == NpcBehaviour.Tick(old(npcs[i].Snapshot()), dt, target, m)
      ensures forall j :: 0 <= j < |npcs| && j != i ==> npcs[j].Snapshot() == old(npcs[j].Snapshot())
      ensures stealthSystem.suspicion ==
        if npcs[i].state == NpcBehaviour.Chase
        then Stealth.Increased(old(stealthSystem.suspicion), SUSPICION_INCREASE_BASE * dt)
        else old(stealthSystem.suspicion)
    {
      var npc := npcs[i];
      npc.Update(dt, target, m);
      if npc.state == NpcBehaviour.Chase {
        stealthSystem.IncreaseSuspicion(SUSPICION_INCREASE_BASE * dt);
      }
    }
  }
}
