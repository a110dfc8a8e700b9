/** One non-player character: its three-state behaviour machine (idle, patrol, chase),
    its cyclic patrol route, its alert accumulator and its view-cone perception test.

    The class Npc keeps the fields that the game updates in place. Each of its methods
    is specified by a function on the value Agent, which holds every field the
    behaviour reads or writes; the properties of the behaviour are stated on those
    functions. */
module NpcBehaviour {
  import opened Config
  import opened Geometry
  import opened Optional

  /** The states the behaviour code drives. The configuration also names SUSPICIOUS and
      ALERT, which no code ever assigns, so they are not represented. */
  datatype NpcState = Idle | Patrol | Chase

  datatype Waypoint = Waypoint(x: real, y: real, z: real)

  /** The player's position on the ground plane (its x and z coordinates). */
  datatype Point = Point(x: real, z: real)

  /** Everything an NPC's update reads or writes. */
  datatype Agent = Agent(
    x: real, z: real, rotation: real, state: NpcState,
    alertLevel: real, idleTimer: real, currentPatrolIndex: int,
    animationFrame: int, animationTimer: real,
    patrolPoints: seq<Waypoint>, idleDuration: real,
    detectionRange: real, detectionAngle: real)

  /** Alert decay per second while the player is out of sight (a literal in the behaviour code). */
  const ALERT_DECAY_RATE: real := 5.0
  /** A patrol waypoint counts as reached below this distance. */
  const ARRIVAL_DISTANCE: real := 0.5
  /** A chase is abandoned beyond this distance. */
  const CHASE_ABANDON_DISTANCE: real := 30.0
  /** Seconds per animation frame; the walk cycle has four frames. */
  const FRAME_TIME: real := 0.2
  const FRAME_COUNT: int := 4
  /** Seconds an NPC idles at a waypoint. */
  const IDLE_DURATION: real := 3.0

  /** The invariant every NPC keeps: the patrol index points into a non-empty route
      and the animation frame is one of the four frames. */
  predicate WellFormed(a: Agent)
  {
    && 0 <= a.currentPatrolIndex
    && (|a.patrolPoints| > 0 ==> a.currentPatrolIndex < |a.patrolPoints|)
    && 0 <= a.animationFrame < FRAME_COUNT
  }

  /** The fields no update changes. */
  predicate SameProfile(a: Agent, b: Agent)
  {
    && a.patrolPoints == b.patrolPoints
    && a.idleDuration == b.idleDuration
    && a.detectionRange == b.detectionRange
    && a.detectionAngle == b.detectionAngle
  }

  /** The distance from the NPC to a point, as the host's square root computes it. */
  function DistanceTo(a: Agent, px: real, pz: real, m: MathOps): real
  {
    m.sqrt(SquaredLength(px - a.x, pz - a.z))
  }

  /** The waypoint an NPC on a non-empty route is heading for. */
  function PatrolTarget(a: Agent): Waypoint
    requires WellFormed(a) && |a.patrolPoints| > 0
  {
    a.patrolPoints[a.currentPatrolIndex]
  }

  /** a / b, except that a zero divisor gives 0 where the host would give NaN. */
  function DivOrZero(a: real, b: real): (r: real)
    ensures b != 0.0 ==> r == a / b
  {
    if b == 0.0 then 0.0 else a / b
  }

  /** Moves the NPC a distance speed * dt along the direction (dx, dz) / d, and turns it
      to face that direction. */
  function StepToward(a: Agent, dx: real, dz: real, d: real, speed: real, dt: real, m: MathOps): (r: Agent)
    ensures SameProfile(a, r) && r.state == a.state && r.alertLevel == a.alertLevel
    ensures r.idleTimer == a.idleTimer && r.currentPatrolIndex == a.currentPatrolIndex
    ensures r.animationFrame == a.animationFrame && r.animationTimer == a.animationTimer
  {
    var dirX := DivOrZero(dx, d);
    var dirZ := DivOrZero(dz, d);
    a.(x := a.x + dirX * (speed / 60.0) * dt * 60.0,
       z := a.z + dirZ * (speed / 60.0) * dt * 60.0,
       rotation := m.atan2(dirX, -dirZ))
  }

  /** Idle behaviour: the timer runs down by dt; the NPC sets off on patrol once it has run
      out, but only if it has a route. With an empty route the timer is never refreshed. */
  function IdleStep(a: Agent, dt: real): (r: Agent)
    ensures r.idleTimer == a.idleTimer - dt
    ensures r.state != a.state <==> a.state != Patrol && r.idleTimer <= 0.0 && |a.patrolPoints| > 0
    ensures r.state != a.state ==> r.state == Patrol
    ensures |a.patrolPoints| == 0 ==> r.state == a.state
    ensures r.(idleTimer := a.idleTimer, state := a.state) == a
  {
    var t := a.idleTimer - dt;
    a.(idleTimer := t, state := if t <= 0.0 && |a.patrolPoints| > 0 then Patrol else a.state)
  }

  /** Patrol behaviour. With no route the NPC falls back to idling without moving. On
      arrival at its waypoint (closer than ARRIVAL_DISTANCE) it advances the index
      cyclically and idles for idleDuration. Otherwise it walks PATROL_SPEED * dt toward
      the waypoint and faces its direction of travel. */
  function PatrolStep(a: Agent, dt: real, m: MathOps): (r: Agent)
    requires WellFormed(a)
    ensures WellFormed(r) && SameProfile(a, r)
    ensures r.alertLevel == a.alertLevel
    ensures |a.patrolPoints| == 0 ==> r == a.(state := Idle, idleTimer := a.idleDuration)
    ensures |a.patrolPoints| > 0 ==>
      var w := PatrolTarget(a);
      var d := DistanceTo(a, w.x, w.z, m);
      && (d < ARRIVAL_DISTANCE ==>
            r == a.(currentPatrolIndex := (a.currentPatrolIndex + 1) % |a.patrolPoints|,
                    state := Idle, idleTimer := a.idleDuration))
      && (d >= ARRIVAL_DISTANCE ==>
            && r.state == a.state && r.idleTimer == a.idleTimer
            && r.currentPatrolIndex == a.currentPatrolIndex)
  {
    if |a.patrolPoints| == 0 then
      a.(state := Idle, idleTimer := a.idleDuration)
    else
      var w := a.patrolPoints[a.currentPatrolIndex];
      var dx := w.x - a.x;
      var dz := w.z - a.z;
      var d := m.sqrt(SquaredLength(dx, dz));
      if d < ARRIVAL_DISTANCE then
        a.(currentPatrolIndex := (a.currentPatrolIndex + 1) % |a.patrolPoints|,
           state := Idle, idleTimer := a.idleDuration)
      else
        StepToward(a, dx, dz, d, PATROL_SPEED, dt, m)
  }

  /** Chase behaviour. Without a player nothing happens. Beyond CHASE_ABANDON_DISTANCE the
      NPC gives up: it goes back to Patrol (even with an empty route) and its alert level
      drops to 0. Otherwise it runs CHASE_SPEED * dt toward the player and faces them. */
  function ChaseStep(a: Agent, dt: real, target: Option<Point>, m: MathOps): (r: Agent)
    ensures SameProfile(a, r)
    ensures r.currentPatrolIndex == a.currentPatrolIndex && r.idleTimer == a.idleTimer
    ensures r.animationFrame == a.animationFrame
    ensures target.None? ==> r == a
    ensures target.Some? ==>
      var p := target.value;
      var d := DistanceTo(a, p.x, p.z, m);
      && (d > CHASE_ABANDON_DISTANCE ==> r == a.(state := Patrol, alertLevel := 0.0))
      && (d <= CHASE_ABANDON_DISTANCE ==>
            && r.state == a.state && r.alertLevel == a.alertLevel)
  {
    match target
    case None => a
    case Some(p) =>
      var dx := p.x - a.x;
      var dz := p.z - a.z;
      var d := m.sqrt(SquaredLength(dx, dz));
      if d > CHASE_ABANDON_DISTANCE then
        a.(state := Patrol, alertLevel := 0.0)
      else
        StepToward(a, dx, dz, d, CHASE_SPEED, dt, m)
  }

  /** The behaviour step for the current state. */
  function Behave(a: Agent, dt: real, target: Option<Point>, m: MathOps): (r: Agent)
    requires WellFormed(a)
    ensures WellFormed(r) && SameProfile(a, r)
  {
    match a.state
    case Idle => IdleStep(a, dt)
    case Patrol => PatrolStep(a, dt, m)
    case Chase => ChaseStep(a, dt, target, m)
  }

  /** The view-cone test: the player is seen when the distance to them is at most
      detectionRange and the bearing to them is within half of detectionAngle of the
      NPC's heading, measured around the circle. There is no occlusion. */
  function Sees(a: Agent, target: Option<Point>, m: MathOps): (r: bool)
    ensures target.None? ==> !r
    ensures r ==> m.sqrt(SquaredLength(target.value.x - a.x, target.value.z - a.z)) <= a.detectionRange
    ensures r ==> AngularDistance(m.atan2(target.value.x - a.x, -(target.value.z - a.z)) - a.rotation)
                  <= a.detectionAngle / 2.0
  {
    match target
    case None => false
    case Some(p) =>
      var dx := p.x - a.x;
      var dz := p.z - a.z;
      && m.sqrt(SquaredLength(dx, dz)) <= a.detectionRange
      && AngularDistance(m.atan2(dx, -dz) - a.rotation) <= a.detectionAngle / 2.0
  }

  /** The perception step. While the player is seen the alert level grows by
      SUSPICION_INCREASE_BASE * dt, with no upper bound, and once it reaches
      ALERT_THRESHOLD the NPC is forced into Chase from whatever state it is in. While the
      player is unseen the alert level decays by ALERT_DECAY_RATE * dt, floored at 0, and
      the state is left alone. */
  function Perceive(a: Agent, visible: bool, dt: real): (r: Agent)
    ensures visible ==> r.alertLevel == a.alertLevel + SUSPICION_INCREASE_BASE * dt
    ensures !visible ==> r.alertLevel == Max(0.0, a.alertLevel - ALERT_DECAY_RATE * dt)
    ensures !visible ==> 0.0 <= r.alertLevel
    ensures 0.0 <= a.alertLevel && 0.0 <= dt ==> 0.0 <= r.alertLevel
    ensures !visible && 0.0 <= dt ==> r.alertLevel <= Max(0.0, a.alertLevel)
    ensures visible && r.alertLevel >= ALERT_THRESHOLD ==> r.state == Chase
    ensures visible && r.alertLevel < ALERT_THRESHOLD ==> r.state == a.state
    ensures r.state != a.state ==> visible && r.state == Chase
    ensures r.(alertLevel := a.alertLevel, state := a.state) == a
  {
    if visible then
      var level := a.alertLevel + SUSPICION_INCREASE_BASE * dt;
      a.(alertLevel := level, state := if level >= ALERT_THRESHOLD then Chase else a.state)
    else
      a.(alertLevel := Max(0.0, a.alertLevel - ALERT_DECAY_RATE * dt))
  }

  /** The walk animation runs only while patrolling or chasing: the timer accumulates dt
      and every FRAME_TIME the frame advances cyclically through the four frames. */
  function Animate(a: Agent, dt: real): (r: Agent)
    ensures a.state == Idle ==> r == a
    ensures a.state == Patrol || a.state == Chase ==>
      (r.animationFrame != a.animationFrame <==> a.animationTimer + dt >= FRAME_TIME)
    ensures (a.state == Patrol || a.state == Chase) && a.animationTimer + dt < FRAME_TIME ==>
      r.animationTimer == a.animationTimer + dt
    ensures 0 <= a.animationFrame < FRAME_COUNT ==> 0 <= r.animationFrame < FRAME_COUNT
    ensures r.animationFrame != a.animationFrame ==>
              r.animationFrame == (a.animationFrame + 1) % FRAME_COUNT && r.animationTimer == 0.0
    ensures r.(animationFrame := a.animationFrame, animationTimer := a.animationTimer) == a
  {
    if a.state == Patrol || a.state == Chase then
      var t := a.animationTimer + dt;
      if t >= FRAME_TIME then
        a.(animationFrame := (a.animationFrame + 1) % FRAME_COUNT, animationTimer := 0.0)
      else
        a.(animationTimer := t)
    else
      a
  }

  /** One update of an NPC: behaviour, then perception against the pose the behaviour
      produced, then animation. */
  function Tick(a: Agent, dt: real, target: Option<Point>, m: MathOps): (r: Agent)
    requires WellFormed(a)
    ensures WellFormed(r) && SameProfile(a, r)
    ensures 0.0 <= a.alertLevel && 0.0 <= dt ==> 0.0 <= r.alertLevel
  {
    var b := Behave(a, dt, target, m);
    Animate(Perceive(b, Sees(b, target, m), dt), dt)
  }

  /** Within one update, perception has the last word on the state: a player seen by the
      NPC, in the pose its behaviour step left it in, with the alert level at or over
      ALERT_THRESHOLD, forces Chase whatever the behaviour step chose; an unseen player
      leaves the behaviour step's choice alone. */
  lemma PerceptionOverridesBehaviour(a: Agent, dt: real, target: Option<Point>, m: MathOps)
    requires WellFormed(a)
    ensures var b := Behave(a, dt, target, m);
      var r := Tick(a, dt, target, m);
      && (Sees(b, target, m) && r.alertLevel >= ALERT_THRESHOLD ==> r.state == Chase)
      && (Sees(b, target, m) && r.alertLevel < ALERT_THRESHOLD ==> r.state == b.state)
      && (!Sees(b, target, m) ==> r.state == b.state)
  {
  }

  /** The view cone gives the same answer when the NPC's heading is changed by whole turns. */
  lemma ConeIgnoresWholeTurns(a: Agent, target: Option<Point>, m: MathOps, n: int)
    ensures Sees(a.(rotation := a.rotation + TWO_PI * n as real), target, m) == Sees(a, target, m)
  {
    if target.Some? {
      var p := target.value;
      var bearing := m.atan2(p.x - a.x, -(p.z - a.z));
      AngularDistancePeriodic(bearing - a.rotation, -n);
      assert bearing - (a.rotation + TWO_PI * n as real) == bearing - a.rotation + TWO_PI * (-n) as real;
    }
  }

  /** With an exact square root, a player the NPC sees is within detectionRange in the
      Euclidean sense: the squared distance is at most the squared range. */
  lemma SeenPlayerIsInRange(a: Agent, p: Point, m: MathOps)
    requires ExactRootAt(m, SquaredLength(p.x - a.x, p.z - a.z))
    requires Sees(a, Some(p), m)
    ensures SquaredLength(p.x - a.x, p.z - a.z) <= a.detectionRange * a.detectionRange
  {
    var d := m.sqrt(SquaredLength(p.x - a.x, p.z - a.z));
    assert 0.0 <= d <= a.detectionRange;
    SquareMonotonic(d, a.detectionRange);
  }

  lemma SquareMonotonic(u: real, v: real)
    requires 0.0 <= u <= v
    ensures u * u <= v * v
  {
    assert u * u <= u * v by {
      assert u * (v - u) >= 0.0 by { NonNegativeProduct(u, v - u); }
    }
    assert u * v <= v * v by {
      assert v * (v - u) >= 0.0 by { NonNegativeProduct(v, v - u); }
    }
  }

  lemma NonNegativeProduct(u: real, v: real)
    requires 0.0 <= u && 0.0 <= v
    ensures 0.0 <= u * v
  {
  }

  /** A step toward (dx, dz) with an exact, non-zero distance d covers exactly speed * dt. */
  lemma StepLength(a: Agent, dx: real, dz: real, d: real, speed: real, dt: real, m: MathOps)
    requires d > 0.0 && d * d == SquaredLength(dx, dz)
    ensures var r := StepToward(a, dx, dz, d, speed, dt, m);
      && r.x - a.x == dx / d * (speed * dt)
      && r.z - a.z == dz / d * (speed * dt)
      && SquaredLength(r.x - a.x, r.z - a.z) == (speed * dt) * (speed * dt)
  {
    var r := StepToward(a, dx, dz, d, speed, dt, m);
    var s := speed * dt;
    assert r.x - a.x == dx / d * s by {
      assert DivOrZero(dx, d) * (speed / 60.0) * dt * 60.0 == (dx / d) * (speed * dt);
    }
    assert r.z - a.z == dz / d * s by {
      assert DivOrZero(dz, d) * (speed / 60.0) * dt * 60.0 == (dz / d) * (speed * dt);
    }
    ScaledStep(dx, dz, d, s);
  }

  /** While chasing within CHASE_ABANDON_DISTANCE, with an exact square root, the NPC covers
      exactly CHASE_SPEED * dt toward the player and turns to face them. */
  lemma ChaseMovesAtChaseSpeed(a: Agent, dt: real, p: Point, m: MathOps)
    requires ExactRootAt(m, SquaredLength(p.x - a.x, p.z - a.z))
    requires 0.0 < DistanceTo(a, p.x, p.z, m) <= CHASE_ABANDON_DISTANCE
    ensures var r := ChaseStep(a, dt, Some(p), m);
      var d := DistanceTo(a, p.x, p.z, m);
      && r.x - a.x == (p.x - a.x) * (CHASE_SPEED * dt / d)
      && r.z - a.z == (p.z - a.z) * (CHASE_SPEED * dt / d)
      && SquaredLength(r.x - a.x, r.z - a.z) == (CHASE_SPEED * dt) * (CHASE_SPEED * dt)
      && r.rotation == m.atan2((p.x - a.x) / d, -((p.z - a.z) / d))
  {
    StepLength(a, p.x - a.x, p.z - a.z, DistanceTo(a, p.x, p.z, m), CHASE_SPEED, dt, m);
  }

  /** Away from its waypoint, with an exact square root, a patrolling NPC covers exactly
      PATROL_SPEED * dt toward the waypoint and turns to face its direction of travel. */
  lemma PatrolMovesAtPatrolSpeed(a: Agent, dt: real, m: MathOps)
    requires WellFormed(a) && |a.patrolPoints| > 0
    requires var w := PatrolTarget(a); ExactRootAt(m, SquaredLength(w.x - a.x, w.z - a.z))
    requires var w := PatrolTarget(a); DistanceTo(a, w.x, w.z, m) >= ARRIVAL_DISTANCE
    ensures var r := PatrolStep(a, dt, m);
      var w := PatrolTarget(a);
      var d := DistanceTo(a, w.x, w.z, m);
      && r.x - a.x == (w.x - a.x) * (PATROL_SPEED * dt / d)
      && r.z - a.z == (w.z - a.z) * (PATROL_SPEED * dt / d)
      && SquaredLength(r.x - a.x, r.z - a.z) == (PATROL_SPEED * dt) * (PATROL_SPEED * dt)
      && r.rotation == m.atan2((w.x - a.x) / d, -((w.z - a.z) / d))
  {
    var w := PatrolTarget(a);
    StepLength(a, w.x - a.x, w.z - a.z, DistanceTo(a, w.x, w.z, m), PATROL_SPEED, dt, m);
  }

  /** An NPC that stops chasing in a tick always goes to Patrol with its alert level at 0,
      provided it cannot see beyond the chase-abandon distance. */
  lemma LeavingChaseClearsAlert(a: Agent, dt: real, target: Option<Point>, m: MathOps)
    requires WellFormed(a) && a.state == Chase && 0.0 <= dt
    requires a.detectionRange <= CHASE_ABANDON_DISTANCE
    ensures var r := Tick(a, dt, target, m);
      r.state != Chase ==> r.state == Patrol && r.alertLevel == 0.0
  {
  }

  /** An idle NPC with an empty route stays idle unless it is forced into Chase, and its
      idle timer keeps running down without ever being refreshed. */
  lemma EmptyRouteStaysIdle(a: Agent, dt: real, target: Option<Point>, m: MathOps)
    requires WellFormed(a) && a.state == Idle && |a.patrolPoints| == 0
    ensures var r := Tick(a, dt, target, m);
      && (r.state == Idle || r.state == Chase)
      && r.idleTimer == a.idleTimer - dt
  {
  }

  class Npc {
    var x: real
    var y: real
    var z: real
    var kind: string
    var name: string
    var state: NpcState
    var patrolPoints: seq<Waypoint>
    var currentPatrolIndex: int
    var detectionRange: real
    var detectionAngle: real
    var alertLevel: real
    var rotation: real
    var idleTimer: real
    var idleDuration: real
    var animationFrame: int
    var animationTimer: real

    /** The fields the behaviour works on, as one value. */
    function Snapshot(): Agent
      reads this
    {
      Agent(x, z, rotation, state, alertLevel, idleTimer, currentPatrolIndex,
            animationFrame, animationTimer, patrolPoints, idleDuration,
            detectionRange, detectionAngle)
    }

    ghost predicate Valid()
      reads this
    {
      WellFormed(Snapshot())
    }

    /** A new NPC idles in place with no route; its detection range is the configured
        range scaled by 1/10 and its detection angle is converted to radians. */
    constructor (x0: real, y0: real, z0: real, kind0: string, name0: string)
      ensures Valid()
      ensures Snapshot() == Agent(x0, z0, 0.0, Idle, 0.0, IDLE_DURATION, 0, 0, 0.0, [], IDLE_DURATION,
                                  DETECTION_RANGE / 10.0, DETECTION_ANGLE * (PI / 180.0))
      ensures y == y0 && kind == kind0 && name == name0
    {
      x, y, z := x0, y0, z0;
      kind, name := kind0, name0;
      state := Idle;
      patrolPoints := [];
      currentPatrolIndex := 0;
      detectionRange := DETECTION_RANGE / 10.0;
      detectionAngle := DETECTION_ANGLE * (PI / 180.0);
      alertLevel := 0.0;
      rotation := 0.0;
      idleDuration := IDLE_DURATION;
      idleTimer := idleDuration;
      animationFrame := 0;
      animationTimer := 0.0;
    }

    method Update(dt: real, target: Option<Point>, m: MathOps)
      requires Valid()
      modifies this
      ensures Valid()
      ensures Snapshot() == Tick(old(Snapshot()), dt, target, m)
      ensures y == old(y) && kind == old(kind) && name == old(name)
    {
      match state {
        case Idle => IdleBehavior(dt);
        case Patrol => PatrolBehavior(dt, m);
        case Chase => ChaseBehavior(dt, target, m);
      }
      var visible := target.Some?;
      if visible {
        visible := CanSeePlayer(target, m);
      }
      UpdateAlert(visible, dt);
      UpdateAnimation(dt);
    }

    /** The detection block of update: alert growth and the forced chase, or decay. */
    method UpdateAlert(visible: bool, dt: real)
      modifies this
      ensures Snapshot() == Perceive(old(Snapshot()), visible, dt)
      ensures y == old(y) && kind == old(kind) && name == old(name)
    {
      if visible {
        alertLevel := alertLevel + SUSPICION_INCREASE_BASE * dt;
        if alertLevel >= ALERT_THRESHOLD {
          state := Chase;
        }
      } else {
        alertLevel := Max(0.0, alertLevel - ALERT_DECAY_RATE * dt);
      }
    }

    /** The animation block of update. */
    method UpdateAnimation(dt: real)
      modifies this
      ensures Snapshot() == Animate(old(Snapshot()), dt)
      ensures y == old(y) && kind == old(kind) && name == old(name)
    {
      if state == Patrol || state == Chase {
        animationTimer := animationTimer + dt;
        if animationTimer >= FRAME_TIME {
          animationFrame := (animationFrame + 1) % FRAME_COUNT;
          animationTimer := 0.0;
        }
      }
    }

    method IdleBehavior(dt: real)
      modifies this
      ensures Snapshot() == IdleStep(old(Snapshot()), dt)
      ensures y == old(y) && kind == old(kind) && name == old(name)
    {
      idleTimer := idleTimer - dt;
      if idleTimer <= 0.0 {
        if |patrolPoints| > 0 {
          state := Patrol;
        }
      }
    }

    method PatrolBehavior(dt: real, m: MathOps)
      requires Valid()
      modifies this
      ensures Snapshot() == PatrolStep(old(Snapshot()), dt, m)
      ensures y == old(y) && kind == old(kind) && name == old(name)
    {
      if |patrolPoints| == 0 {
        state := Idle;
        idleTimer := idleDuration;
        return;
      }
      var target := patrolPoints[currentPatrolIndex];
      var dx := target.x - x;
      var dz := target.z - z;
      var distance := m.sqrt(SquaredLength(dx, dz));
      if distance < ARRIVAL_DISTANCE {
        currentPatrolIndex := (currentPatrolIndex + 1) % |patrolPoints|;
        state := Idle;
        idleTimer := idleDuration;
      } else {
        MoveAlong(dx, dz, distance, PATROL_SPEED, dt, m);
      }
    }

    /** Moves speed * dt along (dx, dz) / d and turns to face that way. */
    method MoveAlong(dx: real, dz: real, d: real, speed: real, dt: real, m: MathOps)
      modifies this
      ensures Snapshot() == StepToward(old(Snapshot()), dx, dz, d, speed, dt, m)
      ensures y == old(y) && kind == old(kind) && name == old(name)
    {
      var directionX := DivOrZero(dx, d);
      var directionZ := DivOrZero(dz, d);
      x := x + directionX * (speed / 60.0) * dt * 60.0;
      z := z + directionZ * (speed / 60.0) * dt * 60.0;
      rotation := m.atan2(directionX, -directionZ);
    }

    method ChaseBehavior(dt: real, target: Option<Point>, m: MathOps)
      modifies this
      ensures Snapshot() == ChaseStep(old(Snapshot()), dt, target, m)
      ensures y == old(y) && kind == old(kind) && name == old(name)
    {
      if target.None? {
        return;
      }
      var player := target.value;
      var dx := player.x - x;
      var dz := player.z - z;
      var distance := m.sqrt(SquaredLength(dx, dz));
      if distance > CHASE_ABANDON_DISTANCE {
        state := Patrol;
        alertLevel := 0.0;
      } else {
        MoveAlong(dx, dz, distance, CHASE_SPEED, dt, m);
      }
    }

    /** The view-cone test, with the angle difference brought into [-π, π] by the two
        normalisation loops; its result is the reference test Sees. */
    method CanSeePlayer(target: Option<Point>, m: MathOps) returns (visible: bool)
      ensures visible == Sees(Snapshot(), target, m)
    {
      if target.None? {
        return false;
      }
      var dx := target.value.x - x;
      var dz := target.value.z - z;
      var distance := m.sqrt(SquaredLength(dx, dz));
      if distance > detectionRange {
        return false;
      }
      var angleToPlayer := m.atan2(dx, -dz);
      var angleDiff := angleToPlayer - rotation;
      ghost var turns: int := 0;
      while angleDiff > PI
        invariant angleDiff == angleToPlayer - rotation + TWO_PI * turns as real
        decreases ((angleDiff - PI) / TWO_PI).Floor
      {
        angleDiff := angleDiff - TWO_PI;
        turns := turns - 1;
      }
      while angleDiff < -PI
        invariant angleDiff <= PI
        invariant angleDiff == angleToPlayer - rotation + TWO_PI * turns as real
        decreases ((-PI - angleDiff) / TWO_PI).Floor
      {
        angleDiff := angleDiff + TWO_PI;
        turns := turns + 1;
      }
      RepresentativeSize(angleToPlayer - rotation, angleDiff, turns);
      visible := Abs(angleDiff) <= detectionAngle / 2.0;
    }
  }
}
