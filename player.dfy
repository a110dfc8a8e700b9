/** The first-person player: key flags, speed selection, gravity, collision rejection,
    the ground snap, stamina and health. The camera's forward and right vectors, projected
    onto the ground plane and normalised, are an input of each tick (Basis). */
module PlayerController {
  import opened Config
  import opened Geometry
  import opened Optional

  const GRAVITY: real := 9.8
  /** The camera height; the player stands on the ground when y is exactly this. */
  const EYE_HEIGHT: real := 1.6
  const JUMP_VELOCITY: real := 5.0
  const BOUNDARY: real := 19.5
  const CROUCH_FACTOR: real := 0.5
  /** Velocities are per frame at 60 frames per second. */
  const FRAMES_PER_SECOND: real := 60.0

  /** The horizontal forward and right vectors of the camera for this tick. */
  datatype Basis = Basis(forwardX: real, forwardZ: real, rightX: real, rightZ: real)

  datatype Vec2 = Vec2(x: real, z: real)

  /** The key lists of the configuration. The two forward/backward lists are optional
      because the shipped configuration does not define them. */
  datatype Bindings = Bindings(
    moveLeft: seq<string>, moveRight: seq<string>,
    moveForward: Option<seq<string>>, moveBackward: Option<seq<string>>,
    sprint: seq<string>, crouch: seq<string>, jump: seq<string>)

  /** Position and velocity. */
  datatype Motion = Motion(x: real, y: real, z: real, vx: real, vy: real, vz: real)

  /** The flags the key handlers set and clear. */
  datatype Controls = Controls(
    moveForward: bool, moveBackward: bool, moveLeft: bool, moveRight: bool,
    isSprinting: bool, isCrouching: bool)

  /** Everything a Player holds that the simulation reads or writes. */
  datatype Body = Body(
    motion: Motion, controls: Controls, canJump: bool,
    health: real, stamina: real, keysPressed: map<string, bool>)

  /** The outcome of a key handler: the new body, and whether the handler ran to its end
      (false when it read a key list the configuration does not define and so threw). */
  datatype KeyResult = KeyResult(body: Body, completed: bool)

  /** The key lists of the shipped configuration. */
  function ShippedBindings(): (k: Bindings)
    ensures k.moveForward.None? && k.moveBackward.None?
    ensures "Shift" in k.sprint && " " in k.jump
  {
    Bindings(
      ["ArrowLeft", "a", "A"], ["ArrowRight", "d", "D"],
      None, None,
      ["Shift"], ["Control", "s", "S", "ArrowDown"], [" ", "w", "W", "ArrowUp"])
  }

  /** The state a new Player starts in. */
  function Initial(): (b: Body)
    ensures b.motion.y == EYE_HEIGHT && b.health == MAX_HEALTH && b.stamina == MAX_STAMINA
    ensures !b.canJump && !Moving(b.controls) && !b.controls.isSprinting && !b.controls.isCrouching
    ensures b.keysPressed == map[]
  {
    Body(Motion(0.0, EYE_HEIGHT, 0.0, 0.0, 0.0, 0.0),
         Controls(false, false, false, false, false, false),
         false, MAX_HEALTH, MAX_STAMINA, map[])
  }

  predicate Moving(c: Controls)
  {
    c.moveForward || c.moveBackward || c.moveLeft || c.moveRight
  }

  /** isKeyPressed: some key of the list is currently down. A key that was never pressed
      has no entry in the map and counts as up. */
  function AnyPressed(pressed: map<string, bool>, keys: seq<string>): (r: bool)
    ensures r ==> exists key :: key in keys && key in pressed && pressed[key]
    ensures forall key :: key in keys && key in pressed && pressed[key] ==> r
  {
    if keys == [] then false
    else (keys[0] in pressed && pressed[keys[0]]) || AnyPressed(pressed, keys[1..])
  }

  /** AnyPressed holds exactly when some listed key has an entry saying it is down. */
  lemma {:induction false} AnyPressedMeans(pressed: map<string, bool>, keys: seq<string>)
    ensures AnyPressed(pressed, keys) <==>
      exists i :: 0 <= i < |keys| && keys[i] in pressed && pressed[keys[i]]
  {
    if keys != [] {
      AnyPressedMeans(pressed, keys[1..]);
      if AnyPressed(pressed, keys[1..]) {
        var j :| 0 <= j < |keys[1..]| && keys[1..][j] in pressed && pressed[keys[1..][j]];
        assert keys[j + 1] == keys[1..][j];
      }
      if exists i :: 0 <= i < |keys| && keys[i] in pressed && pressed[keys[i]] {
        var i :| 0 <= i < |keys| && keys[i] in pressed && pressed[keys[i]];
        if i > 0 {
          assert keys[1..][i - 1] == keys[i];
        }
      }
    }
  }

  /** checkCollision: the position is outside the room or inside the reception desk, the
      inner wall or one of the two side-room walls. It depends on x and z only. */
  function Collides(x: real, z: real): (r: bool)
    ensures Abs(x) > BOUNDARY || Abs(z) > BOUNDARY ==> r
  {
    if Abs(x) > BOUNDARY then true
    else if Abs(z) > BOUNDARY then true
    else if z < -8.0 && z > -12.0 && Abs(x) < 3.5 then true
    else if Abs(z - 5.0) < 0.5 && Abs(x) < 10.0 then true
    else if Abs(x - 10.0) < 0.5 && z > 5.0 then true
    else if Abs(x + 10.0) < 0.5 && z > 5.0 then true
    else false
  }

  /** Inside the room, three regions are free of obstacles: the band between the desk and
      the inner wall, the strips beyond both side-room walls, and the central room behind
      the inner wall. */
  lemma CollisionFreeRegions(x: real, z: real)
    requires Abs(x) <= BOUNDARY && Abs(z) <= BOUNDARY
    ensures -8.0 <= z <= 4.5 ==> !Collides(x, z)
    ensures 10.5 <= Abs(x) ==> !Collides(x, z)
    ensures 5.5 <= z && Abs(x) <= 9.5 ==> !Collides(x, z)
  {
  }

  /** The speed for this tick, in units per frame: running needs the sprint flag and some
      stamina left; crouching halves whichever speed was chosen. */
  function Speed(sprinting: bool, crouching: bool, stamina: real): (r: real)
    ensures r == RUN_SPEED / FRAMES_PER_SECOND <==> sprinting && stamina > 0.0 && !crouching
    ensures r == WALK_SPEED / FRAMES_PER_SECOND <==> (sprinting && stamina > 0.0) == crouching
    ensures r == WALK_SPEED / FRAMES_PER_SECOND * CROUCH_FACTOR <==> !(sprinting && stamina > 0.0) && crouching
    ensures crouching ==> r <= WALK_SPEED / FRAMES_PER_SECOND
    ensures 0.0 < r <= RUN_SPEED / FRAMES_PER_SECOND
  {
    var base := if sprinting && stamina > 0.0 then RUN_SPEED / FRAMES_PER_SECOND
                else WALK_SPEED / FRAMES_PER_SECOND;
    if crouching then base * CROUCH_FACTOR else base
  }

  /** How far along an axis a pair of opposite keys asks to go: 1 for the positive key
      alone, -1 for the negative key alone, 0 for both or neither. */
  function Axis(positive: bool, negative: bool): (r: real)
    ensures r == 1.0 <==> positive && !negative
    ensures r == -1.0 <==> negative && !positive
    ensures r == 0.0 <==> positive == negative
  {
    if positive == negative then 0.0 else if positive then 1.0 else -1.0
  }

  /** The sum of the pressed directions, before normalisation. */
  function RawDirection(c: Controls, basis: Basis): (r: Vec2)
    ensures c.moveForward == c.moveBackward && c.moveLeft == c.moveRight ==> r == Vec2(0.0, 0.0)
    ensures c.moveForward && !c.moveBackward && c.moveLeft == c.moveRight ==>
      r == Vec2(basis.forwardX, basis.forwardZ)
    ensures c.moveRight && !c.moveLeft && c.moveForward == c.moveBackward ==>
      r == Vec2(basis.rightX, basis.rightZ)
  {
    var x0 := 0.0 + (if c.moveForward then basis.forwardX else 0.0);
    var z0 := 0.0 + (if c.moveForward then basis.forwardZ else 0.0);
    var x1 := x0 - (if c.moveBackward then basis.forwardX else 0.0);
    var z1 := z0 - (if c.moveBackward then basis.forwardZ else 0.0);
    var x2 := x1 - (if c.moveLeft then basis.rightX else 0.0);
    var z2 := z1 - (if c.moveLeft then basis.rightZ else 0.0);
    Vec2(x2 + (if c.moveRight then basis.rightX else 0.0), z2 + (if c.moveRight then basis.rightZ else 0.0))
  }

  /** (ax, az) lies on the line through the origin and (bx, bz) and, unless (bx, bz) is
      zero, on the same side of the origin: a zero cross product and a positive dot
      product. */
  predicate SameWay(ax: real, az: real, bx: real, bz: real)
  {
    && ax * bz == az * bx
    && (bx != 0.0 || bz != 0.0 ==> ax * bx + az * bz > 0.0)
  }

  /** The sum of the pressed directions is the forward vector times the forward/backward
      axis plus the right vector times the right/left axis: backward alone goes along
      -forward, left alone along -right, and forward with right along their sum. */
  lemma RawDirectionIsSignedSum(c: Controls, basis: Basis)
    ensures var r := RawDirection(c, basis);
      var fb := Axis(c.moveForward, c.moveBackward);
      var rl := Axis(c.moveRight, c.moveLeft);
      r.x == fb * basis.forwardX + rl * basis.rightX && r.z == fb * basis.forwardZ + rl * basis.rightZ
    ensures c.moveBackward && !c.moveForward && c.moveLeft == c.moveRight ==>
      RawDirection(c, basis) == Vec2(-basis.forwardX, -basis.forwardZ)
    ensures c.moveLeft && !c.moveRight && c.moveForward == c.moveBackward ==>
      RawDirection(c, basis) == Vec2(-basis.rightX, -basis.rightZ)
    ensures c.moveForward && !c.moveBackward && c.moveRight && !c.moveLeft ==>
      RawDirection(c, basis) == Vec2(basis.forwardX + basis.rightX, basis.forwardZ + basis.rightZ)
  {
  }

  /** The movement direction: the pressed directions summed and, when the sum has a
      positive length, scaled to unit length. */
  function Direction(c: Controls, basis: Basis, m: MathOps): (r: Vec2)
    ensures !Moving(c) ==> r == Vec2(0.0, 0.0)
    ensures c.moveForward && c.moveBackward && c.moveLeft == c.moveRight ==> r == Vec2(0.0, 0.0)
    ensures c.moveLeft && c.moveRight && c.moveForward == c.moveBackward ==> r == Vec2(0.0, 0.0)
    ensures RawDirection(c, basis) == Vec2(0.0, 0.0) ==> r == Vec2(0.0, 0.0)
  {
    var raw := RawDirection(c, basis);
    var length := m.sqrt(SquaredLength(raw.x, raw.z));
    if length > 0.0 then Vec2(raw.x / length, raw.z / length) else raw
  }

  /** The new velocity: the direction times the speed horizontally, and gravity applied to
      the vertical velocity. */
  function Accelerate(mo: Motion, c: Controls, stamina: real, dt: real, basis: Basis, m: MathOps): (r: Motion)
    ensures r.vy == mo.vy - GRAVITY * dt
    ensures !Moving(c) ==> r.vx == 0.0 && r.vz == 0.0
    ensures r == mo.(vx := r.vx, vy := r.vy, vz := r.vz)
  {
    var dir := Direction(c, basis, m);
    var speed := Speed(c.isSprinting, c.isCrouching, stamina);
    mo.(vx := dir.x * speed, vy := mo.vy - GRAVITY * dt, vz := dir.z * speed)
  }

  /** The candidate position: one tick along the velocity. */
  function AlongVelocity(mo: Motion, dt: real): (r: Motion)
    ensures r.x == mo.x + mo.vx * (dt * FRAMES_PER_SECOND)
    ensures r.y == mo.y + mo.vy * (dt * FRAMES_PER_SECOND)
    ensures r.z == mo.z + mo.vz * (dt * FRAMES_PER_SECOND)
    ensures mo.vx == 0.0 && mo.vz == 0.0 ==> r.x == mo.x && r.z == mo.z
    ensures r == mo.(x := r.x, y := r.y, z := r.z)
  {
    var scale := dt * FRAMES_PER_SECOND;
    mo.(x := mo.x + mo.vx * scale, y := mo.y + mo.vy * scale, z := mo.z + mo.vz * scale)
  }

  /** Velocity from the direction, the speed and gravity, and the candidate position one
      tick along the new velocity. */
  function Integrate(mo: Motion, c: Controls, stamina: real, dt: real, basis: Basis, m: MathOps): (r: Motion)
    ensures r.vy == mo.vy - GRAVITY * dt
    ensures !Moving(c) ==> r.vx == 0.0 && r.vz == 0.0 && r.x == mo.x && r.z == mo.z
    ensures r.x == mo.x + r.vx * (dt * FRAMES_PER_SECOND) && r.z == mo.z + r.vz * (dt * FRAMES_PER_SECOND)
    ensures r.y == mo.y + r.vy * (dt * FRAMES_PER_SECOND)
    ensures var v := Accelerate(mo, c, stamina, dt, basis, m); r.vx == v.vx && r.vz == v.vz
  {
    var v := Accelerate(mo, c, stamina, dt, basis, m);
    var r := AlongVelocity(v, dt);
    assert r.vx == v.vx && r.vy == v.vy && r.vz == v.vz;
    r
  }

  /** With an exact square root and pressed directions that do not cancel out, the
      horizontal velocity has exactly the speed chosen for this tick. */
  lemma VelocityHasSpeed(mo: Motion, c: Controls, stamina: real, dt: real, basis: Basis, m: MathOps)
    requires var raw := RawDirection(c, basis);
      ExactRootAt(m, SquaredLength(raw.x, raw.z)) && raw != Vec2(0.0, 0.0)
    ensures var r := Accelerate(mo, c, stamina, dt, basis, m);
      var speed := Speed(c.isSprinting, c.isCrouching, stamina);
      r.vx * r.vx + r.vz * r.vz == speed * speed
    ensures var r := Accelerate(mo, c, stamina, dt, basis, m);
      var d := Direction(c, basis, m);
      var speed := Speed(c.isSprinting, c.isCrouching, stamina);
      r.vx == speed * d.x && r.vz == speed * d.z
  {
    var d := Direction(c, basis, m);
    var speed := Speed(c.isSprinting, c.isCrouching, stamina);
    DirectionIsUnit(c, basis, m);
    assert (d.x * speed) * (d.x * speed) + (d.z * speed) * (d.z * speed)
        == (d.x * d.x + d.z * d.z) * (speed * speed);
  }

  /** The horizontal velocity points the way the pressed keys ask: it lies on the line of
      their sum and, unless they cancel out, on the same side (a positive dot product). */
  lemma VelocityFollowsKeys(mo: Motion, c: Controls, stamina: real, dt: real, basis: Basis, m: MathOps)
    ensures var r := Accelerate(mo, c, stamina, dt, basis, m);
      var raw := RawDirection(c, basis);
      SameWay(r.vx, r.vz, raw.x, raw.z)
  {
    var r := Accelerate(mo, c, stamina, dt, basis, m);
    var d := Direction(c, basis, m);
    var raw := RawDirection(c, basis);
    DirectionFollowsKeys(c, basis, m);
    PositivelyScaled(d.x, d.z, raw.x, raw.z, Speed(c.isSprinting, c.isCrouching, stamina), r.vx, r.vz);
  }

  /** Scaling a vector by a positive factor keeps it on the same line and side as another. */
  lemma PositivelyScaled(dx: real, dz: real, rx: real, rz: real, k: real, vx: real, vz: real)
    requires 0.0 < k && vx == dx * k && vz == dz * k
    requires SameWay(dx, dz, rx, rz)
    ensures SameWay(vx, vz, rx, rz)
  {
    assert vx * rz - vz * rx == k * (dx * rz - dz * rx);
    assert vx * rx + vz * rz == k * (dx * rx + dz * rz);
  }

  /** With an exact square root and pressed directions that do not cancel out, the
      candidate position lies exactly speed * dt * 60 away from the start. */
  lemma MoveCoversSpeed(mo: Motion, c: Controls, stamina: real, dt: real, basis: Basis, m: MathOps)
    requires var raw := RawDirection(c, basis);
      ExactRootAt(m, SquaredLength(raw.x, raw.z)) && raw != Vec2(0.0, 0.0)
    ensures var r := Integrate(mo, c, stamina, dt, basis, m);
      var step := Speed(c.isSprinting, c.isCrouching, stamina) * (dt * FRAMES_PER_SECOND);
      SquaredLength(r.x - mo.x, r.z - mo.z) == step * step
  {
    var v := Accelerate(mo, c, stamina, dt, basis, m);
    var r := Integrate(mo, c, stamina, dt, basis, m);
    VelocityHasSpeed(mo, c, stamina, dt, basis, m);
    assert r.vx == v.vx && r.vz == v.vz;
    ScaledLength(r.x - mo.x, r.z - mo.z, r.vx, r.vz,
                 Speed(c.isSprinting, c.isCrouching, stamina), dt * FRAMES_PER_SECOND);
  }

  lemma ScaledLength(ex: real, ez: real, vx: real, vz: real, speed: real, k: real)
    requires ex == vx * k && ez == vz * k
    requires vx * vx + vz * vz == speed * speed
    ensures SquaredLength(ex, ez) == (speed * k) * (speed * k)
  {
    assert (vx * k) * (vx * k) + (vz * k) * (vz * k) == (vx * vx + vz * vz) * (k * k);
    assert (speed * k) * (speed * k) == (speed * speed) * (k * k);
  }

  /** A candidate position that collides is rejected whole: the position before the tick
      comes back and the horizontal velocity is zeroed (the vertical velocity is kept). */
  function RejectCollision(before: Motion, moved: Motion): (r: Motion)
    ensures Collides(moved.x, moved.z) ==>
      r == Motion(before.x, before.y, before.z, 0.0, moved.vy, 0.0)
    ensures !Collides(moved.x, moved.z) ==> r == moved
    ensures !Collides(before.x, before.z) ==> !Collides(r.x, r.z)
  {
    if Collides(moved.x, moved.z) then moved.(x := before.x, y := before.y, z := before.z, vx := 0.0, vz := 0.0)
    else moved
  }

  /** At or below eye height the player is put on the ground, stops falling and may jump. */
  function SnapToGround(b: Body): (r: Body)
    ensures r.motion.y >= EYE_HEIGHT
    ensures r.motion.y == EYE_HEIGHT ==> r.motion.vy == 0.0 && r.canJump
    ensures b.motion.y <= EYE_HEIGHT ==> r.motion.y == EYE_HEIGHT && r.motion.vy == 0.0 && r.canJump
    ensures b.motion.y > EYE_HEIGHT ==> r == b
    ensures r.motion == b.motion.(y := r.motion.y, vy := r.motion.vy)
    ensures r == b.(motion := r.motion, canJump := r.canJump)
  {
    if b.motion.y <= EYE_HEIGHT then b.(motion := b.motion.(y := EYE_HEIGHT, vy := 0.0), canJump := true)
    else b
  }

  /** Stamina drains while sprinting and moving; running dry sets it to exactly 0 and ends
      the sprint. Otherwise it regenerates up to MAX_STAMINA. */
  function StaminaStep(b: Body, dt: real): (r: Body)
    ensures r == b.(stamina := r.stamina, controls := b.controls.(isSprinting := r.controls.isSprinting))
    ensures r.controls.isSprinting ==> b.controls.isSprinting
    ensures b.controls.isSprinting && !r.controls.isSprinting ==> r.stamina == 0.0
    ensures 0.0 <= dt && b.stamina <= MAX_STAMINA && r.stamina < b.stamina ==>
      b.controls.isSprinting && Moving(b.controls)
    ensures !(b.controls.isSprinting && Moving(b.controls)) ==> r.stamina <= MAX_STAMINA
    ensures 0.0 <= dt && 0.0 <= b.stamina <= MAX_STAMINA ==> 0.0 <= r.stamina <= MAX_STAMINA
    ensures b.controls.isSprinting && Moving(b.controls) ==>
      var s := b.stamina - STAMINA_DRAIN_RATE * dt;
      && (s <= 0.0 ==> r.stamina == 0.0 && !r.controls.isSprinting)
      && (s > 0.0 ==> r.stamina == s && r.controls.isSprinting)
    ensures !(b.controls.isSprinting && Moving(b.controls)) ==>
      r.stamina == Min(b.stamina + STAMINA_REGEN_RATE * dt, MAX_STAMINA) && r.controls == b.controls
  {
    if b.controls.isSprinting && Moving(b.controls) then
      var s := b.stamina - STAMINA_DRAIN_RATE * dt;
      if s <= 0.0 then b.(stamina := 0.0, controls := b.controls.(isSprinting := false))
      else b.(stamina := s)
    else
      var s := b.stamina + STAMINA_REGEN_RATE * dt;
      b.(stamina := if s > MAX_STAMINA then MAX_STAMINA else s)
  }

  /** One call of update: integrate, reject a colliding move, snap to the ground, then
      drain or regenerate stamina. Its properties are stated by TickProperties. */
  function Tick(b: Body, dt: real, basis: Basis, m: MathOps): (r: Body)
    ensures r.health == b.health && r.keysPressed == b.keysPressed
  {
    var moved := Integrate(b.motion, b.controls, b.stamina, dt, basis, m);
    StaminaStep(SnapToGround(b.(motion := RejectCollision(b.motion, moved))), dt)
  }

  /** What one update guarantees: the player ends at or above eye height, and on the
      ground with no vertical speed and able to jump when at eye height; a colliding move
      is rejected whole; a clear position stays clear; stamina stays in range, drops only
      while sprinting and moving, and a sprint ends only with stamina at 0; only the sprint
      flag among the controls can change, and canJump can only become true. */
  lemma TickProperties(b: Body, dt: real, basis: Basis, m: MathOps)
    ensures var r := Tick(b, dt, basis, m);
      && r.motion.y >= EYE_HEIGHT
      && (r.motion.y == EYE_HEIGHT ==> r.motion.vy == 0.0 && r.canJump)
      && (!Collides(b.motion.x, b.motion.z) ==> !Collides(r.motion.x, r.motion.z))
    ensures var r := Tick(b, dt, basis, m);
      var c := Integrate(b.motion, b.controls, b.stamina, dt, basis, m);
      Collides(c.x, c.z) ==>
        r.motion.x == b.motion.x && r.motion.z == b.motion.z && r.motion.vx == 0.0 && r.motion.vz == 0.0
    ensures var r := Tick(b, dt, basis, m);
      && (0.0 <= dt && 0.0 <= b.stamina <= MAX_STAMINA ==> 0.0 <= r.stamina <= MAX_STAMINA)
      && (0.0 <= dt && b.stamina <= MAX_STAMINA && r.stamina < b.stamina ==>
            b.controls.isSprinting && Moving(b.controls))
      && r.controls == b.controls.(isSprinting := r.controls.isSprinting)
      && (r.controls.isSprinting ==> b.controls.isSprinting)
      && (b.controls.isSprinting && !r.controls.isSprinting ==> r.stamina == 0.0)
      && (r.canJump != b.canJump ==> r.canJump)
    ensures var r := Tick(b, dt, basis, m);
      var c := Integrate(b.motion, b.controls, b.stamina, dt, basis, m);
      !Collides(c.x, c.z) ==>
        r.motion.x == c.x && r.motion.z == c.z && r.motion.vx == c.vx && r.motion.vz == c.vz
    ensures var r := Tick(b, dt, basis, m);
      var k := RejectCollision(b.motion, Integrate(b.motion, b.controls, b.stamina, dt, basis, m));
      && (k.y <= EYE_HEIGHT ==> r.motion.y == EYE_HEIGHT && r.motion.vy == 0.0 && r.canJump)
      && (k.y > EYE_HEIGHT ==> r.motion == k && r.canJump == b.canJump)
    ensures var r := Tick(b, dt, basis, m);
      && (b.controls.isSprinting && Moving(b.controls) ==>
            var s := b.stamina - STAMINA_DRAIN_RATE * dt;
            && (s <= 0.0 ==> r.stamina == 0.0 && !r.controls.isSprinting)
            && (s > 0.0 ==> r.stamina == s && r.controls.isSprinting))
      && (!(b.controls.isSprinting && Moving(b.controls)) ==>
            r.stamina == Min(b.stamina + STAMINA_REGEN_RATE * dt, MAX_STAMINA) && r.controls == b.controls)
  {
  }

  /** takeDamage: health falls by amount and is floored at 0. */
  function Damaged(health: real, amount: real): (r: real)
    ensures 0.0 <= r
    ensures r == health - amount || r == 0.0
    ensures health - amount >= 0.0 ==> r == health - amount
    ensures 0.0 <= health && 0.0 <= amount ==> r <= health
    ensures health <= MAX_HEALTH && 0.0 <= amount ==> r <= MAX_HEALTH
  {
    var h := health - amount;
    if h < 0.0 then 0.0 else h
  }

  /** heal: health rises by amount and is capped at MAX_HEALTH. */
  function Healed(health: real, amount: real): (r: real)
    ensures r <= MAX_HEALTH
    ensures r == health + amount || r == MAX_HEALTH
    ensures health + amount <= MAX_HEALTH ==> r == health + amount
    ensures health <= MAX_HEALTH && 0.0 <= amount ==> health <= r
    ensures 0.0 <= health && 0.0 <= amount ==> 0.0 <= r
  {
    var h := health + amount;
    if h > MAX_HEALTH then MAX_HEALTH else h
  }

  datatype HealthChange = Damage(amount: real) | Heal(amount: real)

  function ApplyHealth(h: real, c: HealthChange): real
  {
    match c
    case Damage(amount) => Damaged(h, amount)
    case Heal(amount) => Healed(h, amount)
  }

  function RunHealth(h: real, changes: seq<HealthChange>): real
    decreases |changes|
  {
    if changes == [] then h else RunHealth(ApplyHealth(h, changes[0]), changes[1..])
  }

  /** With non-negative amounts, health stays within [0, MAX_HEALTH] through any sequence
      of damage and healing. */
  lemma {:induction false} HealthStaysInRange(h: real, changes: seq<HealthChange>)
    requires 0.0 <= h <= MAX_HEALTH
    requires forall i :: 0 <= i < |changes| ==> 0.0 <= changes[i].amount
    ensures 0.0 <= RunHealth(h, changes) <= MAX_HEALTH
    decreases |changes|
  {
    if changes != [] {
      var h' := ApplyHealth(h, changes[0]);
      assert 0.0 <= changes[0].amount;
      assert 0.0 <= h' <= MAX_HEALTH;
      HealthStaysInRange(h', changes[1..]);
    }
  }


  /** The flags after a key handler, and whether it ran to its end. */
  datatype HandlerResult = HandlerResult(controls: Controls, completed: bool)

  /** A keydown never clears a flag and a keyup never sets one. */
  predicate OnlySets(before: Controls, after: Controls)
  {
    (before.moveForward ==> after.moveForward) && (before.moveBackward ==> after.moveBackward) &&
    (before.moveLeft ==> after.moveLeft) && (before.moveRight ==> after.moveRight) &&
    (before.isSprinting ==> after.isSprinting) && (before.isCrouching ==> after.isCrouching)
  }

  /** Whether a key list that may be undefined has a key down. */
  datatype ListState = Undefined | Defined(down: bool)

  /** For each key list, whether one of its keys is down (isKeyPressed on that list);
      None for a list the configuration does not define. */
  datatype Held = Held(
    left: bool, right: bool, forward: ListState, backward: ListState,
    sprint: bool, crouch: bool, jump: bool)

  function HeldLists(p: map<string, bool>, k: Bindings): (h: Held)
    ensures h.forward.Defined? <==> k.moveForward.Some?
    ensures h.backward.Defined? <==> k.moveBackward.Some?
    ensures h.left == AnyPressed(p, k.moveLeft) && h.right == AnyPressed(p, k.moveRight)
    ensures k.moveForward.Some? ==> h.forward == Defined(AnyPressed(p, k.moveForward.value))
    ensures k.moveBackward.Some? ==> h.backward == Defined(AnyPressed(p, k.moveBackward.value))
    ensures h.sprint == AnyPressed(p, k.sprint) && h.crouch == AnyPressed(p, k.crouch)
    ensures h.jump == AnyPressed(p, k.jump)
  {
    Held(AnyPressed(p, k.moveLeft), AnyPressed(p, k.moveRight),
         if k.moveForward.Some? then Defined(AnyPressed(p, k.moveForward.value)) else Undefined,
         if k.moveBackward.Some? then Defined(AnyPressed(p, k.moveBackward.value)) else Undefined,
         AnyPressed(p, k.sprint), AnyPressed(p, k.crouch), AnyPressed(p, k.jump))
  }

  /** The flag logic of the keydown handler, in its order: a flag is set when one of its
      keys is down. Reading an undefined movement list throws and ends the handler. */
  function PressControls(c: Controls, h: Held): (r: HandlerResult)
    ensures r.completed <==> h.forward.Defined? && h.backward.Defined?
    ensures r.controls.moveLeft <==> c.moveLeft || h.left
    ensures r.controls.moveRight <==> c.moveRight || h.right
  {
    var c1 := PressStrafe(c, h);
    match h.forward
    case Undefined => HandlerResult(c1, false)
    case Defined(forwardDown) =>
      var c2 := PressForward(c1, forwardDown);
      match h.backward
      case Undefined => HandlerResult(c2, false)
      case Defined(backwardDown) => HandlerResult(PressRest(c2, backwardDown, h), true)
  }

  /** PressControls handles the forward flag only when its list is defined. */
  lemma PressControlsForward(c: Controls, h: Held)
    ensures var r := PressControls(c, h);
      (h.forward.Defined? ==> (r.controls.moveForward <==> c.moveForward || h.forward.down)) &&
      (h.forward.Undefined? ==> r.controls.moveForward == c.moveForward)
  {
  }

  /** PressControls handles backward, sprint and crouch only when it runs to its end. */
  lemma PressControlsRest(c: Controls, h: Held)
    ensures var r := PressControls(c, h);
      !r.completed ==>
        r.controls.moveBackward == c.moveBackward && r.controls.isSprinting == c.isSprinting &&
        r.controls.isCrouching == c.isCrouching
    ensures var r := PressControls(c, h);
      r.completed ==>
        (r.controls.moveBackward <==> c.moveBackward || h.backward.down) &&
        (r.controls.isSprinting <==> c.isSprinting || h.sprint) &&
        (r.controls.isCrouching <==> c.isCrouching || h.crouch)
  {
  }

  /** The stages of the keydown flag logic, one per stretch of the handler between the
      points where it can throw. */
  function PressStrafe(c: Controls, h: Held): Controls
  {
    c.(moveLeft := c.moveLeft || h.left, moveRight := c.moveRight || h.right)
  }

  function PressForward(c: Controls, down: bool): Controls
  {
    c.(moveForward := c.moveForward || down)
  }

  function PressRest(c: Controls, backwardDown: bool, h: Held): Controls
  {
    c.(moveBackward := c.moveBackward || backwardDown, isSprinting := c.isSprinting || h.sprint,
       isCrouching := c.isCrouching || h.crouch)
  }

  /** The flag logic of the keyup handler: a flag is cleared when none of its keys is
      still down. It throws at the first undefined movement list, like the keydown handler. */
  function ReleaseControls(c: Controls, h: Held): (r: HandlerResult)
    ensures r.completed <==> h.forward.Defined? && h.backward.Defined?
    ensures r.controls.moveLeft <==> c.moveLeft && h.left
    ensures r.controls.moveRight <==> c.moveRight && h.right
  {
    var c1 := ReleaseStrafe(c, h);
    match h.forward
    case Undefined => HandlerResult(c1, false)
    case Defined(forwardDown) =>
      var c2 := ReleaseForward(c1, forwardDown);
      match h.backward
      case Undefined => HandlerResult(c2, false)
      case Defined(backwardDown) => HandlerResult(ReleaseRest(c2, backwardDown, h), true)
  }

  /** ReleaseControls handles the forward flag only when its list is defined. */
  lemma ReleaseControlsForward(c: Controls, h: Held)
    ensures var r := ReleaseControls(c, h);
      (h.forward.Defined? ==> (r.controls.moveForward <==> c.moveForward && h.forward.down)) &&
      (h.forward.Undefined? ==> r.controls.moveForward == c.moveForward)
  {
  }

  /** ReleaseControls handles backward, sprint and crouch only when it runs to its end. */
  lemma ReleaseControlsRest(c: Controls, h: Held)
    ensures var r := ReleaseControls(c, h);
      !r.completed ==>
        r.controls.moveBackward == c.moveBackward && r.controls.isSprinting == c.isSprinting &&
        r.controls.isCrouching == c.isCrouching
    ensures var r := ReleaseControls(c, h);
      r.completed ==>
        (r.controls.moveBackward <==> c.moveBackward && h.backward.down) &&
        (r.controls.isSprinting <==> c.isSprinting && h.sprint) &&
        (r.controls.isCrouching <==> c.isCrouching && h.crouch)
  {
  }

  /** The stages of the keyup flag logic. */
  function ReleaseStrafe(c: Controls, h: Held): Controls
  {
    c.(moveLeft := c.moveLeft && h.left, moveRight := c.moveRight && h.right)
  }

  function ReleaseForward(c: Controls, down: bool): Controls
  {
    c.(moveForward := c.moveForward && down)
  }

  function ReleaseRest(c: Controls, backwardDown: bool, h: Held): Controls
  {
    c.(moveBackward := c.moveBackward && backwardDown, isSprinting := c.isSprinting && h.sprint,
       isCrouching := c.isCrouching && h.crouch)
  }

  /** The keydown listener after the key is recorded, given which lists are held: set the
      flags, and jump when a jump key is down and the player may jump. */
  function Press(b: Body, h: Held): (r: KeyResult)
    ensures r.completed <==> h.forward.Defined? && h.backward.Defined?
    ensures r.body.controls == PressControls(b.controls, h).controls
    ensures r.body.keysPressed == b.keysPressed && r.body.health == b.health && r.body.stamina == b.stamina
    ensures r.body.motion == b.motion.(vy := r.body.motion.vy)
    ensures r.body.motion.vy != b.motion.vy || r.body.canJump != b.canJump ==>
      b.canJump && r.completed && h.jump && r.body.motion.vy == JUMP_VELOCITY && !r.body.canJump
    ensures r.completed && b.canJump && h.jump ==> r.body.motion.vy == JUMP_VELOCITY && !r.body.canJump
  {
    var handled := PressControls(b.controls, h);
    var b1 := b.(controls := handled.controls);
    if handled.completed then KeyResult(Jump(b1, h.jump), true) else KeyResult(b1, false)
  }

  /** The last step of the keydown handler: jump when a jump key is down and the player
      may jump. */
  function Jump(b: Body, jumpDown: bool): Body
  {
    if jumpDown && b.canJump then b.(motion := b.motion.(vy := JUMP_VELOCITY), canJump := false) else b
  }

  /** The keydown listener: record the key as down, then set the flags and maybe jump. */
  function KeyDown(b: Body, key: string, k: Bindings): (r: KeyResult)
    ensures r.body.keysPressed == b.keysPressed[key := true]
    ensures r.completed <==> k.moveForward.Some? && k.moveBackward.Some?
    ensures OnlySets(b.controls, r.body.controls)
    ensures r.body.motion == b.motion.(vy := r.body.motion.vy)
    ensures r.body.health == b.health && r.body.stamina == b.stamina
    ensures r.body.motion.vy != b.motion.vy || r.body.canJump != b.canJump ==>
      b.canJump && r.completed && r.body.motion.vy == JUMP_VELOCITY && !r.body.canJump
    ensures r.completed && b.canJump && AnyPressed(r.body.keysPressed, k.jump) ==>
      r.body.motion.vy == JUMP_VELOCITY && !r.body.canJump
  {
    var p := b.keysPressed[key := true];
    var h := HeldLists(p, k);
    PressControlsForward(b.controls, h);
    PressControlsRest(b.controls, h);
    Press(b.(keysPressed := p), h)
  }

  /** Which key list sets which flag on keydown: each strafe flag is set when one of its
      own keys is down, the forward flag likewise when its list is defined, and the
      backward, sprint and crouch flags only when the handler runs to its end. */
  lemma KeyDownSetsFlags(b: Body, key: string, k: Bindings)
    ensures var r := KeyDown(b, key, k);
      var p := b.keysPressed[key := true];
      && (r.body.controls.moveLeft <==> b.controls.moveLeft || AnyPressed(p, k.moveLeft))
      && (r.body.controls.moveRight <==> b.controls.moveRight || AnyPressed(p, k.moveRight))
      && (k.moveForward.Some? ==>
            (r.body.controls.moveForward <==> b.controls.moveForward || AnyPressed(p, k.moveForward.value)))
    ensures var r := KeyDown(b, key, k);
      var p := b.keysPressed[key := true];
      r.completed ==>
        && (r.body.controls.moveBackward <==> b.controls.moveBackward || AnyPressed(p, k.moveBackward.value))
        && (r.body.controls.isSprinting <==> b.controls.isSprinting || AnyPressed(p, k.sprint))
        && (r.body.controls.isCrouching <==> b.controls.isCrouching || AnyPressed(p, k.crouch))
  {
    var p := b.keysPressed[key := true];
    var h := HeldLists(p, k);
    PressControlsForward(b.controls, h);
    PressControlsRest(b.controls, h);
  }

  /** The keyup listener after the key is recorded, given which lists are held. */
  function Release(b: Body, h: Held): (r: KeyResult)
    ensures r.completed <==> h.forward.Defined? && h.backward.Defined?
    ensures r.body == b.(controls := ReleaseControls(b.controls, h).controls)
  {
    var handled := ReleaseControls(b.controls, h);
    KeyResult(b.(controls := handled.controls), handled.completed)
  }

  /** The keyup listener: record the key as up and clear the flags whose keys are all up. */
  function KeyUp(b: Body, key: string, k: Bindings): (r: KeyResult)
    ensures r.body.keysPressed == b.keysPressed[key := false]
    ensures r.completed <==> k.moveForward.Some? && k.moveBackward.Some?
    ensures OnlySets(r.body.controls, b.controls)
    ensures r.body == b.(keysPressed := r.body.keysPressed, controls := r.body.controls)
  {
    var p := b.keysPressed[key := false];
    var h := HeldLists(p, k);
    ReleaseControlsForward(b.controls, h);
    ReleaseControlsRest(b.controls, h);
    Release(b.(keysPressed := p), h)
  }

  /** Which key list clears which flag on keyup: a flag stays set only while one of its own
      keys is still down; backward, sprint and crouch are reached only when the handler
      runs to its end. */
  lemma KeyUpClearsFlags(b: Body, key: string, k: Bindings)
    ensures var r := KeyUp(b, key, k);
      var p := b.keysPressed[key := false];
      && (r.body.controls.moveLeft <==> b.controls.moveLeft && AnyPressed(p, k.moveLeft))
      && (r.body.controls.moveRight <==> b.controls.moveRight && AnyPressed(p, k.moveRight))
      && (k.moveForward.Some? ==>
            (r.body.controls.moveForward <==> b.controls.moveForward && AnyPressed(p, k.moveForward.value)))
    ensures var r := KeyUp(b, key, k);
      var p := b.keysPressed[key := false];
      r.completed ==>
        && (r.body.controls.moveBackward <==> b.controls.moveBackward && AnyPressed(p, k.moveBackward.value))
        && (r.body.controls.isSprinting <==> b.controls.isSprinting && AnyPressed(p, k.sprint))
        && (r.body.controls.isCrouching <==> b.controls.isCrouching && AnyPressed(p, k.crouch))
  {
    var p := b.keysPressed[key := false];
    var h := HeldLists(p, k);
    ReleaseControlsForward(b.controls, h);
    ReleaseControlsRest(b.controls, h);
  }

  /** As shipped, no key press ever starts a sprint or a crouch: the keydown handler throws
      before it reaches those lists. */
  lemma ShippedBindingsNeverSprint(b: Body, key: string)
    requires !b.controls.isSprinting && !b.controls.isCrouching
    ensures !KeyDown(b, key, ShippedBindings()).completed
    ensures !KeyDown(b, key, ShippedBindings()).body.controls.isSprinting
    ensures !KeyDown(b, key, ShippedBindings()).body.controls.isCrouching
  {
  }

  /** With both movement lists defined, pressing a sprint key starts a sprint. */
  lemma SprintKeyStartsSprint(b: Body, key: string, k: Bindings)
    requires k.moveForward.Some? && k.moveBackward.Some?
    requires key in k.sprint
    ensures KeyDown(b, key, k).completed
    ensures KeyDown(b, key, k).body.controls.isSprinting
  {
    var p := b.keysPressed[key := true];
    var i :| 0 <= i < |k.sprint| && k.sprint[i] == key;
    assert k.sprint[i] in p && p[k.sprint[i]];
    AnyPressedMeans(p, k.sprint);
  }

  /** As shipped, no key ever makes the player jump; with both movement lists defined, a
      jump key pressed while the player may jump does. */
  lemma JumpNeedsCompleteBindings(b: Body, key: string, k: Bindings)
    requires b.canJump
    requires key in k.jump
    ensures KeyDown(b, key, ShippedBindings()).body.canJump
    ensures KeyDown(b, key, ShippedBindings()).body.motion == b.motion
    ensures k.moveForward.Some? && k.moveBackward.Some? ==>
      KeyDown(b, key, k).body.motion.vy == JUMP_VELOCITY && !KeyDown(b, key, k).body.canJump
  {
    var p := b.keysPressed[key := true];
    var i :| 0 <= i < |k.jump| && k.jump[i] == key;
    assert k.jump[i] in p && p[k.jump[i]];
    AnyPressedMeans(p, k.jump);
  }

  /** With an exact square root, the movement direction is a unit vector whenever the
      pressed directions do not cancel out. */
  lemma DirectionIsUnit(c: Controls, basis: Basis, m: MathOps)
    requires var raw := RawDirection(c, basis);
      ExactRootAt(m, SquaredLength(raw.x, raw.z)) && raw != Vec2(0.0, 0.0)
    ensures var d := Direction(c, basis, m);
      d.x * d.x + d.z * d.z == 1.0
    ensures var raw := RawDirection(c, basis);
      var d := Direction(c, basis, m);
      d.x * raw.z == d.z * raw.x && d.x * raw.x + d.z * raw.z > 0.0
  {
    DirectionFollowsKeys(c, basis, m);
    var raw := RawDirection(c, basis);
    var length := m.sqrt(SquaredLength(raw.x, raw.z));
    assert length > 0.0 by {
      if length == 0.0 {
        assert raw.x * raw.x >= 0.0 && raw.z * raw.z >= 0.0;
        assert raw.x * raw.x == 0.0 && raw.z * raw.z == 0.0;
        ZeroSquare(raw.x);
        ZeroSquare(raw.z);
      }
    }
    UnitDirection(raw.x, raw.z, length);
  }

  /** Whatever the host's square root returns, the movement direction lies on the line of
      the pressed directions' sum and, unless they cancel out, points the same way. */
  lemma DirectionFollowsKeys(c: Controls, basis: Basis, m: MathOps)
    ensures var raw := RawDirection(c, basis);
      var d := Direction(c, basis, m);
      SameWay(d.x, d.z, raw.x, raw.z)
  {
    var raw := RawDirection(c, basis);
    var d := Direction(c, basis, m);
    var length := m.sqrt(SquaredLength(raw.x, raw.z));
    SameLine(raw.x, raw.z, d.x, d.z, length);
  }

  /** A vector and that vector divided by a positive length (or left as it is) lie on one
      line, on the same side of the origin. */
  lemma SameLine(rx: real, rz: real, dx: real, dz: real, length: real)
    requires length > 0.0 ==> dx == rx / length && dz == rz / length
    requires length <= 0.0 ==> dx == rx && dz == rz
    ensures SameWay(dx, dz, rx, rz)
  {
    if length > 0.0 {
      assert rx == dx * length && rz == dz * length;
      if rx != 0.0 || rz != 0.0 {
        assert dx != 0.0 || dz != 0.0;
        SquaresPositive(dx, dz);
      }
      assert dx * rz == dz * rx;
      assert dx * rx + dz * rz == (dx * dx + dz * dz) * length;
    } else if rx != 0.0 || rz != 0.0 {
      SquaresPositive(rx, rz);
    }
  }

  /** A non-zero vector has a positive squared length. */
  lemma SquaresPositive(a: real, b: real)
    requires a != 0.0 || b != 0.0
    ensures a * a + b * b > 0.0
  {
    assert a * a >= 0.0 && b * b >= 0.0;
    if a * a + b * b == 0.0 {
      ZeroSquare(a);
      ZeroSquare(b);
    }
  }

  lemma ZeroSquare(a: real)
    requires a * a == 0.0
    ensures a == 0.0
  {
    if a != 0.0 {
      ZeroProduct(a, a);
    }
  }

  /** The spawn point is clear of every obstacle, so by Tick's contract no tick ever moves
      the player into one. */
  lemma SpawnIsClear()
    ensures !Collides(Initial().motion.x, Initial().motion.z)
  {
  }

  class Player {
    var x: real
    var y: real
    var z: real
    var vx: real
    var vy: real
    var vz: real
    var health: real
    var stamina: real
    var isSprinting: bool
    var isCrouching: bool
    var moveForward: bool
    var moveBackward: bool
    var moveLeft: bool
    var moveRight: bool
    var canJump: bool
    var keysPressed: map<string, bool>

    function Snapshot(): Body
      reads this
    {
      Body(Motion(x, y, z, vx, vy, vz),
           Controls(moveForward, moveBackward, moveLeft, moveRight, isSprinting, isCrouching),
           canJump, health, stamina, keysPressed)
    }

    constructor ()
      ensures Snapshot() == Initial()
    {
      x, y, z := 0.0, EYE_HEIGHT, 0.0;
      vx, vy, vz := 0.0, 0.0, 0.0;
      health := MAX_HEALTH;
      stamina := MAX_STAMINA;
      isSprinting, isCrouching := false, false;
      moveForward, moveBackward, moveLeft, moveRight := false, false, false, false;
      canJump := false;
      keysPressed := map[];
    }

    /** One frame: movement, collision rejection, ground snap, stamina. */
    method Update(dt: real, basis: Basis, m: MathOps)
      modifies this
      ensures Snapshot() == Tick(old(Snapshot()), dt, basis, m)
    {
      Move(dt, basis, m);
      UpdateStamina(dt);
    }

    method Move(dt: real, basis: Basis, m: MathOps)
      modifies this
      ensures var b := old(Snapshot());
        var moved := Integrate(b.motion, b.controls, b.stamina, dt, basis, m);
        Snapshot() == SnapToGround(b.(motion := RejectCollision(b.motion, moved)))
    {
      var before := Motion(x, y, z, vx, vy, vz);
      SetVelocity(dt, basis, m);
      Displace(dt);
      RevertIfColliding(before);
      LandIfLow();
    }

    /** Puts the position back where it was before the move if it is now inside an
        obstacle, and stops horizontal movement. */
    method RevertIfColliding(before: Motion)
      modifies this
      ensures Snapshot() == old(Snapshot()).(motion := RejectCollision(before, old(Snapshot()).motion))
    {
      if Collides(x, z) {
        x, y, z := before.x, before.y, before.z;
        vx, vz := 0.0, 0.0;
      }
    }

    /** Puts the player on the ground when at or below eye height. */
    method LandIfLow()
      modifies this
      ensures Snapshot() == SnapToGround(old(Snapshot()))
    {
      if y <= EYE_HEIGHT {
        y := EYE_HEIGHT;
        vy := 0.0;
        canJump := true;
      }
    }

    /** Moves the position one tick along the current velocity. */
    method Displace(dt: real)
      modifies this
      ensures Snapshot() == old(Snapshot()).(motion := AlongVelocity(old(Snapshot()).motion, dt))
    {
      var scale := dt * FRAMES_PER_SECOND;
      x, y, z := x + vx * scale, y + vy * scale, z + vz * scale;
    }

    /** Sets the velocity from the direction, the speed and gravity. */
    method SetVelocity(dt: real, basis: Basis, m: MathOps)
      modifies this
      ensures var b := old(Snapshot());
        Snapshot() == b.(motion := Accelerate(b.motion, b.controls, b.stamina, dt, basis, m))
    {
      var direction := Direction(Controls(moveForward, moveBackward, moveLeft, moveRight, isSprinting, isCrouching), basis, m);
      var speed := Speed(isSprinting, isCrouching, stamina);
      vx := direction.x * speed;
      vz := direction.z * speed;
      vy := vy - GRAVITY * dt;
    }

    method UpdateStamina(dt: real)
      modifies this
      ensures Snapshot() == StaminaStep(old(Snapshot()), dt)
    {
      if isSprinting && (moveForward || moveBackward || moveLeft || moveRight) {
        stamina := stamina - STAMINA_DRAIN_RATE * dt;
        if stamina <= 0.0 {
          stamina := 0.0;
          isSprinting := false;
        }
      } else {
        stamina := stamina + STAMINA_REGEN_RATE * dt;
        if stamina > MAX_STAMINA {
          stamina := MAX_STAMINA;
        }
      }
    }

    method TakeDamage(amount: real)
      modifies this
      ensures Snapshot() == old(Snapshot()).(health := Damaged(old(health), amount))
    {
      health := health - amount;
      if health < 0.0 {
        health := 0.0;
      }
    }

    method Heal(amount: real)
      modifies this
      ensures Snapshot() == old(Snapshot()).(health := Healed(old(health), amount))
    {
      health := health + amount;
      if health > MAX_HEALTH {
        health := MAX_HEALTH;
      }
    }

    /** The keydown listener; completed is false when the listener threw part way. */
    method OnKeyDown(key: string, k: Bindings) returns (completed: bool)
      modifies this
      ensures KeyDown(old(Snapshot()), key, k) == KeyResult(Snapshot(), completed)
    {
      keysPressed := keysPressed[key := true];
      var held := HeldLists(keysPressed, k);
      completed := ApplyPress(held);
    }

    /** The rest of the keydown listener: a flag is set when one of its keys is down, and
        otherwise kept. */
    method ApplyPress(held: Held) returns (completed: bool)
      modifies this
      ensures Press(old(Snapshot()), held) == KeyResult(Snapshot(), completed)
    {
      PressStrafeFlags(held);
      if held.forward.Undefined? { return false; }
      PressForwardFlag(held.forward.down);
      if held.backward.Undefined? { return false; }
      PressRestFlags(held.backward.down, held);
      JumpIfAllowed(held.jump);
      return true;
    }

    method PressStrafeFlags(held: Held)
      modifies this
      ensures Snapshot() == old(Snapshot()).(controls := PressStrafe(old(Snapshot()).controls, held))
    {
      if held.left { moveLeft := true; }
      if held.right { moveRight := true; }
    }

    method PressForwardFlag(down: bool)
      modifies this
      ensures Snapshot() == old(Snapshot()).(controls := PressForward(old(Snapshot()).controls, down))
    {
      if down { moveForward := true; }
    }

    method PressRestFlags(backwardDown: bool, held: Held)
      modifies this
      ensures Snapshot() == old(Snapshot()).(controls := PressRest(old(Snapshot()).controls, backwardDown, held))
    {
      if backwardDown { moveBackward := true; }
      if held.sprint { isSprinting := true; }
      if held.crouch { isCrouching := true; }
    }

    method JumpIfAllowed(jumpDown: bool)
      modifies this
      ensures Snapshot() == Jump(old(Snapshot()), jumpDown)
    {
      if jumpDown && canJump {
        vy := JUMP_VELOCITY;
        canJump := false;
      }
    }

    /** The keyup listener; completed is false when the listener threw part way. */
    method OnKeyUp(key: string, k: Bindings) returns (completed: bool)
      modifies this
      ensures KeyUp(old(Snapshot()), key, k) == KeyResult(Snapshot(), completed)
    {
      keysPressed := keysPressed[key := false];
      var held := HeldLists(keysPressed, k);
      completed := ApplyRelease(held);
    }

    /** The rest of the keyup listener: a flag is cleared when none of its keys is down,
        and otherwise kept. */
    method ApplyRelease(held: Held) returns (completed: bool)
      modifies this
      ensures Release(old(Snapshot()), held) == KeyResult(Snapshot(), completed)
    {
      ReleaseStrafeFlags(held);
      if held.forward.Undefined? { return false; }
      ReleaseForwardFlag(held.forward.down);
      if held.backward.Undefined? { return false; }
      ReleaseRestFlags(held.backward.down, held);
      return true;
    }

    method ReleaseStrafeFlags(held: Held)
      modifies this
      ensures Snapshot() == old(Snapshot()).(controls := ReleaseStrafe(old(Snapshot()).controls, held))
    {
      if !held.left { moveLeft := false; }
      if !held.right { moveRight := false; }
    }

    method ReleaseForwardFlag(down: bool)
      modifies this
      ensures Snapshot() == old(Snapshot()).(controls := ReleaseForward(old(Snapshot()).controls, down))
    {
      if !down { moveForward := false; }
    }

    method ReleaseRestFlags(backwardDown: bool, held: Held)
      modifies this
      ensures Snapshot() == old(Snapshot()).(controls := ReleaseRest(old(Snapshot()).controls, backwardDown, held))
    {
      if !backwardDown { moveBackward := false; }
      if !held.sprint { isSprinting := false; }
      if !held.crouch { isCrouching := false; }
    }
  }
}
