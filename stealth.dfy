/** The global suspicion meter. It is raised by the game loop once per chasing NPC per
    tick, clamped at MAX_SUSPICION, and decays, floored at 0, on ticks when no NPC is
    chasing. */
module Stealth {
  import opened Config
  import opened Geometry
  import opened NpcBehaviour

  /** increaseSuspicion: the meter after adding amount, clamped to at most MAX_SUSPICION. */
  function Increased(s: real, amount: real): (r: real)
    ensures r <= MAX_SUSPICION
    ensures r == s + amount || r == MAX_SUSPICION
    ensures s + amount <= MAX_SUSPICION ==> r == s + amount
    ensures 0.0 <= s && 0.0 <= amount ==> 0.0 <= r
    ensures s <= MAX_SUSPICION && 0.0 <= amount ==> s <= r
    ensures s <= MAX_SUSPICION && amount == 0.0 ==> r == s
  {
    Min(s + amount, MAX_SUSPICION)
  }

  /** decreaseSuspicion: the meter after subtracting amount, floored at 0. */
  function Decreased(s: real, amount: real): (r: real)
    ensures 0.0 <= r
    ensures r == s - amount || r == 0.0
    ensures s - amount >= 0.0 ==> r == s - amount
    ensures 0.0 <= s && 0.0 <= amount ==> r <= s
    ensures 0.0 <= s && amount == 0.0 ==> r == s
    ensures s <= MAX_SUSPICION && 0.0 <= amount ==> r <= MAX_SUSPICION
  {
    Max(s - amount, 0.0)
  }

  /** True iff some state in the list is Chase. */
  function AnyChasing(states: seq<NpcState>): (r: bool)
    ensures r <==> exists i :: 0 <= i < |states| && states[i] == Chase
  {
    if states == [] then false
    else states[0] == Chase || AnyChasing(states[1..])
  }

  /** The stealth system's own tick: decay by SUSPICION_DECAY_RATE * dt when nobody is
      chasing; otherwise the meter is left exactly as it is. The tick never raises it. */
  function Decayed(s: real, dt: real, chasing: bool): (r: real)
    ensures chasing ==> r == s
    ensures !chasing ==> 0.0 <= r
    ensures !chasing ==> r == Decreased(s, SUSPICION_DECAY_RATE * dt)
    ensures 0.0 <= s && 0.0 <= dt ==> r <= s
    ensures 0.0 <= s <= MAX_SUSPICION && 0.0 <= dt ==> 0.0 <= r <= MAX_SUSPICION
    ensures s == 0.0 && 0.0 <= dt ==> r == 0.0
  {
    if chasing then s else Decreased(s, SUSPICION_DECAY_RATE * dt)
  }

  class StealthSystem {
    var suspicion: real

    constructor ()
      ensures suspicion == 0.0
    {
      suspicion := 0.0;
    }

    /** Decays the meter unless some NPC is chasing. The detection check at the end of
        the source's update only logs, so it changes nothing here. */
    method Update(dt: real, npcs: seq<Npc>)
      modifies this
      ensures suspicion == Decayed(old(suspicion), dt, IsPlayerDetected(npcs))
    {
      var detected := IsPlayerDetected(npcs);
      if !detected {
        DecreaseSuspicion(SUSPICION_DECAY_RATE * dt);
      }
    }

    method IncreaseSuspicion(amount: real)
      modifies this
      ensures suspicion == Increased(old(suspicion), amount)
    {
      suspicion := Min(suspicion + amount, MAX_SUSPICION);
    }

    method DecreaseSuspicion(amount: real)
      modifies this
      ensures suspicion == Decreased(old(suspicion), amount)
    {
      suspicion := Max(suspicion - amount, 0.0);
    }

    /** True iff some NPC of the list is in state Chase. */
    function IsPlayerDetected(npcs: seq<Npc>): (r: bool)
      reads npcs
      ensures r <==> exists i :: 0 <= i < |npcs| && npcs[i].state == Chase
    {
      var states := seq(|npcs|, i reads npcs requires 0 <= i < |npcs| => npcs[i].state);
      assert forall i :: 0 <= i < |npcs| ==> states[i] == npcs[i].state;
      AnyChasing(states)
    }
  }

  /** The three ways the meter can change, for reasoning about any sequence of them. */
  datatype Change = Increase(amount: real) | Decrease(amount: real) | Tick(dt: real, chasing: bool)

  predicate NonNegative(c: Change)
  {
    match c
    case Increase(amount) => 0.0 <= amount
    case Decrease(amount) => 0.0 <= amount
    case Tick(dt, _) => 0.0 <= dt
  }

  function Apply(s: real, c: Change): real
  {
    match c
    case Increase(amount) => Increased(s, amount)
    case Decrease(amount) => Decreased(s, amount)
    case Tick(dt, chasing) => Decayed(s, dt, chasing)
  }

  /** The meter after applying the changes in order. */
  function Run(s: real, changes: seq<Change>): real
    decreases |changes|
  {
    if changes == [] then s else Run(Apply(s, changes[0]), changes[1..])
  }

  /** Starting in range, with non-negative amounts and time steps, the meter stays within
      [0, MAX_SUSPICION] through any sequence of increases, decreases and ticks. */
  lemma {:induction false} RunStaysInRange(s: real, changes: seq<Change>)
    requires 0.0 <= s <= MAX_SUSPICION
    requires forall i :: 0 <= i < |changes| ==> NonNegative(changes[i])
    ensures 0.0 <= Run(s, changes) <= MAX_SUSPICION
    decreases |changes|
  {
    if changes != [] {
      var s' := Apply(s, changes[0]);
      assert NonNegative(changes[0]);
      assert 0.0 <= s' <= MAX_SUSPICION;
      RunStaysInRange(s', changes[1..]);
    }
  }

  /** With no NPC chasing, ticks can only lower the meter: any run of ticks ends no
      higher than it started. */
  lemma {:induction false} QuietTicksNeverRaise(s: real, changes: seq<Change>)
    requires 0.0 <= s
    requires forall i :: 0 <= i < |changes| ==> changes[i].Tick? && 0.0 <= changes[i].dt
    ensures 0.0 <= Run(s, changes) <= s
    decreases |changes|
  {
    if changes != [] {
      var s' := Apply(s, changes[0]);
      assert 0.0 <= s' <= s;
      QuietTicksNeverRaise(s', changes[1..]);
    }
  }
}
