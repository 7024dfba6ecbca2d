/**
 * The particle burst shown when a card is revealed
 * (src/components/EmojiAnimation.tsx).
 *
 * Particles start on one of four bands around the card's edges; how many
 * there are scales with the card width. A burst is scheduled only when the
 * trigger goes from false to true. The cosmetic per-particle samples (scale,
 * duration, delay, float distance, drift, font size, spin) are not modelled.
 */
module EmojiAnimation {
  import opened Random

  /** Card width at which the particle counts are 15 to 26. */
  const BASE_CARD_WIDTH: real := 250.0

  /** A spawn point in pixels relative to the card's top-left corner. */
  datatype Offset = Offset(x: real, y: real)

  /** The three random numbers one spawn point uses: the edge, then the x draw, then the y draw. */
  datatype EdgeDraw = EdgeDraw(edge: real, first: real, second: real)

  predicate IsUnitDraw(d: EdgeDraw) {
    IsUnit(d.edge) && IsUnit(d.first) && IsUnit(d.second)
  }

  /** `Math.floor(r * 4)`: which edge a spawn point is on. */
  function EdgeIndex(r: real): int {
    (r * 4.0).Floor
  }

  /** A genuine random number always picks one of the four edges, so the `default` case is never taken. */
  lemma EdgeIndexInRange(r: real)
    requires IsUnit(r)
    ensures 0 <= EdgeIndex(r) <= 3
  {
  }

  /** `p` lies in one of the four bands that extend 10px either side of the card's edges. */
  predicate OnEdgeBand(p: Offset, width: real, height: real) {
    || (0.0 <= p.x <= width && -10.0 <= p.y <= 10.0)
    || (0.0 <= p.x <= width && height - 10.0 <= p.y <= height + 10.0)
    || (-10.0 <= p.x <= 10.0 && 0.0 <= p.y <= height)
    || (width - 10.0 <= p.x <= width + 10.0 && 0.0 <= p.y <= height)
  }

  /** `randomEdgePosition`: a point on the top, bottom, left or right band. */
  function RandomEdgePosition(width: real, height: real, d: EdgeDraw): (p: Offset)
    ensures IsUnitDraw(d) && 0.0 <= width && 0.0 <= height ==>
              OnEdgeBand(p, width, height) &&
              -10.0 <= p.x <= width + 10.0 && -10.0 <= p.y <= height + 10.0
  {
    match EdgeIndex(d.edge)
    case 0 => Offset(Rand(0.0, width, d.first), Rand(-10.0, 10.0, d.second))
    case 1 => Offset(Rand(0.0, width, d.first), Rand(height - 10.0, height + 10.0, d.second))
    case 2 => Offset(Rand(-10.0, 10.0, d.first), Rand(0.0, height, d.second))
    case 3 => Offset(Rand(width - 10.0, width + 10.0, d.first), Rand(0.0, height, d.second))
    case _ => Offset(width / 2.0, height / 2.0)
  }

  function MaxInt(a: int, b: int): int { if a >= b then a else b }

  /** Fewest particles in a burst: `max(8, floor(15 * width / 250))`. */
  function MinCount(width: real): int {
    MaxInt(8, (15.0 * (width / BASE_CARD_WIDTH)).Floor)
  }

  /** Most particles in a burst: `max(12, floor(26 * width / 250))`. */
  function MaxCount(width: real): int {
    MaxInt(12, (26.0 * (width / BASE_CARD_WIDTH)).Floor)
  }

  /** At every card width the lower bound is at most the upper bound, and both grow with the width. */
  lemma CountBounds(width: real, width': real)
    ensures 8 <= MinCount(width) <= MaxCount(width) && 12 <= MaxCount(width)
    ensures width <= width' ==> MinCount(width) <= MinCount(width') && MaxCount(width) <= MaxCount(width')
  {
    var s, s' := width / BASE_CARD_WIDTH, width' / BASE_CARD_WIDTH;
    if 0.0 <= s {
      assert 15.0 * s <= 26.0 * s;
    }
    if width <= width' {
      assert s <= s';
      assert 15.0 * s <= 15.0 * s' && 26.0 * s <= 26.0 * s';
    }
  }

  /** The counts for the two reference widths. */
  lemma CountBoundsExamples()
    ensures MinCount(250.0) == 15 && MaxCount(250.0) == 26
    ensures MinCount(180.0) == 10 && MaxCount(180.0) == 18
  {
  }

  /** `floor(rand(minCount, maxCount + 1))`: how many particles a burst has. */
  function ParticleCount(width: real, r: real): (count: int)
    ensures IsUnit(r) ==> MinCount(width) <= count <= MaxCount(width)
  {
    var lo, hi := MinCount(width), MaxCount(width);
    CountBounds(width, width);
    var v := Rand(lo as real, hi as real + 1.0, r);
    assert IsUnit(r) ==> lo as real <= v < hi as real + 1.0;
    v.Floor
  }

  /** A particle: its index in the burst, its glyph and its spawn point. */
  datatype Particle = Particle(id: nat, emoji: string, spawn: Offset)

  /**
   * `spawnParticles`: `rCount` decides how many particles there are and
   * `draws[i]` where particle `i` starts.
   */
  method SpawnParticles(emoji: string, width: real, height: real, rCount: real, draws: seq<EdgeDraw>)
    returns (particles: seq<Particle>)
    requires |draws| >= ParticleCount(width, rCount)
    ensures IsUnit(rCount) ==> MinCount(width) <= |particles| <= MaxCount(width)
    ensures |particles| == MaxInt(0, ParticleCount(width, rCount))
    ensures forall i :: 0 <= i < |particles| ==>
              particles[i].id == i && particles[i].emoji == emoji &&
              particles[i].spawn == RandomEdgePosition(width, height, draws[i])
    ensures 0.0 <= width && 0.0 <= height ==> forall i :: 0 <= i < |particles| && IsUnitDraw(draws[i]) ==>
              OnEdgeBand(particles[i].spawn, width, height)
  {
    var count := ParticleCount(width, rCount);
    particles := [];
    var i := 0;
    while i < count
      invariant 0 <= i <= MaxInt(0, count) && |particles| == i
      invariant forall k :: 0 <= k < i ==>
                  particles[k] == Particle(k, emoji, RandomEdgePosition(width, height, draws[k]))
    {
      var pos := RandomEdgePosition(width, height, draws[i]);
      particles := particles + [Particle(i, emoji, pos)];
      i := i + 1;
    }
  }

  /** The effect rule: a burst starts only when the trigger goes from false to true. */
  function RisingEdge(prevTrigger: bool, trigger: bool): bool {
    trigger && !prevTrigger
  }

  /**
   * What the component remembers between effect runs: the `prevTrigger` and
   * `animationKey` refs, whether the spawn and clean-up timers are pending,
   * and whether the last run returned the clean-up function that cancels them.
   */
  datatype EffectState = EffectState(prevTrigger: bool, animationKey: nat,
                                     spawnPending: bool, cleanupPending: bool, cancelArmed: bool)

  const INITIAL_EFFECT: EffectState := EffectState(false, 0, false, false, false)

  /** Pending timers always belong to the run whose cancel function is armed. */
  predicate TimersOwned(s: EffectState) {
    (s.spawnPending || s.cleanupPending) ==> s.cancelArmed
  }

  /**
   * One run of the effect with the current `trigger`: the previous run's
   * clean-up (if it returned one) cancels its timers, then on a rising edge
   * the key is bumped and both timers are scheduled.
   */
  function RunEffect(s: EffectState, trigger: bool): (s': EffectState)
    ensures s'.prevTrigger == trigger
    ensures s'.animationKey == s.animationKey + if RisingEdge(s.prevTrigger, trigger) then 1 else 0
    ensures TimersOwned(s) ==> TimersOwned(s')
    ensures TimersOwned(s) ==> s'.spawnPending == s'.cleanupPending == RisingEdge(s.prevTrigger, trigger)
  {
    var settled := if s.cancelArmed then s.(spawnPending := false, cleanupPending := false, cancelArmed := false) else s;
    if trigger && !settled.prevTrigger then
      EffectState(trigger, settled.animationKey + 1, true, true, true)
    else
      settled.(prevTrigger := trigger)
  }

  /** Re-running the effect with an unchanged trigger never starts a burst. */
  lemma {:induction false} NoBurstWithoutRisingEdge(s: EffectState, trigger: bool)
    requires TimersOwned(s)
    ensures var s' := RunEffect(RunEffect(s, trigger), trigger);
            s'.animationKey == RunEffect(s, trigger).animationKey && !s'.spawnPending && !s'.cleanupPending
  {
    var s1 := RunEffect(s, trigger);
    assert TimersOwned(s1) && s1.prevTrigger == trigger;
  }

  /** The component's refs and state. */
  class EmojiAnimation {
    var prevTrigger: bool
    var animationKey: nat
    var spawnPending: bool
    var cleanupPending: bool
    var cancelArmed: bool
    var particles: seq<Particle>

    ghost function State(): EffectState
      reads this
    {
      EffectState(prevTrigger, animationKey, spawnPending, cleanupPending, cancelArmed)
    }

    constructor ()
      ensures State() == INITIAL_EFFECT && particles == []
    {
      prevTrigger, animationKey := false, 0;
      spawnPending, cleanupPending, cancelArmed := false, false, false;
      particles := [];
    }

    /** One run of the `useEffect`; `burst` says whether a new burst was scheduled. */
    method Effect(trigger: bool) returns (burst: bool)
      modifies this
      ensures State() == RunEffect(old(State()), trigger)
      ensures burst == RisingEdge(old(prevTrigger), trigger)
      ensures particles == old(particles)
    {
      if cancelArmed {
        spawnPending, cleanupPending, cancelArmed := false, false, false;
      }
      burst := trigger && !prevTrigger;
      if burst {
        animationKey := animationKey + 1;
        spawnPending, cleanupPending, cancelArmed := true, true, true;
        prevTrigger := trigger;
        return;
      }
      prevTrigger := trigger;
    }

    /** The 300ms timer: replaces the particle set with a new burst, unless it was cancelled. */
    method SpawnTimerFires(emoji: string, width: real, height: real, rCount: real, draws: seq<EdgeDraw>)
      requires |draws| >= ParticleCount(width, rCount)
      modifies this
      ensures !old(spawnPending) ==> State() == old(State()) && particles == old(particles)
      ensures old(spawnPending) ==> State() == old(State()).(spawnPending := false)
      ensures old(spawnPending) ==> |particles| == MaxInt(0, ParticleCount(width, rCount))
      ensures old(spawnPending) ==> forall i :: 0 <= i < |particles| ==>
                particles[i] == Particle(i, emoji, RandomEdgePosition(width, height, draws[i]))
    {
      if spawnPending {
        particles := SpawnParticles(emoji, width, height, rCount, draws);
        spawnPending := false;
      }
    }

    /** The 3800ms timer: clears the particles, unless it was cancelled. */
    method CleanupTimerFires()
      modifies this
      ensures !old(cleanupPending) ==> State() == old(State()) && particles == old(particles)
      ensures old(cleanupPending) ==> State() == old(State()).(cleanupPending := false) && particles == []
    {
      if cleanupPending {
        particles := [];
        cleanupPending := false;
      }
    }
  }
}
