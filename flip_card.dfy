/**
 * A card that turns over when clicked (src/components/FlipCard.tsx).
 *
 * The card's only state is whether it is flipped; that flag is passed to
 * the particle animation as its trigger, so every click re-runs the
 * animation's effect with the new flag.
 */
module FlipCard {
  import opened Types
  import opened EmojiAnimation

  /** Alt text used when the card gives none. */
  const DEFAULT_ALT: string := "Valentine photo"

  /**
   * `card.alt ?? "Valentine photo"`: only a missing alt falls back, so the
   * image never goes without a description unless the card asks for an empty one.
   */
  function AltText(card: CardConfig): (alt: string)
    ensures card.alt.Some? ==> alt == card.alt.value
    ensures card.alt.None? ==> alt == DEFAULT_ALT
    ensures alt == [] ==> card.alt == Some([])
  {
    match card.alt
    case Some(a) => a
    case None => DEFAULT_ALT
  }

  /** The card's `flipped` flag together with the state of its animation's effect. */
  datatype CardState = CardState(flipped: bool, effect: EffectState)

  const INITIAL_CARD: CardState := CardState(false, INITIAL_EFFECT)

  /** A click: the flag is negated and the animation's effect runs with the new flag as trigger. */
  function Click(c: CardState): CardState {
    CardState(!c.flipped, RunEffect(c.effect, !c.flipped))
  }

  /** The state after `n` clicks on a fresh card. */
  function AfterClicks(n: nat): CardState {
    if n == 0 then INITIAL_CARD else Click(AfterClicks(n - 1))
  }

  /** Two clicks restore the face that was showing. */
  lemma TwoClicksRestoreFace(c: CardState)
    ensures Click(Click(c)).flipped == c.flipped
  {
  }

  /**
   * After `n` clicks the card is face up exactly when `n` is odd, the
   * animation's trigger memory equals the flag, and the animation key counts
   * the face-up turns.
   */
  lemma {:induction false} ClickSession(n: nat)
    ensures AfterClicks(n).flipped == (n % 2 == 1)
    ensures AfterClicks(n).effect.prevTrigger == AfterClicks(n).flipped
    ensures AfterClicks(n).effect.animationKey == (n + 1) / 2
    ensures TimersOwned(AfterClicks(n).effect)
  {
    if n > 0 {
      ClickSession(n - 1);
    }
  }

  /** Click number `n` (counting from 1) starts a burst exactly when `n` is odd. */
  lemma {:induction false} BurstOnOddClicks(n: nat)
    requires 1 <= n
    ensures RisingEdge(AfterClicks(n - 1).effect.prevTrigger, AfterClicks(n).flipped) <==> n % 2 == 1
    ensures AfterClicks(n).effect.spawnPending <==> n % 2 == 1
  {
    ClickSession(n - 1);
    ClickSession(n);
  }

  /** The component: its card, its `flipped` state and the animation it renders. */
  class FlipCard {
    const card: CardConfig
    const animation: EmojiAnimation
    var flipped: bool

    ghost function State(): CardState
      reads this, animation
    {
      CardState(flipped, animation.State())
    }

    /** The animation's trigger is the card's flag. */
    ghost predicate Valid()
      reads this, animation
    {
      animation.prevTrigger == flipped
    }

    /** A fresh card is face down. */
    constructor (card: CardConfig)
      ensures this.card == card && State() == INITIAL_CARD && Valid() && fresh(animation)
    {
      this.card := card;
      flipped := false;
      animation := new EmojiAnimation();
    }

    /** `handleClick`, followed by the animation's effect seeing the new trigger. */
    method HandleClick() returns (burst: bool)
      requires Valid()
      modifies this, animation
      ensures Valid() && State() == Click(old(State()))
      ensures burst <==> flipped
      ensures animation.particles == old(animation.particles)
    {
      flipped := !flipped;
      burst := animation.Effect(flipped);
    }
  }
}
