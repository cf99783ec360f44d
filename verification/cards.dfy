/** One card on screen (frontend/src/game/gameobjects/Card.ts): the labels
    built from its description, its position, the highlight shown while it
    is selected, and the health it displays. Rendering (images, fonts,
    scale) is not modelled; the label texts and colour are. */
module Cards {
  import opened Util
  import opened Models

  /** The health label's colour: white normally, red while a damaging
      health change is animating. */
  datatype Colour = White | DamageRed

  /** What a card emits to its subscribers; every event carries the card. */
  datatype CardEvent = HoverEnter(card: Card) | HoverExit(card: Card) | Select(card: Card)

  /** A running health tween: the value it counts towards and its length in ms. */
  datatype HealthTween = HealthTween(target: int, duration: nat)

  class Card {
    const info: CardInfo
    const width: real
    const height: real
    const nameText: string
    const attackText: string
    var x: real
    var y: real
    var currentHealth: int
    var healthText: string
    var healthColour: Colour
    var highlightActive: bool
    var highlightVisible: bool
    var healthTweens: seq<HealthTween>

    /** The highlight is shown exactly when it is active, and (with the
        in-between tween values left out) the health label shows the
        committed health. */
    ghost predicate Valid()
      reads this
    {
      highlightActive == highlightVisible && healthText == IntToString(currentHealth)
    }

    /** The card's size is its background image's size scaled by 1.5. */
    constructor (info: CardInfo, backgroundWidth: real, backgroundHeight: real)
      ensures Valid()
      ensures this.info == info && width == backgroundWidth * 1.5 && height == backgroundHeight * 1.5
      ensures nameText == info.name.GetOr("Temporary")
      ensures attackText == IntToString(info.attack.GetOr(0))
      ensures currentHealth == info.health.GetOr(0) && healthColour == White
      ensures !Highlighted()
      ensures Position() == Point(0.0, 0.0) && healthTweens == []
    {
      this.info := info;
      width := backgroundWidth * 1.5;
      height := backgroundHeight * 1.5;
      nameText := info.name.GetOr("Temporary");
      attackText := IntToString(info.attack.GetOr(0));
      currentHealth := info.health.GetOr(0);
      healthText := IntToString(info.health.GetOr(0));
      healthColour := White;
      x, y := 0.0, 0.0;
      healthTweens := [];
      highlightActive, highlightVisible := false, false;
    }

    function Position(): Point
      reads this
    {
      Point(x, y)
    }

    method SetPosition(p: Point)
      modifies this
      ensures Position() == p
      ensures currentHealth == old(currentHealth) && healthText == old(healthText)
      ensures healthColour == old(healthColour) && healthTweens == old(healthTweens)
      ensures highlightActive == old(highlightActive) && highlightVisible == old(highlightVisible)
    {
      x, y := p.x, p.y;
    }

    function Highlighted(): bool
      reads this
    {
      highlightActive
    }

    method SetHighlighted(active: bool)
      modifies this
      ensures highlightActive == active && highlightVisible == active && Highlighted() == active
      ensures Position() == old(Position()) && currentHealth == old(currentHealth)
      ensures healthText == old(healthText) && healthColour == old(healthColour)
      ensures healthTweens == old(healthTweens)
    {
      highlightActive := active;
      highlightVisible := active;
    }

    /** Sets the health at once, label included. */
    method SetHealth(newHealth: int)
      requires Valid()
      modifies this
      ensures Valid() && currentHealth == newHealth && healthText == IntToString(newHealth)
      ensures Position() == old(Position()) && Highlighted() == old(Highlighted())
      ensures healthColour == old(healthColour) && healthTweens == old(healthTweens)
    {
      currentHealth := newHealth;
      healthText := IntToString(newHealth);
    }

    /** Starts a health tween. The committed health does not change yet; the
        label turns red when the new value is lower. Returns the tween's
        position among the running ones. */
    method AnimateHealthChange(newHealth: int, duration: nat) returns (tween: nat)
      requires Valid()
      modifies this
      ensures Valid()
      ensures currentHealth == old(currentHealth) && healthText == old(healthText)
      ensures healthColour == if newHealth < old(currentHealth) then DamageRed else old(healthColour)
      ensures healthTweens == old(healthTweens) + [HealthTween(newHealth, duration)]
      ensures tween < |healthTweens| && healthTweens[tween].target == newHealth
      ensures Position() == old(Position()) && Highlighted() == old(Highlighted())
    {
      if newHealth - currentHealth < 0 {
        healthColour := DamageRed;
      }
      tween := |healthTweens|;
      healthTweens := healthTweens + [HealthTween(newHealth, duration)];
    }

    /** The tween engine finishes a running health tween: its target becomes
        the committed health, the label shows it and turns white again. */
    method CompleteHealthTween(tween: nat)
      requires Valid() && tween < |healthTweens|
      modifies this
      ensures Valid()
      ensures currentHealth == old(healthTweens[tween].target)
      ensures healthText == IntToString(currentHealth) && healthColour == White
      ensures healthTweens == old(healthTweens[..tween] + healthTweens[tween + 1..])
      ensures Position() == old(Position()) && Highlighted() == old(Highlighted())
    {
      var target := healthTweens[tween].target;
      currentHealth := target;
      healthText := IntToString(target);
      healthColour := White;
      healthTweens := healthTweens[..tween] + healthTweens[tween + 1..];
    }

    /** The mouse moving over or out of the card's container, or pressed on it. */
    method MouseOver() returns (e: CardEvent)
      ensures e.HoverEnter? && e.card == this
    {
      e := HoverEnter(this);
    }

    method MouseOut() returns (e: CardEvent)
      ensures e.HoverExit? && e.card == this
    {
      e := HoverExit(this);
    }

    method MouseDown() returns (e: CardEvent)
      ensures e.Select? && e.card == this
    {
      e := Select(this);
    }
  }
}
