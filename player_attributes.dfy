/**
 * A player's integer attributes: health, capped at a maximum fixed at
 * construction when raised and floored at zero when lowered, bomb power and
 * the number of bombs the player may have out. Every write of the current health raises a health-changed event,
 * counted here.
 */
module Attributes {

  function Min(a: int, b: int): int
  {
    if a <= b then a else b
  }

  function Max(a: int, b: int): int
  {
    if a >= b then a else b
  }

  /** Health after healing by `amount`: the smaller of the maximum and the sum. */
  function RaisedHealth(current: int, maxHealth: int, amount: int): (h: int)
    ensures h <= maxHealth && h <= current + amount
    ensures h == maxHealth || h == current + amount
  {
    Min(maxHealth, current + amount)
  }

  /** Health after taking `amount` of damage: the larger of zero and the difference. */
  function LoweredHealth(current: int, amount: int): (h: int)
    ensures h >= 0 && h >= current - amount
    ensures h == 0 || h == current - amount
  {
    Max(0, current - amount)
  }

  predicate HealthInRange(health: int, maxHealth: int)
  {
    0 <= health <= maxHealth
  }

  /** Healing by a non-negative amount keeps health in range and never lowers it. */
  lemma RaisedHealthInRange(current: int, maxHealth: int, amount: int)
    requires HealthInRange(current, maxHealth) && amount >= 0
    ensures HealthInRange(RaisedHealth(current, maxHealth, amount), maxHealth)
    ensures RaisedHealth(current, maxHealth, amount) >= current
  {
  }

  /** Damage by a non-negative amount keeps health in range and never raises it. */
  lemma LoweredHealthInRange(current: int, maxHealth: int, amount: int)
    requires HealthInRange(current, maxHealth) && amount >= 0
    ensures HealthInRange(LoweredHealth(current, amount), maxHealth)
    ensures LoweredHealth(current, amount) <= current
  {
  }

  class PlayerAttributes {
    var maxHealth: int
    var currentHealth: int
    var bombPower: int
    var maxBombs: int
    /** How many times the health-changed event has been raised. */
    var healthChangedEvents: nat

    /**
     * Stores the four values as given; the starting health is not clamped.
     * The health write goes through the setter, so the event fires once.
     */
    constructor (maxHealth: int, startingHealth: int, bombPower: int, maxBombs: int)
      ensures this.maxHealth == maxHealth && currentHealth == startingHealth
      ensures this.bombPower == bombPower && this.maxBombs == maxBombs
      ensures healthChangedEvents == 1
    {
      this.maxHealth := maxHealth;
      currentHealth := 0;
      this.bombPower := 0;
      this.maxBombs := 0;
      healthChangedEvents := 0;
      new;
      SetCurrentHealth(startingHealth);
      this.bombPower := bombPower;
      this.maxBombs := maxBombs;
    }

    /** The CurrentHealth setter: stores the value and raises the event. */
    method SetCurrentHealth(value: int)
      modifies this
      ensures currentHealth == value
      ensures healthChangedEvents == old(healthChangedEvents) + 1
      ensures maxHealth == old(maxHealth) && bombPower == old(bombPower) && maxBombs == old(maxBombs)
    {
      currentHealth := value;
      healthChangedEvents := healthChangedEvents + 1;
    }

    method IncreaseHealth(amount: int)
      modifies this
      ensures currentHealth == RaisedHealth(old(currentHealth), maxHealth, amount)
      ensures healthChangedEvents == old(healthChangedEvents) + 1
      ensures maxHealth == old(maxHealth) && bombPower == old(bombPower) && maxBombs == old(maxBombs)
      ensures old(HealthInRange(currentHealth, maxHealth)) && amount >= 0
              ==> HealthInRange(currentHealth, maxHealth) && currentHealth >= old(currentHealth)
    {
      SetCurrentHealth(Min(maxHealth, currentHealth + amount));
    }

    method DecreaseHealth(amount: int)
      modifies this
      ensures currentHealth == LoweredHealth(old(currentHealth), amount)
      ensures healthChangedEvents == old(healthChangedEvents) + 1
      ensures maxHealth == old(maxHealth) && bombPower == old(bombPower) && maxBombs == old(maxBombs)
      ensures old(HealthInRange(currentHealth, maxHealth)) && amount >= 0
              ==> HealthInRange(currentHealth, maxHealth) && currentHealth <= old(currentHealth)
    {
      SetCurrentHealth(Max(0, currentHealth - amount));
    }

    method IncreaseBombPower(amount: int)
      modifies this`bombPower
      ensures bombPower == old(bombPower) + amount
    {
      bombPower := bombPower + amount;
    }

    method IncreaseMaxBombs(amount: int)
      modifies this`maxBombs
      ensures maxBombs == old(maxBombs) + amount
    {
      maxBombs := maxBombs + amount;
    }

    /** Heals, then raises bomb power, then raises the bomb limit: one health event. */
    method ApplyPowerUp(extraHealth: int, extraBombPower: int, extraMaxBombs: int)
      modifies this
      ensures currentHealth == RaisedHealth(old(currentHealth), maxHealth, extraHealth)
      ensures bombPower == old(bombPower) + extraBombPower
      ensures maxBombs == old(maxBombs) + extraMaxBombs
      ensures maxHealth == old(maxHealth)
      ensures healthChangedEvents == old(healthChangedEvents) + 1
    {
      IncreaseHealth(extraHealth);
      IncreaseBombPower(extraBombPower);
      IncreaseMaxBombs(extraMaxBombs);
    }
  }

  /**
   * A player with 3 of 3 health heals at full health (health stays 3, the
   * event still fires), then takes 5 damage (health floors at 0).
   */
  method HealAtFullThenOverkill() returns (afterHeal: int, afterDamage: int, events: nat)
    ensures afterHeal == 3 && afterDamage == 0 && events == 3
  {
    var player := new PlayerAttributes(3, 3, 1, 1);
    player.IncreaseHealth(1);
    afterHeal := player.currentHealth;
    player.DecreaseHealth(5);
    afterDamage := player.currentHealth;
    events := player.healthChangedEvents;
  }
}
