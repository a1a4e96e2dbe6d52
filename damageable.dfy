/**
 * `Damageable`: the health of an entity that can be hit. A hit is refused while damage is
 * ignored, when it does no damage, once the entity is dead, or while the entity is still
 * invulnerable from the previous hit; an accepted hit lowers the health, starts the
 * invulnerability timer, and either kills the entity or knocks it back. Health values and
 * times are reals; the damage dealt is a parameter, as the damaging component is not part of
 * this model.
 */
module Damageables {

  /** `Mathf.Clamp`: below the minimum gives the minimum, else above the maximum gives the
      maximum. */
  function Clamp(value: real, min: real, max: real): (r: real)
    ensures min <= max ==> min <= r <= max
    ensures min <= value <= max ==> r == value
  {
    if value < min then min else if value > max then max else value
  }

  /** The outcome of one `TryTakeDamage` call, as the events it raises. */
  datatype HitOutcome = Refused | Hit(knockback: bool)

  /** `Damageable`. */
  class Damageable {
    var maxHealth: real
    var currentHealth: real
    var invulnerabilityTime: real
    var hasKnockback: bool
    var isHitThisFrame: bool
    var ignoreDamage: bool
    var isDead: bool
    var invulnerabilityTimer: real

    /** The health lies between 0 and the maximum. */
    predicate HealthInRange()
      reads this
    {
      0.0 <= currentHealth <= maxHealth
    }

    /** A component with the given settings and serialized health, not yet awake. */
    constructor (maxHealth: real, currentHealth: real, invulnerabilityTime: real, hasKnockback: bool)
      ensures this.maxHealth == maxHealth && this.currentHealth == currentHealth
      ensures this.invulnerabilityTime == invulnerabilityTime && this.hasKnockback == hasKnockback
      ensures !isHitThisFrame && !ignoreDamage && !isDead && invulnerabilityTimer == 0.0
    {
      this.maxHealth := maxHealth;
      this.currentHealth := currentHealth;
      this.invulnerabilityTime := invulnerabilityTime;
      this.hasKnockback := hasKnockback;
      isHitThisFrame := false;
      ignoreDamage := false;
      isDead := false;
      invulnerabilityTimer := 0.0;
    }

    /** `Awake`: a health of 0 or less starts at the maximum; any other health is kept. */
    method Awake()
      modifies this`currentHealth
      ensures currentHealth == if old(currentHealth) <= 0.0 then maxHealth else old(currentHealth)
    {
      if currentHealth <= 0.0 {
        currentHealth := maxHealth;
      }
    }

    /** `IsInvulnerable`: the timer of the last hit has not run out. */
    predicate IsInvulnerable()
      reads this
    {
      invulnerabilityTimer > 0.0
    }

    /** `AddHealth`: the health moves by the amount and is clamped to [0, max]; it never
        changes whether the entity is dead. */
    method AddHealth(amount: real)
      modifies this`currentHealth
      ensures currentHealth == Clamp(old(currentHealth) + amount, 0.0, maxHealth)
      ensures maxHealth >= 0.0 ==> HealthInRange()
    {
      currentHealth := Clamp(currentHealth + amount, 0.0, maxHealth);
    }

    /**
     * `TryTakeDamage` (with `ApplyDamage`): refused, with nothing changed, when damage is
     * ignored, the damage is not positive, the entity is dead or still invulnerable. Otherwise
     * the health drops by the damage, clamped to [0, max], the hit is flagged for this frame
     * and the invulnerability timer restarts; a health of 0 or less kills the entity, and
     * any other hit knocks it back when knockback is on.
     */
    method TryTakeDamage(damage: real) returns (outcome: HitOutcome)
      modifies this`currentHealth, this`isHitThisFrame, this`invulnerabilityTimer, this`isDead
      ensures var refused := old(ignoreDamage) || damage <= 0.0 || old(isDead) || old(IsInvulnerable());
        (outcome.Refused? <==> refused) &&
        (refused ==> currentHealth == old(currentHealth) && isHitThisFrame == old(isHitThisFrame) &&
                     invulnerabilityTimer == old(invulnerabilityTimer) && isDead == old(isDead))
      ensures outcome.Hit? ==>
        currentHealth == Clamp(old(currentHealth) - damage, 0.0, maxHealth) &&
        isHitThisFrame && invulnerabilityTimer == invulnerabilityTime &&
        (isDead <==> currentHealth <= 0.0) &&
        outcome.knockback == (hasKnockback && !isDead)
      ensures old(isDead) ==> isDead
      ensures outcome.Hit? && maxHealth >= 0.0 ==> HealthInRange()
    {
      if ignoreDamage || damage <= 0.0 || isDead || IsInvulnerable() {
        return Refused;
      }
      outcome := ApplyDamage(damage);
    }

    /** `ApplyDamage`, reached only for a living entity. */
    method ApplyDamage(damage: real) returns (outcome: HitOutcome)
      requires !isDead
      modifies this`currentHealth, this`isHitThisFrame, this`invulnerabilityTimer, this`isDead
      ensures currentHealth == Clamp(old(currentHealth) - damage, 0.0, maxHealth)
      ensures isHitThisFrame && invulnerabilityTimer == invulnerabilityTime
      ensures isDead <==> currentHealth <= 0.0
      ensures outcome == Hit(hasKnockback && !isDead)
    {
      currentHealth := Clamp(currentHealth - damage, 0.0, maxHealth);
      isHitThisFrame := true;
      invulnerabilityTimer := invulnerabilityTime;
      var knockback := false;
      if currentHealth <= 0.0 {
        isDead := true;
      } else {
        if hasKnockback {
          knockback := true;
        }
      }
      outcome := Hit(knockback);
    }

    /**
     * `LateUpdate`: the hit flag is cleared; while damage is ignored the timer is zeroed, and
     * a running timer counts down by the frame's delta. Health and death are untouched.
     */
    method LateUpdate(deltaTime: real)
      modifies this`isHitThisFrame, this`invulnerabilityTimer
      ensures !isHitThisFrame
      ensures var t := if old(ignoreDamage) then 0.0 else old(invulnerabilityTimer);
        invulnerabilityTimer == if t > 0.0 then t - deltaTime else t
    {
      isHitThisFrame := false;
      if ignoreDamage {
        invulnerabilityTimer := 0.0;
      }
      if invulnerabilityTimer > 0.0 {
        invulnerabilityTimer := invulnerabilityTimer - deltaTime;
      }
    }
  }

  /**
   * Two hits in a row: with a positive invulnerability time, a hit right after an accepted
   * one is refused, and the entity keeps the health the first hit left.
   */
  method HitThenHitAgain(d: Damageable, first: real, second: real) returns (o1: HitOutcome, o2: HitOutcome)
    requires d.invulnerabilityTime > 0.0
    modifies d
    ensures o1.Hit? ==> o2.Refused? && d.currentHealth == Clamp(old(d.currentHealth) - first, 0.0, d.maxHealth)
  {
    o1 := d.TryTakeDamage(first);
    o2 := d.TryTakeDamage(second);
  }

  /** A dead entity stays dead: no call of the class brings it back. */
  method DeadStaysDead(d: Damageable, amount: real, damage: real, deltaTime: real)
    requires d.isDead
    modifies d
    ensures d.isDead
  {
    d.Awake();
    d.AddHealth(amount);
    var _ := d.TryTakeDamage(damage);
    d.LateUpdate(deltaTime);
  }
}
