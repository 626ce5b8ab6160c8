/**
 * The combat/death state machine of a SuperShooter character entity
 * (class CharacterEntity in Assets/SuperShooter/Game/Scripts/CharacterEntity.cs).
 *
 * The module has two layers:
 *  - a value layer: `Vitals` is the state the operations touch, and one
 *    function per operation gives the state after it and the hooks it fires;
 *  - the class `CharacterEntity`, whose methods change `health` and `isDead`
 *    in place and call the overridable hooks; each single-entity operation is
 *    proved to do exactly what its value-layer function says, and DealDamage
 *    gives the target's effect through `Damaged` and its own hooks directly.
 * The hooks are empty virtual methods in the source; here each one appends an
 * event to the ghost trace `hooks`, so "fires once", "fires before" and
 * "never fires" become statements about that trace.
 */
module Combat {

  /** The faction of a character (the source's TargetType enum, values 0 to 4). */
  datatype TargetType = None | Player | Friendly | Hostile | Enemy

  /** The part of a character the combat operations read and write. */
  datatype Vitals = Vitals(health: int, isDead: bool, maxHealth: int)

  /**
   * One call of an overridable hook, as recorded in the entity's trace; `E`
   * identifies entities. `seen` is the state the hook observes when it runs:
   * the entity's own state for DamageTaken, Death and BackFromTheDead, and the
   * target's state for DamageDealt and TargetKilled.
   */
  datatype HookEvent<E> =
    | DamageTaken(amount: int, from: E, seen: Vitals)
    | DamageDealt(amount: int, target: E, seen: Vitals)
    | TargetKilled(target: E, seen: Vitals)
    | Death(seen: Vitals)
    | BackFromTheDead(seen: Vitals)

  /** The state after one operation and the hooks it fired on the entity, in order. */
  datatype Outcome<E> = Outcome(after: Vitals, fired: seq<HookEvent<E>>)

  /** An operation an entity can undergo on its own. */
  datatype Op<E> =
    | AddHealth(amount: int)
    | SetHealth(newAmount: int)
    | ResetHealth
    | Reincarnate
    | TakeDamage(amount: int, from: E)
    | Kill

  // ------------------------------------------------------------------
  // Value layer: one function per operation.

  /** AddHealth: health moves by `amount`, capped at maxHealth and never floored. */
  function Healed(v: Vitals, amount: int): (r: Vitals)
    ensures r.health <= v.maxHealth && r.health <= v.health + amount
    ensures r.health == v.health + amount || r.health == v.maxHealth
    ensures r.isDead == v.isDead && r.maxHealth == v.maxHealth
  {
    var h := v.health + amount;
    v.(health := if h > v.maxHealth then v.maxHealth else h)
  }

  /** SetHealth: health becomes `newAmount` capped at maxHealth; the death flag is left alone. */
  function HealthSetTo(v: Vitals, newAmount: int): (r: Vitals)
    ensures r.health <= v.maxHealth && r.health <= newAmount
    ensures r.health == newAmount || r.health == v.maxHealth
    ensures r.isDead == v.isDead && r.maxHealth == v.maxHealth
  {
    v.(health := if newAmount > v.maxHealth then v.maxHealth else newAmount)
  }

  /** ResetHealth: full health, and dead exactly when the maximum is zero. */
  function Restored(v: Vitals): (r: Vitals)
    ensures r.health == r.maxHealth == v.maxHealth
    ensures r.isDead <==> v.maxHealth == 0
  {
    Vitals(v.maxHealth, v.maxHealth == 0, v.maxHealth)
  }

  /**
   * Reincarnate: the state ResetHealth leaves, and the revival hook once if
   * the entity was dead, run after the reset so that it sees the restored state.
   */
  function Reincarnated<E>(v: Vitals): (r: Outcome<E>)
    ensures r.after == Restored(v)
    ensures v.isDead ==> r.fired == [BackFromTheDead(r.after)]
    ensures !v.isDead ==> r.fired == []
  {
    var wasDead := v.isDead;
    var restored := Restored(v);
    Outcome(restored, if wasDead then [BackFromTheDead(restored)] else [])
  }

  /**
   * Kill: dead whatever the health, and the death hook fires on every call,
   * after the flag is set, so that it sees the entity dead.
   */
  function Killed<E>(v: Vitals): (r: Outcome<E>)
    ensures r.after.isDead
    ensures r.after.health == v.health && r.after.maxHealth == v.maxHealth
    ensures r.fired == [Death(r.after)]
  {
    var dead := v.(isDead := true);
    Outcome(dead, [Death(dead)])
  }

  /**
   * TakeDamage: nothing at all on a dead entity; otherwise health drops by
   * `amount` floored at zero, the damage hook fires (seeing the new health and
   * the entity still alive), and the entity is killed (death hook after the
   * damage hook) exactly when its health reached zero.
   */
  function Damaged<E>(v: Vitals, amount: int, from: E): (r: Outcome<E>)
    ensures v.isDead ==> r == Outcome(v, [])
    ensures !v.isDead ==> r.after.maxHealth == v.maxHealth
    ensures !v.isDead ==> 0 <= r.after.health && v.health - amount <= r.after.health
    ensures !v.isDead ==> r.after.health == 0 || r.after.health == v.health - amount
    ensures !v.isDead ==> (r.after.isDead <==> r.after.health == 0)
    ensures !v.isDead ==> (r.after.isDead <==> amount >= v.health)
    ensures !v.isDead ==> |r.fired| >= 1
    ensures !v.isDead ==> r.fired[0] == DamageTaken(amount, from, Vitals(r.after.health, false, v.maxHealth))
    ensures !v.isDead ==> r.fired[1..] == if r.after.isDead then [Death(r.after)] else []
  {
    if v.isDead then Outcome(v, [])
    else
      var h := v.health - amount;
      var clamped := v.(health := if h < 0 then 0 else h);
      if clamped.health <= 0 then
        var k := Killed<E>(clamped);
        Outcome(k.after, [DamageTaken(amount, from, clamped)] + k.fired)
      else
        Outcome(clamped, [DamageTaken(amount, from, clamped)])
  }

  /** One operation on one entity. */
  function Step<E>(v: Vitals, op: Op<E>): Outcome<E>
  {
    match op
    case AddHealth(amount) => Outcome(Healed(v, amount), [])
    case SetHealth(newAmount) => Outcome(HealthSetTo(v, newAmount), [])
    case ResetHealth => Outcome(Restored(v), [])
    case Reincarnate => Reincarnated(v)
    case TakeDamage(amount, from) => Damaged(v, amount, from)
    case Kill => Killed(v)
  }

  /** A sequence of operations, one after the other: every state the entity can reach. */
  function Run<E>(v: Vitals, ops: seq<Op<E>>): (r: Outcome<E>)
    ensures r.after.maxHealth == v.maxHealth
    ensures |r.fired| <= 2 * |ops|
    decreases |ops|
  {
    if ops == [] then Outcome(v, [])
    else
      var first := Step(v, ops[0]);
      var rest := Run(first.after, ops[1..]);
      Outcome(rest.after, first.fired + rest.fired)
  }

  // ------------------------------------------------------------------
  // Properties of sequences of operations.

  /** Health between zero and the maximum: the range every operation keeps when all amounts are non-negative (see RunKeepsHealthInRange). */
  predicate InRange(v: Vitals)
  {
    0 <= v.health <= v.maxHealth
  }

  /** The operation heals, sets or damages by a non-negative amount. */
  predicate NonNegative<E>(op: Op<E>)
  {
    match op
    case AddHealth(amount) => amount >= 0
    case SetHealth(newAmount) => newAmount >= 0
    case TakeDamage(amount, _) => amount >= 0
    case _ => true
  }

  /**
   * Health stays between zero and the maximum along any run whose amounts
   * are all non-negative. (With negative amounts it does not: see the next
   * two lemmas.)
   */
  lemma {:induction false} RunKeepsHealthInRange<E>(v: Vitals, ops: seq<Op<E>>)
    requires InRange(v)
    requires forall i :: 0 <= i < |ops| ==> NonNegative(ops[i])
    ensures InRange(Run(v, ops).after)
    decreases |ops|
  {
    if ops != [] {
      var first := Step(v, ops[0]);
      assert NonNegative(ops[0]);
      assert InRange(first.after);
      assert forall i :: 0 <= i < |ops[1..]| ==> NonNegative(ops[1..][i]) by {
        forall i | 0 <= i < |ops[1..]| ensures NonNegative(ops[1..][i]) {
          assert ops[1..][i] == ops[i + 1];
        }
      }
      RunKeepsHealthInRange(first.after, ops[1..]);
    }
  }

  /** AddHealth has no floor: a negative amount can take health below zero. */
  lemma HealCanGoBelowZero(v: Vitals, amount: int)
    requires v.health + amount < 0
    ensures Healed(v, amount).health < 0
  {
  }

  /** TakeDamage has no ceiling: a negative amount can take health above the maximum. */
  lemma NegativeDamageCanExceedMax<E>(v: Vitals, amount: int, from: E)
    requires !v.isDead && v.health - amount > v.maxHealth
    ensures Damaged(v, amount, from).after.health > v.maxHealth
  {
  }

  /**
   * ResetHealth (and so Reincarnate) sets the death flag from `health == 0`:
   * with a maximum of zero it marks a live entity dead without any death hook.
   */
  lemma ZeroMaxResetKillsSilently<E>(v: Vitals)
    requires !v.isDead && v.maxHealth == 0
    ensures Run<E>(v, [ResetHealth]) == Outcome(Vitals(0, true, 0), [])
  {
  }

  /**
   * When the maximum is not zero, an entity that is alive before a run and
   * dead after it had its death hook fired during the run, seeing it dead.
   */
  lemma {:induction false} DeathIsAlwaysAnnounced<E>(v: Vitals, ops: seq<Op<E>>)
    requires v.maxHealth != 0
    requires !v.isDead && Run(v, ops).after.isDead
    ensures exists i :: 0 <= i < |Run(v, ops).fired| && Run(v, ops).fired[i].Death? && Run(v, ops).fired[i].seen.isDead
    decreases |ops|
  {
    var first := Step(v, ops[0]);
    var rest := Run(first.after, ops[1..]);
    var all := Run(v, ops).fired;
    assert all == first.fired + rest.fired;
    if first.after.isDead {
      var j := if ops[0].TakeDamage? then 1 else 0;
      assert first.fired[j] == Death(first.after);
      assert all[j] == first.fired[j];
    } else {
      DeathIsAlwaysAnnounced(first.after, ops[1..]);
      var i :| 0 <= i < |rest.fired| && rest.fired[i].Death? && rest.fired[i].seen.isDead;
      assert all[|first.fired| + i] == rest.fired[i];
    }
  }

  /** Damage of any amount, from anyone, any number of times, leaves a dead entity untouched. */
  lemma {:induction false} DeadEntityIgnoresDamage<E>(v: Vitals, ops: seq<Op<E>>)
    requires v.isDead
    requires forall i :: 0 <= i < |ops| ==> ops[i].TakeDamage?
    ensures Run(v, ops) == Outcome(v, [])
    decreases |ops|
  {
    if ops != [] {
      assert ops[0].TakeDamage?;
      assert forall i :: 0 <= i < |ops[1..]| ==> ops[1..][i].TakeDamage? by {
        forall i | 0 <= i < |ops[1..]| ensures ops[1..][i].TakeDamage? {
          assert ops[1..][i] == ops[i + 1];
        }
      }
      DeadEntityIgnoresDamage(v, ops[1..]);
    }
  }

  /** A lethal hit kills once; a second hit then changes nothing and fires nothing. */
  lemma LethalHitIsFinal<E>(v: Vitals, a: int, b: int, src: E)
    requires !v.isDead && a >= v.health
    ensures Run(v, [TakeDamage(a, src), TakeDamage(b, src)])
         == Outcome(v.(health := 0, isDead := true),
                    [DamageTaken(a, src, v.(health := 0)), Death(v.(health := 0, isDead := true))])
  {
    var first := Damaged(v, a, src);
    assert first.after == v.(health := 0, isDead := true);
    assert first.fired == [DamageTaken(a, src, v.(health := 0)), Death(first.after)];
    assert [TakeDamage(a, src), TakeDamage(b, src)][1..] == [TakeDamage(b, src)];
    assert Run(first.after, [TakeDamage(b, src)]) == Outcome(first.after, []);
  }

  /** Kill is not idempotent: a second call leaves the same state but fires the death hook again. */
  lemma KillRefiresDeath<E>(v: Vitals)
    ensures Run<E>(v, [Kill, Kill])
         == Outcome(v.(isDead := true), [Death(v.(isDead := true)), Death(v.(isDead := true))])
  {
  }

  /** Healing or setting health never revives a dead entity, however much health it gets. */
  lemma {:induction false} HealingNeverRevives<E>(v: Vitals, ops: seq<Op<E>>)
    requires v.isDead
    requires forall i :: 0 <= i < |ops| ==> ops[i].AddHealth? || ops[i].SetHealth? || ops[i].TakeDamage?
    ensures Run(v, ops).after.isDead
    ensures Run(v, ops).fired == []
    decreases |ops|
  {
    if ops != [] {
      var op := ops[0];
      assert op.AddHealth? || op.SetHealth? || op.TakeDamage?;
      assert Step(v, op).after.isDead && Step(v, op).fired == [];
      forall i | 0 <= i < |ops[1..]|
        ensures ops[1..][i].AddHealth? || ops[1..][i].SetHealth? || ops[1..][i].TakeDamage?
      {
        assert ops[1..][i] == ops[i + 1];
      }
      HealingNeverRevives(Step(v, op).after, ops[1..]);
    }
  }

  // ------------------------------------------------------------------
  // The entity itself.

  class CharacterEntity {
    var targetType: TargetType
    var maxHealth: int
    var health: int
    var isDead: bool
    /** Every hook called on this entity, oldest first. */
    ghost var hooks: seq<HookEvent<CharacterEntity>>

    /** The state the combat operations read and write. */
    function State(): Vitals
      reads this
    {
      Vitals(health, isDead, maxHealth)
    }

    /** A new entity: health 0 (the property's default) and alive, with the given maximum. */
    constructor (targetType: TargetType, maxHealth: int)
      ensures this.targetType == targetType
      ensures State() == Vitals(0, false, maxHealth)
      ensures hooks == []
    {
      this.targetType := targetType;
      this.maxHealth := maxHealth;
      health := 0;
      isDead := false;
      hooks := [];
    }

    method AddHealth(amount: int)
      modifies this`health
      ensures State() == Healed(old(State()), amount)
      ensures hooks == old(hooks)
    {
      health := health + amount;
      if health > maxHealth {
        health := maxHealth;
      }
    }

    method SetHealth(newAmount: int)
      modifies this`health
      ensures State() == HealthSetTo(old(State()), newAmount)
      ensures hooks == old(hooks)
    {
      var amount := newAmount;
      if amount > maxHealth {
        amount := maxHealth;
      }
      health := amount;
    }

    method ResetHealth()
      modifies this`health, this`isDead
      ensures State() == Restored(old(State()))
      ensures hooks == old(hooks)
    {
      health := maxHealth;
      isDead := health == 0;
    }

    method Reincarnate()
      modifies this`health, this`isDead, this`hooks
      ensures State() == Reincarnated<CharacterEntity>(old(State())).after
      ensures hooks == old(hooks) + Reincarnated<CharacterEntity>(old(State())).fired
    {
      var wasDead := isDead;
      ResetHealth();
      if wasDead {
        BackFromTheDead();
      }
    }

    /** Hook: the entity was brought back to life by Reincarnate; it sees the entity's state when it fires. */
    method BackFromTheDead()
      modifies this`hooks
      ensures hooks == old(hooks) + [HookEvent.BackFromTheDead(State())]
    {
      hooks := hooks + [HookEvent.BackFromTheDead(State())];
    }

    method TakeDamage(amount: int, from: CharacterEntity)
      modifies this`health, this`isDead, this`hooks
      ensures State() == Damaged(old(State()), amount, from).after
      ensures hooks == old(hooks) + Damaged(old(State()), amount, from).fired
    {
      if isDead {
        return;
      }
      health := health - amount;
      if health < 0 {
        health := 0;
      }
      OnDamageTaken(amount, from);
      if health <= 0 {
        Kill();
      }
    }

    /** Hook: this entity took `amount` damage from `from`; it sees this entity's state when it fires. */
    method OnDamageTaken(amount: int, from: CharacterEntity)
      modifies this`hooks
      ensures hooks == old(hooks) + [DamageTaken(amount, from, State())]
    {
      hooks := hooks + [DamageTaken(amount, from, State())];
    }

    /**
     * Nothing happens if the target is already dead. Otherwise the target
     * takes the damage (with this entity as its source), then the
     * damage-dealt hook fires on this entity, then the target-killed hook
     * fires on this entity exactly when the target is now dead, that is,
     * exactly when this hit killed it. Both of this entity's hooks see the
     * target as the hit left it. When the target is this entity itself, all
     * four hooks land in the one trace, in that order.
     */
    method DealDamage(amount: int, target: CharacterEntity)
      modifies this`hooks, target`health, target`isDead, target`hooks
      ensures old(target.isDead) ==>
        target.State() == old(target.State()) && target.hooks == old(target.hooks) && hooks == old(hooks)
      ensures !old(target.isDead) ==> target.State() == Damaged(old(target.State()), amount, this).after
      ensures !old(target.isDead) ==> (target.isDead <==> amount >= old(target.health))
      ensures !old(target.isDead) && target != this ==>
        && target.hooks == old(target.hooks) + Damaged(old(target.State()), amount, this).fired
        && hooks == old(hooks) + [DamageDealt(amount, target, target.State())]
                    + (if target.isDead then [TargetKilled(target, target.State())] else [])
      ensures !old(target.isDead) && target == this ==>
        hooks == old(hooks) + Damaged(old(State()), amount, this).fired
                 + [DamageDealt(amount, this, State())] + (if isDead then [TargetKilled(this, State())] else [])
      ensures target != this ==> State() == old(State())
    {
      if target.isDead {
        return;
      }
      target.TakeDamage(amount, this);
      OnDamageDealt(amount, target);
      if target.isDead {
        OnTargetKilled(target);
      }
    }

    /** Hook: this entity dealt `amount` damage to `target`; it sees the target's state when it fires. */
    method OnDamageDealt(amount: int, target: CharacterEntity)
      modifies this`hooks
      ensures hooks == old(hooks) + [DamageDealt(amount, target, target.State())]
    {
      hooks := hooks + [DamageDealt(amount, target, target.State())];
    }

    /** Hook: this entity's hit killed `target`; it sees the target's state when it fires. */
    method OnTargetKilled(target: CharacterEntity)
      modifies this`hooks
      ensures hooks == old(hooks) + [TargetKilled(target, target.State())]
    {
      hooks := hooks + [TargetKilled(target, target.State())];
    }

    method Kill()
      modifies this`isDead, this`hooks
      ensures State() == Killed<CharacterEntity>(old(State())).after
      ensures hooks == old(hooks) + Killed<CharacterEntity>(old(State())).fired
    {
      isDead := true;
      OnDeath();
    }

    /** Hook: this entity died; it sees this entity's state when it fires. */
    method OnDeath()
      modifies this`hooks
      ensures hooks == old(hooks) + [Death(State())]
    {
      hooks := hooks + [Death(State())];
    }
  }

  /** The combat scenario of a fresh entity: two hits, the second lethal, then revival. */
  method DamageAndRevivalScenario()
  {
    var src := new CharacterEntity(Enemy, 100);
    var e := new CharacterEntity(Player, 100);
    e.ResetHealth();
    assert e.State() == Vitals(100, false, 100);
    e.TakeDamage(30, src);
    assert e.State() == Vitals(70, false, 100);
    assert e.hooks == [DamageTaken(30, src, Vitals(70, false, 100))];
    e.TakeDamage(80, src);
    assert e.State() == Vitals(0, true, 100);
    var beforeRevival := [DamageTaken(30, src, Vitals(70, false, 100)), DamageTaken(80, src, Vitals(0, false, 100)),
                          Death(Vitals(0, true, 100))];
    assert e.hooks == beforeRevival;
    e.TakeDamage(5, src);
    assert e.State() == Vitals(0, true, 100);
    e.Reincarnate();
    assert e.State() == Vitals(100, false, 100);
    assert e.hooks == beforeRevival + [HookEvent.BackFromTheDead(Vitals(100, false, 100))];
    e.Reincarnate();
    assert e.hooks == beforeRevival + [HookEvent.BackFromTheDead(Vitals(100, false, 100))];
  }

  /** One entity killing another through DealDamage, then hitting the corpse. */
  method DealDamageScenario()
  {
    var attacker := new CharacterEntity(Player, 100);
    var victim := new CharacterEntity(Enemy, 50);
    victim.ResetHealth();
    attacker.DealDamage(20, victim);
    assert victim.State() == Vitals(30, false, 50);
    assert attacker.hooks == [DamageDealt(20, victim, Vitals(30, false, 50))];
    attacker.DealDamage(40, victim);
    assert victim.State() == Vitals(0, true, 50);
    assert victim.hooks == [DamageTaken(20, attacker, Vitals(30, false, 50)), DamageTaken(40, attacker, Vitals(0, false, 50)),
                            Death(Vitals(0, true, 50))];
    var dealt := [DamageDealt(20, victim, Vitals(30, false, 50)), DamageDealt(40, victim, Vitals(0, true, 50)),
                  TargetKilled(victim, Vitals(0, true, 50))];
    assert attacker.hooks == dealt;
    attacker.DealDamage(10, victim);
    assert victim.State() == Vitals(0, true, 50);
    assert attacker.hooks == dealt;
  }
}
