/**
 * The value-level domain of the battle core (Assets/Scripts/Runtime/BattleSampleRunner.cs):
 * stat blocks, buff instances, skills and perks, and the pure functions that say
 * what the Unit methods and the turn pipeline compute: the modifier chain, the
 * clamped gauge gain, the rounded and floored damage and the buff tick.
 */
module BattleModel {
  import opened Wrappers
  import opened Config

  const MaxGauge: real := 100.0

  function Min(a: real, b: real): real { if a <= b then a else b }

  function Max(a: int, b: int): int { if a >= b then a else b }

  // ---------------------------------------------------------------------------
  // Stat block
  // ---------------------------------------------------------------------------

  /** A unit's numbers. The core only ever lowers `currentHP`. */
  datatype Stats = Stats(atk: int, gaugeSpeed: real, currentHP: int, maxHP: int) {
    /** Resistance lookup by attribute tag: a stub that resolves every tag to 0. */
    function GetResistance(attributeType: string): (r: real)
      ensures r == 0.0
    {
      0.0
    }
  }

  /** The `Stats(atk, speed, hp)` constructor: a fresh stat block starts at full HP. */
  function NewStats(atk: int, speed: real, hp: int): (s: Stats)
    ensures s.currentHP == s.maxHP == hp
    ensures s.atk == atk && s.gaugeSpeed == speed
  {
    Stats(atk, speed, hp, hp)
  }

  predicate Dead(s: Stats) { s.currentHP <= 0 }

  predicate Ready(gauge: real) { gauge >= MaxGauge }

  // ---------------------------------------------------------------------------
  // Buffs, skills, perks
  // ---------------------------------------------------------------------------

  /** The closed set of buff transforms the repository builds (each a `Func<float,float>`). */
  datatype Transform = Identity | Multiply(factor: real)

  function ApplyTransform(t: Transform, x: real): real {
    match t
    case Identity => x
    case Multiply(f) => x * f
  }

  /** A timed modifier on a unit's ledger. */
  datatype BuffInstance = BuffInstance(id: string, remainingTurns: int, amount: real, apply: Transform)

  datatype Skill = Skill(
    id: string,
    name: string,
    skillType: SkillType,
    gaugeCost: real,
    basePower: real,
    attributeType: string,
    effect: Option<BuffInstance>)

  /**
   * A perk: the `IPerk` capability. `Scriptable` is the only implementation the
   * repository ships (it wraps a perk asset and passes every value through);
   * `Custom` stands for any other implementation of the two value hooks.
   */
  datatype Perk =
    | Scriptable(data: PerkData)
    | Custom(gainHook: real -> real, damageHook: real -> real)

  function OnGaugeGain(p: Perk, gain: real): real {
    match p
    case Scriptable(_) => gain
    case Custom(g, _) => g(gain)
  }

  function OnModifyDamage(p: Perk, damage: real): real {
    match p
    case Scriptable(_) => damage
    case Custom(_, d) => d(damage)
  }

  function BuffStep(b: BuffInstance, x: real): real { ApplyTransform(b.apply, x) }

  // ---------------------------------------------------------------------------
  // The modifier chain
  // ---------------------------------------------------------------------------

  /** `x` passed through `items` in list order, each step consuming the previous result. */
  function Chain<T>(items: seq<T>, step: (T, real) -> real, x: real): real
    decreases |items|
  {
    if items == [] then x
    else step(items[|items| - 1], Chain(items[..|items| - 1], step, x))
  }

  /** Chaining over a concatenation is chaining over the first part, then the second. */
  lemma {:induction false} ChainAppend<T>(a: seq<T>, b: seq<T>, step: (T, real) -> real, x: real)
    ensures Chain(a + b, step, x) == Chain(b, step, Chain(a, step, x))
    decreases |b|
  {
    if b == [] {
      assert a + b == a;
    } else {
      var b' := b[..|b| - 1];
      assert (a + b)[..|a + b| - 1] == a + b';
      assert (a + b)[|a + b| - 1] == b[|b| - 1];
      ChainAppend(a, b', step, x);
    }
  }

  /** The first modifier of the list consumes the input, and the rest consume its result. */
  lemma ChainCons<T>(a: T, rest: seq<T>, step: (T, real) -> real, x: real)
    ensures Chain([a] + rest, step, x) == Chain(rest, step, step(a, x))
  {
    ChainAppend([a], rest, step, x);
    assert [a][..0] == [];
  }

  /** Two perks [A, B] modify damage as B(A(raw)), not A(B(raw)). */
  lemma PerkDamageOrder(a: Perk, b: Perk, raw: real)
    ensures Chain([a, b], OnModifyDamage, raw) == OnModifyDamage(b, OnModifyDamage(a, raw))
  {
    assert [a, b][..1] == [a];
    assert [a][..0] == [];
    assert Chain([a], OnModifyDamage, raw) == OnModifyDamage(a, raw);
  }

  /** A chain of steps that each pass their value through is the identity. */
  lemma {:induction false} ChainIdentity<T>(items: seq<T>, step: (T, real) -> real, x: real)
    requires forall k, y :: 0 <= k < |items| ==> step(items[k], y) == y
    ensures Chain(items, step, x) == x
    decreases |items|
  {
    if items != [] {
      ChainIdentity(items[..|items| - 1], step, x);
    }
  }

  predicate AllScriptable(perks: seq<Perk>) {
    forall k :: 0 <= k < |perks| ==> perks[k].Scriptable?
  }

  /** Perks that are all `Scriptable` leave both the gauge gain and the damage unchanged. */
  lemma ScriptableChainIsIdentity(perks: seq<Perk>, x: real)
    requires AllScriptable(perks)
    ensures Chain(perks, OnGaugeGain, x) == x
    ensures Chain(perks, OnModifyDamage, x) == x
  {
    ChainIdentity(perks, OnGaugeGain, x);
    ChainIdentity(perks, OnModifyDamage, x);
  }

  // ---------------------------------------------------------------------------
  // The action gauge
  // ---------------------------------------------------------------------------

  /** The gauge after `GainGauge(amount)`: the perk-chained gain added, capped at 100 only from above. */
  function GaugeAfterGain(gauge: real, perks: seq<Perk>, amount: real): (r: real)
    ensures r <= MaxGauge
    ensures r <= gauge + Chain(perks, OnGaugeGain, amount)
    ensures r == gauge + Chain(perks, OnGaugeGain, amount) || r == MaxGauge
  {
    Min(MaxGauge, gauge + Chain(perks, OnGaugeGain, amount))
  }

  /** The gain one scheduler tick offers a unit: its gauge speed times the elapsed time. */
  function TickAmount(stats: Stats, dt: real): real {
    stats.gaugeSpeed * dt
  }

  /** A unit's gauge after one scheduler tick of length `dt`: only units neither ready nor dead gain. */
  function GaugeAfterTick(gauge: real, stats: Stats, perks: seq<Perk>, dt: real): (r: real)
    ensures r == gauge || r <= MaxGauge
    ensures Ready(gauge) || Dead(stats) ==> r == gauge
    ensures !Ready(gauge) && !Dead(stats) ==> r == GaugeAfterGain(gauge, perks, TickAmount(stats, dt))
  {
    if !Ready(gauge) && !Dead(stats) then GaugeAfterGain(gauge, perks, TickAmount(stats, dt)) else gauge
  }

  /** With pass-through perks, a gain that keeps the gauge inside [0, 100] keeps it there. */
  lemma GaugeStaysInRange(gauge: real, perks: seq<Perk>, amount: real)
    requires AllScriptable(perks)
    requires 0.0 <= gauge <= MaxGauge && amount >= 0.0
    ensures gauge <= GaugeAfterGain(gauge, perks, amount) <= MaxGauge
  {
    ScriptableChainIsIdentity(perks, amount);
  }

  /** With pass-through perks, a tick of length 0 leaves every gauge as it was. */
  lemma ZeroTickIsIdle(gauge: real, stats: Stats, perks: seq<Perk>)
    requires AllScriptable(perks)
    ensures GaugeAfterTick(gauge, stats, perks, 0.0) == gauge
  {
    ScriptableChainIsIdentity(perks, TickAmount(stats, 0.0));
  }

  /**
   * The hooks run even when the tick has length 0: a perk that adds to every
   * gain moves a waiting unit's gauge although no time has passed.
   */
  lemma ZeroTickStillRunsPerks()
    ensures GaugeAfterTick(0.0, NewStats(100, 20.0, 300), [Custom(g => g + 10.0, d => d)], 0.0) == 10.0
  {
    var p: Perk := Custom(g => g + 10.0, d => d);
    assert [p][..0] == [];
    assert Chain([p], OnGaugeGain, 0.0) == 10.0;
  }

  // ---------------------------------------------------------------------------
  // Damage
  // ---------------------------------------------------------------------------

  /** `Mathf.RoundToInt`: the nearest integer, halves going to the even neighbour. */
  function RoundToInt(x: real): (r: int)
    ensures x - 0.5 <= r as real <= x + 0.5
    ensures (r as real == x - 0.5 || r as real == x + 0.5) ==> r % 2 == 0
  {
    var f := x.Floor;
    var frac := x - f as real;
    if frac < 0.5 then f
    else if frac > 0.5 then f + 1
    else if f % 2 == 0 then f
    else f + 1
  }

  lemma RoundToIntOfInt(n: int)
    ensures RoundToInt(n as real) == n
  {
  }

  /**
   * The HP a unit loses from `TakeDamage(dmg)`: `dmg` run through the unit's
   * own buffs in ledger order, rounded, and never less than 1.
   */
  function HitDamage(buffs: seq<BuffInstance>, dmg: int): (r: int)
    ensures r >= 1
    ensures
      var c := Chain(buffs, BuffStep, dmg as real);
      (c <= 0.5 ==> r == 1) && (c >= 0.5 ==> c - 0.5 <= r as real <= c + 0.5)
  {
    Max(1, RoundToInt(Chain(buffs, BuffStep, dmg as real)))
  }

  /** A skill's raw damage: the attacker's ATK times the skill's base power. */
  function RawDamage(atk: int, skill: Skill): (r: real)
    ensures skill.basePower == 1.0 ==> r == atk as real
    ensures atk >= 0 && skill.basePower >= 0.0 ==> r >= 0.0
  {
    atk as real * skill.basePower
  }

  /** The attacker's damage before resistance: the raw damage through its perks in order. */
  function ModifiedDamage(atk: int, perks: seq<Perk>, skill: Skill): real {
    Chain(perks, OnModifyDamage, RawDamage(atk, skill))
  }

  /** Resistance scaling: a positive resistance mitigates, a negative one amplifies. */
  function Mitigated(damage: real, resistance: real): (r: real)
    ensures resistance == 0.0 ==> r == damage
    ensures resistance == 1.0 ==> r == 0.0
    ensures damage >= 0.0 && resistance >= 0.0 ==> r <= damage
    ensures damage >= 0.0 && resistance <= 1.0 ==> r >= 0.0
    ensures damage > 0.0 && resistance < 0.0 ==> r > damage
  {
    damage * (1.0 - resistance)
  }

  /**
   * The value a turn hands to `TakeDamage`: the perk-modified damage scaled by
   * (1 - resistance), rounded, and never less than 1.
   */
  function TurnDamage(atk: int, perks: seq<Perk>, skill: Skill, resistance: real): (r: int)
    ensures r >= 1
    ensures
      var m := Mitigated(ModifiedDamage(atk, perks, skill), resistance);
      (m <= 0.5 ==> r == 1) && (m >= 0.5 ==> m - 0.5 <= r as real <= m + 0.5)
  {
    Max(1, RoundToInt(Mitigated(ModifiedDamage(atk, perks, skill), resistance)))
  }

  /** Pass-through perks and the 0 resistance stub: a whole, positive ATK x power is dealt as is. */
  lemma DefaultTurnDamage(atk: int, perks: seq<Perk>, skill: Skill, defender: Stats, n: int)
    requires AllScriptable(perks)
    requires RawDamage(atk, skill) == n as real && n >= 1
    ensures TurnDamage(atk, perks, skill, defender.GetResistance(skill.attributeType)) == n
  {
    ScriptableChainIsIdentity(perks, RawDamage(atk, skill));
    assert ModifiedDamage(atk, perks, skill) == n as real;
    assert Mitigated(n as real, 0.0) == n as real;
    RoundToIntOfInt(n);
  }

  /** ATK 100, power 1.5, resistance 0.5, no perks: raw 150, mitigated to 75. */
  lemma HalfResistanceScenario(skill: Skill)
    requires skill.basePower == 1.5
    ensures TurnDamage(100, [], skill, 0.5) == 75
    ensures HitDamage([], 75) == 75
  {
    RoundToIntOfInt(75);
  }

  /** Full immunity (resistance 1) still takes the minimum hit of 1. */
  lemma FullImmunityScenario(skill: Skill)
    requires skill.basePower == 1.0
    ensures TurnDamage(100, [], skill, 1.0) == 1
  {
    RoundToIntOfInt(0);
  }

  // ---------------------------------------------------------------------------
  // The buff ledger
  // ---------------------------------------------------------------------------

  function Decremented(b: BuffInstance): BuffInstance {
    b.(remainingTurns := b.remainingTurns - 1)
  }

  predicate Expired(b: BuffInstance) { b.remainingTurns <= 0 }

  /** Every entry of the ledger still has turns left. */
  predicate Live(buffs: seq<BuffInstance>) {
    forall k :: 0 <= k < |buffs| ==> buffs[k].remainingTurns > 0
  }

  /** The ledger after `TickBuffs`: each entry one turn shorter, the expired ones dropped. */
  function Ticked(buffs: seq<BuffInstance>): (r: seq<BuffInstance>)
    ensures |r| <= |buffs|
    ensures Live(r)
  {
    if buffs == [] then []
    else
      var b := Decremented(buffs[0]);
      (if Expired(b) then [] else [b]) + Ticked(buffs[1..])
  }

  /** Ticking the ledger from entry `i` on is ticking entry `i`, then the rest. */
  lemma TickedFront(buffs: seq<BuffInstance>, i: nat)
    requires i < |buffs|
    ensures Ticked(buffs[i..]) ==
      (if Expired(Decremented(buffs[i])) then [] else [Decremented(buffs[i])]) + Ticked(buffs[i + 1..])
    ensures buffs[..i + 1] == buffs[..i] + [buffs[i]]
  {
    assert buffs[i..][1..] == buffs[i + 1..];
  }

  /** Ticking works entry by entry, so survivors keep their relative order. */
  lemma {:induction false} TickedAppend(a: seq<BuffInstance>, b: seq<BuffInstance>)
    ensures Ticked(a + b) == Ticked(a) + Ticked(b)
    decreases |a|
  {
    if a == [] {
      assert a + b == b;
    } else {
      assert (a + b)[1..] == a[1..] + b;
      TickedAppend(a[1..], b);
    }
  }

  /** An entry is in the ticked ledger iff it is some old entry one turn shorter that has not run out. */
  lemma {:induction false} TickedMembers(buffs: seq<BuffInstance>, x: BuffInstance)
    ensures x in Ticked(buffs) <==>
      exists k :: 0 <= k < |buffs| && x == Decremented(buffs[k]) && !Expired(x)
    decreases |buffs|
  {
    if buffs != [] {
      TickedMembers(buffs[1..], x);
      if x in Ticked(buffs[1..]) {
        var k :| 0 <= k < |buffs[1..]| && x == Decremented(buffs[1..][k]) && !Expired(x);
        assert buffs[k + 1] == buffs[1..][k];
      }
      if exists k :: 0 <= k < |buffs| && x == Decremented(buffs[k]) && !Expired(x) {
        var k :| 0 <= k < |buffs| && x == Decremented(buffs[k]) && !Expired(x);
        if k > 0 {
          assert buffs[1..][k - 1] == buffs[k];
        }
      }
    }
  }

  /** When no entry runs out, ticking only shortens every entry by one turn. */
  lemma {:induction false} TickedKeepsAll(buffs: seq<BuffInstance>)
    requires forall k :: 0 <= k < |buffs| ==> buffs[k].remainingTurns > 1
    ensures |Ticked(buffs)| == |buffs|
    ensures forall k :: 0 <= k < |buffs| ==> Ticked(buffs)[k] == Decremented(buffs[k])
    decreases |buffs|
  {
    if buffs != [] {
      TickedKeepsAll(buffs[1..]);
      assert Ticked(buffs) == [Decremented(buffs[0])] + Ticked(buffs[1..]);
    }
  }

  /** The entries on the ledger a skill effect adds: that effect, or nothing. */
  function EffectList(effect: Option<BuffInstance>): seq<BuffInstance> {
    if effect.Some? then [effect.value] else []
  }
}
