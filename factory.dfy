/**
 * The data-driven unit factory of Assets/Scripts/Runtime/SOService.cs: the
 * conversion of a unit asset into a runtime `Unit` (`ToRuntimeUnit`), the party
 * and enemy services that convert their configured lists, and `ScriptablePerk`.
 */
module Factory {
  import opened Wrappers
  import opened Config
  import opened BattleModel
  import opened Units
  import Battle

  /** The non-null entries of a configured list, in order (LINQ `Where(x => x != null)`). */
  function Present<T>(s: seq<Option<T>>): (r: seq<T>)
    ensures |r| <= |s|
    ensures forall k :: 0 <= k < |r| ==> Some(r[k]) in s
    ensures forall k :: 0 <= k < |s| && s[k].Some? ==> s[k].value in r
  {
    if s == [] then []
    else (if s[0].Some? then [s[0].value] else []) + Present(s[1..])
  }

  /** Dropping nulls works entry by entry, so the kept entries stay in their configured order. */
  lemma {:induction false} PresentAppend<T>(a: seq<Option<T>>, b: seq<Option<T>>)
    ensures Present(a + b) == Present(a) + Present(b)
    decreases |a|
  {
    if a == [] {
      assert a + b == b;
    } else {
      assert (a + b)[1..] == a[1..] + b;
      PresentAppend(a[1..], b);
    }
  }

  /** A list without nulls loses nothing. */
  lemma {:induction false} PresentOfAllSome<T>(s: seq<Option<T>>)
    requires forall k :: 0 <= k < |s| ==> s[k].Some?
    ensures |Present(s)| == |s|
    ensures forall k :: 0 <= k < |s| ==> Present(s)[k] == s[k].value
    decreases |s|
  {
    if s != [] {
      PresentOfAllSome(s[1..]);
    }
  }

  /** LINQ `Select`: `f` applied to every element, in order. */
  function Map<A, B>(f: A -> B, s: seq<A>): (r: seq<B>)
    ensures |r| == |s|
    ensures forall k :: 0 <= k < |s| ==> r[k] == f(s[k])
  {
    seq(|s|, k requires 0 <= k < |s| => f(s[k]))
  }

  lemma MapSnoc<A, B>(f: A -> B, s: seq<A>, x: A)
    ensures Map(f, s + [x]) == Map(f, s) + [f(x)]
  {
    assert |Map(f, s + [x])| == |Map(f, s) + [f(x)]|;
    forall k | 0 <= k < |s| + 1
      ensures Map(f, s + [x])[k] == (Map(f, s) + [f(x)])[k]
    {
      if k < |s| {
        assert (s + [x])[k] == s[k];
      }
    }
  }

  /** `new ScriptablePerk(data)`: both value hooks pass their input through. */
  function ScriptablePerk(data: PerkData): (p: Perk)
    ensures forall gain :: OnGaugeGain(p, gain) == gain
    ensures forall damage :: OnModifyDamage(p, damage) == damage
  {
    Scriptable(data)
  }

  /**
   * A skill's effect instance. Its transform multiplies by 1 - 0 on both
   * branches of the stat test, so it leaves damage unchanged.
   */
  function SkillEffect(e: BuffData): (b: BuffInstance)
    ensures b.id == e.buffId && b.remainingTurns == e.durationTurns && b.amount == e.amount
    ensures forall x :: ApplyTransform(b.apply, x) == x
  {
    BuffInstance(e.buffId, e.durationTurns, e.amount,
      Multiply(1.0 - (if e.affectedStat == GaugeSpeed then 0.0 else 0.0)))
  }

  /** A runtime skill: the asset's fields copied, with an effect exactly when the asset has one. */
  function ToSkill(s: SkillData): (k: Skill)
    ensures k.id == s.skillId && k.name == s.skillName && k.skillType == s.skillType
    ensures k.gaugeCost == s.gaugeCost && k.basePower == s.basePower && k.attributeType == s.attributeType
    ensures k.effect.None? <==> s.effect.None?
    ensures k.effect.Some? ==> k.effect.value == SkillEffect(s.effect.value)
  {
    Skill(s.skillId, s.skillName, s.skillType, s.gaugeCost, s.basePower, s.attributeType,
      if s.effect.Some? then Some(SkillEffect(s.effect.value)) else None)
  }

  /** A starting buff: it multiplies damage by (1 + amount) when it affects ATK, and is the identity otherwise. */
  function StartingBuff(b: BuffData): (r: BuffInstance)
    ensures r.id == b.buffId && r.remainingTurns == b.durationTurns && r.amount == b.amount
    ensures forall x :: ApplyTransform(r.apply, x) == if b.affectedStat == ATK then x * (1.0 + b.amount) else x
  {
    BuffInstance(b.buffId, b.durationTurns, b.amount,
      if b.affectedStat == ATK then Multiply(1.0 + b.amount) else Identity)
  }

  /** Skills are the non-null skill assets converted in order, each effect the identity; a null list gives none. */
  function Skills(skills: Option<seq<Option<SkillData>>>): (r: seq<Skill>)
    ensures skills.None? ==> r == []
    ensures skills.Some? ==>
      |r| == |Present(skills.value)| &&
      forall k :: 0 <= k < |r| ==> r[k] == ToSkill(Present(skills.value)[k])
    ensures forall k :: 0 <= k < |r| ==> r[k].effect.Some? ==>
      forall x :: ApplyTransform(r[k].effect.value.apply, x) == x
  {
    if skills.Some? then Map(ToSkill, Present(skills.value)) else []
  }

  /** Perks are one pass-through `ScriptablePerk` per non-null perk asset, in order; a null list gives none. */
  function Perks(perks: Option<seq<Option<PerkData>>>): (r: seq<Perk>)
    ensures perks.None? ==> r == []
    ensures perks.Some? ==>
      |r| == |Present(perks.value)| &&
      forall k :: 0 <= k < |r| ==> r[k] == Scriptable(Present(perks.value)[k])
    ensures AllScriptable(r)
  {
    if perks.Some? then Map(ScriptablePerk, Present(perks.value)) else []
  }

  /**
   * The starting buffs: one per non-null buff asset, in order, each multiplying
   * by (1 + amount) exactly when it affects ATK; a null list gives none.
   */
  function StartingBuffs(buffs: Option<seq<Option<BuffData>>>): (r: seq<BuffInstance>)
    ensures buffs.None? ==> r == []
    ensures buffs.Some? ==>
      |r| == |Present(buffs.value)| &&
      forall k :: 0 <= k < |r| ==> r[k] == StartingBuff(Present(buffs.value)[k])
    ensures buffs.Some? ==> forall k, x :: 0 <= k < |r| ==>
      ApplyTransform(r[k].apply, x) ==
        if Present(buffs.value)[k].affectedStat == ATK then x * (1.0 + Present(buffs.value)[k].amount) else x
  {
    if buffs.Some? then Map(StartingBuff, Present(buffs.value)) else []
  }

  /** Converting two configured skill lists back to back is converting their concatenation. */
  lemma SkillsAppend(a: seq<Option<SkillData>>, b: seq<Option<SkillData>>)
    ensures Skills(Some(a + b)) == Skills(Some(a)) + Skills(Some(b))
  {
    PresentAppend(a, b);
  }

  /** Every unit the factory builds has the full turn damage of a whole, positive ATK x power. */
  lemma FactoryPerksKeepDamage(perks: Option<seq<Option<PerkData>>>, atk: int, skill: Skill, defender: Stats, n: int)
    requires RawDamage(atk, skill) == n as real && n >= 1
    ensures TurnDamage(atk, Perks(perks), skill, defender.GetResistance(skill.attributeType)) == n
  {
    DefaultTurnDamage(atk, Perks(perks), skill, defender, n);
  }

  /** What `ToRuntimeUnit(cfg)` builds. */
  ghost predicate BuiltFrom(u: Unit, cfg: UnitData)
    reads u
  {
    && u.id == cfg.unitId
    && u.stats == NewStats(cfg.atk, cfg.gaugeSpeed, cfg.maxHP)
    && u.skills == Skills(cfg.skills)
    && u.perks == Perks(cfg.startingPerks)
    && u.buffs == StartingBuffs(cfg.startingBuffs)
    && u.gauge == 0.0
  }

  /**
   * A runtime unit from its asset: stats from ATK, gauge speed and max HP
   * (resistances are not copied), the skills and perks converted, and the
   * non-null starting buffs applied one by one, in order.
   */
  method ToRuntimeUnit(cfg: UnitData) returns (u: Unit)
    ensures fresh(u) && BuiltFrom(u, cfg)
  {
    var stats := NewStats(cfg.atk, cfg.gaugeSpeed, cfg.maxHP);
    var skills := Skills(cfg.skills);
    var perks := Perks(cfg.startingPerks);
    u := new Unit(cfg.unitId, stats, skills, perks);
    if cfg.startingBuffs.Some? {
      var buffs := Present(cfg.startingBuffs.value);
      for i := 0 to |buffs|
        invariant u.stats == stats && u.gauge == 0.0
        invariant u.buffs == Map(StartingBuff, buffs[..i])
      {
        assert buffs[..i + 1] == buffs[..i] + [buffs[i]];
        MapSnoc(StartingBuff, buffs[..i], buffs[i]);
        u.ApplyBuff(StartingBuff(buffs[i]));
      }
      assert buffs[..|buffs|] == buffs;
    }
    assert u.buffs == StartingBuffs(cfg.startingBuffs);
  }

  /** One fresh unit per non-null asset, in the configured order. */
  method ToRuntimeUnits(configs: seq<Option<UnitData>>) returns (units: seq<Unit>)
    ensures |units| == |Present(configs)|
    ensures forall k :: 0 <= k < |units| ==> fresh(units[k]) && BuiltFrom(units[k], Present(configs)[k])
    ensures Battle.Distinct(units)
  {
    var present := Present(configs);
    units := [];
    for i := 0 to |present|
      invariant |units| == i
      invariant forall k :: 0 <= k < i ==> fresh(units[k]) && BuiltFrom(units[k], present[k])
      invariant Battle.Distinct(units)
    {
      var u := ToRuntimeUnit(present[i]);
      units := units + [u];
    }
  }

  /** `PartyServiceSO`: the player's units, from the configured unit assets. */
  class PartyServiceSO {
    var playerUnits: seq<Option<UnitData>>

    constructor (playerUnits: seq<Option<UnitData>>)
      ensures this.playerUnits == playerUnits
    {
      this.playerUnits := playerUnits;
    }

    method GetPartyUnits() returns (units: seq<Unit>)
      ensures |units| == |Present(playerUnits)|
      ensures forall k :: 0 <= k < |units| ==> fresh(units[k]) && BuiltFrom(units[k], Present(playerUnits)[k])
      ensures Battle.Distinct(units)
    {
      units := ToRuntimeUnits(playerUnits);
    }
  }

  /** `EnemyServiceSO`: the enemy units, from the configured unit assets. */
  class EnemyServiceSO {
    var enemyUnits: seq<Option<UnitData>>

    constructor (enemyUnits: seq<Option<UnitData>>)
      ensures this.enemyUnits == enemyUnits
    {
      this.enemyUnits := enemyUnits;
    }

    method GetEnemies() returns (units: seq<Unit>)
      ensures |units| == |Present(enemyUnits)|
      ensures forall k :: 0 <= k < |units| ==> fresh(units[k]) && BuiltFrom(units[k], Present(enemyUnits)[k])
      ensures Battle.Distinct(units)
    {
      units := ToRuntimeUnits(enemyUnits);
    }
  }

  /**
   * The roster the battle starts from: the party's units, built from the
   * party's configured assets, then the enemies, built from the enemy
   * service's. Both lists are freshly built, so no unit appears twice.
   */
  method BuildRoster(party: PartyServiceSO, enemy: EnemyServiceSO) returns (allies: seq<Unit>, enemies: seq<Unit>)
    ensures |allies| == |Present(party.playerUnits)| && |enemies| == |Present(enemy.enemyUnits)|
    ensures forall k :: 0 <= k < |allies| ==> BuiltFrom(allies[k], Present(party.playerUnits)[k])
    ensures forall k :: 0 <= k < |enemies| ==> BuiltFrom(enemies[k], Present(enemy.enemyUnits)[k])
    ensures forall u :: u in allies + enemies ==> fresh(u)
    ensures Battle.Distinct(allies + enemies)
  {
    allies := party.GetPartyUnits();
    enemies := enemy.GetEnemies();
    forall i, j | 0 <= i < j < |allies + enemies|
      ensures (allies + enemies)[i] != (allies + enemies)[j]
    {
      if j < |allies| {
        assert (allies + enemies)[i] == allies[i] && (allies + enemies)[j] == allies[j];
      } else if i >= |allies| {
        assert (allies + enemies)[i] == enemies[i - |allies|] && (allies + enemies)[j] == enemies[j - |allies|];
      } else {
        assert (allies + enemies)[i] == allies[i] && (allies + enemies)[j] == enemies[j - |allies|];
      }
    }
  }
}
