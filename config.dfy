/**
 * The static configuration records a unit is built from (the ScriptableObject
 * assets of Assets/Scripts/Runtime/so.cs), as plain values. A null asset
 * reference, and a null list, is `None`.
 */
module Config {
  import opened Wrappers

  datatype SkillType = Basic | Heavy | Ultimate

  datatype StatType = ATK | DEF | MaxHP | GaugeSpeed | Shield

  /** A buff or debuff definition. `stackable` is declared but never enforced. */
  datatype BuffData = BuffData(
    buffId: string,
    buffName: string,
    affectedStat: StatType,
    amount: real,
    durationTurns: int,
    stackable: bool)

  datatype SkillData = SkillData(
    skillId: string,
    skillName: string,
    skillType: SkillType,
    gaugeCost: real,
    basePower: real,
    cooldownTime: real,
    attributeType: string,
    effect: Option<BuffData>)

  datatype PerkData = PerkData(perkId: string, perkName: string, description: string)

  /** One damage-attribute resistance: -1 doubles damage, 0 is neutral, 1 is immunity. */
  datatype ResistanceEntry = ResistanceEntry(attributeType: string, value: real)

  datatype UnitData = UnitData(
    unitId: string,
    displayName: string,
    maxHP: int,
    atk: int,
    def: int,
    gaugeSpeed: real,
    resistances: seq<ResistanceEntry>,
    skills: Option<seq<Option<SkillData>>>,
    startingPerks: Option<seq<Option<PerkData>>>,
    startingBuffs: Option<seq<Option<BuffData>>>)
}
