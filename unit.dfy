/**
 * The `Unit` entity of Assets/Scripts/Runtime/BattleSampleRunner.cs: the actor
 * whose gauge, HP and buff ledger the battle changes in place. Identity, skills
 * and perks are fixed at construction; the stat block is owned by the unit and
 * kept as a value that `TakeDamage` replaces.
 */
module Units {
  import opened BattleModel

  class Unit {
    const id: string
    var stats: Stats
    const skills: seq<Skill>
    const perks: seq<Perk>
    var buffs: seq<BuffInstance>
    var gauge: real

    /** A new unit has an empty ledger and an empty gauge. */
    constructor (id: string, stats: Stats, skills: seq<Skill>, perks: seq<Perk>)
      ensures this.id == id && this.stats == stats
      ensures this.skills == skills && this.perks == perks
      ensures buffs == [] && gauge == 0.0
    {
      this.id := id;
      this.stats := stats;
      this.skills := skills;
      this.perks := perks;
      buffs := [];
      gauge := 0.0;
    }

    predicate IsReady()
      reads this
      ensures IsReady() <==> gauge >= 100.0
    {
      Ready(gauge)
    }

    predicate IsDead()
      reads this
      ensures IsDead() <==> stats.currentHP <= 0
    {
      Dead(stats)
    }

    /** Runs `amount` through every perk in order and adds the result, capped at 100. */
    method GainGauge(amount: real)
      modifies this`gauge
      ensures gauge == GaugeAfterGain(old(gauge), perks, amount)
      ensures gauge <= MaxGauge
    {
      var gain := amount;
      for i := 0 to |perks|
        invariant gain == Chain(perks[..i], OnGaugeGain, amount)
      {
        assert perks[..i + 1][..i] == perks[..i];
        gain := OnGaugeGain(perks[i], gain);
      }
      assert perks[..|perks|] == perks;
      gauge := Min(MaxGauge, gauge + gain);
    }

    method ResetGauge()
      modifies this`gauge
      ensures gauge == 0.0 && !IsReady()
    {
      gauge := 0.0;
    }

    /** Runs `dmg` through the unit's own buffs in ledger order and loses the rounded result, at least 1. */
    method TakeDamage(dmg: int)
      modifies this`stats
      ensures stats == old(stats).(currentHP := old(stats.currentHP) - HitDamage(buffs, dmg))
      ensures stats.currentHP < old(stats.currentHP)
    {
      var modified := dmg as real;
      for i := 0 to |buffs|
        invariant modified == Chain(buffs[..i], BuffStep, dmg as real)
      {
        assert buffs[..i + 1][..i] == buffs[..i];
        modified := ApplyTransform(buffs[i].apply, modified);
      }
      assert buffs[..|buffs|] == buffs;
      var final := Max(1, RoundToInt(modified));
      stats := stats.(currentHP := stats.currentHP - final);
    }

    /** Appends `buff` to the ledger: no de-duplication, nothing else changes. */
    method ApplyBuff(buff: BuffInstance)
      modifies this`buffs
      ensures buffs == old(buffs) + [buff]
    {
      buffs := buffs + [buff];
    }

    /** Walks the ledger from the back, shortening each entry by one turn and removing the expired. */
    method TickBuffs()
      modifies this`buffs
      ensures buffs == Ticked(old(buffs))
      ensures Live(buffs)
    {
      ghost var before := buffs;
      var i := |buffs| - 1;
      while i >= 0
        invariant -1 <= i < |before|
        invariant buffs == before[..i + 1] + Ticked(before[i + 1..])
      {
        TickedFront(before, i);
        assert buffs[..i] == before[..i] && buffs[i] == before[i];
        assert buffs[i + 1..] == Ticked(before[i + 1..]);
        // The entry is a value here: the decremented copy replaces it, or is dropped when expired.
        var b := buffs[i].(remainingTurns := buffs[i].remainingTurns - 1);
        if b.remainingTurns <= 0 {
          buffs := buffs[..i] + buffs[i + 1..];
        } else {
          buffs := buffs[..i] + [b] + buffs[i + 1..];
        }
        i := i - 1;
      }
      assert before[0..] == before;
    }
  }
}
