/**
 * `BattleService.StartBattleAsync` of Assets/Scripts/Runtime/BattleSampleRunner.cs
 * over mutable units: the gauge tick over the roster, the turn of one ready
 * unit, the actor loop of one pass, one pass and the battle loop itself.
 *
 * Every method is proved to change the roster exactly as the function of
 * module `BattleRules` with the same role says. The decision source is the
 * function `decide`, asked once per turn; the frame time of each pass is an
 * input.
 */
module Battle {
  import opened Wrappers
  import opened BattleModel
  import opened BattleRules
  import opened Units

  predicate Distinct(us: seq<Unit>) {
    forall i, j :: 0 <= i < j < |us| ==> us[i] != us[j]
  }

  predicate AllDead(us: seq<Unit>)
    reads set u | u in us
  {
    forall u :: u in us ==> u.IsDead()
  }

  /** The battle state of a unit, as a value. */
  function View(u: Unit): Fighter
    reads u
  {
    Fighter(u.stats, u.skills, u.perks, u.buffs, u.gauge)
  }

  function Views(us: seq<Unit>): (vs: seq<Fighter>)
    reads set u | u in us
    ensures |vs| == |us| && forall j :: 0 <= j < |us| ==> vs[j] == View(us[j])
  {
    seq(|us|, j requires 0 <= j < |us| reads set u | u in us => View(us[j]))
  }

  lemma ViewsAre(us: seq<Unit>, vs: seq<Fighter>)
    requires |vs| == |us| && forall j :: 0 <= j < |us| ==> View(us[j]) == vs[j]
    ensures Views(us) == vs
  {
  }

  /** The roster `allies.Concat(enemies)` as a value. */
  function RosterOf(allies: seq<Unit>, enemies: seq<Unit>): (r: Roster)
    reads set u | u in allies + enemies
    ensures WellFormed(r) && |r.units| == |allies| + |enemies| && r.allyCount == |allies|
  {
    Roster(Views(allies + enemies), |allies|)
  }

  /** `allies.All(a => a.IsDead) || enemies.All(e => e.IsDead)` is the end-of-battle test on the roster. */
  lemma AllDeadIsSideDown(allies: seq<Unit>, enemies: seq<Unit>)
    ensures AllDead(allies) <==> AlliesDead(RosterOf(allies, enemies))
    ensures AllDead(enemies) <==> EnemiesDead(RosterOf(allies, enemies))
    ensures AllDead(allies) || AllDead(enemies) <==> SideDown(RosterOf(allies, enemies))
  {
    var all := allies + enemies;
    var r := RosterOf(allies, enemies);
    if AlliesDead(r) {
      forall u | u in allies
        ensures u.IsDead()
      {
        var j :| 0 <= j < |allies| && allies[j] == u;
        assert all[j] == u && r.units[j] == View(u);
      }
    }
    if AllDead(allies) {
      forall j | 0 <= j < |allies|
        ensures Dead(r.units[j].stats)
      {
        assert allies[j] in allies && all[j] == allies[j] && r.units[j] == View(allies[j]);
      }
    }
    if EnemiesDead(r) {
      forall u | u in enemies
        ensures u.IsDead()
      {
        var j :| 0 <= j < |enemies| && enemies[j] == u;
        assert all[|allies| + j] == u && r.units[|allies| + j] == View(u);
      }
    }
    if AllDead(enemies) {
      forall j | |allies| <= j < |all|
        ensures Dead(r.units[j].stats)
      {
        assert enemies[j - |allies|] in enemies;
        assert all[j] == enemies[j - |allies|] && r.units[j] == View(enemies[j - |allies|]);
      }
    }
  }

  /** The target candidates of `actor`: the whole other side, dead units included. */
  function Opponents(allies: seq<Unit>, enemies: seq<Unit>, actor: Unit): seq<Unit> {
    if actor in allies then enemies else allies
  }

  /** In a roster with no unit twice, the candidate list is the roster stretch `Candidates` names. */
  lemma OpponentsAreCandidates(allies: seq<Unit>, enemies: seq<Unit>, i: nat)
    requires Distinct(allies + enemies) && i < |allies + enemies|
    ensures
      var c := Candidates(Roster(Views(allies + enemies), |allies|), i);
      var opp := Opponents(allies, enemies, (allies + enemies)[i]);
      && |opp| == c.1 - c.0
      && forall t :: 0 <= t < |opp| ==> opp[t] == (allies + enemies)[c.0 + t]
  {
    var all := allies + enemies;
    if i < |allies| {
      assert all[i] == allies[i];
    } else {
      forall j | 0 <= j < |allies|
        ensures allies[j] != all[i]
      {
        assert allies[j] == all[j];
      }
    }
  }

  /** Every unit that is neither ready nor dead gains `gaugeSpeed * dt` through its perks. */
  method TickPhase(all: seq<Unit>, dt: real)
    requires Distinct(all)
    modifies set u | u in all
    ensures Views(all) == TickAll(old(Views(all)), dt)
  {
    ghost var before := Views(all);
    for i := 0 to |all|
      invariant forall j :: 0 <= j < i ==> View(all[j]) == Charged(before[j], dt)
      invariant forall j :: i <= j < |all| ==> View(all[j]) == before[j]
    {
      var u := all[i];
      assert forall j :: 0 <= j < |all| && j != i ==> all[j] != u;
      ghost var b := View(u);
      assert b == before[i];
      if !u.IsReady() && !u.IsDead() {
        assert !Ready(b.gauge) && !Dead(b.stats);
        var amount := u.stats.gaugeSpeed * dt;
        assert amount == TickAmount(b.stats, dt);
        u.GainGauge(amount);
        assert u.perks == b.perks;
        assert u.gauge == GaugeAfterGain(b.gauge, u.perks, amount);
      }
      assert View(u) == b.(gauge := GaugeAfterTick(b.gauge, b.stats, b.perks, dt));
    }
    assert Views(all) == TickAll(before, dt);
  }

  /**
   * The turn body once skill and target are known: raw damage through the
   * actor's perks, resistance, the target's buffs and the floor at 1; the
   * skill's effect appended to the target; the actor's gauge reset; and the
   * ledgers of exactly the actor and the target ticked.
   */
  method ResolveTurn(actor: Unit, target: Unit, skill: Skill)
    requires actor != target
    modifies actor, target
    ensures View(target) == Struck(old(View(target)), old(View(actor)), skill)
    ensures View(actor) == Spent(old(View(actor)))
  {
    var atk := actor.stats.atk;
    var raw := atk as real * skill.basePower;
    assert raw == RawDamage(atk, skill);
    ghost var raw0 := raw;
    for i := 0 to |actor.perks|
      invariant raw == Chain(actor.perks[..i], OnModifyDamage, raw0)
    {
      assert actor.perks[..i + 1][..i] == actor.perks[..i];
      raw := OnModifyDamage(actor.perks[i], raw);
    }
    assert actor.perks[..|actor.perks|] == actor.perks;
    var dmg := Max(1, RoundToInt(Mitigated(raw, target.stats.GetResistance(skill.attributeType))));
    assert dmg == TurnDamage(atk, actor.perks, skill, target.stats.GetResistance(skill.attributeType));
    target.TakeDamage(dmg);
    if skill.effect.Some? {
      target.ApplyBuff(skill.effect.value);
    }
    assert target.buffs == old(target.buffs) + EffectList(skill.effect);
    actor.ResetGauge();
    actor.TickBuffs();
    target.TickBuffs();
  }

  lemma TurnResolves(r: Roster, i: nat, d: Decision)
    requires WellFormed(r) && i < |r.units| && d.skill.Some? && d.target.Some?
    requires Candidates(r, i).0 + d.target.value < Candidates(r, i).1
    ensures TurnOf(r, i, d) ==
      (r.(units := Resolve(r.units, i, Candidates(r, i).0 + d.target.value, d.skill.value)), None)
  {
  }

  /** The resolution of a turn of the unit at roster index `i` on the unit at index `t`. */
  method Strike(all: seq<Unit>, i: nat, t: nat, skill: Skill)
    requires Distinct(all) && i < |all| && t < |all| && i != t
    modifies set u | u in all
    ensures Views(all) == Resolve(old(Views(all)), i, t, skill)
  {
    ghost var before := Views(all);
    var actor, target := all[i], all[t];
    assert View(actor) == before[i] && View(target) == before[t];
    assert forall j :: 0 <= j < |all| && j != i && j != t ==> all[j] != actor && all[j] != target;
    ResolveTurn(actor, target, skill);
    ghost var after := Resolve(before, i, t, skill);
    forall j | 0 <= j < |all|
      ensures View(all[j]) == after[j]
    {
      if j != i && j != t {
        assert View(all[j]) == before[j];
      }
    }
    ViewsAre(all, after);
  }

  /**
   * The turn of the unit at roster index `i`: the candidates are the other
   * side, dead units included; a missing skill, or a missing or out-of-range
   * target, is an error that changes nothing; otherwise the turn is resolved.
   */
  method TakeTurn(allies: seq<Unit>, enemies: seq<Unit>, i: nat, decision: Decision)
    returns (err: Option<TurnError>)
    requires Distinct(allies + enemies) && i < |allies + enemies|
    modifies set u | u in allies + enemies
    ensures (RosterOf(allies, enemies), err) == TurnOf(old(RosterOf(allies, enemies)), i, decision)
  {
    var all := allies + enemies;
    ghost var before := RosterOf(allies, enemies);
    ghost var (lo, hi) := Candidates(before, i);
    var actor := all[i];
    var candidates := Opponents(allies, enemies, actor);
    OpponentsAreCandidates(allies, enemies, i);
    if decision.skill.None? {
      assert TurnOf(before, i, decision) == (before, Some(NoSkill));
      return Some(NoSkill);
    }
    if decision.target.None? || decision.target.value >= |candidates| {
      assert TurnOf(before, i, decision) == (before, Some(NoTarget));
      return Some(NoTarget);
    }
    var target := candidates[decision.target.value];
    var t := (if i < |allies| then |allies| else 0) + decision.target.value;
    assert t == lo + decision.target.value && t < hi;
    assert target == all[t];
    CandidatesAreOtherSide(before, i, t);
    Strike(all, i, t, decision.skill.value);
    TurnResolves(before, i, decision);
    assert RosterOf(allies, enemies) == before.(units := Resolve(before.units, i, t, decision.skill.value));
    err := None;
    assert (RosterOf(allies, enemies), err) == TurnOf(before, i, decision);
  }

  /**
   * The loop reaching roster index `i`: the unit takes a turn when it is ready
   * and alive at that moment, and after a resolved turn `over` says whether one
   * side is entirely dead.
   */
  method VisitUnit(allies: seq<Unit>, enemies: seq<Unit>, i: nat, decide: DecisionSource, turns: nat)
    returns (turns': nat, over: bool, err: Option<TurnError>)
    requires Distinct(allies + enemies) && i < |allies + enemies|
    modifies set u | u in allies + enemies
    ensures Phase(RosterOf(allies, enemies), turns', over, err) ==
      VisitOf(Phase(old(RosterOf(allies, enemies)), turns, false, None), i, decide)
  {
    ghost var p := Phase(RosterOf(allies, enemies), turns, false, None);
    var actor := (allies + enemies)[i];
    assert View(actor) == p.roster.units[i];
    turns', over, err := turns, false, None;
    if actor.IsReady() && !actor.IsDead() {
      err := TakeTurn(allies, enemies, i, decide(RosterOf(allies, enemies), i, turns));
      if err.None? {
        turns' := turns + 1;
        over := AllDead(allies) || AllDead(enemies);
        AllDeadIsSideDown(allies, enemies);
      }
    }
  }

  /**
   * The actor loop of one pass: every unit of `allies + enemies`, in list
   * order, that is ready and alive when it is reached takes a turn, and the
   * loop stops right after a turn that fails or leaves one side entirely dead.
   */
  method ActorPhase(allies: seq<Unit>, enemies: seq<Unit>, decide: DecisionSource, turn0: nat)
    returns (turns: nat, over: bool, err: Option<TurnError>)
    requires Distinct(allies + enemies)
    modifies set u | u in allies + enemies
    ensures Phase(RosterOf(allies, enemies), turns, over, err) ==
      PhaseUpTo(Phase(old(RosterOf(allies, enemies)), turn0, false, None), decide, |allies + enemies|)
  {
    ghost var p0 := Phase(RosterOf(allies, enemies), turn0, false, None);
    turns, over, err := turn0, false, None;
    var i := 0;
    while i < |allies + enemies| && !over && err.None?
      invariant 0 <= i <= |allies + enemies|
      invariant Phase(RosterOf(allies, enemies), turns, over, err) == PhaseUpTo(p0, decide, i)
    {
      PhaseStep(p0, decide, i);
      turns, over, err := VisitUnit(allies, enemies, i, decide, turns);
      i := i + 1;
    }
    if i < |allies + enemies| {
      PhaseHaltedStays(p0, decide, i, |allies + enemies|);
    }
  }

  /** One pass of `while (!over)`: the gauge tick, then the actor loop. */
  method BattlePass(allies: seq<Unit>, enemies: seq<Unit>, dt: real, decide: DecisionSource, turn0: nat)
    returns (turns: nat, over: bool, err: Option<TurnError>)
    requires Distinct(allies + enemies)
    modifies set u | u in allies + enemies
    ensures Phase(RosterOf(allies, enemies), turns, over, err) ==
      PassOf(old(RosterOf(allies, enemies)), dt, decide, turn0)
  {
    ghost var before := RosterOf(allies, enemies);
    TickPhase(allies + enemies, dt);
    assert RosterOf(allies, enemies) == before.(units := TickAll(before.units, dt));
    turns, over, err := ActorPhase(allies, enemies, decide, turn0);
  }

  /**
   * The battle loop over the given frame times: one pass per frame until a
   * pass ends the battle, a turn fails, or the frames run out. `passes` is the
   * number of passes run and `turns` the number of turns resolved.
   */
  method RunBattle(allies: seq<Unit>, enemies: seq<Unit>, frames: seq<real>, decide: DecisionSource)
    returns (passes: nat, turns: nat, over: bool, err: Option<TurnError>)
    requires Distinct(allies + enemies)
    modifies set u | u in allies + enemies
    ensures passes <= |frames| && (passes < |frames| ==> over || err.Some?)
    ensures Phase(RosterOf(allies, enemies), turns, over, err) ==
      RunUpTo(old(RosterOf(allies, enemies)), frames, decide, passes)
    ensures Phase(RosterOf(allies, enemies), turns, over, err) ==
      RunUpTo(old(RosterOf(allies, enemies)), frames, decide, |frames|)
  {
    ghost var r0 := RosterOf(allies, enemies);
    passes, turns, over, err := 0, 0, false, None;
    while passes < |frames| && !over && err.None?
      invariant passes <= |frames|
      invariant Phase(RosterOf(allies, enemies), turns, over, err) == RunUpTo(r0, frames, decide, passes)
    {
      var dt := frames[passes];
      turns, over, err := BattlePass(allies, enemies, dt, decide, turns);
      passes := passes + 1;
    }
    if passes < |frames| {
      RunHaltedStays(r0, frames, decide, passes, |frames|);
    }
  }
}
