/**
 * The battle of `BattleService.StartBattleAsync`
 * (Assets/Scripts/Runtime/BattleSampleRunner.cs:241-293) stated on values.
 *
 * A roster is the list `allies.Concat(enemies)` of unit states, the first
 * `allyCount` of them being the allies. The functions below say what one turn,
 * one visit of the actor loop, the actor loop up to a roster index, one pass of
 * the battle loop and the first passes of the loop do to a roster. The methods
 * of module `Battle` are proved to compute exactly these functions on the
 * mutable units; the lemmas here state what the battle promises.
 */
module BattleRules {
  import opened Wrappers
  import opened BattleModel

  /** What the battle reads and changes of one unit: stats, skills, perks, buff ledger and gauge. */
  datatype Fighter = Fighter(stats: Stats, skills: seq<Skill>, perks: seq<Perk>, buffs: seq<BuffInstance>, gauge: real)

  /** `allies.Concat(enemies)`: the units at indices below `allyCount` are the allies. */
  datatype Roster = Roster(units: seq<Fighter>, allyCount: nat)

  predicate WellFormed(r: Roster) { r.allyCount <= |r.units| }

  predicate AlliesDead(r: Roster)
    requires WellFormed(r)
  {
    forall j :: 0 <= j < r.allyCount ==> Dead(r.units[j].stats)
  }

  predicate EnemiesDead(r: Roster)
    requires WellFormed(r)
  {
    forall j :: r.allyCount <= j < |r.units| ==> Dead(r.units[j].stats)
  }

  /** The end-of-battle test: all allies are dead, or all enemies are. */
  predicate SideDown(r: Roster)
    requires WellFormed(r)
  {
    AlliesDead(r) || EnemiesDead(r)
  }

  /** What the decision source answers for one turn: a skill, and a target as an index into the candidates. */
  datatype Decision = Decision(skill: Option<Skill>, target: Option<nat>)

  /**
   * The decision source (`PickSkillAsync` and `PickTargetAsync`): asked with
   * the roster as it stands, the actor's roster index and the number of turns
   * resolved so far.
   */
  type DecisionSource = (Roster, nat, nat) -> Decision

  /** A turn the decision source left without a skill or without a valid target. */
  datatype TurnError = NoSkill | NoTarget

  // ---------------------------------------------------------------------------
  // One turn
  // ---------------------------------------------------------------------------

  /**
   * The roster indices `[lo, hi)` of the target candidates of unit `i`: the
   * enemies when `i` is an ally, the allies otherwise, dead units included.
   */
  function Candidates(r: Roster, i: nat): (c: (nat, nat))
    requires WellFormed(r)
    ensures c.0 <= c.1 <= |r.units|
  {
    if i < r.allyCount then (r.allyCount, |r.units|) else (0, r.allyCount)
  }

  /** A unit's candidates are exactly the units on the other side, dead or alive. */
  lemma CandidatesAreOtherSide(r: Roster, i: nat, j: nat)
    requires WellFormed(r) && i < |r.units|
    ensures Candidates(r, i).0 <= j < Candidates(r, i).1 <==>
      j < |r.units| && (j < r.allyCount <==> i >= r.allyCount)
  {
  }

  /** The target after the hit: HP lowered by the floored damage, then the effect appended and the ledger ticked. */
  function Struck(target: Fighter, attacker: Fighter, skill: Skill): (f: Fighter)
    ensures f.stats.currentHP <= target.stats.currentHP - 1
    ensures f.stats.atk == target.stats.atk && f.stats.maxHP == target.stats.maxHP
    ensures f.stats.gaugeSpeed == target.stats.gaugeSpeed
    ensures f.perks == target.perks && f.gauge == target.gauge && Live(f.buffs)
  {
    var dmg := TurnDamage(attacker.stats.atk, attacker.perks, skill,
                          target.stats.GetResistance(skill.attributeType));
    target.(stats := target.stats.(currentHP := target.stats.currentHP - HitDamage(target.buffs, dmg)),
            buffs := Ticked(target.buffs + EffectList(skill.effect)))
  }

  /** The actor after its turn: gauge emptied and ledger ticked, stats untouched. */
  function Spent(actor: Fighter): (f: Fighter)
    ensures f.gauge == 0.0 && !Ready(f.gauge) && Live(f.buffs)
    ensures f.stats == actor.stats && f.perks == actor.perks
  {
    actor.(gauge := 0.0, buffs := Ticked(actor.buffs))
  }

  /**
   * A resolved turn of unit `i` on unit `t` with `skill`: exactly these two
   * units change, the target is hit, and the actor is spent.
   */
  function Resolve(us: seq<Fighter>, i: nat, t: nat, skill: Skill): (vs: seq<Fighter>)
    requires i < |us| && t < |us| && i != t
    ensures |vs| == |us|
    ensures forall j :: 0 <= j < |us| && j != i && j != t ==> vs[j] == us[j]
    ensures vs[i] == Spent(us[i]) && vs[t] == Struck(us[t], us[i], skill)
    ensures vs[t].stats.currentHP < us[t].stats.currentHP && vs[t].gauge == us[t].gauge
  {
    us[t := Struck(us[t], us[i], skill)][i := Spent(us[i])]
  }

  /**
   * The turn of unit `i` under decision `d`: a missing skill, or a missing or
   * out-of-range target, is an error that changes nothing; otherwise the turn
   * is resolved on the chosen candidate.
   */
  function TurnOf(r: Roster, i: nat, d: Decision): (res: (Roster, Option<TurnError>))
    requires WellFormed(r) && i < |r.units|
    ensures res.0.allyCount == r.allyCount && |res.0.units| == |r.units|
  {
    var (lo, hi) := Candidates(r, i);
    if d.skill.None? then (r, Some(NoSkill))
    else if d.target.None? || lo + d.target.value >= hi then (r, Some(NoTarget))
    else (r.(units := Resolve(r.units, i, lo + d.target.value, d.skill.value)), None)
  }

  /**
   * A turn either fails without touching the roster, or hits exactly one unit
   * of the other side, empties the actor's gauge and leaves every other unit as
   * it was. A failure is `NoSkill` exactly when there is no skill.
   */
  lemma {:induction false} TurnHitsOneOpponent(r: Roster, i: nat, d: Decision)
    requires WellFormed(r) && i < |r.units|
    ensures TurnOf(r, i, d).1 == Some(NoSkill) <==> d.skill.None?
    ensures TurnOf(r, i, d).1.Some? ==> TurnOf(r, i, d).0 == r
    ensures TurnOf(r, i, d).1.None? ==>
      d.skill.Some? && d.target.Some? &&
      var t := Candidates(r, i).0 + d.target.value;
      var us := TurnOf(r, i, d).0.units;
      && t < |r.units| && (t < r.allyCount <==> i >= r.allyCount)
      && us[t] == Struck(r.units[t], r.units[i], d.skill.value)
      && us[i] == Spent(r.units[i])
      && forall j :: 0 <= j < |r.units| && j != i && j != t ==> us[j] == r.units[j]
  {
    if TurnOf(r, i, d).1.None? {
      var t := Candidates(r, i).0 + d.target.value;
      CandidatesAreOtherSide(r, i, t);
    }
  }

  /** The gauge cost of the skill is never checked: a skill differing only in its cost resolves the same. */
  lemma GaugeCostIgnored(r: Roster, i: nat, skill: Skill, target: Option<nat>, cost: real)
    requires WellFormed(r) && i < |r.units|
    ensures TurnOf(r, i, Decision(Some(skill.(gaugeCost := cost)), target)).1 ==
            TurnOf(r, i, Decision(Some(skill), target)).1
    ensures TurnOf(r, i, Decision(Some(skill.(gaugeCost := cost)), target)).0.units ==
            TurnOf(r, i, Decision(Some(skill), target)).0.units
  {
    var cheap := skill.(gaugeCost := cost);
    assert RawDamage(r.units[i].stats.atk, cheap) == RawDamage(r.units[i].stats.atk, skill);
  }

  /** The position of the first living unit of `us[lo..hi]`, counted from `lo`: `FirstOrDefault(u => !u.IsDead)`. */
  function FirstLiving(us: seq<Fighter>, lo: nat, hi: nat): (k: Option<nat>)
    requires lo <= hi <= |us|
    ensures k.Some? ==> lo + k.value < hi && !Dead(us[lo + k.value].stats)
    ensures k.Some? ==> forall j :: lo <= j < lo + k.value ==> Dead(us[j].stats)
    ensures k.None? <==> forall j :: lo <= j < hi ==> Dead(us[j].stats)
    decreases hi - lo
  {
    if lo == hi then None
    else if !Dead(us[lo].stats) then Some(0)
    else match FirstLiving(us, lo + 1, hi)
      case None => None
      case Some(k) => Some(k + 1)
  }

  /**
   * The debug decision source, an example oracle: the actor's first skill and
   * the first living candidate. An actor without skills, or a side with no
   * living candidate, gets no answer, where the debug code would throw.
   */
  function DebugDecision(r: Roster, i: nat, turns: nat): Decision {
    if !WellFormed(r) || i >= |r.units| then Decision(None, None)
    else
      var c := Candidates(r, i);
      var skills := r.units[i].skills;
      Decision(if |skills| > 0 then Some(skills[0]) else None, FirstLiving(r.units, c.0, c.1))
  }

  /**
   * With the debug source, a unit with a skill fails for want of a target
   * exactly when the whole other side is dead, and otherwise hits the first
   * living unit of the other side.
   */
  lemma DebugHitsFirstLivingOpponent(r: Roster, i: nat, turns: nat)
    requires WellFormed(r) && i < |r.units| && |r.units[i].skills| > 0
    ensures
      var c := Candidates(r, i);
      var d := DebugDecision(r, i, turns);
      && (TurnOf(r, i, d).1.Some? <==> forall j :: c.0 <= j < c.1 ==> Dead(r.units[j].stats))
      && (TurnOf(r, i, d).1.None? ==>
            d.target.Some? && !Dead(r.units[c.0 + d.target.value].stats) &&
            forall j :: c.0 <= j < c.0 + d.target.value ==> Dead(r.units[j].stats))
  {
  }

  // ---------------------------------------------------------------------------
  // The actor loop of one pass
  // ---------------------------------------------------------------------------

  /**
   * The state of the actor loop: the roster, the number of turns resolved so
   * far (the decision source is asked with it), whether the battle is over,
   * and the error of a failed turn.
   */
  datatype Phase = Phase(roster: Roster, turns: nat, over: bool, err: Option<TurnError>)

  predicate Halted(p: Phase) { p.over || p.err.Some? }

  /**
   * The loop reaching unit `i`: it takes a turn when it is ready and alive at
   * that moment, and after a resolved turn the battle is over when one side is
   * entirely dead.
   */
  function VisitOf(p: Phase, i: nat, decide: DecisionSource): (q: Phase)
    requires WellFormed(p.roster) && i < |p.roster.units|
    ensures q.roster.allyCount == p.roster.allyCount && |q.roster.units| == |p.roster.units|
  {
    var u := p.roster.units[i];
    if Ready(u.gauge) && !Dead(u.stats) then
      var res := TurnOf(p.roster, i, decide(p.roster, i, p.turns));
      if res.1.Some? then p.(err := res.1)
      else Phase(res.0, p.turns + 1, SideDown(res.0), None)
    else p
  }

  /**
   * The actor loop after it has reached the units at indices below `i`, in
   * roster order, stopping at the first turn that ends the battle or fails.
   */
  function PhaseUpTo(p0: Phase, decide: DecisionSource, i: nat): (p: Phase)
    requires WellFormed(p0.roster) && i <= |p0.roster.units|
    ensures p.roster.allyCount == p0.roster.allyCount && |p.roster.units| == |p0.roster.units|
    decreases i
  {
    if i == 0 then p0
    else
      var p := PhaseUpTo(p0, decide, i - 1);
      if Halted(p) then p else VisitOf(p, i - 1, decide)
  }

  /** A running loop that reaches unit `i` visits it. */
  lemma PhaseStep(p0: Phase, decide: DecisionSource, i: nat)
    requires WellFormed(p0.roster) && i < |p0.roster.units|
    requires !Halted(PhaseUpTo(p0, decide, i))
    ensures PhaseUpTo(p0, decide, i + 1) == VisitOf(PhaseUpTo(p0, decide, i), i, decide)
  {
  }

  /** Once the actor loop has stopped, reaching further units changes nothing. */
  lemma {:induction false} PhaseHaltedStays(p0: Phase, decide: DecisionSource, i: nat, n: nat)
    requires WellFormed(p0.roster) && i <= n <= |p0.roster.units|
    requires Halted(PhaseUpTo(p0, decide, i))
    ensures PhaseUpTo(p0, decide, n) == PhaseUpTo(p0, decide, i)
    decreases n - i
  {
    if n > i {
      PhaseHaltedStays(p0, decide, i, n - 1);
    }
  }

  /** Units the loop has not reached yet keep the gauge they had when it started. */
  lemma {:induction false} PhaseKeepsUnreachedGauges(p0: Phase, decide: DecisionSource, i: nat, j: nat)
    requires WellFormed(p0.roster) && i <= j < |p0.roster.units|
    ensures PhaseUpTo(p0, decide, i).roster.units[j].gauge == p0.roster.units[j].gauge
    decreases i
  {
    if i > 0 {
      PhaseKeepsUnreachedGauges(p0, decide, i - 1, j);
      var p := PhaseUpTo(p0, decide, i - 1);
      if !Halted(p) {
        VisitStep(p, i - 1, decide);
      }
    }
  }

  /**
   * Unit `i` takes a turn (or its turn fails) exactly when the loop reaches it
   * still running, its gauge from the start of the loop is full, and it is
   * alive at that moment: a unit killed earlier in the same pass does not act.
   */
  lemma ActsIffReadyWhenReached(p0: Phase, decide: DecisionSource, i: nat)
    requires WellFormed(p0.roster) && i < |p0.roster.units|
    requires !Halted(PhaseUpTo(p0, decide, i))
    ensures
      var p := PhaseUpTo(p0, decide, i);
      var q := PhaseUpTo(p0, decide, i + 1);
      (q.turns == p.turns + 1 || q.err.Some?) <==>
        Ready(p0.roster.units[i].gauge) && !Dead(p.roster.units[i].stats)
    ensures
      var p := PhaseUpTo(p0, decide, i);
      var q := PhaseUpTo(p0, decide, i + 1);
      q.turns == p.turns || q.turns == p.turns + 1
  {
    PhaseKeepsUnreachedGauges(p0, decide, i, i);
  }

  /** How one unit may change over a stretch of battle: HP only down, the ledger live or untouched. */
  ghost predicate Evolves(u: Fighter, v: Fighter) {
    && v.perks == u.perks
    && v.stats.atk == u.stats.atk && v.stats.gaugeSpeed == u.stats.gaugeSpeed
    && v.stats.maxHP == u.stats.maxHP && v.stats.currentHP <= u.stats.currentHP
    && (Live(v.buffs) || v.buffs == u.buffs)
  }

  ghost predicate RosterEvolves(r: Roster, s: Roster) {
    && s.allyCount == r.allyCount && |s.units| == |r.units|
    && forall j :: 0 <= j < |r.units| ==> Evolves(r.units[j], s.units[j])
  }

  lemma EvolvesTrans(r: Roster, s: Roster, t: Roster)
    requires RosterEvolves(r, s) && RosterEvolves(s, t)
    ensures RosterEvolves(r, t)
  {
    forall j | 0 <= j < |r.units|
      ensures Evolves(r.units[j], t.units[j])
    {
      assert Evolves(r.units[j], s.units[j]) && Evolves(s.units[j], t.units[j]);
    }
  }

  /**
   * What one visit of a running loop does, in the terms the loop lemmas need:
   * either no turn is resolved and the roster is untouched, or exactly one is
   * and the end-of-battle flag tells whether a side is down; a turn happens
   * (or fails) exactly when the unit is ready and alive; only the visited
   * unit's gauge changes, to 0 after its turn; units are only hurt and their ledgers ticked.
   */
  lemma VisitStep(p: Phase, i: nat, decide: DecisionSource)
    requires WellFormed(p.roster) && i < |p.roster.units| && !Halted(p)
    ensures
      var q := VisitOf(p, i, decide);
      && ((q.turns == p.turns && q.roster == p.roster && !q.over) ||
          (q.turns == p.turns + 1 && q.err.None? && (q.over <==> SideDown(q.roster))))
      && ((q.turns == p.turns + 1 || q.err.Some?) <==>
            Ready(p.roster.units[i].gauge) && !Dead(p.roster.units[i].stats))
      && (forall j :: 0 <= j < |p.roster.units| && j != i ==>
            q.roster.units[j].gauge == p.roster.units[j].gauge)
      && (q.turns == p.turns + 1 ==> q.roster.units[i].gauge == 0.0)
  {
    var u := p.roster.units[i];
    if Ready(u.gauge) && !Dead(u.stats) {
      var d := decide(p.roster, i, p.turns);
      var c := Candidates(p.roster, i);
      if d.skill.Some? && d.target.Some? && c.0 + d.target.value < c.1 {
        var t := c.0 + d.target.value;
        CandidatesAreOtherSide(p.roster, i, t);
        assert VisitOf(p, i, decide).roster.units == Resolve(p.roster.units, i, t, d.skill.value);
      }
    }
  }

  /**
   * The loop's end-of-battle flag: while turns have been resolved, the loop is
   * over exactly when one side is entirely dead; while none has, the roster is
   * untouched and the loop is not over. An over loop has no error.
   */
  lemma {:induction false} PhaseOverIffSideDown(p0: Phase, decide: DecisionSource, i: nat)
    requires WellFormed(p0.roster) && i <= |p0.roster.units| && !Halted(p0)
    requires p0.turns > 0 ==> !SideDown(p0.roster)
    ensures
      var p := PhaseUpTo(p0, decide, i);
      && p.turns >= p0.turns
      && (p.turns > p0.turns ==> (p.over <==> SideDown(p.roster)))
      && (p.turns == p0.turns ==> !p.over && p.roster == p0.roster)
      && (p.over ==> p.err.None?)
    decreases i
  {
    if i > 0 {
      PhaseOverIffSideDown(p0, decide, i - 1);
      var p := PhaseUpTo(p0, decide, i - 1);
      if !Halted(p) {
        VisitStep(p, i - 1, decide);
      }
    }
  }

  /** A visit only hurts units and ticks ledgers; it never heals or changes a stat other than HP. */
  lemma VisitUnitEvolves(p: Phase, i: nat, decide: DecisionSource, j: nat)
    requires WellFormed(p.roster) && i < |p.roster.units| && j < |p.roster.units|
    ensures Evolves(p.roster.units[j], VisitOf(p, i, decide).roster.units[j])
  {
    var u := p.roster.units[i];
    if Ready(u.gauge) && !Dead(u.stats) {
      TurnHitsOneOpponent(p.roster, i, decide(p.roster, i, p.turns));
    }
  }

  /** Along the actor loop each unit only loses HP and has its ledger ticked. */
  lemma {:induction false} PhaseUnitEvolves(p0: Phase, decide: DecisionSource, i: nat, j: nat)
    requires WellFormed(p0.roster) && i <= |p0.roster.units| && j < |p0.roster.units|
    ensures Evolves(p0.roster.units[j], PhaseUpTo(p0, decide, i).roster.units[j])
    decreases i
  {
    if i > 0 {
      PhaseUnitEvolves(p0, decide, i - 1, j);
      var p := PhaseUpTo(p0, decide, i - 1);
      if !Halted(p) {
        VisitUnitEvolves(p, i - 1, decide, j);
      }
    }
  }

  /** Along the actor loop units are only hurt and their ledgers ticked. */
  lemma PhaseEvolves(p0: Phase, decide: DecisionSource, i: nat)
    requires WellFormed(p0.roster) && i <= |p0.roster.units|
    ensures RosterEvolves(p0.roster, PhaseUpTo(p0, decide, i).roster)
  {
    forall j | 0 <= j < |p0.roster.units|
      ensures Evolves(p0.roster.units[j], PhaseUpTo(p0, decide, i).roster.units[j])
    {
      PhaseUnitEvolves(p0, decide, i, j);
    }
  }

  /**
   * When the loop runs through the whole roster without stopping, no unit is
   * left both ready and alive: each one either acted, or was not ready, or
   * was dead when it was reached, and a dead unit stays dead.
   */
  lemma {:induction false} PhaseLeavesNoneReady(p0: Phase, decide: DecisionSource, i: nat)
    requires WellFormed(p0.roster) && i <= |p0.roster.units|
    requires !Halted(PhaseUpTo(p0, decide, i))
    ensures forall j :: 0 <= j < i ==>
      var u := PhaseUpTo(p0, decide, i).roster.units[j];
      !Ready(u.gauge) || Dead(u.stats)
    decreases i
  {
    if i > 0 {
      var p := PhaseUpTo(p0, decide, i - 1);
      assert !Halted(p);
      PhaseLeavesNoneReady(p0, decide, i - 1);
      VisitStep(p, i - 1, decide);
    }
  }

  /**
   * One ally against one enemy: when the ally's turn leaves the enemy dead,
   * the battle is over at once, and the enemy, reached next, does not act.
   */
  lemma OneOnOneEndsAtKill(p0: Phase, decide: DecisionSource)
    requires WellFormed(p0.roster) && |p0.roster.units| == 2 && p0.roster.allyCount == 1 && !Halted(p0)
    requires Ready(p0.roster.units[0].gauge) && !Dead(p0.roster.units[0].stats)
    requires TurnOf(p0.roster, 0, decide(p0.roster, 0, p0.turns)).1.None?
    requires Dead(TurnOf(p0.roster, 0, decide(p0.roster, 0, p0.turns)).0.units[1].stats)
    ensures PhaseUpTo(p0, decide, 1).over
    ensures PhaseUpTo(p0, decide, 2) == PhaseUpTo(p0, decide, 1)
    ensures PhaseUpTo(p0, decide, 2).turns == p0.turns + 1
  {
    assert PhaseUpTo(p0, decide, 0) == p0;
    var r := TurnOf(p0.roster, 0, decide(p0.roster, 0, p0.turns)).0;
    assert EnemiesDead(r);
    PhaseHaltedStays(p0, decide, 1, 2);
  }

  // ---------------------------------------------------------------------------
  // One pass and the battle loop
  // ---------------------------------------------------------------------------

  /** A unit after the gauge tick: only a unit neither ready nor dead gains, through its perks. */
  function Charged(u: Fighter, dt: real): (v: Fighter)
    ensures v.stats == u.stats && v.perks == u.perks && v.buffs == u.buffs
    ensures v.gauge == u.gauge || v.gauge <= MaxGauge
  {
    u.(gauge := GaugeAfterTick(u.gauge, u.stats, u.perks, dt))
  }

  /** The gauge tick over the whole roster. */
  function TickAll(us: seq<Fighter>, dt: real): (vs: seq<Fighter>)
    ensures |vs| == |us| && forall j :: 0 <= j < |us| ==> vs[j] == Charged(us[j], dt)
  {
    seq(|us|, j requires 0 <= j < |us| => Charged(us[j], dt))
  }

  /** One pass of `while (!over)`: the gauge tick, then the actor loop over the whole roster. */
  function PassOf(r: Roster, dt: real, decide: DecisionSource, turn0: nat): (p: Phase)
    requires WellFormed(r)
    ensures p.roster.allyCount == r.allyCount && |p.roster.units| == |r.units|
  {
    PhaseUpTo(Phase(r.(units := TickAll(r.units, dt)), turn0, false, None), decide, |r.units|)
  }

  /**
   * The battle after the passes of the first `k` frame times, stopping at the
   * pass that ends the battle or in which a turn fails.
   */
  function RunUpTo(r0: Roster, frames: seq<real>, decide: DecisionSource, k: nat): (p: Phase)
    requires WellFormed(r0) && k <= |frames|
    ensures p.roster.allyCount == r0.allyCount && |p.roster.units| == |r0.units|
    decreases k
  {
    if k == 0 then Phase(r0, 0, false, None)
    else
      var p := RunUpTo(r0, frames, decide, k - 1);
      var dt := frames[k - 1];
      if Halted(p) then p else PassOf(p.roster, dt, decide, p.turns)
  }

  /** Once the battle is over or has failed, later frames change nothing. */
  lemma {:induction false} RunHaltedStays(r0: Roster, frames: seq<real>, decide: DecisionSource, k: nat, n: nat)
    requires WellFormed(r0) && k <= n <= |frames|
    requires Halted(RunUpTo(r0, frames, decide, k))
    ensures RunUpTo(r0, frames, decide, n) == RunUpTo(r0, frames, decide, k)
    decreases n - k
  {
    if n > k {
      RunHaltedStays(r0, frames, decide, k, n - 1);
      RunHaltedStep(r0, frames, decide, n);
    }
  }

  /** A frame after a halted one changes nothing. */
  lemma RunHaltedStep(r0: Roster, frames: seq<real>, decide: DecisionSource, n: nat)
    requires WellFormed(r0) && 0 < n <= |frames|
    requires Halted(RunUpTo(r0, frames, decide, n - 1))
    ensures RunUpTo(r0, frames, decide, n) == RunUpTo(r0, frames, decide, n - 1)
  {
  }

  /** The gauge tick changes gauges only. */
  lemma TickAllEvolves(r: Roster, dt: real)
    ensures RosterEvolves(r, r.(units := TickAll(r.units, dt)))
  {
  }

  /** A pass preserves the end-of-battle flag's meaning and only hurts units. */
  lemma PassOverIffSideDown(r: Roster, dt: real, decide: DecisionSource, turn0: nat)
    requires WellFormed(r)
    requires turn0 > 0 ==> !SideDown(r)
    ensures
      var p := PassOf(r, dt, decide, turn0);
      && p.turns >= turn0
      && (p.turns > turn0 ==> (p.over <==> SideDown(p.roster)))
      && (p.turns == turn0 ==> !p.over && (turn0 > 0 ==> !SideDown(p.roster)))
      && (p.over ==> p.err.None?)
      && RosterEvolves(r, p.roster)
  {
    var t := r.(units := TickAll(r.units, dt));
    var p0 := Phase(t, turn0, false, None);
    TickAllEvolves(r, dt);
    assert forall j :: 0 <= j < |r.units| ==> t.units[j].stats == r.units[j].stats;
    assert SideDown(t) <==> SideDown(r);
    PhaseOverIffSideDown(p0, decide, |r.units|);
    PhaseEvolves(p0, decide, |r.units|);
    EvolvesTrans(r, t, PassOf(r, dt, decide, turn0).roster);
  }

  /**
   * The battle ends at the first turn that leaves one side entirely dead: after
   * any number of frames, once turns have been resolved the battle is over
   * exactly when a side is down, an over battle has no error, and units have
   * only lost HP and ticked their ledgers.
   */
  lemma {:induction false} RunOverIffSideDown(r0: Roster, frames: seq<real>, decide: DecisionSource, k: nat)
    requires WellFormed(r0) && k <= |frames|
    ensures
      var p := RunUpTo(r0, frames, decide, k);
      && (p.turns > 0 ==> (p.over <==> SideDown(p.roster)))
      && (p.turns == 0 ==> !p.over)
      && (p.over ==> p.err.None?)
      && RosterEvolves(r0, p.roster)
    decreases k
  {
    if k > 0 {
      RunOverIffSideDown(r0, frames, decide, k - 1);
      var p := RunUpTo(r0, frames, decide, k - 1);
      var dt := frames[k - 1];
      if !Halted(p) {
        PassOverIffSideDown(p.roster, dt, decide, p.turns);
        EvolvesTrans(r0, p.roster, PassOf(p.roster, dt, decide, p.turns).roster);
      }
    }
  }

  /** Gauges start and stay at most 100: a tick caps them and a turn empties one. */
  predicate GaugesCapped(r: Roster) {
    forall j :: 0 <= j < |r.units| ==> r.units[j].gauge <= MaxGauge
  }

  lemma {:induction false} PhaseKeepsGaugesCapped(p0: Phase, decide: DecisionSource, i: nat)
    requires WellFormed(p0.roster) && i <= |p0.roster.units| && GaugesCapped(p0.roster)
    ensures GaugesCapped(PhaseUpTo(p0, decide, i).roster)
    decreases i
  {
    if i > 0 {
      PhaseKeepsGaugesCapped(p0, decide, i - 1);
      var p := PhaseUpTo(p0, decide, i - 1);
      if !Halted(p) {
        VisitStep(p, i - 1, decide);
      }
    }
  }

  /** Over the whole battle no gauge ever exceeds 100, provided none did at the start. */
  lemma {:induction false} RunKeepsGaugesCapped(r0: Roster, frames: seq<real>, decide: DecisionSource, k: nat)
    requires WellFormed(r0) && k <= |frames| && GaugesCapped(r0)
    ensures GaugesCapped(RunUpTo(r0, frames, decide, k).roster)
    decreases k
  {
    if k > 0 {
      RunKeepsGaugesCapped(r0, frames, decide, k - 1);
      var p := RunUpTo(r0, frames, decide, k - 1);
      var dt := frames[k - 1];
      if !Halted(p) {
        var t := p.roster.(units := TickAll(p.roster.units, dt));
        assert GaugesCapped(t);
        PhaseKeepsGaugesCapped(Phase(t, p.turns, false, None), decide, |t.units|);
      }
    }
  }

  /** Every gauge lies in [0, 100]. */
  predicate GaugesInRange(r: Roster) {
    forall j :: 0 <= j < |r.units| ==> 0.0 <= r.units[j].gauge <= MaxGauge
  }

  /** Units as the factory builds them: pass-through perks only, and a gauge speed that is not negative. */
  predicate PassThroughUnits(r: Roster) {
    forall j :: 0 <= j < |r.units| ==> AllScriptable(r.units[j].perks) && r.units[j].stats.gaugeSpeed >= 0.0
  }

  /** The actor loop keeps every gauge in [0, 100]: a turn empties one gauge and changes no other. */
  lemma {:induction false} PhaseKeepsGaugesInRange(p0: Phase, decide: DecisionSource, i: nat)
    requires WellFormed(p0.roster) && i <= |p0.roster.units| && GaugesInRange(p0.roster)
    ensures GaugesInRange(PhaseUpTo(p0, decide, i).roster)
    decreases i
  {
    if i > 0 {
      PhaseKeepsGaugesInRange(p0, decide, i - 1);
      var p := PhaseUpTo(p0, decide, i - 1);
      if !Halted(p) {
        VisitStep(p, i - 1, decide);
      }
    }
  }

  /** With pass-through perks, a speed and a frame time that are not negative, the tick keeps gauges in [0, 100]. */
  lemma TickKeepsGaugesInRange(r: Roster, dt: real)
    requires GaugesInRange(r) && PassThroughUnits(r) && dt >= 0.0
    ensures GaugesInRange(r.(units := TickAll(r.units, dt)))
  {
    forall j | 0 <= j < |r.units|
      ensures 0.0 <= Charged(r.units[j], dt).gauge <= MaxGauge
    {
      var u := r.units[j];
      if !Ready(u.gauge) && !Dead(u.stats) {
        assert TickAmount(u.stats, dt) >= 0.0;
        GaugeStaysInRange(u.gauge, u.perks, TickAmount(u.stats, dt));
      }
    }
  }

  /**
   * For units as the factory builds them and frame times that are not
   * negative, no gauge ever leaves [0, 100] during the battle, provided none
   * was outside it at the start.
   */
  lemma {:induction false} RunKeepsGaugesInRange(r0: Roster, frames: seq<real>, decide: DecisionSource, k: nat)
    requires WellFormed(r0) && k <= |frames| && GaugesInRange(r0) && PassThroughUnits(r0)
    requires forall n :: 0 <= n < |frames| ==> frames[n] >= 0.0
    ensures GaugesInRange(RunUpTo(r0, frames, decide, k).roster)
    decreases k
  {
    if k > 0 {
      RunKeepsGaugesInRange(r0, frames, decide, k - 1);
      var p := RunUpTo(r0, frames, decide, k - 1);
      var dt := frames[k - 1];
      if !Halted(p) {
        RunOverIffSideDown(r0, frames, decide, k - 1);
        forall j | 0 <= j < |p.roster.units|
          ensures AllScriptable(p.roster.units[j].perks) && p.roster.units[j].stats.gaugeSpeed >= 0.0
        {
          assert Evolves(r0.units[j], p.roster.units[j]);
        }
        var t := p.roster.(units := TickAll(p.roster.units, dt));
        TickKeepsGaugesInRange(p.roster, dt);
        PhaseKeepsGaugesInRange(Phase(t, p.turns, false, None), decide, |t.units|);
      }
    }
  }

  /**
   * After a pass that neither ended the battle nor failed, no unit is both
   * ready and alive, so every unit that was ready had its turn.
   */
  lemma PassLeavesNoneReady(r: Roster, dt: real, decide: DecisionSource, turn0: nat)
    requires WellFormed(r)
    requires !Halted(PassOf(r, dt, decide, turn0))
    ensures forall j :: 0 <= j < |r.units| ==>
      var u := PassOf(r, dt, decide, turn0).roster.units[j];
      !Ready(u.gauge) || Dead(u.stats)
  {
    PhaseLeavesNoneReady(Phase(r.(units := TickAll(r.units, dt)), turn0, false, None), decide, |r.units|);
  }
}
