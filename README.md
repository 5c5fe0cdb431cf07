# LogueChess battle core in Dafny

This project models the turn-based battle core of LogueChess:

- Units fill an action gauge over time. A unit whose gauge reaches 100 takes a turn.
- In its turn the unit is given a skill and a target on the other side, and it deals damage.
- Three things shape the damage: the attacker's perks, the target's resistance and the
  target's own buffs.
- The skill can leave a timed buff on the target.
- After the hit, the actor's gauge is emptied. The buff ledgers of the actor and the target
  then count down one turn.
- The battle ends as soon as one side is entirely dead.

The model also covers the data-driven factory, which turns configured unit assets into
runtime units. The factory:
- drops null entries;
- copies the fields;
- wraps perks in the pass-through `ScriptablePerk`;
- applies the starting buffs.

## Layout

The modules follow the program's structure:

- `wrappers.dfy` (`Wrappers`): `Option`, which stands for a C# null reference.
- `config.dfy` (`Config`): the asset records a unit is built from, as plain values.
- `battle_model.dfy` (`BattleModel`):
  - The value types `Stats`, `BuffInstance`, `Skill` and `Perk`.
  - The functions that specify what the unit methods and a turn compute:
    - the left-to-right modifier `Chain`;
    - the capped gauge gain;
    - `RoundToInt`;
    - the hit damage and the turn damage;
    - the buff tick `Ticked`.
  - The lemmas about these functions.
- `unit.dfy` (`Units`): the `Unit` class. Its gauge, stat block and buff ledger change in
  place, and each method is proved against the functions above.
- `battle_rules.dfy` (`BattleRules`): the battle loop of `StartBattleAsync` stated on values.
  A roster is the list `allies.Concat(enemies)` of unit states. Functions give:
  - one turn (`TurnOf`);
  - the actor loop reaching one unit (`VisitOf`) and reaching the units up to an index
    (`PhaseUpTo`);
  - one pass of `while (!over)` (`PassOf`);
  - the first passes of the battle (`RunUpTo`).

  The lemmas state what the battle promises: who acts, who is hit, when the battle ends, and
  what never changes.
- `battle_service.dfy` (`Battle`): the same steps as methods over mutable `Unit` objects:
  - the gauge tick, the turn body and one turn;
  - the actor loop and one pass;
  - the battle loop.

  Each method is proved to change the units exactly as its counterpart in `BattleRules` says.
- `factory.dfy` (`Factory`):
  - `ToRuntimeUnit` and the conversions it is made of;
  - the party and enemy services;
  - `ScriptablePerk`.

## Modelling choices

- **Numbers.** Unity's `float` is modelled as `real`. `Mathf.RoundToInt` is modelled exactly
  as round-half-to-even.
- **Buff transforms.** A buff's `Func<float,float>` is one of the two transforms the
  repository builds: `Identity` or `Multiply(f)`.
- **Perks.** A perk is one of two kinds:
  - a `Scriptable` wrapper, whose hooks pass every value through;
  - a `Custom` pair of arbitrary hook functions on the scalar.
- **Awaited UI calls.** `PickSkillAsync` and `PickTargetAsync` become a function
  `decide: (Roster, nat, nat) -> Decision`.
  - It is asked with three things: the roster as it stands, the actor's index and the
    number of turns resolved so far.
  - It answers with an optional skill and an optional target. The target is an index into
    the candidate list.
  - `DebugUIService` is modelled as one such function, `BattleRules.DebugDecision`.
- **Frame times.** `Time.deltaTime` becomes the pass's `dt`. The battle loop runs over a
  given finite sequence of frame times.
- **Lazy actor filter.** `all.Where(u => u.IsReady && !u.IsDead)` is evaluated lazily. A
  unit is therefore tested when the loop reaches it, after the turns of the units before
  it. The model tests each unit at that moment, in roster order.

Behaviour of the code worth noting:

- The gauge is capped only from above (`min(100, gauge + gain)`). A perk that returns a
  negative gain can push the gauge below 0. With the pass-through perks the factory builds,
  non-negative gauge speeds and non-negative frame times, every gauge stays in [0, 100]
  (`BattleRules.RunKeepsGaugesInRange`).
- The perk gain hooks run even when `dt` is 0, so a perk can move a gauge although no time
  has passed (`BattleModel.ZeroTickStillRunsPerks`). Only with pass-through perks is a
  zero-length tick idle (`BattleModel.ZeroTickIsIdle`).
- A starting buff on `ATK` multiplies damage by `1 + amount`. It is applied in
  `TakeDamage`, so it scales the damage its holder *receives*.
- `Stats.GetResistance` is a stub that returns 0 for every attribute. Each turn is modelled
  with that stub. The damage formula itself is stated for any resistance
  (`BattleModel.TurnDamage`, `BattleModel.HalfResistanceScenario`).
- No turn checks or spends `Skill.GaugeCost` (`BattleRules.GaugeCostIgnored`).
- Dead units stay candidates. A decision source may target a dead unit, and the hit still
  lands on it.

The battle methods require that no unit appears twice in `allies + enemies`. The factories
always meet this, because every unit they return is freshly allocated
(`Factory.BuildRoster`).

## Model

Functions that only compute are stated through the rows of the lemmas and functions about
them:
- `BattleModel.Chain`, the foreach folds at BattleSampleRunner.cs:105-106, :116-117 and :270,
  through `ChainCons`, `ChainAppend`, `PerkDamageOrder` and `ChainIdentity`;
- `BattleModel.ModifiedDamage` (:268-270) through `TurnDamage`;
- `Battle.Opponents` (:264) through `OpponentsAreCandidates`;
- `Battle.AllDead` (:286) through `AllDeadIsSideDown`;
- `BattleRules.DebugDecision` (:204-211) through `FirstLiving` and `DebugHitsFirstLivingOpponent`.

| member | source | states |
|---|---|---|
| BattleModel.Stats.GetResistance | Assets/Scripts/Runtime/BattleSampleRunner.cs:31 | every attribute tag resolves to resistance 0 |
| BattleModel.NewStats | Assets/Scripts/Runtime/BattleSampleRunner.cs:23-29 | a new stat block has the given ATK and gauge speed and starts at full HP: current HP = max HP = hp |
| BattleModel.ChainCons | Assets/Scripts/Runtime/BattleSampleRunner.cs:105-106 | the first modifier of the list consumes the input and each later one consumes its predecessor's result, as the perk and buff foreach loops do |
| BattleModel.ChainAppend | Assets/Scripts/Runtime/BattleSampleRunner.cs:116-117 | running a value through a concatenated list of modifiers is running it through the first list, then through the second: modifiers compose strictly left to right |
| BattleModel.PerkDamageOrder | Assets/Scripts/Runtime/BattleSampleRunner.cs:270 | two perks [A, B] turn raw damage into B(A(raw)) |
| BattleModel.ChainIdentity | Assets/Scripts/Runtime/BattleSampleRunner.cs:105-106 | a chain of modifiers that each pass their value through leaves the value unchanged |
| BattleModel.ScriptableChainIsIdentity | Assets/Scripts/Runtime/SOService.cs:125-127 | units whose perks are all `ScriptablePerk` have an unchanged gauge gain and unchanged damage |
| BattleModel.GaugeAfterGain | Assets/Scripts/Runtime/BattleSampleRunner.cs:102-108 | the new gauge never exceeds 100 and never exceeds old + the perk-chained gain; it is exactly one of the two |
| BattleModel.GaugeAfterTick | Assets/Scripts/Runtime/BattleSampleRunner.cs:253-256 | a unit that is ready or dead keeps its gauge; any other unit gains gaugeSpeed × dt through its perks, capped at 100 |
| BattleModel.GaugeStaysInRange | Assets/Scripts/Runtime/BattleSampleRunner.cs:107 | with pass-through perks, a non-negative gain keeps a gauge in [0, 100] inside it and never lowers it |
| BattleModel.ZeroTickIsIdle | Assets/Scripts/Runtime/BattleSampleRunner.cs:252-255 | with pass-through perks, a tick of length 0 changes no gauge |
| BattleModel.ZeroTickStillRunsPerks | Assets/Scripts/Runtime/BattleSampleRunner.cs:105-107 | a perk that adds 10 to every gain moves an idle unit's gauge from 0 to 10 in a tick of length 0 |
| BattleModel.RoundToInt | Assets/Scripts/Runtime/BattleSampleRunner.cs:119 | the result is within 0.5 of the input, and an exact half rounds to the even neighbour |
| BattleModel.RoundToIntOfInt | Assets/Scripts/Runtime/BattleSampleRunner.cs:119 | a whole number rounds to itself |
| BattleModel.HitDamage | Assets/Scripts/Runtime/BattleSampleRunner.cs:115-119 | the HP lost is 1 when the damage chained through the unit's buffs (in ledger order) is at most 0.5, and otherwise within 0.5 of it |
| BattleModel.RawDamage | Assets/Scripts/Runtime/BattleSampleRunner.cs:268 | power 1 deals exactly ATK, and non-negative ATK and power give non-negative raw damage |
| BattleModel.Mitigated | Assets/Scripts/Runtime/BattleSampleRunner.cs:272 | resistance 0 keeps the damage, resistance 1 cancels it, a resistance in [0, 1] only lowers non-negative damage, and a negative resistance amplifies it |
| BattleModel.TurnDamage | Assets/Scripts/Runtime/BattleSampleRunner.cs:268-272 | the value handed to `TakeDamage` is 1 when (ATK × power through the perks) × (1 − resistance) is at most 0.5, and otherwise within 0.5 of it |
| BattleModel.DefaultTurnDamage | Assets/Scripts/Runtime/BattleSampleRunner.cs:31 | because the resistance stub returns 0 for every attribute, pass-through perks deal a whole, positive ATK × power unchanged |
| BattleModel.HalfResistanceScenario | Assets/Scripts/Runtime/BattleSampleRunner.cs:268-273 | ATK 100, power 1.5 and resistance 0.5 with no perks give 75, and a target without buffs loses exactly 75 HP |
| BattleModel.FullImmunityScenario | Assets/Scripts/Runtime/BattleSampleRunner.cs:272 | full immunity (resistance 1) still deals the minimum hit of 1 |
| BattleModel.Ticked | Assets/Scripts/Runtime/BattleSampleRunner.cs:130-141 | the ticked ledger is no longer than before, and every entry left has turns remaining |
| BattleModel.TickedAppend | Assets/Scripts/Runtime/BattleSampleRunner.cs:132-139 | ticking works entry by entry, so the survivors keep their relative order |
| BattleModel.TickedMembers | Assets/Scripts/Runtime/BattleSampleRunner.cs:134-138 | an entry is in the ticked ledger iff it is an old entry with one turn fewer that has not run out |
| BattleModel.TickedKeepsAll | Assets/Scripts/Runtime/BattleSampleRunner.cs:134-135 | when no entry runs out, ticking removes nothing and shortens each entry by exactly one turn |
| Units.Unit.constructor | Assets/Scripts/Runtime/BattleSampleRunner.cs:86-97 | a new unit holds the given id, stats, skills and perks, an empty ledger and an empty gauge |
| Units.Unit.IsReady | Assets/Scripts/Runtime/BattleSampleRunner.cs:99 | a unit is ready exactly when its gauge is at least 100 |
| Units.Unit.IsDead | Assets/Scripts/Runtime/BattleSampleRunner.cs:100 | a unit is dead exactly when its current HP is at most 0 |
| Units.Unit.GainGauge | Assets/Scripts/Runtime/BattleSampleRunner.cs:102-108 | the gauge becomes `GaugeAfterGain` of the old gauge, so it is at most 100; nothing else changes |
| Units.Unit.ResetGauge | Assets/Scripts/Runtime/BattleSampleRunner.cs:110 | the gauge is 0, so the unit is no longer ready |
| Units.Unit.TakeDamage | Assets/Scripts/Runtime/BattleSampleRunner.cs:112-122 | current HP drops by exactly `HitDamage` of the ledger, so it drops strictly; the other stats, the ledger and the gauge are unchanged |
| Units.Unit.ApplyBuff | Assets/Scripts/Runtime/BattleSampleRunner.cs:124-128 | the buff is appended at the end, the existing entries are untouched, and there is no de-duplication |
| Units.Unit.TickBuffs | Assets/Scripts/Runtime/BattleSampleRunner.cs:130-141 | the ledger becomes `Ticked` of the old ledger, so every remaining entry has turns left |
| BattleRules.Candidates | Assets/Scripts/Runtime/BattleSampleRunner.cs:264 | the candidates of a unit are a stretch of the roster within its bounds |
| BattleRules.CandidatesAreOtherSide | Assets/Scripts/Runtime/BattleSampleRunner.cs:264 | a unit is a candidate exactly when it is on the other side, dead or alive |
| BattleRules.Struck | Assets/Scripts/Runtime/BattleSampleRunner.cs:268-277 | the target loses at least 1 HP and keeps its other stats, perks and gauge; its ledger afterwards is live |
| BattleRules.Spent | Assets/Scripts/Runtime/BattleSampleRunner.cs:282-283 | the actor's gauge is 0, so it is not ready; its stats and perks are kept and its ledger is live |
| BattleRules.Resolve | Assets/Scripts/Runtime/BattleSampleRunner.cs:268-284 | exactly the actor and the target change: the target is struck (strictly lower HP, same gauge) and the actor is spent |
| BattleRules.TurnOf | Assets/Scripts/Runtime/BattleSampleRunner.cs:261-285 | a turn keeps the roster's size and its split into allies and enemies |
| BattleRules.TurnHitsOneOpponent | Assets/Scripts/Runtime/BattleSampleRunner.cs:261-284 | the turn fails with `NoSkill` iff there is no skill; a failed turn changes nothing; a resolved turn hits one unit of the other side, spends the actor and leaves every other unit as it was |
| BattleRules.GaugeCostIgnored | Assets/Scripts/Runtime/BattleSampleRunner.cs:268-282 | a skill that differs only in its gauge cost resolves to the same roster and the same outcome |
| BattleRules.FirstLiving | Assets/Scripts/Runtime/BattleSampleRunner.cs:211 | the position found is a living unit with only dead units before it, and there is none iff every unit in the stretch is dead |
| BattleRules.DebugHitsFirstLivingOpponent | Assets/Scripts/Runtime/BattleSampleRunner.cs:204-214 | with the debug decision source, a unit with a skill fails for want of a target iff the whole other side is dead, and otherwise hits the first living unit of the other side |
| BattleRules.VisitOf | Assets/Scripts/Runtime/BattleSampleRunner.cs:258-286 | a visit keeps the roster's size and its split into allies and enemies |
| BattleRules.PhaseUpTo | Assets/Scripts/Runtime/BattleSampleRunner.cs:258-287 | the actor loop keeps the roster's size and its split into allies and enemies |
| BattleRules.PhaseHaltedStays | Assets/Scripts/Runtime/BattleSampleRunner.cs:286 | once the actor loop has ended the battle or failed, reaching further units changes nothing |
| BattleRules.PhaseKeepsUnreachedGauges | Assets/Scripts/Runtime/BattleSampleRunner.cs:258 | units the loop has not reached yet keep the gauge they had when the loop started |
| BattleRules.ActsIffReadyWhenReached | Assets/Scripts/Runtime/BattleSampleRunner.cs:258 | a unit takes a turn (or its turn fails) iff its gauge was full when the actor loop began and it is alive when the loop reaches it; each visit resolves at most one turn |
| BattleRules.VisitStep | Assets/Scripts/Runtime/BattleSampleRunner.cs:258-286 | a visit either resolves no turn and leaves the roster as it was, or resolves one and sets the end flag iff a side is down; it acts iff the unit is ready and alive; only the visited unit's gauge changes, to 0 |
| BattleRules.PhaseOverIffSideDown | Assets/Scripts/Runtime/BattleSampleRunner.cs:286 | once turns have been resolved in a pass, the loop is over iff one side is entirely dead; with none resolved, the roster is untouched and the loop is not over; an over loop has no error |
| BattleRules.VisitUnitEvolves | Assets/Scripts/Runtime/BattleSampleRunner.cs:268-284 | a visit never heals a unit, never changes its ATK, gauge speed, max HP or perks, and leaves its ledger live or untouched |
| BattleRules.PhaseUnitEvolves | Assets/Scripts/Runtime/BattleSampleRunner.cs:258-287 | over the actor loop each unit only loses HP, keeps its other stats and perks, and has a live or untouched ledger |
| BattleRules.PhaseEvolves | Assets/Scripts/Runtime/BattleSampleRunner.cs:258-287 | the same for the whole roster at once |
| BattleRules.PhaseLeavesNoneReady | Assets/Scripts/Runtime/BattleSampleRunner.cs:258 | while the loop runs, no unit it has passed is both ready and alive |
| BattleRules.OneOnOneEndsAtKill | Assets/Scripts/Runtime/BattleSampleRunner.cs:258-287 | one ally against one enemy: when the ally's turn kills the enemy, the battle is over after that one turn, and the enemy does not act |
| BattleRules.Charged | Assets/Scripts/Runtime/BattleSampleRunner.cs:253-255 | the tick changes only the gauge, which either stays or ends at most at 100 |
| BattleRules.TickAll | Assets/Scripts/Runtime/BattleSampleRunner.cs:253-257 | the tick is applied to every unit of the roster, each on its own |
| BattleRules.PassOf | Assets/Scripts/Runtime/BattleSampleRunner.cs:252-287 | a pass keeps the roster's size and its split into allies and enemies |
| BattleRules.RunUpTo | Assets/Scripts/Runtime/BattleSampleRunner.cs:249-291 | the battle keeps the roster's size and its split into allies and enemies |
| BattleRules.RunHaltedStays | Assets/Scripts/Runtime/BattleSampleRunner.cs:250 | once the battle is over or has failed, later frames change nothing |
| BattleRules.TickAllEvolves | Assets/Scripts/Runtime/BattleSampleRunner.cs:253-257 | the gauge tick heals no unit and changes no other stat, perk or ledger |
| BattleRules.PassOverIffSideDown | Assets/Scripts/Runtime/BattleSampleRunner.cs:252-287 | after a pass, if turns were resolved the battle is over iff a side is down; if none were, it is not over, and no side is down when earlier passes resolved turns; units only lose HP |
| BattleRules.RunOverIffSideDown | Assets/Scripts/Runtime/BattleSampleRunner.cs:249-291 | after any number of frames, once turns have been resolved the battle is over iff a side is entirely dead; before any turn it is not over; an over battle has no error; units only lose HP |
| BattleRules.PhaseKeepsGaugesCapped | Assets/Scripts/Runtime/BattleSampleRunner.cs:282 | the actor loop keeps every gauge at most 100 |
| BattleRules.RunKeepsGaugesCapped | Assets/Scripts/Runtime/BattleSampleRunner.cs:250-291 | no gauge ever exceeds 100 during the battle, provided none did at the start |
| BattleRules.PhaseKeepsGaugesInRange | Assets/Scripts/Runtime/BattleSampleRunner.cs:282 | the actor loop keeps every gauge in [0, 100] |
| BattleRules.TickKeepsGaugesInRange | Assets/Scripts/Runtime/BattleSampleRunner.cs:253-256 | with pass-through perks, non-negative gauge speeds and a non-negative frame time, the tick keeps every gauge in [0, 100] |
| BattleRules.RunKeepsGaugesInRange | Assets/Scripts/Runtime/BattleSampleRunner.cs:250-291 | for factory-shaped units (pass-through perks, non-negative gauge speed) and non-negative frame times, no gauge ever leaves [0, 100] during the battle, provided none was outside it at the start |
| BattleRules.PassLeavesNoneReady | Assets/Scripts/Runtime/BattleSampleRunner.cs:258-287 | after a pass that neither ended the battle nor failed, no unit is both ready and alive |
| Battle.RosterOf | Assets/Scripts/Runtime/BattleSampleRunner.cs:243 | `allies.Concat(enemies)` as a roster: allies first, then enemies |
| Battle.AllDeadIsSideDown | Assets/Scripts/Runtime/BattleSampleRunner.cs:286 | the end test (all allies dead, or all enemies dead) holds iff one side of the roster is entirely dead |
| Battle.OpponentsAreCandidates | Assets/Scripts/Runtime/BattleSampleRunner.cs:264 | in a roster without repeated units, `allies.Contains(actor) ? enemies : allies` is exactly the other side of the roster, in order |
| Battle.TickPhase | Assets/Scripts/Runtime/BattleSampleRunner.cs:252-257 | every unit ends as `Charged`: units neither ready nor dead gain gaugeSpeed × dt through their perks, and no HP or ledger changes |
| Battle.ResolveTurn | Assets/Scripts/Runtime/BattleSampleRunner.cs:268-284 | the target ends `Struck` (HP lowered by the turn damage through its buffs, the effect appended, its ledger ticked) and the actor ends `Spent` (gauge 0, ledger ticked) |
| Battle.Strike | Assets/Scripts/Runtime/BattleSampleRunner.cs:268-284 | the roster ends as `Resolve` says: only the actor and the target change |
| Battle.TakeTurn | Assets/Scripts/Runtime/BattleSampleRunner.cs:261-285 | the roster and the outcome are exactly `TurnOf` of the decision, so `TurnHitsOneOpponent` holds of the units |
| Battle.VisitUnit | Assets/Scripts/Runtime/BattleSampleRunner.cs:258-286 | the roster, turn count, end flag and error are exactly `VisitOf`: the unit acts iff it is ready and alive when reached |
| Battle.ActorPhase | Assets/Scripts/Runtime/BattleSampleRunner.cs:258-287 | the loop over the whole roster ends exactly as `PhaseUpTo` says, stopping right after a turn that fails or leaves a side dead |
| Battle.BattlePass | Assets/Scripts/Runtime/BattleSampleRunner.cs:252-287 | one pass is exactly `PassOf`: the gauge tick, then the actor loop |
| Battle.RunBattle | Assets/Scripts/Runtime/BattleSampleRunner.cs:249-291 | the battle is exactly `RunUpTo` over all frames; the loop stops early only when the battle is over or a turn failed |
| Factory.Present | Assets/Scripts/Runtime/SOService.cs:22-23 | the kept entries are exactly the non-null ones, with nothing invented |
| Factory.PresentAppend | Assets/Scripts/Runtime/SOService.cs:22-25 | dropping nulls works entry by entry, so the configured order is preserved |
| Factory.PresentOfAllSome | Assets/Scripts/Runtime/SOService.cs:23 | a list without nulls is kept whole, entry for entry |
| Factory.Map | Assets/Scripts/Runtime/SOService.cs:24 | one result per input, each the conversion of the input at the same position |
| Factory.MapSnoc | Assets/Scripts/Runtime/SOService.cs:94-96 | converting a list that grows by one entry adds that entry's conversion at the end |
| Factory.ScriptablePerk | Assets/Scripts/Runtime/SOService.cs:121-129 | both the gauge hook and the damage hook return their input unchanged |
| Factory.SkillEffect | Assets/Scripts/Runtime/SOService.cs:69-76 | the effect carries the buff's id, duration and amount, and its transform is the identity on both branches |
| Factory.ToSkill | Assets/Scripts/Runtime/SOService.cs:62-77 | id, name, type, gauge cost, base power and attribute are copied; the effect is absent iff the asset's effect is null |
| Factory.StartingBuff | Assets/Scripts/Runtime/SOService.cs:96-107 | the buff carries id, duration and amount, and multiplies by 1 + amount iff it affects ATK; otherwise it is the identity |
| Factory.Skills | Assets/Scripts/Runtime/SOService.cs:59-79 | a null skill list gives no skills; otherwise there is one converted skill per non-null asset, in order, and every effect is the identity |
| Factory.SkillsAppend | Assets/Scripts/Runtime/SOService.cs:59-79 | converting two skill lists back to back equals converting their concatenation |
| Factory.Perks | Assets/Scripts/Runtime/SOService.cs:82-87 | a null perk list gives no perks; otherwise there is one `ScriptablePerk` per non-null asset, in order, and all of them pass values through |
| Factory.StartingBuffs | Assets/Scripts/Runtime/SOService.cs:92-108 | a null list gives no buffs; otherwise one buff per non-null asset, in order, multiplying by 1 + amount exactly when it affects ATK |
| Factory.FactoryPerksKeepDamage | Assets/Scripts/Runtime/SOService.cs:82-87 | every factory-built unit deals a whole, positive ATK × power unchanged |
| Factory.ToRuntimeUnit | Assets/Scripts/Runtime/SOService.cs:54-111 | a fresh unit with the asset's id, NewStats(atk, gaugeSpeed, maxHP), the converted skills and perks, the non-null starting buffs applied in order, and gauge 0 |
| Factory.ToRuntimeUnits | Assets/Scripts/Runtime/SOService.cs:22-25 | one fresh unit per non-null asset, in the configured order, with no unit repeated |
| Factory.PartyServiceSO.GetPartyUnits | Assets/Scripts/Runtime/SOService.cs:19-27 | the party is one fresh unit per non-null configured asset, in order, with no unit repeated |
| Factory.EnemyServiceSO.GetEnemies | Assets/Scripts/Runtime/SOService.cs:39-46 | the enemies are one fresh unit per non-null configured asset, in order, with no unit repeated |
| Factory.BuildRoster | Assets/Scripts/Runtime/BattleSampleRunner.cs:305-306 | the allies are built from the party's non-null configured assets and the enemies from the enemy service's, each in order; all are freshly built, with no unit appearing twice in the roster |

## Left out

- Asynchrony: the `await`/`UniTask` suspension points, `UniTask.Yield` and the skill animation (`PlaySkillAnimationAsync`) are not modelled. Each turn is resolved as one atomic step.
- `IPerk.BeforeSkill` and `IPerk.AfterSkill`: the only implementation, `ScriptablePerk`, does nothing in them, and there is no other implementation to model.
- Perk hook arguments: the `Custom` hooks see only the scalar they transform, not the unit, the defender or the skill.
- Aliasing of `skill.Effect`. The source appends the skill's own `BuffInstance` object to every target it hits. `TickBuffs` then decrements that shared object once for every ledger that holds it. Here buffs are values, so each ledger entry counts down on its own.
- Aliasing of `Stats`. It is a class in the source. Here each unit owns its stat block as a value. The factory always builds a new one per unit.
- Float precision and 32-bit integer overflow: reals and unbounded integers stand in for `float` and `int`.
- `ReactiveProperty` notifications, `Debug.Log` and `UpdateGaugeDisplay`: the gauge is a plain field.
- BattleRules.TurnOf: `PickTargetAsync` can return any unit, or null, but the model can only pick a candidate by index. The source throws `NullReferenceException` on a null skill or target. Here that case is the typed error `NoSkill` or `NoTarget`, which ends the battle.
- BattleRules.DebugDecision: the debug picker throws when the actor has no skills or no candidate is alive. Here it answers without a skill or without a target, which ends the battle with an error.
- Battle.RunBattle: `while (!over)` can run forever. Here the loop runs over a finite sequence of frame times and stops when they run out.
- Null `playerUnits`/`enemyUnits` lists: the configured lists are always present. Only their entries may be null.
- Setup and presentation code is not modelled:
  - `BattleSampleRunner.Start` beyond building the roster (`InitializeUnits` and starting the battle);
  - the debug `PartyService`/`EnemyService` fixtures;
  - the UI and dependency-injection files.
- Fields with no effect: `UnitData.resistances`, `def`, `displayName`, `cooldownTime` and `BuffData.stackable` are kept, but the source never reads them when it builds or runs a unit.
