/** Round resolution as values: the player record, one function per step of
    selectCard's pipeline, the whole pipeline (Resolve), the HP preview shown
    on a card, and what they promise. The class in game.dfy updates the record
    in place and is proved equal to these functions. */
module Resolution {
  import opened Cards
  import C = Constants

  /** The `player` record. */
  datatype Player = Player(
    score: int,
    hp: int,
    round: int,
    synergy: map<Tag, nat>,
    lastHealRound: int,
    tempDamageReduction: real,
    nextCardBoost: Option<Boost>,
    passiveImmunityRounds: int)

  /** The result of one step: the updated record and the running HP change. */
  datatype Outcome = Outcome(player: Player, hpChange: int)

  function Max(a: int, b: int): int { if a >= b then a else b }
  function Min(a: int, b: int): int { if a <= b then a else b }
  function MaxReal(a: real, b: real): real { if a >= b then a else b }

  const AllTags: set<Tag> := {Fire, Mind, Blood, Luck}

  /** The record both at start-up and after resetGame. */
  function Initial(): (p: Player)
    ensures Inv(p)
  {
    Player(0, C.MaxHpCap, 1, map[Fire := 0, Mind := 0, Blood := 0, Luck := 0],
           -C.HealCooldownRounds, 0.0, None, 0)
  }

  /** What holds of the record between two rounds. */
  ghost predicate Inv(p: Player) {
    && 0 <= p.hp <= C.MaxHpCap
    && p.round >= 1
    && p.synergy.Keys == AllTags
    && p.lastHealRound < p.round
    && p.passiveImmunityRounds >= 0
    && p.tempDamageReduction == 0.0
    && p.nextCardBoost == None
  }

  /** A synergy stack; a missing key reads as 0. */
  function Stack(s: map<Tag, nat>, t: Tag): nat {
    if t in s then s[t] else 0
  }

  // ----- Gamble path (handleChanceCard) -----

  /** The success chance of a gamble card in the current state. */
  function AdjustedChance(p: Player, card: Card): (c: real)
    requires card.gamble.Some?
    ensures c >= C.ChanceMinAdjusted
    ensures c >= card.gamble.value.chance + C.ChanceAdjust - p.round as real / C.ChanceRoundDivisor
  {
    var luck := Stack(p.synergy, Luck);
    var base := card.gamble.value.chance +
      (if card.synergy == Some(Luck) && luck > 0 then luck as real * C.LuckChancePerStack else 0.0);
    MaxReal(C.ChanceMinAdjusted, base + C.ChanceAdjust - p.round as real / C.ChanceRoundDivisor)
  }

  /** The HP lost on a failed gamble, before any later step. */
  function GambleLoss(p: Player, g: Gamble): int {
    Max(C.ChanceFailureMinHpLoss,
        (g.hpLose as real * C.ChanceFailureHpPenaltyMultiplier
         + p.round as real / C.BaseHpPenaltyDivisorChance as real).Floor)
  }

  /** handleChanceCard: a draw below the adjusted chance wins. */
  function GambleOutcome(p: Player, card: Card, m: real, draw: real): Outcome
    requires card.gamble.Some?
  {
    var g := card.gamble.value;
    if draw < AdjustedChance(p, card) then
      Outcome(p.(score := p.score + (g.scoreWin as real * m).Floor), 0)
    else
      Outcome(p.(score := Max(0, p.score - p.round / C.ChanceFailureScorePenaltyDivisor)),
              -GambleLoss(p, g))
  }

  // ----- Normal path (applyNormalCardEffects) -----

  predicate HealReady(p: Player) {
    p.round - p.lastHealRound >= C.HealCooldownRounds
  }

  /** The heal of an eligible heal card (card.hp > 0). */
  function Heal(p: Player, card: Card): int {
    var baseHeal := Max(0, (card.hp as real * C.HealBaseMultiplier).Floor);
    Max(0, baseHeal - p.round / C.HealRoundPenaltyDivisor)
  }

  /** The HP change of a damage-type card (card.hp <= 0). */
  function Damage(p: Player, card: Card): int {
    card.hp - p.round / C.BaseHpPenaltyDivisorNormal
  }

  function NormalOutcome(p: Player, card: Card, m: real): Outcome {
    var q := p.(score := p.score + (card.score as real * m).Floor);
    if card.hp > 0 then
      if HealReady(p) then Outcome(q.(lastHealRound := p.round), Heal(p, card))
      else Outcome(q, 0)
    else
      Outcome(q, Damage(p, card))
  }

  // ----- Synergy (applySynergyEffects) -----

  /** The extra BLOOD penalty at a given (already incremented) BLOOD stack. */
  function BloodPenalty(stack: int): (pen: int)
    ensures 0 <= pen <= C.SynergyBloodHpPenaltyMax
    ensures stack < C.SynergyBloodThreshold ==> pen == 0
    ensures stack >= C.SynergyBloodThreshold ==> pen == Min(C.SynergyBloodHpPenaltyMax, stack)
  {
    if stack >= C.SynergyBloodThreshold then
      Min(C.SynergyBloodHpPenaltyMax, stack * C.SynergyBloodHpPenaltyPerStack)
    else 0
  }

  function SynergyOutcome(p: Player, card: Card, d: int): Outcome {
    match card.synergy
    case None => Outcome(p, d)
    case Some(t) =>
      var syn := p.synergy[t := Stack(p.synergy, t) + 1];
      var pen := if t == Blood then BloodPenalty(Stack(syn, Blood)) else 0;
      Outcome(p.(synergy := syn), d - pen)
  }

  // ----- Special effects (applySpecialCardEffects) -----

  /** The blood-drain effect's extra loss at a given BLOOD stack. */
  function BloodDrain(stack: int): int {
    if stack > 0 then stack * C.BloodDrainPerStack else 0
  }

  function SpecialOutcome(p: Player, card: Card, d: int): Outcome {
    match card.effect
    case NoEffect => Outcome(p, d)
    case DamageReduction(a) => Outcome(p.(tempDamageReduction := a), d)
    case NextCardBoost(t, a) => Outcome(p.(nextCardBoost := Some(Boost(t, a))), d)
    case PassiveImmunity(n) => Outcome(p.(passiveImmunityRounds := n), d)
    case BloodDrainSynergy => Outcome(p, d - BloodDrain(Stack(p.synergy, Blood)))
  }

  // ----- Reduction, clamps, drain -----

  /** A pending damage reduction scales a negative change; nothing else is touched. */
  function ReduceDamage(tdr: real, d: int): (r: int)
    ensures !(tdr > 0.0 && d < 0) ==> r == d
    ensures d < 0 && 0.0 < tdr < 1.0 ==> d <= r <= -1
    ensures d < 0 && 0.0 < tdr <= 1.0 ==> d <= r <= 0
  {
    if tdr > 0.0 && d < 0 then (d as real * (1.0 - tdr)).Floor else d
  }

  /** The HP change of one round is held to [-30, 25]. */
  function ClampChange(d: int): (r: int)
    ensures C.HpChangeMaxNegative <= r <= C.HpChangeMaxPositive
    ensures C.HpChangeMaxNegative <= d <= C.HpChangeMaxPositive ==> r == d
    ensures d > C.HpChangeMaxPositive ==> r == C.HpChangeMaxPositive
    ensures d < C.HpChangeMaxNegative ==> r == C.HpChangeMaxNegative
  {
    Max(C.HpChangeMaxNegative, Min(C.HpChangeMaxPositive, d))
  }

  /** HP after a change: held to [0, maxHpCap]. */
  function ApplyChange(hp: int, d: int): (r: int)
    ensures 0 <= r <= C.MaxHpCap
    ensures 0 <= hp + d <= C.MaxHpCap ==> r == hp + d
  {
    Max(0, Min(hp + d, C.MaxHpCap))
  }

  /** The passive drain due at a round (it is applied only when positive). */
  function PassiveDamage(round: int): int {
    C.PassiveAmountBase + ((round as real / 100.0) * C.PassiveScalingPer100 as real).Floor
  }

  predicate DrainDue(round: int, immunity: int) {
    immunity <= 0 && round % C.PassiveEveryRounds == 0
  }

  /** HP after the periodic passive drain of the (already incremented) round. */
  function PassiveDrain(hp: int, round: int, immunity: int): (r: int)
    ensures 0 <= hp ==> 0 <= r <= hp
    ensures !DrainDue(round, immunity) ==> r == hp
    ensures DrainDue(round, immunity) && PassiveDamage(round) > 0 ==> r == Max(0, hp - PassiveDamage(round))
  {
    if DrainDue(round, immunity) && PassiveDamage(round) > 0 then Max(0, hp - PassiveDamage(round)) else hp
  }

  // ----- The whole pipeline (selectCard) -----

  /** Steps 1-3: the path, the synergy update and the special effect. */
  function Effects(p: Player, card: Card, m: real, draw: real): Outcome {
    var o1 := if IsGamble(card) then GambleOutcome(p, card, m, draw) else NormalOutcome(p, card, m);
    var o2 := SynergyOutcome(o1.player, card, o1.hpChange);
    SpecialOutcome(o2.player, card, o2.hpChange)
  }

  /** Steps 4-5: the HP change applied, from the record and running change after step 3. */
  function AppliedChange(s: Player, d: int): (r: int)
    ensures C.HpChangeMaxNegative <= r <= C.HpChangeMaxPositive
  {
    ClampChange(ReduceDamage(s.tempDamageReduction, d))
  }

  /** The HP change actually applied in the round of `card`. */
  function FinalChange(p: Player, card: Card, m: real, draw: real): (d: int)
    ensures C.HpChangeMaxNegative <= d <= C.HpChangeMaxPositive
  {
    var o := Effects(p, card, m, draw);
    AppliedChange(o.player, o.hpChange)
  }

  /** Steps 6 (round), 8 and 9: the round advances, the passive drain falls due,
      the transient modifiers are cleared and the immunity counts down. */
  function EndOfRound(s: Player): (q: Player)
    ensures 0 <= s.hp ==> 0 <= q.hp <= s.hp
    ensures q.round == s.round + 1
    ensures q.tempDamageReduction == 0.0 && q.nextCardBoost == None
  {
    var round := s.round + 1;
    s.(hp := PassiveDrain(s.hp, round, s.passiveImmunityRounds),
       round := round,
       tempDamageReduction := 0.0,
       nextCardBoost := None,
       passiveImmunityRounds := if s.passiveImmunityRounds > 0 then s.passiveImmunityRounds - 1
                                else s.passiveImmunityRounds)
  }

  /** Steps 4-9, from the record and running change after step 3. */
  function Settle(s: Player, d: int): (q: Player)
    ensures 0 <= q.hp <= C.MaxHpCap
    ensures q.round == s.round + 1
    ensures q.tempDamageReduction == 0.0 && q.nextCardBoost == None
  {
    EndOfRound(s.(hp := ApplyChange(s.hp, AppliedChange(s, d))))
  }

  /** The whole transition of one resolved round. */
  function Resolve(p: Player, card: Card, m: real, draw: real): (q: Player)
    ensures 0 <= q.hp <= C.MaxHpCap
    ensures q.round == p.round + 1
    ensures q.tempDamageReduction == 0.0 && q.nextCardBoost == None
  {
    var o := Effects(p, card, m, draw);
    Settle(o.player, o.hpChange)
  }

  // ----- The preview (calculateDisplayedHpChange) -----

  /** The path part of the preview: the loss of a lost gamble, the heal (0 while on
      cooldown), or the damage. */
  function PreviewBase(p: Player, card: Card): int {
    if card.gamble.Some? then -GambleLoss(p, card.gamble.value)
    else if card.hp > 0 then
      (if !HealReady(p) then 0
       else Max(0, (card.hp as real * C.HealBaseMultiplier).Floor - p.round / C.HealRoundPenaltyDivisor))
    else Damage(p, card)
  }

  /** The HP change printed on a card before it is chosen. */
  function DisplayedHpChange(p: Player, card: Card): (d: int)
    ensures C.HpChangeMaxNegative <= d <= C.HpChangeMaxPositive
  {
    var base := PreviewBase(p, card);
    var shown := if card.effect == BloodDrainSynergy then base - BloodDrain(Stack(p.synergy, Blood)) else base;
    ClampChange(shown)
  }
}
