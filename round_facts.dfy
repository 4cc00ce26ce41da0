/** What one resolved round promises, stated over the functions of Resolution. */
module RoundFacts {
  import opened Cards
  import opened Resolution
  import C = Constants

  /** Every tag is one of the four keys of a synergy map. */
  lemma TagInAllTags(t: Tag)
    ensures t in AllTags
  {
    match t
    case Fire =>
    case Mind =>
    case Blood =>
    case Luck =>
  }

  /** The only step that touches the synergy map is the synergy step. */
  lemma EffectsSynergy(p: Player, card: Card, m: real, draw: real)
    ensures var q := Effects(p, card, m, draw);
      q.player.synergy == (if card.synergy.Some?
                           then p.synergy[card.synergy.value := Stack(p.synergy, card.synergy.value) + 1]
                           else p.synergy)
  {
  }

  /** The record's between-rounds invariant survives every card and every draw. */
  lemma ResolvePreservesInv(p: Player, card: Card, m: real, draw: real)
    requires Inv(p)
    requires WellFormed(card)
    ensures Inv(Resolve(p, card, m, draw))
  {
    var q := Resolve(p, card, m, draw);
    EffectsSynergy(p, card, m, draw);
    if card.synergy.Some? {
      TagInAllTags(card.synergy.value);
    }
    var o := Effects(p, card, m, draw);
    assert o.player.lastHealRound <= p.round;
    assert q.synergy == o.player.synergy;
  }

  /** Synergy: the chosen card's tag gains exactly one stack; the other tags keep theirs. */
  lemma ResolveSynergy(p: Player, card: Card, m: real, draw: real, u: Tag)
    ensures Stack(Resolve(p, card, m, draw).synergy, u)
            == Stack(p.synergy, u) + (if card.synergy == Some(u) then 1 else 0)
  {
    EffectsSynergy(p, card, m, draw);
  }

  /** The synergy step's extra HP cost: only for BLOOD, 0 below two stacks, never above 8. */
  lemma SynergyPenalty(p: Player, card: Card, d: int)
    ensures var o := SynergyOutcome(p, card, d);
      && 0 <= d - o.hpChange <= C.SynergyBloodHpPenaltyMax
      && (card.synergy != Some(Blood) ==> o.hpChange == d)
      && (Stack(p.synergy, Blood) + 1 < C.SynergyBloodThreshold ==> o.hpChange == d)
  {
  }

  // ----- Score -----

  /** Steps 2-9 never touch the score: it is decided by the path alone. */
  lemma ResolveScore(p: Player, card: Card, m: real, draw: real)
    ensures var q := Resolve(p, card, m, draw);
      q.score == (if IsGamble(card) then GambleOutcome(p, card, m, draw) else NormalOutcome(p, card, m)).player.score
  {
  }

  /** A normal card adds floor(score * m), with no clamp: a negative card score lowers the score. */
  lemma NormalScore(p: Player, card: Card, m: real, draw: real)
    requires !IsGamble(card)
    ensures Resolve(p, card, m, draw).score == p.score + (card.score as real * m).Floor
    ensures card.score >= 0 && m >= 0.0 ==> Resolve(p, card, m, draw).score >= p.score
    ensures card.score < 0 && m > 0.0 ==> Resolve(p, card, m, draw).score < p.score
  {
    ResolveScore(p, card, m, draw);
    if card.score < 0 && m > 0.0 {
      assert card.score as real * m < 0.0;
    }
  }

  /** A won gamble: the score rises by floor(scoreWin * m) and the path itself costs no HP. */
  lemma GambleWon(p: Player, card: Card, m: real, draw: real)
    requires IsGamble(card)
    requires draw < AdjustedChance(p, card)
    ensures Resolve(p, card, m, draw).score == p.score + (card.gamble.value.scoreWin as real * m).Floor
    ensures GambleOutcome(p, card, m, draw).hpChange == 0
  {
    ResolveScore(p, card, m, draw);
  }

  /** A lost gamble: at least 10 HP from the path, and the score loses floor(round/12)
      but never drops below 0 (nor below where it was, if it already was negative). */
  lemma GambleLost(p: Player, card: Card, m: real, draw: real)
    requires IsGamble(card)
    requires draw >= AdjustedChance(p, card)
    ensures GambleOutcome(p, card, m, draw).hpChange <= -C.ChanceFailureMinHpLoss
    ensures var s := Resolve(p, card, m, draw).score;
      s == Max(0, p.score - p.round / C.ChanceFailureScorePenaltyDivisor)
      && s >= 0
      && (p.round >= 0 ==> s <= Max(0, p.score))
  {
    ResolveScore(p, card, m, draw);
  }

  /** The LUCK bonus only ever helps: more LUCK stacks never lower a LUCK card's chance. */
  lemma LuckRaisesChance(p: Player, card: Card, extra: nat)
    requires card.gamble.Some? && card.synergy == Some(Luck)
    ensures AdjustedChance(p, card)
            <= AdjustedChance(p.(synergy := p.synergy[Luck := Stack(p.synergy, Luck) + extra]), card)
  {
    var p' := p.(synergy := p.synergy[Luck := Stack(p.synergy, Luck) + extra]);
    assert Stack(p'.synergy, Luck) == Stack(p.synergy, Luck) + extra;
    assert Stack(p.synergy, Luck) as real * C.LuckChancePerStack
        <= Stack(p'.synergy, Luck) as real * C.LuckChancePerStack;
  }

  // ----- Normal path: heals and damage -----

  /** During the cooldown a heal card heals nothing and the cooldown is not restarted. */
  lemma HealOnCooldown(p: Player, card: Card, m: real)
    requires card.hp > 0
    requires p.round - p.lastHealRound < C.HealCooldownRounds
    ensures NormalOutcome(p, card, m).hpChange == 0
    ensures NormalOutcome(p, card, m).player.lastHealRound == p.lastHealRound
  {
  }

  /** Off cooldown a heal card heals max(0, hp - floor(round/70)) and restarts the cooldown. */
  lemma HealReadyHeals(p: Player, card: Card, m: real)
    requires card.hp > 0
    requires p.round - p.lastHealRound >= C.HealCooldownRounds
    ensures NormalOutcome(p, card, m).hpChange == Max(0, card.hp - p.round / C.HealRoundPenaltyDivisor)
    ensures p.round >= 0 ==> 0 <= NormalOutcome(p, card, m).hpChange <= card.hp
    ensures NormalOutcome(p, card, m).player.lastHealRound == p.round
  {
  }

  /** A damage-type card costs its hp plus floor(round/50): never less than its face value. */
  lemma DamageGrowsWithRound(p: Player, card: Card, m: real)
    requires card.hp <= 0
    requires p.round >= 0
    ensures NormalOutcome(p, card, m).hpChange == card.hp - p.round / C.BaseHpPenaltyDivisorNormal
    ensures NormalOutcome(p, card, m).hpChange <= card.hp
    ensures NormalOutcome(p, card, m).player.lastHealRound == p.lastHealRound
  {
  }

  // ----- Damage reduction -----

  /** A reduction is only ever in force in the round of the card that grants it:
      with no pending reduction and any other card, the change is not scaled. */
  lemma NoReductionWithoutItsCard(p: Player, card: Card, m: real, draw: real)
    requires p.tempDamageReduction == 0.0
    requires !card.effect.DamageReduction?
    ensures FinalChange(p, card, m, draw) == ClampChange(Effects(p, card, m, draw).hpChange)
  {
  }

  /** The card that grants a reduction has it applied to its own round's damage. */
  lemma ReductionSameRound(p: Player, card: Card, m: real, draw: real)
    requires card.effect.DamageReduction?
    requires 0.0 < card.effect.amount < 1.0
    ensures var d := Effects(p, card, m, draw).hpChange;
      && FinalChange(p, card, m, draw) == ClampChange(ReduceDamage(card.effect.amount, d))
      && (d < 0 ==> ClampChange(d) <= FinalChange(p, card, m, draw) <= -1)
  {
    var d := Effects(p, card, m, draw).hpChange;
    if d < 0 {
      var r := ReduceDamage(card.effect.amount, d);
      assert d <= r <= -1;
      ClampMonotone(d, r);
    }
  }

  lemma ClampMonotone(a: int, b: int)
    requires a <= b
    ensures ClampChange(a) <= ClampChange(b)
  {
  }

  // ----- Passive drain and immunity -----

  /** The drain is floor(round/50), as the per-100 scaling gives. */
  lemma PassiveDamageIsRoundOver50(round: int)
    ensures PassiveDamage(round) == round / 50
  {
    var x := (round as real / 100.0) * 2.0;
    assert x == round as real / 50.0;
    var q := round / 50;
    assert round == 50 * q + round % 50;
    assert q as real <= x < q as real + 1.0 by {
      assert round as real == 50.0 * q as real + (round % 50) as real;
    }
  }

  /** Before round 50 there is no drain at all; from round 50 on a due drain costs HP. */
  lemma DrainFromRound50(hp: int, round: int, immunity: int)
    requires 0 <= round
    ensures round < 50 ==> PassiveDrain(hp, round, immunity) == hp
    ensures round >= 50 && DrainDue(round, immunity) ==> PassiveDrain(hp, round, immunity) == Max(0, hp - round / 50)
  {
    PassiveDamageIsRoundOver50(round);
  }

  /** The immunity countdown: a card granting n rounds leaves n - 1 after its own round;
      otherwise a positive count drops by one and 0 stays 0. */
  lemma ImmunityCountdown(p: Player, card: Card, m: real, draw: real)
    ensures var q := Resolve(p, card, m, draw);
      var n := if card.effect.PassiveImmunity? then card.effect.rounds else p.passiveImmunityRounds;
      q.passiveImmunityRounds == (if n > 0 then n - 1 else n)
  {
  }

  /** While immune, no drain: the HP is that of the applied change alone. */
  lemma ImmuneNoDrain(p: Player, card: Card, m: real, draw: real)
    requires (if card.effect.PassiveImmunity? then card.effect.rounds else p.passiveImmunityRounds) > 0
    ensures Resolve(p, card, m, draw).hp
            == ApplyChange(Effects(p, card, m, draw).player.hp, FinalChange(p, card, m, draw))
  {
  }

  // ----- The preview -----

  /** The path change of step 1 is what the preview shows before its drain and clamp
      (for a gamble card: on a lost draw). */
  lemma PathMatchesPreview(p: Player, card: Card, m: real, draw: real)
    requires card.gamble.Some? ==> IsGamble(card) && draw >= AdjustedChance(p, card)
    ensures (if IsGamble(card) then GambleOutcome(p, card, m, draw) else NormalOutcome(p, card, m)).hpChange
            == PreviewBase(p, card)
  {
    if !card.gamble.Some? && card.hp > 0 && HealReady(p) {
      assert (card.hp as real * C.HealBaseMultiplier).Floor == card.hp;
    }
  }

  /** For a card with no BLOOD tag and no reduction or drain effect, the preview is exact:
      it shows the change that choosing the card applies (for a gamble card, the
      change on a lost draw). */
  lemma PreviewExact(p: Player, card: Card, m: real, draw: real)
    requires p.tempDamageReduction == 0.0
    requires card.synergy != Some(Blood)
    requires card.effect == NoEffect || card.effect.NextCardBoost? || card.effect.PassiveImmunity?
    requires card.gamble.Some? ==> IsGamble(card) && draw >= AdjustedChance(p, card)
    ensures DisplayedHpChange(p, card) == FinalChange(p, card, m, draw)
  {
    PathMatchesPreview(p, card, m, draw);
  }

  /** Without a reduction the preview is never below the change actually applied: the
      BLOOD penalties (and the drain of the incremented stack) only lower the real change. */
  lemma PreviewOptimistic(p: Player, card: Card, m: real, draw: real)
    requires p.tempDamageReduction == 0.0
    requires !card.effect.DamageReduction?
    requires card.gamble.Some? ==> IsGamble(card) && draw >= AdjustedChance(p, card)
    ensures FinalChange(p, card, m, draw) <= DisplayedHpChange(p, card)
  {
    var base := PreviewBase(p, card);
    var o1 := if IsGamble(card) then GambleOutcome(p, card, m, draw) else NormalOutcome(p, card, m);
    PathMatchesPreview(p, card, m, draw);
    var o2 := SynergyOutcome(o1.player, card, o1.hpChange);
    assert o2.hpChange <= base;
    var shown := if card.effect == BloodDrainSynergy then base - BloodDrain(Stack(p.synergy, Blood)) else base;
    var o3 := Effects(p, card, m, draw);
    assert o3 == SpecialOutcome(o2.player, card, o2.hpChange);
    assert o3.hpChange <= shown by {
      if card.effect == BloodDrainSynergy {
        assert Stack(p.synergy, Blood) <= Stack(o2.player.synergy, Blood);
      }
    }
    assert o3.player.tempDamageReduction == 0.0;
    ClampMonotone(o3.hpChange, shown);
  }

  /** With the reduction card the preview is never above the change actually applied:
      the real loss is the previewed one, scaled down. */
  lemma PreviewPessimisticUnderReduction(p: Player, card: Card, m: real, draw: real)
    requires card.effect.DamageReduction? && 0.0 < card.effect.amount < 1.0
    requires !card.gamble.Some?
    requires card.synergy != Some(Blood)
    ensures DisplayedHpChange(p, card) <= FinalChange(p, card, m, draw)
  {
    PathMatchesPreview(p, card, m, draw);
    var d := Effects(p, card, m, draw).hpChange;
    assert DisplayedHpChange(p, card) == ClampChange(d);
    ReductionSameRound(p, card, m, draw);
    if d >= 0 {
      assert ReduceDamage(card.effect.amount, d) == d;
    }
  }

  // ----- Worked rounds -----

  /** A fresh game, "불타는 일격" at any multiplier in [1, 1.025) (the round-1
      multiplier 1 + (1/300)^1.5 is one): score 40, HP 92, round 2, one FIRE stack. */
  lemma FireStrikeFromStart(m: real, draw: real)
    requires 1.0 <= m < 1.025
    ensures var q := Resolve(Initial(), Catalog[0], m, draw);
      q.score == 40 && q.hp == 92 && q.round == 2 && Stack(q.synergy, Fire) == 1
  {
    assert 40.0 <= 40 as real * m < 41.0;
  }

  /** The score is not clamped at 0: "방어 태세" takes a fresh game's score to -5 at
      multiplier 1, and to -6 at any multiplier in (1, 1.2], which holds the round-1
      multiplier 1 + (1/300)^1.5. */
  lemma ScoreCanGoNegative(m: real, draw: real)
    requires 1.0 <= m <= 1.2
    ensures Resolve(Initial(), Catalog[6], m, draw).score == (if m == 1.0 then -5 else -6)
  {
    assert -6.0 <= -5 as real * m <= -5.0;
    assert m > 1.0 ==> -5 as real * m < -5.0;
  }
}
