/** The mutable game state of game.js: the `player` record, updated field by field
    by selectCard and its helpers, and the best score. Every method is proved to
    leave the record equal to the corresponding function of Resolution. */
module Session {
  import opened Cards
  import opened Resolution
  import C = Constants
  import RoundFacts
  import Sampler

  /** Resolve is Settle applied to what steps 1-3 produce. */
  lemma SettleAfterEffects(p: Player, card: Card, m: real, draw: real, s: Player, d: int)
    requires Outcome(s, d) == Effects(p, card, m, draw)
    ensures Resolve(p, card, m, draw) == Settle(s, d)
  {
  }

  class Game {
    var score: int
    var hp: int
    var round: int
    var synergy: map<Tag, nat>
    var lastHealRound: int
    var tempDamageReduction: real
    var nextCardBoost: Option<Boost>
    var passiveImmunityRounds: int
    /** The best score; its persistence is outside this model. */
    var bestScore: int

    /** The `player` record as a value. */
    ghost function State(): Player
      reads this
    {
      Player(score, hp, round, synergy, lastHealRound, tempDamageReduction, nextCardBoost, passiveImmunityRounds)
    }

    ghost predicate Valid()
      reads this
    {
      Inv(State())
    }

    /** Start-up: the initial record, and the best score read from storage. */
    constructor (storedBest: int)
      ensures Valid()
      ensures State() == Initial() && bestScore == storedBest
    {
      score, hp, round := 0, C.MaxHpCap, 1;
      synergy := map[Fire := 0, Mind := 0, Blood := 0, Luck := 0];
      lastHealRound := -C.HealCooldownRounds;
      tempDamageReduction, nextCardBoost, passiveImmunityRounds := 0.0, None, 0;
      bestScore := storedBest;
    }

    /** resetGame: a fresh record; the best score is kept. */
    method Reset()
      modifies this
      ensures Valid()
      ensures State() == Initial() && bestScore == old(bestScore)
    {
      score, hp, round := 0, C.MaxHpCap, 1;
      synergy := map[Fire := 0, Mind := 0, Blood := 0, Luck := 0];
      lastHealRound := -C.HealCooldownRounds;
      tempDamageReduction, nextCardBoost, passiveImmunityRounds := 0.0, None, 0;
    }

    /** handleChanceCard: the gamble path. Only the score changes. */
    method HandleChanceCard(card: Card, m: real, draw: real) returns (hpChange: int)
      requires card.gamble.Some?
      modifies this`score
      ensures var o := GambleOutcome(old(State()), card, m, draw);
        State() == o.player && hpChange == o.hpChange
    {
      var g := card.gamble.value;
      var baseChance := g.chance;
      if card.synergy == Some(Luck) && Stack(synergy, Luck) > 0 {
        baseChance := baseChance + Stack(synergy, Luck) as real * C.LuckChancePerStack;
      }
      var adjustedChance := MaxReal(C.ChanceMinAdjusted,
                                    baseChance + C.ChanceAdjust - round as real / C.ChanceRoundDivisor);
      if draw < adjustedChance {
        score := score + (g.scoreWin as real * m).Floor;
        hpChange := 0;
      } else {
        var hpLoss := -Max(C.ChanceFailureMinHpLoss,
                           (g.hpLose as real * C.ChanceFailureHpPenaltyMultiplier
                            + round as real / C.BaseHpPenaltyDivisorChance as real).Floor);
        score := Max(0, score - round / C.ChanceFailureScorePenaltyDivisor);
        hpChange := hpLoss;
      }
    }

    /** applyNormalCardEffects: the normal path. The score and the heal cooldown change. */
    method ApplyNormalCardEffects(card: Card, m: real) returns (hpChange: int)
      modifies this`score, this`lastHealRound
      ensures var o := NormalOutcome(old(State()), card, m);
        State() == o.player && hpChange == o.hpChange
    {
      hpChange := 0;
      score := score + (card.score as real * m).Floor;
      if card.hp > 0 {
        var canHeal := round - lastHealRound >= C.HealCooldownRounds;
        if canHeal {
          var baseHeal := Max(0, (card.hp as real * C.HealBaseMultiplier).Floor);
          var roundPenalty := round / C.HealRoundPenaltyDivisor;
          hpChange := Max(0, baseHeal - roundPenalty);
          lastHealRound := round;
        } else {
          hpChange := 0;
        }
      } else {
        hpChange := card.hp - round / C.BaseHpPenaltyDivisorNormal;
      }
    }

    /** applySynergyEffects: one more stack of the card's tag, and the BLOOD penalty. */
    method ApplySynergyEffects(card: Card, currentHpChange: int) returns (hpEffect: int)
      modifies this`synergy
      ensures var o := SynergyOutcome(old(State()), card, currentHpChange);
        State() == o.player && hpEffect == o.hpChange
    {
      hpEffect := currentHpChange;
      if card.synergy.Some? {
        var t := card.synergy.value;
        synergy := synergy[t := Stack(synergy, t) + 1];
        if t == Blood && Stack(synergy, Blood) >= C.SynergyBloodThreshold {
          hpEffect := hpEffect - Min(C.SynergyBloodHpPenaltyMax,
                                     Stack(synergy, Blood) * C.SynergyBloodHpPenaltyPerStack);
        }
      }
    }

    /** applySpecialCardEffects: sets a modifier, or drains per BLOOD stack. */
    method ApplySpecialCardEffects(card: Card, currentHpChange: int) returns (hpEffect: int)
      modifies this`tempDamageReduction, this`nextCardBoost, this`passiveImmunityRounds
      ensures var o := SpecialOutcome(old(State()), card, currentHpChange);
        State() == o.player && hpEffect == o.hpChange
    {
      hpEffect := currentHpChange;
      match card.effect {
        case NoEffect =>
        case DamageReduction(amount) =>
          tempDamageReduction := amount;
        case NextCardBoost(boostType, boostAmount) =>
          nextCardBoost := Some(Boost(boostType, boostAmount));
        case PassiveImmunity(rounds) =>
          passiveImmunityRounds := rounds;
        case BloodDrainSynergy =>
          var blood := Stack(synergy, Blood);
          var bloodSynergyDrain := if blood > 0 then blood * C.BloodDrainPerStack else 0;
          hpEffect := hpEffect - bloodSynergyDrain;
      }
    }

    /** checkGameOver: at 0 HP the game is over and is reset. */
    method CheckGameOver() returns (gameOver: bool)
      modifies this
      ensures gameOver == (old(hp) <= 0)
      ensures State() == (if gameOver then Initial() else old(State()))
      ensures bestScore == old(bestScore)
    {
      gameOver := hp <= 0;
      if gameOver {
        Reset();
      }
    }

    /** The reduction and clamp steps of selectCard: a pending reduction scales a loss,
        the change is clamped, and HP moves by it within [0, maxHpCap]. */
    method ApplyHpChange(change: int)
      modifies this`hp
      ensures hp == ApplyChange(old(hp), AppliedChange(old(State()), change))
    {
      var finalHpChange := change;
      if tempDamageReduction > 0.0 && finalHpChange < 0 {
        finalHpChange := (finalHpChange as real * (1.0 - tempDamageReduction)).Floor;
      }
      finalHpChange := Min(C.HpChangeMaxPositive, finalHpChange);
      finalHpChange := Max(C.HpChangeMaxNegative, finalHpChange);

      hp := hp + finalHpChange;
      hp := Min(hp, C.MaxHpCap);
      hp := Max(0, hp);
    }

    /** The end-of-round steps of selectCard: next round, best score, passive drain, decay. */
    method EndRound()
      modifies this`round, this`bestScore, this`hp, this`tempDamageReduction,
               this`nextCardBoost, this`passiveImmunityRounds
      ensures State() == EndOfRound(old(State()))
      ensures bestScore == Max(old(bestScore), score)
    {
      round := round + 1;
      if score > bestScore {
        bestScore := score;
      }

      if passiveImmunityRounds <= 0 && round % C.PassiveEveryRounds == 0 {
        var scale := ((round as real / 100.0) * C.PassiveScalingPer100 as real).Floor;
        var passiveDamage := C.PassiveAmountBase + scale;
        if passiveDamage > 0 {
          hp := hp - passiveDamage;
          hp := Max(0, hp);
        }
      }

      tempDamageReduction := 0.0;
      nextCardBoost := None;
      if passiveImmunityRounds > 0 {
        passiveImmunityRounds := passiveImmunityRounds - 1;
      }
    }

    /** The state-update body of selectCard: one resolved round. */
    method ResolveRound(card: Card, m: real, draw: real)
      modifies this
      ensures State() == Resolve(old(State()), card, m, draw)
      ensures bestScore == Max(old(bestScore), State().score)
    {
      ghost var p := State();
      var finalHpChange := 0;
      if IsGamble(card) {
        finalHpChange := HandleChanceCard(card, m, draw);
      } else {
        finalHpChange := ApplyNormalCardEffects(card, m);
      }
      finalHpChange := ApplySynergyEffects(card, finalHpChange);
      finalHpChange := ApplySpecialCardEffects(card, finalHpChange);
      ghost var s := State();
      assert Outcome(s, finalHpChange) == Effects(p, card, m, draw);
      ApplyHpChange(finalHpChange);
      EndRound();
      assert State() == Settle(s, finalHpChange);
      SettleAfterEffects(p, card, m, draw, s, finalHpChange);
    }

    /** The hand createCards deals (weightedSample(CARD_DRAW_COUNT) on the current
        record): between rounds no boost is pending, so the hand is drawn from the
        unboosted pool, and it always holds three distinct catalog cards. */
    method DealHand(js: seq<int>) returns (hand: seq<Card>)
      requires Valid()
      requires Sampler.ValidDraws(js, |Sampler.Pool(Catalog, nextCardBoost)|)
      ensures hand == Sampler.Sample(Catalog, None, C.CardDrawCount, js)
      ensures |hand| == C.CardDrawCount && Sampler.DistinctNames(hand)
      ensures forall c :: c in hand ==> c in Catalog
    {
      hand := Sampler.WeightedSample(Catalog, nextCardBoost, C.CardDrawCount, js);
      Sampler.CatalogDealsFullHand(nextCardBoost);
    }

    /** selectCard: resolve one round with the chosen card, then check for game over. */
    method SelectCard(card: Card, m: real, draw: real) returns (gameOver: bool)
      requires Valid()
      requires WellFormed(card)
      modifies this
      ensures Valid()
      ensures var q := Resolve(old(State()), card, m, draw);
        && gameOver == (q.hp == 0)
        && State() == (if gameOver then Initial() else q)
      ensures bestScore == Max(old(bestScore), Resolve(old(State()), card, m, draw).score)
    {
      ghost var p := State();
      ResolveRound(card, m, draw);
      RoundFacts.ResolvePreservesInv(p, card, m, draw);
      gameOver := CheckGameOver();
    }
  }
}
