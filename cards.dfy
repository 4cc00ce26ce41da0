/** The card catalog: what a card is, and the twelve cards the game deals from. */
module Cards {

  datatype Option<T> = None | Some(value: T)

  /** Synergy tags; a card carries at most one. */
  datatype Tag = Fire | Mind | Blood | Luck

  /** The gamble fields of a chance card. */
  datatype Gamble = Gamble(chance: real, scoreWin: int, hpLose: int)

  /** A pending draw boost: cards of `tag` get their weight multiplied by `amount`. */
  datatype Boost = Boost(tag: Tag, amount: real)

  /** The special effect a card may carry (the `effect` string and its companion fields). */
  datatype Effect =
    | NoEffect
    | DamageReduction(amount: real)
    | NextCardBoost(boostType: Tag, boostAmount: real)
    | PassiveImmunity(rounds: int)
    | BloodDrainSynergy

  datatype Card = Card(
    name: string,
    score: int,
    hp: int,
    gamble: Option<Gamble>,
    synergy: Option<Tag>,
    weight: int,
    effect: Effect)

  /** The resolver takes the gamble path when the card's chance is present and
      truthy, i.e. present and not zero. */
  predicate IsGamble(c: Card) {
    c.gamble.Some? && c.gamble.value.chance != 0.0
  }

  /** What every catalog card satisfies: a positive weight, a chance in [0,1],
      a non-negative loss, a reduction strictly between 0 and 1, a positive
      boost and a non-negative immunity. */
  predicate WellFormed(c: Card) {
    && c.weight > 0
    && (c.gamble.Some? ==> 0.0 <= c.gamble.value.chance <= 1.0 && c.gamble.value.hpLose >= 0)
    && (c.effect.DamageReduction? ==> 0.0 < c.effect.amount < 1.0)
    && (c.effect.NextCardBoost? ==> c.effect.boostAmount > 0.0)
    && (c.effect.PassiveImmunity? ==> c.effect.rounds >= 0)
  }

  function Plain(name: string, score: int, hp: int, tag: Tag, weight: int): Card {
    Card(name, score, hp, None, Some(tag), weight, NoEffect)
  }

  /** cardDefinitions, without the display descriptions. */
  const Catalog: seq<Card> := [
    Plain("불타는 일격", 40, -8, Fire, 8),
    Plain("집중 명상", 8, 12, Mind, 15),
    Card("도박사", 0, 0, Some(Gamble(0.6, 100, 20)), Some(Luck), 10, NoEffect),
    Plain("계약서", 25, -12, Blood, 8),
    Plain("행운의 부적", 5, 0, Luck, 10),
    Plain("냉정한 판단", 10, 6, Mind, 12),
    Card("방어 태세", -5, 0, None, Some(Mind), 8, DamageReduction(0.6)),
    Card("피의 대가", 50, -20, None, Some(Blood), 6, NextCardBoost(Blood, 1.8)),
    Card("시간 왜곡", 0, 0, None, Some(Mind), 5, PassiveImmunity(4)),
    Card("기회 포착", 10, 0, Some(Gamble(0.75, 40, 8)), Some(Luck), 10, NoEffect),
    Card("생명력 흡수", 15, 5, None, Some(Blood), 12, BloodDrainSynergy),
    Card("성찰", 0, 8, None, Some(Mind), 10, NextCardBoost(Mind, 1.5))
  ]

  lemma CatalogWellFormed()
    ensures |Catalog| == 12
    ensures forall c :: c in Catalog ==> WellFormed(c)
  {
  }
}
