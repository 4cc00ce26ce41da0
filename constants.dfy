/** The tuning knobs of the game (GAME_CONSTANTS and the few literals the
    resolution code writes inline). Fractional knobs are exact rationals. */
module Constants {
  // DIFFICULTY
  const ChanceAdjust: real := 0.15
  const PassiveEveryRounds: int := 10
  const PassiveAmountBase: int := 0
  const PassiveScalingPer100: int := 2
  const HealCooldownRounds: int := 5
  const MaxHpCap: int := 100

  const CardDrawCount: int := 3
  const ChanceMinAdjusted: real := 0.15
  const ChanceFailureHpPenaltyMultiplier: real := 0.8
  const ChanceFailureMinHpLoss: int := 10
  const ChanceFailureScorePenaltyDivisor: int := 12
  const HealBaseMultiplier: real := 1.0
  const HealRoundPenaltyDivisor: int := 70
  const HpChangeMaxPositive: int := 25
  const HpChangeMaxNegative: int := -30
  const SynergyBloodThreshold: int := 2
  const SynergyBloodHpPenaltyPerStack: int := 1
  const SynergyBloodHpPenaltyMax: int := 8
  const BaseHpPenaltyDivisorNormal: int := 50
  const BaseHpPenaltyDivisorChance: int := 20

  // Literals written inline in the resolution code
  /** Success chance added per LUCK stack to a LUCK gamble card. */
  const LuckChancePerStack: real := 0.03
  /** The adjusted chance loses round / ChanceRoundDivisor. */
  const ChanceRoundDivisor: real := 600.0
  /** HP drained per BLOOD stack by the blood-drain effect. */
  const BloodDrainPerStack: int := 2
}
