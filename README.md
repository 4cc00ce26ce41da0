# Card roguelike round engine, in Dafny

A model of the state logic of `game.js`, a single-page card game. Each round the
player is dealt three distinct cards drawn from a weighted pool. Choosing one
resolves the round against one mutable `player` record: score, hp, round, four
synergy stacks (FIRE, MIND, BLOOD, LUCK), the heal cooldown, and three transient
modifiers (a damage reduction, a boost for the next draw, and passive-drain
immunity).

Files:

- `constants.dfy` (module `Constants`): `GAME_CONSTANTS`, plus the literals written
  inline in the code (0.03 per LUCK stack, `round / 600`, 2 HP per BLOOD stack).
- `cards.dfy` (module `Cards`): the card datatype and the twelve `cardDefinitions`
  as `Catalog`.
- `resolution.dfy` (module `Resolution`): the record as a value.
  - One function per step of `selectCard`.
  - The whole round as `Resolve`.
  - The HP preview as `DisplayedHpChange`.
- `round_facts.dfy` (module `RoundFacts`): what one resolved round promises,
  stated as lemmas over those functions.
- `game.dfy` (module `Session`): the class `Game`.
  - Its fields are the record plus the best score.
  - Its methods update the fields in place, as the JavaScript helpers do.
  - Each method is proved to leave the record equal to the matching function of
    `Resolution`.
- `sampler.dfy` (module `Sampler`): `weightedSample` as three loops.
  - The push loops build the pool.
  - An in-place Fisher-Yates swap loop shuffles an array.
  - A scan takes the first card of each name.
  - Each loop is proved against a recursive function, and the hand is
    characterised by lemmas.

Randomness is an input:

- `draw` is the value `Math.random()` returns for a gamble.
- `js[i]` is the index the shuffle draws at position `i`.
- `m` is the round multiplier, passed in as a parameter.

Integers are unbounded. The fractional constants are exact `real`s. JavaScript's
`Math.floor` of a real is `.Floor`. `Math.floor(a / k)` for a positive integer `k`
is Dafny's `a / k`, which rounds toward negative infinity like `Math.floor`.

Where the code behaves otherwise than one might expect, the model follows the code:

- The score is not clamped at 0. The normal path adds `floor(score * m)`, and
  "방어 태세" has score -5. At the round-1 multiplier, just above 1, that takes a
  fresh game's score to -6 (`ScoreCanGoNegative`). Only a lost gamble clamps at 0.
- `checkGameOver` resets the game as soon as HP reaches 0. The best score has
  already been updated by then.
- A damage reduction is set, used and cleared within the round of the card that
  grants it. It never protects a later round.
- `nextCardBoost` is cleared at the end of `selectCard`, before the next hand is
  dealt. The hand is therefore always drawn from the unboosted pool
  (`Session.Game.DealHand`). The sampler still takes the boost as a parameter.
- A fractional effective weight gives `ceil(weight)` copies in the pool (`Sampler.Copies`).
- The preview reads the BLOOD stack before the synergy step increments it, and it
  ignores the synergy step's BLOOD penalty. So, with no reduction involved and for a
  gamble card on a lost draw, the preview is never lower than the change applied
  (`RoundFacts.PreviewOptimistic`). It can be higher only once the BLOOD penalty
  applies (two or more BLOOD stacks) or for the drain of "생명력 흡수"; the other BLOOD
  cards on their first stack preview exactly the change applied. A won gamble applies no path loss, while its preview shows the loss.

## Model

| member | source | states |
|---|---|---|
| Cards.CatalogWellFormed | game.js:48-86 | the catalog holds twelve cards, each with a positive weight, a gamble chance in [0, 1], a non-negative gamble loss, a reduction strictly between 0 and 1, a positive boost and non-negative immunity |
| Resolution.Initial | game.js:35-44 | the initial record (score 0, hp 100, round 1, all stacks 0, lastHealRound -5, no modifiers) satisfies the between-rounds invariant |
| Resolution.AdjustedChance | game.js:159-165 | a gamble's success chance is never below 0.15, and never below chance + 0.15 - round/600 |
| Resolution.BloodPenalty | game.js:205-208 | the extra BLOOD cost is 0 below two stacks, min(8, stacks) from two on, and always within [0, 8] |
| Resolution.ReduceDamage | game.js:296-299 | a reduction only touches a negative change; with a reduction in (0, 1) a loss d becomes a value in [d, -1], so damage is never enlarged nor turned into a heal |
| Resolution.ClampChange | game.js:301-303 | the round's change lies in [-30, 25]; it is unchanged inside that range and saturates outside it |
| Resolution.ApplyChange | game.js:305-307 | HP after the change lies in [0, 100], and is exactly hp + d when that is in range |
| Resolution.PassiveDrain | game.js:315-325 | the drain never raises HP nor takes it below 0; it does nothing unless the round is a multiple of 10 with no immunity; when due and positive, HP becomes max(0, hp - drain) |
| Resolution.AppliedChange | game.js:296-303 | the change applied to HP, after reduction and clamp, lies in [-30, 25] |
| Resolution.FinalChange | game.js:284-303 | for any card and draw, the change applied in a round lies in [-30, 25] |
| Resolution.EndOfRound | game.js:309-331 | the round advances by exactly 1, HP never rises and stays non-negative, and the reduction and boost are cleared |
| Resolution.Settle | game.js:296-331 | after steps 4-9, HP is in [0, 100], the round has advanced by 1 and no modifier is pending |
| Resolution.Resolve | game.js:284-331 | after a whole round, with any card and any draw, passive drain included, HP is in [0, 100], the round has advanced by exactly 1, and the reduction and boost are cleared |
| Resolution.DisplayedHpChange | game.js:238-275 | the HP change shown on a card lies in [-30, 25] |
| RoundFacts.EffectsSynergy | game.js:200-211 | of steps 1-3, only the synergy step changes the synergy map: the card's tag gains one stack |
| RoundFacts.ResolvePreservesInv | game.js:284-331 | HP in [0, 100], round >= 1, the four stacks, cooldown in the past, immunity >= 0 and no pending modifier: all of these survive every well-formed card and every draw |
| RoundFacts.ResolveSynergy | game.js:202-203 | the chosen card's tag gains exactly one stack; every other tag keeps its stack |
| RoundFacts.SynergyPenalty | game.js:200-211 | the synergy step lowers the change by between 0 and 8; only a BLOOD card lowers it, and not below two stacks |
| RoundFacts.ResolveScore | game.js:284-331 | the round's score is the path's score: steps 2-9 never touch it |
| RoundFacts.NormalScore | game.js:181 | a normal card adds floor(score * m) with no clamp; a non-negative card score never lowers the score and a negative one always lowers it |
| RoundFacts.GambleWon | game.js:167-169 | a won gamble adds floor(scoreWin * m), and its path costs no HP |
| RoundFacts.GambleLost | game.js:170-175 | a lost gamble costs at least 10 HP; the score becomes max(0, score - floor(round/12)), which is never negative and never above the old score or 0 |
| RoundFacts.LuckRaisesChance | game.js:161-165 | more LUCK stacks never lower a LUCK gamble's success chance |
| RoundFacts.HealOnCooldown | game.js:183-192 | during the cooldown a heal card heals 0 and leaves lastHealRound unchanged |
| RoundFacts.HealReadyHeals | game.js:183-189 | off cooldown a heal card heals max(0, hp - floor(round/70)), which lies in [0, hp] from round 0 on, and restarts the cooldown at the current round |
| RoundFacts.DamageGrowsWithRound | game.js:193-196 | a card with hp <= 0 changes HP by hp - floor(round/50), never more than its face value, and leaves the cooldown alone |
| RoundFacts.NoReductionWithoutItsCard | game.js:296-299 | with no pending reduction, no card other than the reduction card has its change scaled |
| RoundFacts.ReductionSameRound | game.js:217-218 | the reduction card's own round is scaled by its amount, so its loss ends between the clamped raw loss and -1 |
| RoundFacts.ClampMonotone | game.js:301-303 | the clamp preserves order |
| RoundFacts.PassiveDamageIsRoundOver50 | game.js:317-318 | the passive drain amount equals floor(round/50) |
| RoundFacts.DrainFromRound50 | game.js:315-325 | before round 50 there is no drain; from round 50, a due drain takes floor(round/50) HP, stopping at 0 |
| RoundFacts.ImmunityCountdown | game.js:223-224 | after a round, immunity is the granted or current count, less 1 when positive |
| RoundFacts.ImmuneNoDrain | game.js:315-316 | while immune, the round's HP is the applied change alone, with no drain |
| RoundFacts.PathMatchesPreview | game.js:243-261 | the preview's path part equals the HP change of step 1; for a gamble card it is the change on a lost draw |
| RoundFacts.PreviewExact | game.js:238-275 | for a card with no BLOOD tag and no reduction or drain effect, and with no reduction pending, the preview equals the change applied |
| RoundFacts.PreviewOptimistic | game.js:263-268 | with no reduction involved, and for a gamble card on a lost draw, the preview is never below the change applied |
| RoundFacts.PreviewPessimisticUnderReduction | game.js:217-218 | for the reduction card, the preview is never above the change applied |
| RoundFacts.FireStrikeFromStart | game.js:50 | a fresh game with "불타는 일격", at any multiplier in [1, 1.025) (the round-1 multiplier among them), ends at score 40, HP 92, round 2 and one FIRE stack |
| RoundFacts.ScoreCanGoNegative | game.js:68 | "방어 태세" takes a fresh game's score to -5 at multiplier 1, and to -6 at any multiplier in (1, 1.2], which holds the round-1 multiplier |
| Session.Game.constructor | game.js:35-45 | the game starts with the initial record and the stored best score |
| Session.Game.Reset | game.js:396-406 | resetGame restores the initial record, whatever the record was, so resetting twice equals resetting once; the best score is untouched |
| Session.Game.HandleChanceCard | game.js:157-177 | the gamble path: only the score changes, as GambleOutcome says |
| Session.Game.ApplyNormalCardEffects | game.js:179-198 | the normal path: only score and lastHealRound change, as NormalOutcome says |
| Session.Game.ApplySynergyEffects | game.js:200-211 | only the synergy map changes, as SynergyOutcome says |
| Session.Game.ApplySpecialCardEffects | game.js:213-234 | only the three modifiers change, as SpecialOutcome says |
| Session.Game.CheckGameOver | game.js:120-125 | the game is over exactly when HP <= 0, and the record is then reset; the best score is kept |
| Session.Game.ApplyHpChange | game.js:296-307 | HP becomes ApplyChange(hp, AppliedChange(record, change)) |
| Session.Game.EndRound | game.js:309-331 | the record becomes EndOfRound of the old record; the best score becomes max(old best, score) |
| Session.Game.ResolveRound | game.js:284-331 | the record becomes Resolve of the old record; the best score becomes max(old best, new score) |
| Session.Game.SelectCard | game.js:284-334 | the invariant is kept; the game is over exactly when the resolved HP is 0, and then the record is the initial one, otherwise the resolved record; the best score never decreases |
| Session.Game.DealHand | game.js:357 | the hand dealt between rounds is the unboosted sample, holding exactly three catalog cards with distinct names |
| Sampler.Copies | game.js:135-137 | the push loop runs the least natural number of times that is not below the weight |
| Sampler.PushCopies | game.js:135-137 | the inner push loop appends Copies(w) copies of the card |
| Sampler.BuildPool | game.js:129-138 | the push loops build exactly Pool(cards, boost) |
| Sampler.PoolMembers | game.js:129-138 | a card is in the pool if and only if it is in the catalog with a positive effective weight |
| Sampler.PoolNames | game.js:129-138 | the pool's names are exactly the drawable names |
| Sampler.FisherYatesPermutes | game.js:140-143 | the swap loop keeps the length and the multiset of the pool |
| Sampler.Shuffle | game.js:140-143 | the in-place swap loop leaves the array equal to FisherYates of its old contents, and a permutation of them |
| Sampler.PickSpec | game.js:145-153 | the scan keeps names distinct and only extends the hand with pool cards; it stops at n; if it stops short, every name left in the pool is already in the hand |
| Sampler.PickFills | game.js:145-153 | the scan fills the hand when the pool holds at least n names |
| Sampler.PickDistinct | game.js:145-153 | the scan loop computes Pick over the shuffled array |
| Sampler.SampleMember | game.js:127-155 | every card of a hand is a catalog card with positive effective weight |
| Sampler.SampleMembers | game.js:127-155 | every card of a hand is a catalog card with positive effective weight |
| Sampler.SampleFull | game.js:127-155 | the hand holds exactly n cards when n names are drawable |
| Sampler.SampleSpec | game.js:127-155 | for any shuffle, the hand has at most n cards, pairwise distinct names and only drawable catalog cards, and exactly n cards when n names are drawable |
| Sampler.WeightedSample | game.js:127-155 | the three loops compute Sample(cards, boost, n, js); the hand has the properties of SampleSpec |
| Sampler.CatalogDealsFullHand | game.js:48-86 | under no boost or any positive boost, at least three names in the catalog are drawable |

## Left out

- Rendering and event wiring are not modelled: `updateHUD`, the DOM part of `createCards`, `getCardColor`, the listeners and the highlight timer (game.js:99-118, 278-282, 343-394). They hold no state logic.
- `localStorage` (game.js:45, 312) is not modelled. The best score is a field, and its stored value is a constructor parameter.
- The `alert` calls (game.js:122, 336-338) are not modelled, including the round-100 message. They are output only.
- `Math.random` is not modelled. It is replaced by the inputs `draw` and `js`. The model does not state that the distribution of hands is proportional to the weights.
- `calculateRoundMultiplier` (game.js:93-97) uses a floating-point power. It is the parameter `m`.
- IEEE doubles are idealised as exact rationals: 0.03, 0.6, 0.8, 1.5, 1.8, `round / 600` and the other fractional terms.
- Card descriptions, `CARD_HIGHLIGHT_DURATION` and the other display-only constants are not modelled.
- The card text the preview feeds into (`metaText`, game.js:363-376) is not modelled. Only the HP value it shows is.
- Sampler.WeightedSample: builds the pool as a `seq` and copies it into an `array` before the shuffle. The JavaScript grows one array in place. Aliasing of that array does not arise in the code.
