# Sentinel-7 game core in Dafny

This project models the game core of Sentinel-7, a Telegram role-playing bot.

Players are guardians stored in a document store:

- **Hacking.** A player hacks for artifacts. A hack spends energy, has a cooldown and a success chance that grows with the level. It earns experience and can raise the level.
- **Soul.** A player has a soul of 0 to 100. It drains when they lose fights or stay idle, and it can be restored. When it reaches 0 the player dies. If a player who lists them as a twin (a shadow) exists, that player receives a resurrection request. Otherwise the player dies permanently: they go to the hall of fame and are reset.
- **PvP arena.** Players queue for duels, attack in turns, and settle their rating, stars and soul. At the end of a season the top players of each league band are paid.
- **Twins.** Every newcomer is linked as the shadow of an existing original, or of a virtual one. Hacks flow between the two through experience shares and energy bonuses. The bond strength becomes a feeling.
- **Visuals.** This covers the daily quota of AI images, the gallery of artifacts with images, and the soul bar.

The store is the class `Records.Database`. It has three fields:

- `players` is a map from Telegram id to player record;
- `hallOfFame` is the archive of the fallen;
- `artifacts` is the list of artifacts.

Each service of the source is a class holding that database. Its methods modify `db` and state the new store as a function of the old one. Those functions are proved to keep the game's promises.

## Units and inputs

Units:

- Experience is kept in tenths of a point. A successful hack gives 20 plus a tenth of the artifact's value, which is not a whole number.
- Bond strength is kept in thousandths.
- Chances are integers: the rarity roll is in hundredths and the hack's success roll in thousandths.

Inputs that become parameters:

- the clock: `now`, and today's midnight in `CheckGenerationLimit`;
- random numbers: the rolls of a hack, the pick among twin candidates, the virtual original's rolls, the PvP coin, damage, crit and memory-strike rolls;
- the store's fresh ids: an artifact id, and a match counter.

## Model

| member | source | states |
|---|---|---|
| Config.LeaguesContiguous | config.ts:198-253 | The league bands start at 0, are non-empty, each begins right after the previous one ends, and the last ends at 9999 |
| Config.BandsAscending | config.ts:198-253 | In a contiguous table every band lies wholly below every later band |
| Config.BandsDisjoint | config.ts:198-253 | No rating lies in two different bands of a contiguous table |
| Config.BandsCover | config.ts:198-253 | Every rating from 0 to the top of the last band lies in some band |
| Config.LevelsWellFormed | config.ts:172-183 | The level table lists levels 1..10 in order, the first needing no experience, with strictly rising thresholds and energy caps that never fall |
| Config.ThresholdsAscending | config.ts:172-183 | Between any two rows of the level table, the later needs more experience and has at least the same energy cap |
| Config.ConstantsConsistent | config.ts:165-171 | The rarity chances add up to 100%, resurrection costs no more than a full soul, half a soul is 50, and the damage range is positive |
| Records.Percent | soul.ts:35 | `Math.round(part / whole * 100)` for a positive whole: twice the result is within one of 200·part/whole |
| Records.PercentOfNothing | soul.ts:35 | Nothing of a positive whole is 0% |
| Records.PercentOfWhole | soul.ts:35 | All of a positive whole is 100% |
| Records.Pushed | soul.ts:55-62 | The store's `$push` appends the entry, creating the history when it is missing |
| Records.PushedIfPresent | pvp.ts:257-262 | `history?.push` appends the entry when the history exists and leaves it missing otherwise |
| Records.OriginalOf | soul.ts:113-115 | The player whose twins list names the id, with no other such player before it, or none exactly when no player lists the id |
| Records.OriginalOfKept | soul.ts:113-115 | Which player lists a given id among its twins depends only on the ids and the twins lists |
| Records.FindOriginal | soul.ts:113-115 | `findOne({'twins.id': id})` returns a player that lists the id, and returns none exactly when no player does |
| Souls.Drained | soul.ts:45-46 | The soul after a loss is never negative, is 0 exactly when the loss is at least the soul, and otherwise is the difference |
| Souls.Refilled | soul.ts:81-84 | The soul after a restore never exceeds the maximum, reaches it exactly when the sum does, and otherwise is the sum |
| Souls.DaysSince | soul.ts:212-214 | The whole days elapsed since the last decay, rounded down |
| Souls.FreshSoul | soul.ts:9-24 | A new soul is full at 100 of 100, stamped now, with no history and no resurrection recorded |
| Souls.Lost | soul.ts:48-64 | loseSoul writes the drained value and a decay stamp, and appends one history entry recording the change and the new value |
| Souls.Regained | soul.ts:86-98 | restoreSoul writes the refilled value, appends one history entry, and leaves lastDecay alone |
| Souls.Epitaph | soul.ts:226-232 | The hall-of-fame entry: the player's name, level and artifacts found, the time, and not resurrected |
| Souls.ViewOf | soul.ts:32-38 | getSoul reports critical exactly below 30, dead exactly at or below 0, and the rounded percentage |
| Souls.Reborn | soul.ts:235-248 | Permanent death resets level, experience, stars, soul and inventory and keeps everything else |
| Souls.Revived | soul.ts:180-189 | The resurrected player's soul is set to 50, with the rescuer and the time recorded, and nothing else changes |
| Souls.Thanked | soul.ts:191-197 | The rescuer records the resurrection time and one more resurrection given, and nothing else changes |
| Souls.SenderName | soul.ts:131 | The request carries the dead player's name, or the fallback name when there is none |
| Souls.RequestSent | soul.ts:124-142 | sendResurrectionRequest appends one request, expiring after a day, to the twin's list and touches nobody else |
| Souls.Archived | soul.ts:222-252 | permanentDeath appends the player's epitaph to the hall of fame and resets the player, or does nothing for an unknown id |
| Souls.AfterDeath | soul.ts:107-122 | onDeath sends a request to the player that lists the dead one as a twin, and otherwise archives the dead one |
| Souls.AfterLoss | soul.ts:41-75 | The store after loseSoul: nothing for an unknown player or one without a soul; otherwise the Lost update, followed by AfterDeath when the soul ends at 0. LossKeepsBounds, LossStampsDecay, LossKeepsShape and LossAtZeroRequestsAgain state its properties |
| Souls.AfterRestore | soul.ts:77-105 | The store after restoreSoul: the Regained update of that player's soul, or nothing when there is none. RestoreKeepsBounds and LoseThenRestore state its properties |
| Souls.AfterDecay | soul.ts:208-220 | The store after applyIdleDecay: a loss of one point per whole day since a set decay stamp, when at least one day has passed. DecayKeepsBounds, DecayIdempotent and DecaySettles state its properties |
| Souls.AfterResurrect | soul.ts:144-206 | The store after resurrect: nothing unless Verdict goes ahead; otherwise the rescuer pays through AfterLoss, then the target is Revived and the rescuer Thanked. ResurrectEffects, ResurrectKeepsBounds and ResurrectAtExactCost state its properties |
| Souls.DaysUp | soul.ts:155-157 | `Math.ceil(n / 86400000)` |
| Souls.Verdict | soul.ts:148-171 | resurrect refuses missing players or souls, then a rescuer on cooldown (with at least one day left), then a rescuer with too little soul, and otherwise goes ahead |
| Souls.SoulSystem.InitSoul | soul.ts:9-24 | initSoul writes a full soul stamped now on an existing player and nothing else |
| Souls.SoulSystem.GetSoul | soul.ts:26-39 | getSoul returns nothing without a soul, otherwise the view of the soul as read, and applies idle decay |
| Souls.SoulSystem.LoseSoul | soul.ts:41-75 | loseSoul reports the loss and what is left, and runs the death transition whenever the soul ends at 0 |
| Souls.SoulSystem.RestoreSoul | soul.ts:77-105 | restoreSoul reports the restored soul and updates only that player |
| Souls.SoulSystem.OnDeath | soul.ts:107-122 | The store after onDeath is AfterDeath of the store before |
| Souls.SoulSystem.SendResurrectionRequest | soul.ts:124-142 | The store after the request is RequestSent of the store before |
| Souls.SoulSystem.Resurrect | soul.ts:144-206 | resurrect answers Verdict; when it goes ahead the rescuer pays through loseSoul, the target is revived and the rescuer thanked |
| Souls.SoulSystem.ApplyIdleDecay | soul.ts:208-220 | applyIdleDecay loses one point per whole day since the last decay, when there is at least one such day |
| Souls.SoulSystem.PermanentDeath | soul.ts:222-252 | The store after permanentDeath is Archived of the store before |
| Souls.DeathKeepsShape | soul.ts:107-122 | onDeath keeps the ids, who has a soul, and every twins list |
| Souls.OriginalOfStable | soul.ts:113-115 | Stores with the same ids and twins lists agree on every player's original |
| Souls.DeathKeepsBounds | soul.ts:107-122 | onDeath keeps every soul within 0..100 |
| Souls.LossKeepsBounds | soul.ts:41-75 | loseSoul with a non-negative amount keeps every soul within 0..100 |
| Souls.RestoreKeepsBounds | soul.ts:77-105 | restoreSoul keeps every soul within 0..100 |
| Souls.DecayKeepsBounds | soul.ts:208-220 | Idle decay keeps every soul within 0..100 |
| Souls.ResurrectKeepsBounds | soul.ts:144-206 | resurrect keeps every soul within 0..100 |
| Souls.LossStampsDecay | soul.ts:52-53 | After a loss the player's decay stamp is the time of the loss |
| Souls.DecayIdempotent | soul.ts:208-220 | Applying idle decay twice at the same moment is the same as once |
| Souls.DecaySettles | soul.ts:208-220 | After a decay, another decay within the next day changes nothing |
| Souls.LoseThenRestore | soul.ts:41-105 | Losing an amount that leaves the soul above 0 and then restoring it gives back the same soul, with both entries in the history |
| Souls.LossAtZeroRequestsAgain | soul.ts:67-69 | A loss at 0 soul sends a new resurrection request to the original on every call, and archives nobody |
| Souls.ResurrectEffects | soul.ts:144-206 | After a resurrection the target has 50 soul and records its rescuer; the rescuer records the time, one more resurrection given, and pays the cost when it had more |
| Souls.LossKeepsShape | soul.ts:41-75 | loseSoul keeps the ids, who has a soul, and every twins list |
| Souls.ResurrectAtExactCost | soul.ts:173-177 | A rescuer with exactly the cost dies by paying it: they are archived and reset when nobody lists them as a twin, and are left at 0 with a request sent otherwise |
| Arena.FirstBand | pvp.ts:16 | The index of the first band containing the rating, with no earlier band containing it |
| Arena.GetLeague | pvp.ts:15-18 | getLeague returns the band containing the rating, or the first band when none does |
| Arena.LeagueOfRating | pvp.ts:15-18 | A rating inside band k gets band k from getLeague |
| Arena.BandIsFirst | pvp.ts:16 | A rating lies in band k exactly when k is the first band holding it |
| Arena.GetLeagueTotal | pvp.ts:15-18 | Ratings 0..9999 get the band containing them; every other rating gets the first band |
| Arena.LeagueNamesDistinct | pvp.ts:164 | No two bands share a name, so comparing league names compares bands |
| Arena.FirstAbove | pvp.ts:38 | The first band starting above the current band's top |
| Arena.JsRem | pvp.ts:58 | JavaScript's `%`: the sign of the result follows the dividend |
| Arena.Members | pvp.ts:41-44 | The players whose rating lies in the band |
| Arena.GetLeagueStats | pvp.ts:30-64 | getLeagueStats is absent exactly for an unknown id; otherwise it reports the player's league, a non-negative distance to promotion, the band's size, and the time left in the season |
| Arena.LeagueStatsDistances | pvp.ts:38-50 | Inside the table the distance to relegation is between 1 and the band's width, and promotion is the gap to the band directly above, or 0 in the top band |
| Arena.HighestRated | pvp.ts:92 | Every non-empty set of players has a highest-rated member |
| Arena.PickHighest | pvp.ts:92 | The player picked next by endSeason is rated at least as high as everyone still unpaid |
| Arena.StarsKeepBands | pvp.ts:85-113 | Paying stars changes neither the band members nor who counts as top of a band |
| Arena.BandPaidOnlyStars | pvp.ts:97-101 | Paying a band changes only stars, of the same players |
| Arena.SeasonPaidOnlyStars | pvp.ts:85-113 | The season's payments change only stars, of the same players |
| Arena.SeasonStep | pvp.ts:88-106 | Each band's payments reach only that band's players, so they add to the earlier bands' payments without disturbing them |
| Arena.PaidThroughStep | pvp.ts:88-106 | After band k is paid, every earlier band and band k have paid their top players |
| Arena.BandsStillTop | pvp.ts:88-106 | Payments to a later band do not change who was paid in an earlier band |
| Arena.BandPaidStep | pvp.ts:97-101 | One `$inc` of the band's reward on one more player is the band payment with that player added |
| Arena.NewMatch | pvp.ts:183-199 | A new match starts in play with full health on both sides, round 1, no strikes or logs, and the turn decided by the coin |
| Arena.Damage | pvp.ts:244-277 | The damage is the roll, doubled by a crit, times 1.5 rounded down for a memory strike, or times three for both |
| Arena.DamageRange | pvp.ts:244-277 | A blow deals at least the roll and at most three times the largest roll |
| Arena.BlowEffects | pvp.ts:279-296 | A blow lowers only the defender's health, by the damage and not below 0, logs one entry with the new health, and counts a memory strike for the attacker alone |
| Arena.Blow | pvp.ts:279-296 | One blow on the match: the defender's health drained by the damage, the attacker's memory strike counted, and one log entry. BlowEffects states its effect |
| Arena.Passed | pvp.ts:303-305 | The turn goes to the opponent and the round advances. TurnAlternates states it |
| Arena.AfterStrike | pvp.ts:248-266 | A memory strike is paid (StrikePaid) only when the roll fires and the attacker has at least MEMORY_STRIKE_COST soul; otherwise the players are unchanged |
| Arena.StrikePaid | pvp.ts:250-266 | A memory strike costs the attacker MEMORY_STRIKE_COST soul, keeps its decay stamp, and changes nobody else |
| Arena.TurnAlternates | pvp.ts:303-305 | While the defender stands the match stays in play, the turn passes to the other player, and the round advances |
| Arena.RatingGain | pvp.ts:361-364 | The winner gains RATING_WIN, plus the league bonus exactly when the names of the two leagues differ |
| Arena.BonusAcrossBands | pvp.ts:357-364 | The bonus is paid exactly when the two ratings fall in different bands |
| Arena.Settled | pvp.ts:341-420 | endMatch keeps the ids and changes no player other than the two in the match |
| Arena.Rewarded | pvp.ts:366-379 | The winner's update: BASE_REWARD stars, one more win and battle, the rating gain, and the time. SettleEffects states it |
| Arena.Defeated | pvp.ts:383-400 | The update of a loser with a soul: PVP_LOSS soul drained (not below 0) with a history entry when the history exists, one more loss and battle, RATING_LOSS off the rating, and the time. SettleEffects states it |
| Arena.SettleEffects | pvp.ts:341-420 | A draw changes nobody. The winner gains stars, a win and rating. A loser with a soul loses PVP_LOSS soul (not below 0), gains a loss and drops rating. A loser without a soul is untouched |
| Arena.WinRate | pvp.ts:460-462 | The share of battles won as a rounded percentage, 0 before any battle and 100 for an undefeated player |
| Arena.WinRateAsWritten | pvp.ts:460-462 | The win rate as written: the rounded percentage when wins and losses are both non-zero, and 0 otherwise. UndefeatedShowsZero and WinRateAgreesWhenBothPositive state how it differs from WinRate |
| Arena.UndefeatedShowsZero | pvp.ts:460-462 | The written win rate shows 0 to an undefeated player with five wins, against the intended 100 |
| Arena.WinRateAgreesWhenBothPositive | pvp.ts:460-462 | With wins and losses both positive, the written and the intended win rate agree |
| Arena.GetPlayerStats | pvp.ts:449-482 | getPlayerStats is absent exactly for an unknown id. Otherwise it reports the player's rating, wins and losses, the soul (0 without one) and the league of the rating. The win rate is the corrected WinRate (see "## Findings"): it lies in 0..100, is 100 for an undefeated player, and equals the as-written rate once wins and losses are both positive |
| Arena.Enqueued | pvp.ts:139-141 | The queue gains the id only when it is not already present, so the queue never holds an id twice |
| Arena.Refused | pvp.ts:118-135 | joinQueue refuses an unknown player, then a player whose soul is exactly 0, then a player with too little energy, in that order |
| Arena.Charged | pvp.ts:173-180 | A match costs each of its players ENERGY_COST energy and touches nobody else |
| Arena.PairedQueue | pvp.ts:144-150 | The two players at the front of a queue without repeats are different, and the queue keeps no repeats after taking them or re-queueing them |
| Arena.PvPArena.constructor | pvp.ts:8-13 | The arena starts with an empty queue and no active matches |
| Arena.PvPArena.JoinQueue | pvp.ts:116-221 | joinQueue refuses by Refused, queues the player, and pairs the first two players once two are waiting: a mismatched pair goes back to the end of the queue, otherwise both pay energy and a new match starts |
| Arena.PvPArena.PairFront | pvp.ts:144-203 | The pairing step: the front two differ; a mismatch re-queues them, otherwise they pay and a match starts under a fresh id |
| Arena.PvPArena.StartMatch | pvp.ts:173-199 | Both players pay ENERGY_COST and the match is stored under a fresh id |
| Arena.PvPArena.Attack | pvp.ts:224-338 | attack rejects an unknown match and an out-of-turn player, ends the match as a draw at the round cap, and otherwise strikes: the blow may end the match with the attacker as winner, or else the turn passes |
| Arena.PvPArena.EndMatch | pvp.ts:341-420 | endMatch settles the players and removes the match |
| Arena.PvPArena.SettlePlayers | pvp.ts:345-405 | The players after endMatch are Settled of the players before |
| Arena.PvPArena.CleanupOldMatches | pvp.ts:484-491 | Every match started more than an hour ago ends as a draw; the others stay |
| Arena.PvPArena.EndSeason | pvp.ts:85-113 | In every band, min(3, n) of its n players are paid, none rated below an unpaid member of the band; each is paid their own band's reward and nothing else changes |
| Arena.PvPArena.PaySeasonBand | pvp.ts:88-106 | Paying one band extends the season's payments by that band |
| Arena.PvPArena.PayBand | pvp.ts:88-102 | The promotion loop of one band pays its top min(3, n) players the band's reward |
| Arena.PvPArena.PayOne | pvp.ts:96-101 | One pass of the promotion loop pays the highest-rated player still unpaid |
| Twins.CandidatesAsWritten | twins.ts:12-19 | The filter as written admits exactly the stored players other than the newcomer whose `stats.twinCount` is present and below 3 |
| Twins.Candidates | twins.ts:12-19 | The filter as intended admits stored players other than the newcomer with fewer than 3 shadows, including every player without the counter, and everyone the written filter admits |
| Twins.Least | twins.ts:18 | The first member of a pool in the order of shadow counts |
| Twins.ShortlistSpec | twins.ts:12-19 | The shortlist holds min(5, n) distinct members of the pool in order, and every member left off has no fewer shadows than anyone on it |
| Twins.ShortlistDistinct | twins.ts:12-19 | No player appears twice on the shortlist |
| Twins.ShortlistStep | twins.ts:18-19 | The member that comes before all others heads the shortlist |
| Twins.PickIndex | twins.ts:28 | `Math.floor(Math.random() * n)` is a valid index |
| Twins.TwinSystem.QueryShortlist | twins.ts:12-19 | The store's answer to the candidate query is the shortlist of the pool |
| Twins.TwinSystem.AssignTwin | twins.ts:9-69 | assignTwin, with the corrected candidate filter (see "## Findings"), falls back to a virtual original when the shortlist is empty, and otherwise links the newcomer to the picked candidate |
| Twins.TwinSystem.LinkTo | twins.ts:31-62 | The original gains the shadow entry and one to its count; the newcomer stores the original's snapshot with bond 0.1 |
| Twins.Attached | twins.ts:31-62 | The store after linking: the original gains one to its counter and a shadow entry, and the newcomer links to its snapshot. AttachedEffects and AttachedTouches state it |
| Twins.VirtualOriginal | twins.ts:73-81 | The virtual original drawn from the rolls: joined `ageMs` ago, level 5 + a roll of 0..4, 100 + a roll hacks and 20 + a roll artifacts. AssignFallsBackToVirtual states its bounds |
| Twins.Fabricated | twins.ts:72-92 | The store after createVirtualTwin: the newcomer links to the virtual original with bond 0.2, marked virtual |
| Twins.Assigned | twins.ts:9-69 | The store after assignTwin with the corrected candidate filter: the shortlist's pick is Attached, or the newcomer is Fabricated when there is nobody. AssignLinksCandidate, AssignedFromShape and AssignFallsBackToVirtual state its properties |
| Twins.AssignedAsWritten | twins.ts:9-69 | The store after assignTwin with the filter as written. AsWrittenNeverLinks and TwinFilterCounterexample state how it differs from Assigned |
| Twins.TwinSystem.CreateVirtualTwin | twins.ts:72-92 | createVirtualTwin sets the newcomer's virtual original with bond 0.2 and nothing else |
| Twins.TwinSystem.OnTwinHack | twins.ts:95-119 | The store after onTwinHack is TwinHacked of the store before |
| Twins.TwinSystem.OnOriginalHack | twins.ts:122-133 | onOriginalHack gives one energy per listed shadow, in order, and does nothing for an unknown original |
| Twins.Energised | twins.ts:126-131 | The store after onOriginalHack's loop: one energy for each listed shadow, in order, with no cap. EnergisedEffect states it |
| Twins.TwinSystem.GetTwinFeeling | twins.ts:136-157 | getTwinFeeling returns nothing without a twin link; otherwise it reports the feeling of the bond, the strength capped at 1, whether the original is virtual, and the original's level and hacks when known |
| Twins.AssignLinksCandidate | twins.ts:9-62 | With candidates, the picked original comes from the shortlist, nobody with fewer shadows was passed over, the original gains exactly one shadow, the newcomer links to its snapshot with bond 0.1, and nobody else changes |
| Twins.AttachedEffects | twins.ts:31-62 | Linking gives the original one more shadow entry and count, gives the newcomer the snapshot and bond 0.1, and changes nobody else |
| Twins.AssignedFromShape | twins.ts:9-69 | Whatever the pool, the newcomer gets a link to some original and nothing else about it changes; at most one other player changes, and it is a member of the pool |
| Twins.AttachedTouches | twins.ts:31-62 | Linking changes the newcomer's link and the original, nobody else |
| Twins.AssignedByShortlist | twins.ts:21-28 | An empty shortlist leads to the virtual original, otherwise the roll's pick is linked |
| Twins.AssignFallsBackToVirtual | twins.ts:21-25 | Without candidates the newcomer gets a virtual original of level 5 to 9, joined within the last 30 days, with bond 0.2, and nobody else changes |
| Twins.ShortlistExcludesNewcomer | twins.ts:14 | Nobody is ever shortlisted as their own original |
| Twins.Share | twins.ts:100 | `Math.floor(expGained * 0.05)` in whole points: a twentieth of the gain, rounded down to a whole point |
| Twins.TwinHacked | twins.ts:95-119 | onTwinHack keeps the ids |
| Twins.TwinHackEffects | twins.ts:95-119 | Without a link to an original nothing changes; otherwise the bond grows by 0.001 with no cap, and the only other player changed is the real original, which gains the share |
| Twins.EnergisedEffect | twins.ts:126-131 | onOriginalHack's loop adds to each player's energy the number of times the list names them, and changes nothing else |
| Twins.CutsReached | twins.ts:145-151 | The number of cut points 0.1, 0.3, 0.5, 0.7, 0.9 a strength has reached |
| Twins.Reached | twins.ts:145-151 | The number of cut points at or below the strength, at most their number |
| Twins.FeelingFor | twins.ts:145-151 | The feeling's tier is the number of cut points the bond has reached |
| Twins.ReachedMonotone | twins.ts:145-151 | A larger strength reaches at least as many cut points |
| Twins.FeelingMonotone | twins.ts:145-151 | A stronger bond never feels weaker |
| Game.SentinelGame.RegisterPlayer | game.ts:17-92 | registerPlayer reports whether the id is new; a new id is inserted with the starting record and given a twin through the corrected candidate filter (see "## Findings") |
| Game.NewPlayer | game.ts:33-68 | The starting record: the start stars, energy and cap, level 1, no experience, an empty inventory, zeroed PvP record and counters, and no soul. RegisterEffects states it |
| Game.Registered | game.ts:17-92 | The store after registerPlayer: nothing for a known id; otherwise the new record, then assignTwin with the corrected filter |
| Game.RegisteredAsWritten | game.ts:17-92 | The store after registerPlayer with the candidate filter as written |
| Game.RegisterEffects | game.ts:23-75 | An existing id changes nothing. A new id gets the starting stars, energy and cap, level 1, no experience, an empty inventory, zeroed PvP record, no soul and a twin link; at most one other player changes |
| Game.SentinelGame.RegenerateEnergy | game.ts:256-284 | The store after regenerateEnergy is Regen of the store before |
| Game.Regenerated | game.ts:256-284 | One record after regeneration: unchanged within one interval since `lastEnergyRegen || now`; otherwise energy rises by ENERGY_REGEN per whole interval, capped by `Math.min`, and the stamp becomes now. RegenBounded and RegenIdempotent state its properties |
| Game.Regen | game.ts:256-284 | The store after regenerateEnergy: that player Regenerated, or nothing for an unknown id |
| Game.RegenBounded | game.ts:256-284 | Regeneration never lowers energy within the cap and never lifts it past the cap; below the cap a whole interval always adds some; energy above the cap is cut down to the cap by a whole interval; less than one interval changes nothing |
| Game.RegenIdempotent | game.ts:256-284 | A second regeneration at the same moment changes nothing |
| Game.SentinelGame.GenerateArtifact | game.ts:221-253 | generateArtifact appends exactly the new artifact to the store and changes nothing else |
| Game.RarityFor | game.ts:222-235 | The rarity chain on a roll of 0..99, rarest first. RarityOdds and RarityMonotone state its properties |
| Game.RarityOdds | game.ts:222-235 | Each rarity comes from exactly its own slice of the hundred rolls, the slices laid end to end, so each has its configured chance |
| Game.RarityMonotone | game.ts:222-235 | A higher roll never gives a rarer artifact |
| Game.ValueRange | game.ts:237-239 | An artifact's value lies from 0.8 of its base value up to, not including, 1.2 of it |
| Game.WaitSeconds | game.ts:122 | `Math.ceil` of the remaining cooldown in seconds |
| Game.SentinelGame.Hack | game.ts:95-218 | The store and the answer after a hack are AfterHack of the store before |
| Game.AfterHack | game.ts:95-218 | The store, the artifacts and the answer after a hack: unknown player, then low energy after regeneration, then cooldown, and otherwise Proceeded. HackGate and HackEffects state its properties |
| Game.Charged | game.ts:155-194 | The hacker's update: HACK_COST energy off, the gain added, the artifact pushed on success, the stamps set, and one hack plus one success or failure counted. HackEffects states it |
| Game.HackGate | game.ts:103-127 | A hack goes ahead exactly when the player exists, has the energy after regeneration, and is off cooldown. Otherwise only regeneration is written, and a cooling-down player whose last hack is not in the future waits 1 to 30 seconds |
| Game.HackEffects | game.ts:130-201 | A hack costs HACK_COST energy and counts one hack and one success or failure. A failure gives 5 experience points. A success gives 20 plus a tenth of the value, stores the artifact and adds it to the inventory. The level never falls, and only the real original also changes |
| Game.ProceededEffects | game.ts:130-201 | The same effects, stated for the store after regeneration |
| Game.Proceeded | game.ts:130-201 | A hack that goes ahead keeps the ids |
| Game.Scanned | game.ts:293-300 | The number of leading level rows the experience meets |
| Game.LevelChecked | game.ts:287-317 | checkLevelUp keeps the ids |
| Game.SentinelGame.CheckLevelUp | game.ts:287-317 | The store after checkLevelUp is LevelChecked of the store before |
| Game.LevelCheckEffects | game.ts:287-317 | The new level is the higher of the current one and the highest row whose threshold the experience meets; when it rises the energy cap comes from that row, and nothing else changes |
| Game.ScannedMeetsPrefix | game.ts:293-300 | Over rising thresholds the scan stops exactly after the rows the experience meets |
| Game.SuccessRate | game.ts:331-334 | The rounded percentage of successful hacks, in 0..100, and 0 before any hack |
| Game.SuccessRateExtremes | game.ts:331-334 | The success rate is 0 with no successes and 100 with no failures |
| Game.NextLevelIsNextThreshold | game.ts:328-329 | The profile's target is the next row's threshold, above the current one; past the table it is the player's own experience |
| Game.NextLevelExp | game.ts:328-329 | `LEVELS.find(level + 1)?.expNeeded || experience`, in tenths. NextLevelIsNextThreshold states it |
| Game.SentinelGame.GetProfile | game.ts:320-360 | getProfile regenerates energy, then reports from the regenerated record its username, stars, energy and cap, level, experience, hacks and artifacts found, the next threshold, the success rate, the rating and the twin feeling and bond |
| Game.AsWrittenNeverLinks | twins.ts:12-16 | With the filter as written, a store where no record has `stats.twinCount` admits no candidate, so every newcomer gets a virtual original and the field never appears |
| Game.TwinFilterCounterexample | twins.ts:12-16 | Two registrations into an empty store: as written the second newcomer gets a virtual original and the first player gains no shadow; as intended the second becomes the first player's shadow |
| Visuals.GetSoulArt | visuals.ts:42-74 | The bar throws for a negative percentage or one of 105 or more; 101 to 104 draw a full bar. It shows the fallen art at 0, the critical art below 30, and otherwise a 20-cell bar whose filled cells are the percentage divided by 5, rounded down |
| Visuals.SoulArtMatchesView | visuals.ts:42-74 | For a soul within bounds the art never throws; it is fallen exactly when getSoul says dead, and critical exactly when it says critical but not dead |
| Visuals.CountAfter | visuals.ts:538-540 | The number of generations stamped after midnight, at most all of them |
| Visuals.CountAfterAppend | visuals.ts:538-540 | A generation stamped after midnight counts once more; one at or before it does not count |
| Visuals.CountOwned | visuals.ts:549-561 | `countDocuments` of the player's artifacts of one rarity, at most all artifacts |
| Visuals.DailyLimitMonotone | visuals.ts:528-565 | The limit never falls with more legendaries, more mythics or VIP status, and stays within 3..50 |
| Visuals.DailyLimit | visuals.ts:541-565 | 3 (10 for VIP) plus 1 per legendary and 2 per mythic, at most 50. DailyLimitMonotone states its properties |
| Visuals.VisualsSystem.CheckGenerationLimit | visuals.ts:517-575 | An unknown player gets a zero quota. Otherwise the total is 3 (10 for VIP) plus 1 per legendary and 2 per mythic, capped at 50. Generation is allowed exactly when fewer than that were used today, the remaining count is never negative, and the reset is the next midnight |
| Visuals.Images | visuals.ts:584-590 | The player's artifacts that have an image, and only those |
| Visuals.Insert | visuals.ts:591 | Insertion keeps the same artifacts plus the new one |
| Visuals.InsertKeepsOrder | visuals.ts:591 | Insertion into a newest-first list keeps it newest first |
| Visuals.ByNewest | visuals.ts:591 | The sort holds the same artifacts, newest first |
| Visuals.PageItems | visuals.ts:592-593 | A page holds at most 5 artifacts and is empty exactly when it starts past the end |
| Visuals.NavRow | visuals.ts:641-651 | Back appears exactly after the first page, and Forward exactly when a later image exists |
| Visuals.PagingConsistent | visuals.ts:592-612 | A page has items exactly when it is one of the ceil(total/5) pages shown, Forward appears exactly when another page exists, and image k of the sorted list is item k mod 5 of page k / 5 |
| Visuals.Views | visuals.ts:617-638 | One View button row per artifact of the page, in order |
| Visuals.GalleryShape | visuals.ts:578-661 | Past the last page only the Imagine button shows. Otherwise the page's images come newest first, one View row each, then the navigation row when there is one, then Imagine and the main menu. The total is the number of the player's images |
| Visuals.GalleryFor | visuals.ts:578-661 | The gallery of one page: the player's images newest first, cut to the page, and rendered by PageGallery. GalleryShape and PagingConsistent state its properties |
| Visuals.PageGallery | visuals.ts:601-661 | The rendering of one page: only Imagine when the page is empty; otherwise a View row per item, the navigation row when there is one, then Imagine and the main menu |
| Visuals.PageHoldsOwnImages | visuals.ts:581-597 | A page holds only the player's artifacts with images, and sorting keeps their number |
| Visuals.VisualsSystem.ShowGallery | visuals.ts:578-661 | showGallery answers the gallery of that page |
| Visuals.VisualsSystem.RenderPage | visuals.ts:603-661 | The answer for a page's artifacts: one View row each, the navigation row when not empty, Imagine and the main menu |
| Visuals.VisualsSystem.ViewButtons | visuals.ts:617-638 | The loop builds one View row per artifact |

## Left out

- I/O: the logger and Telegram messages (texts, emoji, HTML), message formatting, and every `try`/`catch` that turns an error into an answer. `getAttackMessage`, `getPlayerTitle`, `getLeagueTop`, `getGenerationStats` and the image prompt, HTML and ASCII templates other than the soul bar are not modelled.
- Concurrency: every store call is taken to happen atomically, one after another. Concurrent requests are not modelled.
- The persisted `pvpMatches` collection and `getTotalMemoryStrikes`, which read matches the arena writes to it; the active matches are modelled in memory.
- Arena.GetLeagueStats: does not model the player's position inside the band, which depends on the store's sort order.
- The relegation loop of endSeason has an empty body and changes nothing.
- Floating point: experience is kept in tenths, and bond, chances and shares are kept in thousandths or hundredths, so `0.05`, `0.02` and `0.2` products are exact. A rounding difference of JavaScript's binary floating point at a boundary is not modelled.
- The store's natural order is not modelled. When several players list the same twin, the smallest id is taken. Shortlist ties in shadow count go by id. Gallery ties in `foundAt` follow the insertion sort.
- Records.Percent: a maximum of 0 gives 0 where JavaScript gives NaN.
- The self-pair branch of joinQueue (pvp.ts:147-150) is dead: the queue never holds an id twice, which Arena.PairedQueue proves.
- `Random.range` is taken to return an integer in its closed range. The PvP coin, damage, crit and memory-strike rolls are parameters.
- The lore and Mythic story texts given to artifacts, and the artifact's name and lore fields, are not modelled.
- The per-user cooldown kept by the bot before calling hack; bot.ts is not part of this model.
- The gallery's `page` parameter is taken to be a natural number.
- Visuals.VisualsSystem.CheckGenerationLimit: today's midnight is a parameter, not read from the local clock.

## Findings

| source | as written | input that shows it | evidently intended | confidence | as-written member | corrected member |
|---|---|---|---|---|---|---|
| pvp.ts:460-462 | `wins && losses ? Math.round(...) : 0` shows 0 unless both wins and losses are non-zero | 5 wins, 0 losses gives 0 | 100 for an undefeated player, 0 before any battle | not executed | Arena.UndefeatedShowsZero | Arena.WinRate |
| twins.ts:12-16 | `'stats.twinCount': {$lt: 3}` never matches, because registerPlayer (game.ts:33-68) never writes `stats.twinCount` and the query does not match a record that lacks the field | two registrations into an empty store: the second newcomer gets a virtual original | a missing counter counts as no shadows, so the first player becomes the original | not executed | Game.TwinFilterCounterexample | Twins.Candidates |

The model departs from the code in two places, both corrections of the findings above:

- Twins.TwinSystem.AssignTwin and Game.SentinelGame.RegisterPlayer (through Twins.Assigned) use the corrected candidate filter Twins.Candidates. The code as written is Twins.AssignedAsWritten and Game.RegisteredAsWritten.
- Arena.GetPlayerStats reports the corrected Arena.WinRate. The rate as written is Arena.WinRateAsWritten.

Elsewhere, where the code and its comments or documentation differ, the model follows the code:

- A virtual original's level is `5 + floor(random * 5)`, i.e. 5 to 9, although its comment says 5 to 10.
- A failed hack costs no soul.
- registerPlayer does not create a soul.
- loseSoul runs the death transition on every call that ends at 0, not only the first.
- onOriginalHack is modelled although game.ts never calls it.
