/**
 * The game's constant tables (config.ts): economy and hacking constants, the
 * level table, the PvP league bands, the soul ledger and battle constants.
 * Times are milliseconds. Fractional chances are written as integer parts of
 * a hundred, which is exact because every chance is a multiple of 0.05.
 */
module Config {

  // ---------- CONFIG.GAME ----------
  const START_STARS: int := 100
  const START_ENERGY: int := 50
  const MAX_ENERGY: int := 100
  const HACK_COST: int := 20
  const HACK_COOLDOWN: int := 30000
  const ENERGY_REGEN: int := 10
  const ENERGY_REGEN_INTERVAL: int := 60000

  datatype Rarity = Common | Rare | Epic | Legendary | Mythic

  /** Chance of each rarity, in hundredths. */
  function Chance(r: Rarity): int {
    match r
    case Common => 40
    case Rare => 30
    case Epic => 15
    case Legendary => 10
    case Mythic => 5
  }

  /** Base value of an artifact of each rarity. */
  function BaseValue(r: Rarity): int {
    match r
    case Common => 50
    case Rare => 150
    case Epic => 400
    case Legendary => 1000
    case Mythic => 2500
  }

  datatype LevelRow = LevelRow(level: int, expNeeded: int, maxEnergy: int)

  const LEVELS: seq<LevelRow> := [
    LevelRow(1, 0, 100),
    LevelRow(2, 100, 120),
    LevelRow(3, 300, 140),
    LevelRow(4, 600, 160),
    LevelRow(5, 1000, 180),
    LevelRow(6, 1500, 200),
    LevelRow(7, 2100, 220),
    LevelRow(8, 2800, 240),
    LevelRow(9, 3600, 260),
    LevelRow(10, 4500, 300)
  ]

  // ---------- CONFIG.PVP ----------
  const ENERGY_COST: int := 20
  const BASE_REWARD: int := 150
  const RATING_WIN: int := 25
  const RATING_LOSS: int := 10
  const MIN_DAMAGE: int := 10
  const MAX_DAMAGE: int := 25
  const CRIT_MULTIPLIER: int := 2

  datatype League = League(name: string, min: int, max: int, reward: int, title: string)

  const LEAGUES: seq<League> := [
    League("Бронза", 0, 499, 1000, "🥉 Бронзовый страж"),
    League("Серебро", 500, 999, 2500, "🥈 Серебряный воин"),
    League("Золото", 1000, 1499, 5000, "🥇 Золотой страж"),
    League("Платина", 1500, 1999, 10000, "💎 Платиновый легенда"),
    League("Рубин", 2000, 2499, 20000, "🔴 Рубиновый бессмертный"),
    League("Чемпион", 2500, 9999, 50000, "👑 Чемпион душ")
  ]

  const SEASON_DURATION: int := 30 * 24 * 60 * 60 * 1000
  const PROMOTION_COUNT: int := 3
  const RELEGATION_COUNT: int := 3
  const RATING_RANGE: int := 100

  // ---------- CONFIG.SOUL ----------
  const MAX_SOUL: int := 100
  const HACK_FAIL_LOSS: int := 2
  const PVP_LOSS: int := 10
  const IDLE_DAILY_LOSS: int := 1
  const RESURRECTION_COST: int := 30
  const RESURRECTION_COOLDOWN: int := 7 * 24 * 60 * 60 * 1000
  /** `MAX_SOUL * 0.5`, the soul a resurrected player comes back with. */
  const HALF_SOUL: int := MAX_SOUL / 2

  // ---------- CONFIG.BATTLE ----------
  const MAX_ROUNDS: int := 20
  const MEMORY_STRIKE_COST: int := 1

  /** One day in milliseconds. */
  const DAY_MS: int := 86400000

  // ---------- Shape of the tables ----------

  predicate InBand(l: League, rating: int) {
    l.min <= rating <= l.max
  }

  /** Bands that start at 0, are non-empty, and each begin right after the previous one ends. */
  ghost predicate Contiguous(bands: seq<League>) {
    |bands| > 0 && bands[0].min == 0 &&
    (forall i :: 0 <= i < |bands| ==> bands[i].min <= bands[i].max) &&
    (forall i :: 0 < i < |bands| ==> bands[i].min == bands[i - 1].max + 1)
  }

  lemma LeaguesContiguous()
    ensures Contiguous(LEAGUES)
    ensures LEAGUES[|LEAGUES| - 1].max == 9999
  {
  }

  /** In contiguous bands every later band lies strictly above every earlier one. */
  lemma {:induction false} BandsAscending(bands: seq<League>, i: int, j: int)
    requires Contiguous(bands)
    requires 0 <= i < j < |bands|
    ensures bands[i].max < bands[j].min
    decreases j - i
  {
    if j > i + 1 {
      BandsAscending(bands, i, j - 1);
    }
  }

  /** No rating lies in two different bands. */
  lemma BandsDisjoint(bands: seq<League>, rating: int, i: int, j: int)
    requires Contiguous(bands)
    requires 0 <= i < |bands| && 0 <= j < |bands|
    requires InBand(bands[i], rating) && InBand(bands[j], rating)
    ensures i == j
  {
    if i < j {
      BandsAscending(bands, i, j);
    } else if j < i {
      BandsAscending(bands, j, i);
    }
  }

  /** Every rating from 0 to the top of the last band lies in some band. */
  lemma {:induction false} BandsCover(bands: seq<League>, rating: int) returns (k: int)
    requires Contiguous(bands)
    requires 0 <= rating <= bands[|bands| - 1].max
    ensures 0 <= k < |bands| && InBand(bands[k], rating)
    decreases |bands|
  {
    var n := |bands|;
    if rating >= bands[n - 1].min || n == 1 {
      k := n - 1;
    } else {
      var prefix := bands[..n - 1];
      assert Contiguous(prefix);
      k := BandsCover(prefix, rating);
    }
  }

  /** Levels 1..n in order, the first needing no experience, thresholds strictly rising and energy caps never falling. */
  ghost predicate LevelTableWellFormed(t: seq<LevelRow>) {
    |t| > 0 && t[0].expNeeded == 0 &&
    (forall i :: 0 <= i < |t| ==> t[i].level == i + 1) &&
    (forall i :: 0 < i < |t| ==> t[i - 1].expNeeded < t[i].expNeeded) &&
    (forall i :: 0 < i < |t| ==> t[i - 1].maxEnergy <= t[i].maxEnergy)
  }

  lemma LevelsWellFormed()
    ensures LevelTableWellFormed(LEVELS) && |LEVELS| == 10
  {
  }

  /** Thresholds of a well-formed level table increase between any two rows. */
  lemma {:induction false} ThresholdsAscending(t: seq<LevelRow>, i: int, j: int)
    requires LevelTableWellFormed(t)
    requires 0 <= i < j < |t|
    ensures t[i].expNeeded < t[j].expNeeded && t[i].maxEnergy <= t[j].maxEnergy
    decreases j - i
  {
    if j > i + 1 {
      ThresholdsAscending(t, i, j - 1);
    }
  }

  lemma ConstantsConsistent()
    ensures RESURRECTION_COST <= MAX_SOUL
    ensures HALF_SOUL == 50 && 2 * HALF_SOUL == MAX_SOUL
    ensures 0 < MIN_DAMAGE <= MAX_DAMAGE
    ensures Chance(Mythic) + Chance(Legendary) + Chance(Epic) + Chance(Rare) + Chance(Common) == 100
  {
  }
}
