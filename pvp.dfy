/**
 * The PvP arena (pvp.ts): league lookup over the band table, the league
 * statistics arithmetic, end-of-season rewards, an in-memory FIFO
 * matchmaking queue, the active matches and their turn-based state machine,
 * and the rating bookkeeping at the end of a match.
 *
 * PvPArena keeps the queue and the active matches as fields and changes
 * them in place, as the source does; the store is the shared Database.
 * Every random draw is a parameter: the coin that picks who moves first,
 * the base damage roll, and whether a memory strike and a critical hit
 * fire. Match ids come from a counter that stands in for the store's fresh
 * object ids.
 */
module Arena {
  import opened Config
  import opened Records
  import Souls

  /** Matches started longer ago than this are ended as draws by cleanupOldMatches. */
  const MATCH_TIMEOUT: int := 3600000
  const FULL_HEALTH: int := 100
  /** Extra rating for beating a player of another league. */
  const LEAGUE_BONUS: int := 10
  const TOP_LEAGUE_NAME: string := "Высшая лига"
  const PVP_LOSS_REASON: string := "pvp_loss"
  const MEMORY_STRIKE_REASON: string := "memory_strike"

  // ---------- Leagues ----------

  /** Index of the first band containing the rating, or |bands| when none does. */
  function FirstBand(bands: seq<League>, rating: int): (k: nat)
    ensures k <= |bands|
    ensures k < |bands| ==> InBand(bands[k], rating)
    ensures forall j :: 0 <= j < k ==> !InBand(bands[j], rating)
  {
    if bands == [] then 0
    else if InBand(bands[0], rating) then 0
    else 1 + FirstBand(bands[1..], rating)
  }

  /** getLeague: the band that contains the rating, or the first band when none does. */
  function GetLeague(rating: int): (l: League)
    ensures l in LEAGUES
    ensures InBand(l, rating) || (l == LEAGUES[0] && forall k :: 0 <= k < |LEAGUES| ==> !InBand(LEAGUES[k], rating))
  {
    var k := FirstBand(LEAGUES, rating);
    if k < |LEAGUES| then LEAGUES[k] else LEAGUES[0]
  }

  /** A rating lies in exactly one band, and getLeague finds that band. */
  lemma LeagueOfRating(rating: int, k: int)
    requires 0 <= k < |LEAGUES| && InBand(LEAGUES[k], rating)
    ensures FirstBand(LEAGUES, rating) == k && GetLeague(rating) == LEAGUES[k]
  {
    LeaguesContiguous();
    var j := FirstBand(LEAGUES, rating);
    BandsDisjoint(LEAGUES, rating, j, k);
  }

  /** A rating lies in band `k` exactly when `k` is the first band holding it. */
  lemma BandIsFirst(rating: int, k: int)
    requires 0 <= k < |LEAGUES|
    ensures InBand(LEAGUES[k], rating) <==> FirstBand(LEAGUES, rating) == k
  {
    if InBand(LEAGUES[k], rating) {
      LeagueOfRating(rating, k);
    }
  }

  /** Ratings 0..9999 each get the band containing them; every other rating gets the first band. */
  lemma GetLeagueTotal(rating: int)
    ensures 0 <= rating <= 9999 ==> InBand(GetLeague(rating), rating)
    ensures (rating < 0 || rating > 9999) ==> GetLeague(rating) == LEAGUES[0]
  {
    LeaguesContiguous();
    if 0 <= rating <= 9999 {
      var k := BandsCover(LEAGUES, rating);
      LeagueOfRating(rating, k);
    }
  }

  /** No two bands share a name, so comparing names compares bands. */
  lemma LeagueNamesDistinct(i: int, j: int)
    requires 0 <= i < |LEAGUES| && 0 <= j < |LEAGUES|
    requires LEAGUES[i].name == LEAGUES[j].name
    ensures i == j
  {
  }

  /** Index of the first band starting above `top`, or |bands| when none does. */
  function FirstAbove(bands: seq<League>, top: int): (k: nat)
    ensures k <= |bands|
    ensures k < |bands| ==> bands[k].min > top
    ensures forall j :: 0 <= j < k ==> bands[j].min <= top
  {
    if bands == [] then 0
    else if bands[0].min > top then 0
    else 1 + FirstAbove(bands[1..], top)
  }

  /** `a % b` as JavaScript computes it: the sign follows the dividend. */
  function JsRem(a: int, b: int): (r: int)
    requires b > 0
    ensures a >= 0 ==> 0 <= r < b
    ensures a < 0 ==> -b < r <= 0
  {
    if a >= 0 then a % b else -((-a) % b)
  }

  datatype LeagueStats = LeagueStats(
    league: League,
    totalInLeague: int,
    toPromotion: int,
    toRelegation: int,
    nextLeagueName: string,
    seasonEndsIn: int)

  /** The players whose rating lies in the band. */
  function Members(ps: map<int, Player>, league: League): (s: set<int>)
    ensures forall q :: q in s <==> q in ps && InBand(league, ps[q].pvp.rating)
  {
    set q | q in ps && InBand(league, ps[q].pvp.rating)
  }

  /** getLeagueStats, without the player's position inside the band. */
  function GetLeagueStats(ps: map<int, Player>, id: int, now: int): (r: Option<LeagueStats>)
    ensures r.None? <==> id !in ps
    ensures r.Some? ==> r.value.league == GetLeague(ps[id].pvp.rating) && r.value.toPromotion >= 0
    ensures r.Some? ==> r.value.totalInLeague == |Members(ps, r.value.league)|
    ensures r.Some? && now >= 0 ==> 0 < r.value.seasonEndsIn <= SEASON_DURATION
  {
    if id !in ps then None
    else
      var rating := ps[id].pvp.rating;
      var current := GetLeague(rating);
      var n := FirstAbove(LEAGUES, current.max);
      var toPromotion := if n < |LEAGUES| then LEAGUES[n].min - rating else 0;
      Some(LeagueStats(
        current,
        |Members(ps, current)|,
        if toPromotion > 0 then toPromotion else 0,
        rating - current.min + 1,
        if n < |LEAGUES| then LEAGUES[n].name else TOP_LEAGUE_NAME,
        SEASON_DURATION - JsRem(now, SEASON_DURATION)))
  }

  /**
   * For a rating inside the table, the distance to relegation counts the
   * points down to the band's floor, and the distance to promotion is the
   * gap to the next band, which is the band directly above.
   */
  lemma LeagueStatsDistances(ps: map<int, Player>, id: int, now: int)
    requires id in ps && 0 <= ps[id].pvp.rating <= 9999
    ensures var r := GetLeagueStats(ps, id, now).value;
      var rating := ps[id].pvp.rating;
      InBand(r.league, rating) &&
      1 <= r.toRelegation <= r.league.max - r.league.min + 1 &&
      (r.league.max < 9999 ==> r.toPromotion == r.league.max + 1 - rating && 0 < r.toPromotion) &&
      (r.league.max == 9999 ==> r.toPromotion == 0 && r.nextLeagueName == TOP_LEAGUE_NAME)
  {
    var rating := ps[id].pvp.rating;
    GetLeagueTotal(rating);
    LeaguesContiguous();
    var k := FirstBand(LEAGUES, rating);
    LeagueOfRating(rating, k);
    if k + 1 < |LEAGUES| {
      forall j | 0 <= j <= k
        ensures LEAGUES[j].min <= LEAGUES[k].max
      {
        if j < k {
          BandsAscending(LEAGUES, j, k);
        }
      }
      assert FirstAbove(LEAGUES, LEAGUES[k].max) == k + 1;
    } else {
      assert FirstAbove(LEAGUES, LEAGUES[k].max) == |LEAGUES|;
    }
  }

  // ---------- End of season ----------

  /** `paid` are min(PROMOTION_COUNT, n) of the band's n members, none rated below a member left out. */
  ghost predicate TopOfBand(ps: map<int, Player>, league: League, paid: set<int>) {
    var members := Members(ps, league);
    paid <= members && |paid| == Min(PROMOTION_COUNT, |members|) &&
    forall w, q :: w in paid && q in members && q !in paid ==> ps[q].pvp.rating <= ps[w].pvp.rating
  }

  /** Every player in `winners` gets the reward of the band their rating lies in. */
  ghost function SeasonPaid(ps: map<int, Player>, winners: set<int>): map<int, Player> {
    map q | q in ps :: if q in winners then ps[q].(stars := ps[q].stars + GetLeague(ps[q].pvp.rating).reward) else ps[q]
  }

  /** Every band's players, with `paid` credited that band's reward. */
  ghost function BandPaid(ps: map<int, Player>, league: League, paid: set<int>): map<int, Player> {
    map q | q in ps :: if q in paid then ps[q].(stars := ps[q].stars + league.reward) else ps[q]
  }

  /** A highest-rated player exists in every non-empty set of players. */
  lemma {:induction false} HighestRated(ps: map<int, Player>, s: set<int>) returns (top: int)
    requires s != {} && s <= ps.Keys
    ensures top in s && forall q :: q in s ==> ps[q].pvp.rating <= ps[top].pvp.rating
    decreases |s|
  {
    var x := Pick(s);
    if s == {x} {
      top := x;
    } else {
      var t := HighestRated(ps, s - {x});
      assert forall q :: q in s ==> q == x || q in s - {x};
      top := if ps[x].pvp.rating >= ps[t].pvp.rating then x else t;
    }
  }

  /** The two stores hold the same players, differing at most in stars. */
  ghost predicate OnlyStars(ps: map<int, Player>, qs: map<int, Player>) {
    ps.Keys == qs.Keys && forall q :: q in ps ==> qs[q] == ps[q].(stars := qs[q].stars)
  }

  lemma BandPaidOnlyStars(ps: map<int, Player>, league: League, paid: set<int>)
    ensures OnlyStars(ps, BandPaid(ps, league, paid))
  {
  }

  /** After the first `k` bands of endSeason: every winner so far is in one of them, and each of them paid its top players. */
  ghost predicate PaidThrough(ps0: map<int, Player>, winners: set<int>, k: int)
    requires 0 <= k <= |LEAGUES|
  {
    && (forall w :: w in winners ==> w in ps0 && FirstBand(LEAGUES, ps0[w].pvp.rating) < k)
    && (forall j :: 0 <= j < k ==> TopOfBand(ps0, LEAGUES[j], winners * Members(ps0, LEAGUES[j])))
  }

  /** Paying the top of band `k` extends the payments of the bands before it. */
  lemma PaidThroughStep(ps0: map<int, Player>, winners: set<int>, paid: set<int>, k: int)
    requires 0 <= k < |LEAGUES|
    requires PaidThrough(ps0, winners, k)
    requires TopOfBand(ps0, LEAGUES[k], paid)
    ensures PaidThrough(ps0, winners + paid, k + 1)
    ensures BandPaid(SeasonPaid(ps0, winners), LEAGUES[k], paid) == SeasonPaid(ps0, winners + paid)
  {
    SeasonStep(ps0, winners, paid, k);
    BandsStillTop(ps0, winners, paid, k);
  }

  lemma BandsStillTop(ps0: map<int, Player>, winners: set<int>, paid: set<int>, k: int)
    requires 0 <= k < |LEAGUES|
    requires forall j :: 0 <= j < k ==> TopOfBand(ps0, LEAGUES[j], winners * Members(ps0, LEAGUES[j]))
    requires forall j :: 0 <= j < k ==> (winners + paid) * Members(ps0, LEAGUES[j]) == winners * Members(ps0, LEAGUES[j])
    requires (winners + paid) * Members(ps0, LEAGUES[k]) == paid
    requires TopOfBand(ps0, LEAGUES[k], paid)
    ensures forall j :: 0 <= j < k + 1 ==> TopOfBand(ps0, LEAGUES[j], (winners + paid) * Members(ps0, LEAGUES[j]))
  {
    forall j | 0 <= j < k + 1
      ensures TopOfBand(ps0, LEAGUES[j], (winners + paid) * Members(ps0, LEAGUES[j]))
    {
      if j < k {
        assert TopOfBand(ps0, LEAGUES[j], winners * Members(ps0, LEAGUES[j]));
      }
    }
  }

  lemma SeasonPaidOnlyStars(ps: map<int, Player>, winners: set<int>)
    ensures OnlyStars(ps, SeasonPaid(ps, winners))
  {
  }

  lemma BandPaidNobody(ps: map<int, Player>, league: League)
    ensures BandPaid(ps, league, {}) == ps
  {
  }

  /** Paying one more player of the band. */
  lemma BandPaidStep(ps: map<int, Player>, league: League, paid: set<int>, cur: map<int, Player>, top: int)
    requires cur == BandPaid(ps, league, paid)
    requires top in ps && top !in paid
    ensures top in cur
    ensures cur[top := cur[top].(stars := cur[top].stars + league.reward)] == BandPaid(ps, league, paid + {top})
  {
  }

  /** Paying keeps every rating. */
  lemma BandPaidRatings(ps: map<int, Player>, league: League, paid: set<int>, cur: map<int, Player>)
    requires cur == BandPaid(ps, league, paid)
    ensures forall q :: q in ps ==> q in cur && cur[q].pvp == ps[q].pvp
  {
  }

  /** One of the highest-rated players of a non-empty set; ties go either way. */
  method PickHighest(ps: map<int, Player>, s: set<int>) returns (top: int)
    requires s != {} && s <= ps.Keys
    ensures top in s && forall q :: q in s ==> ps[q].pvp.rating <= ps[top].pvp.rating
  {
    ghost var t := HighestRated(ps, s);
    top :| top in s && forall q :: q in s ==> ps[q].pvp.rating <= ps[top].pvp.rating;
  }

  /** Changing stars does not change who is in which band, nor TopOfBand. */
  lemma StarsKeepBands(ps: map<int, Player>, qs: map<int, Player>, league: League, paid: set<int>)
    requires OnlyStars(ps, qs)
    ensures Members(ps, league) == Members(qs, league)
    ensures TopOfBand(ps, league, paid) <==> TopOfBand(qs, league, paid)
  {
    assert forall q :: q in Members(ps, league) <==> q in Members(qs, league);
  }

  /** Adding the next band's payments to the earlier ones. */
  lemma SeasonStep(ps0: map<int, Player>, winners: set<int>, paid: set<int>, k: int)
    requires 0 <= k < |LEAGUES|
    requires forall w :: w in winners ==> w in ps0 && FirstBand(LEAGUES, ps0[w].pvp.rating) < k
    requires paid <= Members(ps0, LEAGUES[k])
    ensures forall w :: w in paid ==> FirstBand(LEAGUES, ps0[w].pvp.rating) == k
    ensures (winners + paid) * Members(ps0, LEAGUES[k]) == paid
    ensures forall j :: 0 <= j < k ==> (winners + paid) * Members(ps0, LEAGUES[j]) == winners * Members(ps0, LEAGUES[j])
    ensures BandPaid(SeasonPaid(ps0, winners), LEAGUES[k], paid) == SeasonPaid(ps0, winners + paid)
  {
    forall w | w in paid
      ensures FirstBand(LEAGUES, ps0[w].pvp.rating) == k && GetLeague(ps0[w].pvp.rating) == LEAGUES[k]
    {
      LeagueOfRating(ps0[w].pvp.rating, k);
    }
    forall w | w in winners
      ensures w !in Members(ps0, LEAGUES[k])
    {
      BandIsFirst(ps0[w].pvp.rating, k);
    }
    forall j | 0 <= j < k
      ensures (winners + paid) * Members(ps0, LEAGUES[j]) == winners * Members(ps0, LEAGUES[j])
    {
      forall w | w in paid
        ensures w !in Members(ps0, LEAGUES[j])
      {
        BandIsFirst(ps0[w].pvp.rating, j);
      }
    }
  }

  // ---------- Matches ----------

  datatype LogEntry = LogEntry(attacker: int, damage: int, isCrit: bool, isMemoryStrike: bool, timestamp: int, round: int, healthLeft: int)

  /** An active match. `strikes1` and `strikes2` are memoryStrikes[player1] and memoryStrikes[player2]. */
  datatype Match = Match(
    id: nat,
    player1: int,
    player2: int,
    startTime: int,
    turn: int,
    player1Health: int,
    player2Health: int,
    round: int,
    strikes1: int,
    strikes2: int,
    logs: seq<LogEntry>)

  /** A match in play: two different players, the turn with one of them, both standing, the round within the cap. */
  predicate InPlay(m: Match) {
    m.player1 != m.player2 && (m.turn == m.player1 || m.turn == m.player2) &&
    0 < m.player1Health <= FULL_HEALTH && 0 < m.player2Health <= FULL_HEALTH &&
    1 <= m.round <= MAX_ROUNDS && m.strikes1 >= 0 && m.strikes2 >= 0
  }

  /** The match joinQueue creates; the coin stands for `Random.range(0, 1) === 0`. */
  function NewMatch(id: nat, p1: int, p2: int, now: int, coin: bool): (m: Match)
    ensures p1 != p2 ==> InPlay(m)
    ensures m.player1Health == m.player2Health == FULL_HEALTH && m.round == 1
    ensures m.strikes1 == m.strikes2 == 0 && m.logs == []
    ensures m.turn == (if coin then p1 else p2)
  {
    Match(id, p1, p2, now, if coin then p1 else p2, FULL_HEALTH, FULL_HEALTH, 1, 0, 0, [])
  }

  /** The other player of the match. */
  function Opponent(m: Match, attacker: int): int {
    if m.player1 == attacker then m.player2 else m.player1
  }

  /** `Math.floor(base * (strike ? 1.5 : 1) * (crit ? CRIT_MULTIPLIER : 1))`. */
  function Damage(base: int, isStrike: bool, isCrit: bool): (d: int)
    ensures !isStrike && !isCrit ==> d == base
    ensures !isStrike && isCrit ==> d == CRIT_MULTIPLIER * base
    ensures isStrike && isCrit ==> d == 3 * base
    ensures isStrike && !isCrit ==> 2 * d <= 3 * base < 2 * d + 2
  {
    (base * (if isStrike then 3 else 2) * (if isCrit then CRIT_MULTIPLIER else 1)) / 2
  }

  /** A blow deals at least the roll and at most three times the largest roll. */
  lemma DamageRange(base: int, isStrike: bool, isCrit: bool)
    requires MIN_DAMAGE <= base <= MAX_DAMAGE
    ensures base <= Damage(base, isStrike, isCrit) <= 3 * MAX_DAMAGE
    ensures MIN_DAMAGE <= Damage(base, isStrike, isCrit)
  {
  }

  /** The match after one blow, before the victory check: only the defender's health changes, and one log entry is added. */
  function Blow(m: Match, attacker: int, damage: int, isCrit: bool, isStrike: bool, now: int): Match {
    var isPlayer1 := m.player1 == attacker;
    var h1 := if isPlayer1 then m.player1Health else Souls.Drained(m.player1Health, damage);
    var h2 := if isPlayer1 then Souls.Drained(m.player2Health, damage) else m.player2Health;
    var s1 := if isStrike && isPlayer1 then m.strikes1 + 1 else m.strikes1;
    var s2 := if isStrike && !isPlayer1 then m.strikes2 + 1 else m.strikes2;
    var entry := LogEntry(attacker, damage, isCrit, isStrike, now, m.round, if isPlayer1 then h2 else h1);
    m.(player1Health := h1, player2Health := h2, strikes1 := s1, strikes2 := s2, logs := m.logs + [entry])
  }

  /** Health of the side opposite `attacker`. */
  function DefenderHealth(m: Match, attacker: int): int {
    if m.player1 == attacker then m.player2Health else m.player1Health
  }

  /** Health of the `attacker` side. */
  function AttackerHealth(m: Match, attacker: int): int {
    if m.player1 == attacker then m.player1Health else m.player2Health
  }

  /** The turn passes to the defender and the round advances. */
  function Passed(m: Match, attacker: int): Match {
    m.(turn := Opponent(m, attacker), round := m.round + 1)
  }

  /**
   * A blow keeps both healths in 0..100, lowers only the defender's, by the
   * damage but not below 0, logs exactly one entry carrying that new health,
   * and counts a memory strike for the attacker alone.
   */
  lemma BlowEffects(m: Match, attacker: int, damage: int, isCrit: bool, isStrike: bool, now: int)
    requires InPlay(m) && attacker == m.turn && damage >= 0
    ensures var r := Blow(m, attacker, damage, isCrit, isStrike, now);
      0 <= r.player1Health <= FULL_HEALTH && 0 <= r.player2Health <= FULL_HEALTH &&
      AttackerHealth(r, attacker) == AttackerHealth(m, attacker) &&
      DefenderHealth(r, attacker) == Souls.Drained(DefenderHealth(m, attacker), damage) &&
      |r.logs| == |m.logs| + 1 && r.logs[..|m.logs|] == m.logs &&
      r.logs[|m.logs|].healthLeft == DefenderHealth(r, attacker) && r.logs[|m.logs|].attacker == attacker &&
      r.strikes1 + r.strikes2 == m.strikes1 + m.strikes2 + (if isStrike then 1 else 0) &&
      (m.player1 == attacker ==> r.strikes2 == m.strikes2) && (m.player2 == attacker ==> r.strikes1 == m.strikes1) &&
      r.turn == m.turn && r.round == m.round && r.player1 == m.player1 && r.player2 == m.player2
  {
  }

  /** When the defender is still standing the match stays in play, with the turn on the other player and one more round. */
  lemma TurnAlternates(m: Match, attacker: int, damage: int, isCrit: bool, isStrike: bool, now: int)
    requires InPlay(m) && attacker == m.turn && m.round < MAX_ROUNDS && damage >= 0
    requires DefenderHealth(Blow(m, attacker, damage, isCrit, isStrike, now), attacker) > 0
    ensures var r := Passed(Blow(m, attacker, damage, isCrit, isStrike, now), attacker);
      InPlay(r) && r.turn != attacker && r.round == m.round + 1
  {
  }

  // ---------- Settling a match ----------

  /** ratingChange: RATING_WIN, plus LEAGUE_BONUS when the two leagues differ. */
  function RatingGain(winnerRating: int, loserRating: int): (g: int)
    ensures g == RATING_WIN || g == RATING_WIN + LEAGUE_BONUS
    ensures g == RATING_WIN <==> GetLeague(winnerRating).name == GetLeague(loserRating).name
  {
    if GetLeague(winnerRating).name != GetLeague(loserRating).name then RATING_WIN + LEAGUE_BONUS else RATING_WIN
  }

  /** The bonus is paid exactly when the two ratings fall in different bands. */
  lemma BonusAcrossBands(winnerRating: int, loserRating: int)
    ensures RatingGain(winnerRating, loserRating) == RATING_WIN + LEAGUE_BONUS <==>
      GetLeague(winnerRating) != GetLeague(loserRating)
  {
    var a := GetLeague(winnerRating);
    var b := GetLeague(loserRating);
    if a.name == b.name {
      var i :| 0 <= i < |LEAGUES| && LEAGUES[i] == a;
      var j :| 0 <= j < |LEAGUES| && LEAGUES[j] == b;
      LeagueNamesDistinct(i, j);
    }
  }

  /** The winner's update: reward stars, one more win and battle, rating up, lastPvpTime. */
  function Rewarded(p: Player, gain: int, now: int): Player {
    p.(stars := p.stars + BASE_REWARD,
       pvp := p.pvp.(wins := p.pvp.wins + 1, rating := p.pvp.rating + gain),
       stats := p.stats.(pvpBattles := p.stats.pvpBattles + 1, pvpWins := p.stats.pvpWins + 1),
       lastPvpTime := Some(now))
  }

  /** The loser's update, made only when the loser has a soul: soul down by PVP_LOSS but not below 0, one more loss and battle, rating down. */
  function Defeated(p: Player, now: int): Player
    requires p.soul.Some?
  {
    var s := p.soul.value;
    var v := Souls.Drained(s.current, PVP_LOSS);
    p.(soul := Some(s.(current := v, history := PushedIfPresent(s.history, SoulEntry(now, -PVP_LOSS, PVP_LOSS_REASON, v)))),
       pvp := p.pvp.(losses := p.pvp.losses + 1, rating := p.pvp.rating - RATING_LOSS),
       stats := p.stats.(pvpBattles := p.stats.pvpBattles + 1),
       lastPvpTime := Some(now))
  }

  /** endMatch's changes to the players; a missing or zero winner id is a draw. */
  function Settled(ps: map<int, Player>, p1: int, p2: int, winner: Option<int>, now: int): (r: map<int, Player>)
    requires winner.Some? ==> winner.value == p1 || winner.value == p2
    ensures r.Keys == ps.Keys
    ensures forall q :: q in ps && q != p1 && q != p2 ==> r[q] == ps[q]
  {
    if !Truthy(winner) then ps
    else
      var w := winner.value;
      var loser := if p1 == w then p2 else p1;
      var gain := RatingGain(RatingOf(ps, w), RatingOf(ps, loser));
      var ps1 := if w in ps then ps[w := Rewarded(ps[w], gain, now)] else ps;
      if loser in ps1 && ps1[loser].soul.Some? then ps1[loser := Defeated(ps1[loser], now)] else ps1
  }

  /**
   * The result of a match on its two players: a draw changes nobody; the
   * winner gains BASE_REWARD stars, a win and RATING_WIN (plus the bonus
   * across leagues); a loser with a soul loses PVP_LOSS soul (not below 0),
   * gains a loss and drops RATING_LOSS; a loser without a soul is untouched.
   */
  lemma SettleEffects(ps: map<int, Player>, p1: int, p2: int, winner: Option<int>, now: int)
    requires p1 != p2 && p1 in ps && p2 in ps
    requires winner.Some? ==> winner.value == p1 || winner.value == p2
    ensures !Truthy(winner) ==> Settled(ps, p1, p2, winner, now) == ps
    ensures Truthy(winner) ==>
      var r := Settled(ps, p1, p2, winner, now);
      var w := winner.value;
      var l := if w == p1 then p2 else p1;
      r[w].stars == ps[w].stars + BASE_REWARD &&
      r[w].pvp == PvpRecord(ps[w].pvp.rating + RatingGain(ps[w].pvp.rating, ps[l].pvp.rating), ps[w].pvp.wins + 1, ps[w].pvp.losses) &&
      r[w].stats.pvpWins == ps[w].stats.pvpWins + 1 && r[w].soul == ps[w].soul &&
      (ps[l].soul.None? ==> r[l] == ps[l]) &&
      (ps[l].soul.Some? ==>
        r[l].soul.Some? && r[l].soul.value.current == Souls.Drained(ps[l].soul.value.current, PVP_LOSS) &&
        r[l].pvp == PvpRecord(ps[l].pvp.rating - RATING_LOSS, ps[l].pvp.wins, ps[l].pvp.losses + 1) &&
        r[l].stars == ps[l].stars)
  {
  }

  // ---------- Player statistics ----------

  /** winRate as pvp.ts writes it: `wins && losses ? Math.round(wins / (wins + losses) * 100) : 0`. */
  function WinRateAsWritten(wins: int, losses: int): int {
    if wins != 0 && losses != 0 then Percent(wins, wins + losses) else 0
  }

  /** The percentage of battles won, 0 before any battle. */
  function WinRate(wins: int, losses: int): (rate: int)
    requires wins >= 0 && losses >= 0
    ensures 0 <= rate <= 100
    ensures wins + losses > 0 ==> 2 * (wins + losses) * rate - (wins + losses) <= 200 * wins < 2 * (wins + losses) * rate + (wins + losses)
    ensures wins == 0 ==> rate == 0
    ensures wins > 0 && losses == 0 ==> rate == 100
  {
    if wins + losses > 0 then
      if wins == 0 then PercentOfNothing(losses); Percent(wins, wins + losses)
      else if losses == 0 then PercentOfWhole(wins); Percent(wins, wins + losses)
      else Percent(wins, wins + losses)
    else 0
  }

  /** An undefeated player with five wins is shown a win rate of 0 rather than 100. */
  lemma UndefeatedShowsZero()
    ensures WinRateAsWritten(5, 0) == 0
    ensures WinRate(5, 0) == 100
  {
  }

  /** Where the written guard does not bite, it agrees with the intended rate. */
  lemma WinRateAgreesWhenBothPositive(wins: int, losses: int)
    requires wins > 0 && losses > 0
    ensures WinRateAsWritten(wins, losses) == WinRate(wins, losses)
  {
  }

  datatype PlayerStats = PlayerStats(rating: int, wins: int, losses: int, winRate: int, soul: int, league: League)

  /**
   * getPlayerStats, without the memory-strike total, which reads the persisted
   * matches. It reports the corrected WinRate; WinRateAsWritten is the rate as
   * the source computes it, and the two agree once both wins and losses are positive.
   */
  function GetPlayerStats(ps: map<int, Player>, id: int): (r: Option<PlayerStats>)
    requires id in ps ==> ps[id].pvp.wins >= 0 && ps[id].pvp.losses >= 0
    ensures r.None? <==> id !in ps
    ensures r.Some? ==>
      var p := ps[id];
      && r.value.rating == p.pvp.rating && r.value.wins == p.pvp.wins && r.value.losses == p.pvp.losses
      && r.value.soul == (if p.soul.Some? then p.soul.value.current else 0)
      && r.value.league == GetLeague(r.value.rating)
      && r.value.winRate == WinRate(p.pvp.wins, p.pvp.losses)
    ensures r.Some? ==> 0 <= r.value.winRate <= 100
    ensures r.Some? && r.value.wins > 0 && r.value.losses == 0 ==> r.value.winRate == 100
    ensures r.Some? && r.value.wins > 0 && r.value.losses > 0 ==> r.value.winRate == WinRateAsWritten(r.value.wins, r.value.losses)
  {
    if id !in ps then None
    else
      var p := ps[id];
      Some(PlayerStats(p.pvp.rating, p.pvp.wins, p.pvp.losses, WinRate(p.pvp.wins, p.pvp.losses),
        if p.soul.Some? then p.soul.value.current else 0, GetLeague(p.pvp.rating)))
  }

  // ---------- Matchmaking ----------

  predicate NoDuplicates(q: seq<int>) {
    forall i, j :: 0 <= i < j < |q| ==> q[i] != q[j]
  }

  /** The queue after `if (!queue.includes(id)) queue.push(id)`. */
  function Enqueued(q: seq<int>, id: int): (r: seq<int>)
    ensures id in r && forall x :: x in r <==> x in q || x == id
    ensures id in q ==> r == q
    ensures NoDuplicates(q) ==> NoDuplicates(r)
    ensures |r| <= |q| + 1
  {
    if id in q then q else q + [id]
  }

  datatype Refusal = PlayerNotFound | SoulDepleted | NoEnergy

  /** The three checks joinQueue makes before touching the queue, in order. */
  function Refused(ps: map<int, Player>, id: int): (r: Option<Refusal>)
    ensures r == Some(PlayerNotFound) <==> id !in ps
    ensures r == Some(SoulDepleted) <==> id in ps && ps[id].soul.Some? && ps[id].soul.value.current == 0
    ensures r == Some(NoEnergy) <==>
      id in ps && !(ps[id].soul.Some? && ps[id].soul.value.current == 0) && ps[id].energy < ENERGY_COST
  {
    if id !in ps then Some(PlayerNotFound)
    else if ps[id].soul.Some? && ps[id].soul.value.current == 0 then Some(SoulDepleted)
    else if ps[id].energy < ENERGY_COST then Some(NoEnergy)
    else None
  }

  /** Two players are kept apart when their ratings differ by more than RATING_RANGE and their leagues differ. */
  predicate Mismatched(ps: map<int, Player>, p1: int, p2: int) {
    var r1 := RatingOf(ps, p1);
    var r2 := RatingOf(ps, p2);
    (if r1 >= r2 then r1 - r2 else r2 - r1) > RATING_RANGE && GetLeague(r1).name != GetLeague(r2).name
  }

  /** `$inc: {energy: -ENERGY_COST}` on one player. */
  function Charged(ps: map<int, Player>, id: int): (r: map<int, Player>)
    ensures r.Keys == ps.Keys
    ensures forall q :: q in ps && q != id ==> r[q] == ps[q]
    ensures id in ps ==> r[id] == ps[id].(energy := ps[id].energy - ENERGY_COST)
  {
    if id in ps then ps[id := ps[id].(energy := ps[id].energy - ENERGY_COST)] else ps
  }

  /** Taking two players off the front of a queue without repeats leaves two different players and a queue without repeats, before or after re-queueing them. */
  lemma PairedQueue(q: seq<int>)
    requires NoDuplicates(q) && |q| >= 2
    ensures q[0] != q[1]
    ensures NoDuplicates(q[2..]) && NoDuplicates(q[2..] + [q[0], q[1]])
  {
    var r := q[2..] + [q[0], q[1]];
    forall i, j | 0 <= i < j < |r|
      ensures r[i] != r[j]
    {
      var a := if i < |q| - 2 then i + 2 else i - (|q| - 2);
      var b := if j < |q| - 2 then j + 2 else j - (|q| - 2);
      assert r[i] == q[a] && r[j] == q[b] && a != b;
    }
  }

  /** Every active match is in play and stored under its own id, which lies below the next id to hand out. */
  ghost predicate MatchesValid(ms: map<nat, Match>, next: nat) {
    forall k :: k in ms ==> ms[k].id == k && k < next && InPlay(ms[k])
  }

  lemma MatchAdded(ms: map<nat, Match>, next: nat, m: Match)
    requires MatchesValid(ms, next) && m.id == next && InPlay(m)
    ensures next !in ms && MatchesValid(ms[next := m], next + 1)
  {
  }

  lemma MatchReplaced(ms: map<nat, Match>, next: nat, m: Match)
    requires MatchesValid(ms, next) && m.id in ms && InPlay(m)
    ensures MatchesValid(ms[m.id := m], next)
  {
  }

  lemma MatchRemoved(ms: map<nat, Match>, next: nat, k: nat)
    requires MatchesValid(ms, next)
    ensures MatchesValid(ms - {k}, next)
  {
  }

  datatype JoinOutcome = Rejected(why: Refusal) | Waiting | Requeued | MatchFound(matchId: nat)

  datatype AttackOutcome =
    | MatchNotFound
    | NotYourTurn
    | Ended(winner: Option<int>)
    | Hit(damage: int, isCrit: bool, isMemoryStrike: bool, yourHealth: int, enemyHealth: int, yourTurn: bool, round: int)

  /** A memory strike fires when rolled and the attacker has at least MEMORY_STRIKE_COST soul. */
  predicate StrikeFires(ps: map<int, Player>, attacker: int, strikeRoll: bool) {
    strikeRoll && attacker in ps && ps[attacker].soul.Some? && ps[attacker].soul.value.current >= MEMORY_STRIKE_COST
  }

  /** The attacker pays MEMORY_STRIKE_COST soul; the history grows only when it already exists. */
  function StrikePaid(ps: map<int, Player>, attacker: int, now: int): (r: map<int, Player>)
    requires attacker in ps && ps[attacker].soul.Some?
    ensures r.Keys == ps.Keys
    ensures forall q :: q in ps && q != attacker ==> r[q] == ps[q]
    ensures r[attacker].soul.Some? && r[attacker].soul.value.current == ps[attacker].soul.value.current - MEMORY_STRIKE_COST
    ensures r[attacker].soul.value.lastDecay == ps[attacker].soul.value.lastDecay
  {
    var s := ps[attacker].soul.value;
    var v := s.current - MEMORY_STRIKE_COST;
    ps[attacker := ps[attacker].(soul := Some(s.(current := v, history := PushedIfPresent(s.history, SoulEntry(now, -MEMORY_STRIKE_COST, MEMORY_STRIKE_REASON, v)))))]
  }

  /** The players after the strike check of an attack. */
  function AfterStrike(ps: map<int, Player>, attacker: int, strikeRoll: bool, now: int): map<int, Player> {
    if StrikeFires(ps, attacker, strikeRoll) then StrikePaid(ps, attacker, now) else ps
  }

  class PvPArena {
    const db: Database
    var matchmakingQueue: seq<int>
    var activeMatches: map<nat, Match>
    /** Stands in for the store's fresh ids: every id below it has been used. */
    var nextMatchId: nat

    /** The queue holds each id once; every active match is in play, stored under its own id, which was handed out already. */
    ghost predicate Valid()
      reads this
    {
      NoDuplicates(matchmakingQueue) && MatchesValid(activeMatches, nextMatchId)
    }

    constructor (db: Database)
      ensures this.db == db && matchmakingQueue == [] && activeMatches == map[] && nextMatchId == 0
      ensures Valid()
    {
      this.db := db;
      matchmakingQueue := [];
      activeMatches := map[];
      nextMatchId := 0;
    }

    method JoinQueue(id: int, coin: bool, now: int) returns (r: JoinOutcome)
      requires Valid()
      modifies this, db
      ensures Valid()
      ensures db.hallOfFame == old(db.hallOfFame) && db.artifacts == old(db.artifacts)
      ensures Refused(old(db.players), id).Some? ==>
        r == Rejected(Refused(old(db.players), id).value) &&
        matchmakingQueue == old(matchmakingQueue) && activeMatches == old(activeMatches) &&
        nextMatchId == old(nextMatchId) && db.players == old(db.players)
      ensures Refused(old(db.players), id).None? && |Enqueued(old(matchmakingQueue), id)| < 2 ==>
        r == Waiting && matchmakingQueue == Enqueued(old(matchmakingQueue), id) &&
        activeMatches == old(activeMatches) && nextMatchId == old(nextMatchId) && db.players == old(db.players)
      ensures Refused(old(db.players), id).None? && |Enqueued(old(matchmakingQueue), id)| >= 2 ==>
        var q := Enqueued(old(matchmakingQueue), id);
        q[0] != q[1] &&
        if Mismatched(old(db.players), q[0], q[1]) then
          r == Requeued && matchmakingQueue == q[2..] + [q[0], q[1]] &&
          activeMatches == old(activeMatches) && nextMatchId == old(nextMatchId) && db.players == old(db.players)
        else
          r == MatchFound(old(nextMatchId)) && matchmakingQueue == q[2..] &&
          activeMatches == old(activeMatches)[old(nextMatchId) := NewMatch(old(nextMatchId), q[0], q[1], now, coin)] &&
          nextMatchId == old(nextMatchId) + 1 &&
          db.players == Charged(Charged(old(db.players), q[0]), q[1])
    {
      if id !in db.players {
        return Rejected(PlayerNotFound);
      }
      var player := db.players[id];
      if player.soul.Some? && player.soul.value.current == 0 {
        return Rejected(SoulDepleted);
      }
      if player.energy < ENERGY_COST {
        return Rejected(NoEnergy);
      }
      if id !in matchmakingQueue {
        matchmakingQueue := matchmakingQueue + [id];
      }
      if |matchmakingQueue| >= 2 {
        r := PairFront(coin, now);
        return;
      }
      return Waiting;
    }

    /** The pairing step of joinQueue: the two players at the front meet, or go back to the end of the queue. */
    method PairFront(coin: bool, now: int) returns (r: JoinOutcome)
      requires Valid() && |matchmakingQueue| >= 2
      modifies this, db
      ensures Valid()
      ensures db.hallOfFame == old(db.hallOfFame) && db.artifacts == old(db.artifacts)
      ensures
        var q := old(matchmakingQueue);
        q[0] != q[1] &&
        if Mismatched(old(db.players), q[0], q[1]) then
          r == Requeued && matchmakingQueue == q[2..] + [q[0], q[1]] &&
          activeMatches == old(activeMatches) && nextMatchId == old(nextMatchId) && db.players == old(db.players)
        else
          r == MatchFound(old(nextMatchId)) && matchmakingQueue == q[2..] &&
          activeMatches == old(activeMatches)[old(nextMatchId) := NewMatch(old(nextMatchId), q[0], q[1], now, coin)] &&
          nextMatchId == old(nextMatchId) + 1 &&
          db.players == Charged(Charged(old(db.players), q[0]), q[1])
    {
      ghost var q := matchmakingQueue;
      PairedQueue(q);
      var player1 := matchmakingQueue[0];
      matchmakingQueue := matchmakingQueue[1..];
      var player2 := matchmakingQueue[0];
      matchmakingQueue := matchmakingQueue[1..];
      assert player1 == q[0] && player2 == q[1] && matchmakingQueue == q[2..];
      // pvp.ts:147-150 re-queues a player paired with itself; the queue never holds an id twice, so that cannot happen.
      assert player1 != player2;
      var rating1 := RatingOf(db.players, player1);
      var rating2 := RatingOf(db.players, player2);
      var ratingDiff := if rating1 >= rating2 then rating1 - rating2 else rating2 - rating1;
      if ratingDiff > RATING_RANGE && GetLeague(rating1).name != GetLeague(rating2).name {
        matchmakingQueue := matchmakingQueue + [player1];
        matchmakingQueue := matchmakingQueue + [player2];
        return Requeued;
      }
      var matchId := StartMatch(player1, player2, now, coin);
      return MatchFound(matchId);
    }

    /** The two paired players pay their energy and a new match starts under a fresh id. */
    method StartMatch(player1: int, player2: int, now: int, coin: bool) returns (matchId: nat)
      requires player1 != player2 && MatchesValid(activeMatches, nextMatchId)
      modifies this, db
      ensures MatchesValid(activeMatches, nextMatchId)
      ensures matchId == old(nextMatchId) && nextMatchId == old(nextMatchId) + 1
      ensures activeMatches == old(activeMatches)[matchId := NewMatch(matchId, player1, player2, now, coin)]
      ensures matchmakingQueue == old(matchmakingQueue)
      ensures db.players == Charged(Charged(old(db.players), player1), player2)
      ensures db.hallOfFame == old(db.hallOfFame) && db.artifacts == old(db.artifacts)
    {
      db.players := Charged(db.players, player1);
      db.players := Charged(db.players, player2);
      matchId := nextMatchId;
      MatchAdded(activeMatches, nextMatchId, NewMatch(matchId, player1, player2, now, coin));
      nextMatchId := nextMatchId + 1;
      activeMatches := activeMatches[matchId := NewMatch(matchId, player1, player2, now, coin)];
    }

    method Attack(id: int, matchId: nat, baseRoll: int, strikeRoll: bool, critRoll: bool, now: int) returns (r: AttackOutcome)
      requires Valid()
      requires MIN_DAMAGE <= baseRoll <= MAX_DAMAGE
      modifies this, db
      ensures Valid()
      ensures matchmakingQueue == old(matchmakingQueue) && nextMatchId == old(nextMatchId)
      ensures db.hallOfFame == old(db.hallOfFame) && db.artifacts == old(db.artifacts)
      ensures matchId !in old(activeMatches) ==>
        r == MatchNotFound && activeMatches == old(activeMatches) && db.players == old(db.players)
      ensures matchId in old(activeMatches) && old(activeMatches)[matchId].turn != id ==>
        r == NotYourTurn && activeMatches == old(activeMatches) && db.players == old(db.players)
      ensures matchId in old(activeMatches) && old(activeMatches)[matchId].turn == id && old(activeMatches)[matchId].round >= MAX_ROUNDS ==>
        r == Ended(None) && activeMatches == old(activeMatches) - {matchId} && db.players == old(db.players)
      ensures matchId in old(activeMatches) && old(activeMatches)[matchId].turn == id && old(activeMatches)[matchId].round < MAX_ROUNDS ==>
        var m := old(activeMatches)[matchId];
        var strike := StrikeFires(old(db.players), id, strikeRoll);
        var ps1 := AfterStrike(old(db.players), id, strikeRoll, now);
        var damage := Damage(baseRoll, strike, critRoll);
        var m1 := Blow(m, id, damage, critRoll, strike, now);
        if DefenderHealth(m1, id) == 0 then
          r == Ended(Some(id)) && activeMatches == old(activeMatches) - {matchId} &&
          db.players == Settled(ps1, m.player1, m.player2, Some(id), now)
        else
          r == Hit(damage, critRoll, strike, AttackerHealth(m1, id), DefenderHealth(m1, id), false, m.round + 1) &&
          activeMatches == old(activeMatches)[matchId := Passed(m1, id)] && db.players == ps1
    {
      if matchId !in activeMatches {
        return MatchNotFound;
      }
      var m := activeMatches[matchId];
      if m.turn != id {
        return NotYourTurn;
      }
      if m.round >= MAX_ROUNDS {
        EndMatch(m, None, now);
        return Ended(None);
      }
      var isPlayer1 := m.player1 == id;
      var attacker := if isPlayer1 then m.player1 else m.player2;
      var isMemoryStrike := false;
      if attacker in db.players && db.players[attacker].soul.Some? && db.players[attacker].soul.value.current >= MEMORY_STRIKE_COST {
        if strikeRoll {
          isMemoryStrike := true;
          db.players := StrikePaid(db.players, attacker, now);
        }
      }
      var damage := Damage(baseRoll, isMemoryStrike, critRoll);
      DamageRange(baseRoll, isMemoryStrike, critRoll);
      m := Blow(m, id, damage, critRoll, isMemoryStrike, now);
      if m.player1Health <= 0 || m.player2Health <= 0 {
        var winner := if m.player1Health <= 0 then m.player2 else m.player1;
        EndMatch(m, Some(winner), now);
        return Ended(Some(winner));
      }
      m := Passed(m, id);
      activeMatches := activeMatches[matchId := m];
      r := Hit(damage, critRoll, isMemoryStrike,
        if isPlayer1 then m.player1Health else m.player2Health,
        if isPlayer1 then m.player2Health else m.player1Health,
        m.turn == id, m.round);
    }

    /** endMatch: settle the players, then drop the match from the active ones. */
    method EndMatch(m: Match, winner: Option<int>, now: int)
      requires Valid()
      requires winner.Some? ==> winner.value == m.player1 || winner.value == m.player2
      modifies this, db
      ensures Valid()
      ensures activeMatches == old(activeMatches) - {m.id}
      ensures matchmakingQueue == old(matchmakingQueue) && nextMatchId == old(nextMatchId)
      ensures db.players == Settled(old(db.players), m.player1, m.player2, winner, now)
      ensures db.hallOfFame == old(db.hallOfFame) && db.artifacts == old(db.artifacts)
    {
      SettlePlayers(m.player1, m.player2, winner, now);
      MatchRemoved(activeMatches, nextMatchId, m.id);
      activeMatches := activeMatches - {m.id};
    }

    /** The rating, stars and soul updates of endMatch. */
    method SettlePlayers(player1: int, player2: int, winner: Option<int>, now: int)
      requires winner.Some? ==> winner.value == player1 || winner.value == player2
      modifies db
      ensures db.players == Settled(old(db.players), player1, player2, winner, now)
      ensures db.hallOfFame == old(db.hallOfFame) && db.artifacts == old(db.artifacts)
    {
      if Truthy(winner) {
        var winnerId := winner.value;
        var loserId := if player1 == winnerId then player2 else player1;
        var winnerRating := RatingOf(db.players, winnerId);
        var loserRating := RatingOf(db.players, loserId);
        var ratingChange := RATING_WIN;
        if GetLeague(winnerRating).name != GetLeague(loserRating).name {
          ratingChange := ratingChange + LEAGUE_BONUS;
        }
        if winnerId in db.players {
          db.players := db.players[winnerId := Rewarded(db.players[winnerId], ratingChange, now)];
        }
        if loserId in db.players && db.players[loserId].soul.Some? {
          db.players := db.players[loserId := Defeated(db.players[loserId], now)];
        }
      }
    }

    /** cleanupOldMatches: every match started before an hour ago ends as a draw. */
    method CleanupOldMatches(now: int)
      requires Valid()
      modifies this, db
      ensures Valid()
      ensures activeMatches ==
        map k | k in old(activeMatches) && old(activeMatches)[k].startTime >= now - MATCH_TIMEOUT :: old(activeMatches)[k]
      ensures db.players == old(db.players)
      ensures matchmakingQueue == old(matchmakingQueue) && nextMatchId == old(nextMatchId)
      ensures db.hallOfFame == old(db.hallOfFame) && db.artifacts == old(db.artifacts)
    {
      var oneHourAgo := now - MATCH_TIMEOUT;
      var pending := activeMatches.Keys;
      while pending != {}
        invariant Valid()
        invariant pending <= old(activeMatches).Keys
        invariant activeMatches ==
          map k | k in old(activeMatches) && (k in pending || old(activeMatches)[k].startTime >= oneHourAgo) :: old(activeMatches)[k]
        invariant db.players == old(db.players)
        invariant matchmakingQueue == old(matchmakingQueue) && nextMatchId == old(nextMatchId)
        invariant db.hallOfFame == old(db.hallOfFame) && db.artifacts == old(db.artifacts)
        decreases |pending|
      {
        assert exists k :: k in pending by {
          if forall k :: k !in pending { assert false; }
        }
        var k :| k in pending;
        var m := activeMatches[k];
        if m.startTime < oneHourAgo {
          EndMatch(m, None, now);
        }
        pending := pending - {k};
      }
    }

    /** endSeason: in every band the min(PROMOTION_COUNT, n) highest-rated players get the band's reward. */
    method EndSeason() returns (winners: set<int>)
      modifies db
      ensures forall k :: 0 <= k < |LEAGUES| ==>
        TopOfBand(old(db.players), LEAGUES[k], winners * Members(old(db.players), LEAGUES[k]))
      ensures forall w :: w in winners ==> w in old(db.players) && FirstBand(LEAGUES, old(db.players)[w].pvp.rating) < |LEAGUES|
      ensures db.players == SeasonPaid(old(db.players), winners)
      ensures db.hallOfFame == old(db.hallOfFame) && db.artifacts == old(db.artifacts)
    {
      ghost var ps0 := db.players;
      winners := {};
      for k := 0 to |LEAGUES|
        invariant db.players == SeasonPaid(ps0, winners)
        invariant PaidThrough(ps0, winners, k)
        invariant db.hallOfFame == old(db.hallOfFame) && db.artifacts == old(db.artifacts)
      {
        winners := PaySeasonBand(ps0, winners, k);
      }
    }

    /** The rewards of band `k` during endSeason, on top of the earlier bands' payments. */
    method PaySeasonBand(ghost ps0: map<int, Player>, winners: set<int>, k: int) returns (winners': set<int>)
      requires 0 <= k < |LEAGUES|
      requires db.players == SeasonPaid(ps0, winners)
      requires PaidThrough(ps0, winners, k)
      modifies db
      ensures db.players == SeasonPaid(ps0, winners')
      ensures PaidThrough(ps0, winners', k + 1)
      ensures db.hallOfFame == old(db.hallOfFame) && db.artifacts == old(db.artifacts)
    {
      ghost var before := db.players;
      SeasonPaidOnlyStars(ps0, winners);
      var paid := PayBand(LEAGUES[k]);
      StarsKeepBands(ps0, before, LEAGUES[k], paid);
      PaidThroughStep(ps0, winners, paid, k);
      winners' := winners + paid;
    }

    /** One pass of the promotion loop: the highest-rated player still unpaid gets the reward. */
    method PayOne(league: League, ghost ps0: map<int, Player>, ghost paid: set<int>, left: set<int>) returns (top: int)
      requires db.players == BandPaid(ps0, league, paid)
      requires left != {} && left <= ps0.Keys && paid !! left
      modifies db
      ensures top in left && forall q :: q in left ==> ps0[q].pvp.rating <= ps0[top].pvp.rating
      ensures db.players == BandPaid(ps0, league, paid + {top})
      ensures db.hallOfFame == old(db.hallOfFame) && db.artifacts == old(db.artifacts)
    {
      BandPaidRatings(ps0, league, paid, db.players);
      top := PickHighest(db.players, left);
      var cur := db.players;
      BandPaidStep(ps0, league, paid, cur, top);
      var next := cur[top := cur[top].(stars := cur[top].stars + league.reward)];
      db.players := next;
    }

    /** The promotion loop of endSeason for one band. */
    method PayBand(league: League) returns (paid: set<int>)
      modifies db
      ensures TopOfBand(old(db.players), league, paid)
      ensures db.players == BandPaid(old(db.players), league, paid)
      ensures db.hallOfFame == old(db.hallOfFame) && db.artifacts == old(db.artifacts)
    {
      ghost var ps0 := db.players;
      var members := set q | q in db.players && InBand(league, db.players[q].pvp.rating);
      assert members == Members(ps0, league);
      var n := Min(PROMOTION_COUNT, |members|);
      var left := members;
      paid := {};
      var i := 0;
      BandPaidNobody(ps0, league);
      while i < n
        invariant 0 <= i <= n
        invariant paid <= members && left == members - paid
        invariant |paid| == i && |left| == |members| - i
        invariant forall w, q :: w in paid && q in left ==> ps0[q].pvp.rating <= ps0[w].pvp.rating
        invariant db.players == BandPaid(ps0, league, paid)
        invariant db.hallOfFame == old(db.hallOfFame) && db.artifacts == old(db.artifacts)
      {
        var top := PayOne(league, ps0, paid, left);
        paid := paid + {top};
        left := left - {top};
        i := i + 1;
      }
    }
  }
}
