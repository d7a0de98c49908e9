/**
 * Progression (game.ts): registration defaults, energy regeneration in whole
 * intervals, the hack (pre-checks, charge, artifact roll, counters,
 * experience, the shadow's share) and the level table scan.
 *
 * Experience is in tenths of a point. The random numbers of a hack are
 * parameters: the success roll in thousandths, the rarity roll in hundredths,
 * the value offset as a whole number and the new artifact's id.
 */
module Game {
  import opened Config
  import opened Records
  import Twins

  /** Experience of a failed hack, and the fixed part of a successful one, in tenths. */
  const FAIL_GAIN: int := 50
  const SUCCESS_GAIN: int := 200

  // ---------- Registration ----------

  /** The record registerPlayer inserts. Fields it leaves out are missing (None) or empty. */
  function NewPlayer(username: string, now: int): Player {
    Player(username, START_STARS, START_ENERGY, MAX_ENERGY, 1, 0, [], now, None, None, None, None, None, [], [],
           PvpRecord(0, 0, 0), Stats(0, 0, 0, 0, 0, 0, 0, None, []), None, now)
  }

  /** registerPlayer: an existing id changes nothing; a new one is inserted and given a twin link. */
  ghost function Registered(ps: map<int, Player>, id: int, username: string, now: int, roll: int, v: Twins.VirtualRolls): map<int, Player>
    requires 0 <= roll < 1000
  {
    if id in ps then ps else Twins.Assigned(ps[id := NewPlayer(username, now)], id, now, roll, v)
  }

  /** registerPlayer with assignTwin's candidate filter as written. */
  ghost function RegisteredAsWritten(ps: map<int, Player>, id: int, username: string, now: int, roll: int, v: Twins.VirtualRolls): map<int, Player>
    requires 0 <= roll < 1000
  {
    if id in ps then ps else Twins.AssignedAsWritten(ps[id := NewPlayer(username, now)], id, now, roll, v)
  }

  // ---------- Energy ----------

  /** `player.lastEnergyRegen || now`. */
  function LastRegen(p: Player, now: int): int {
    if p.lastEnergyRegen != 0 then p.lastEnergyRegen else now
  }

  /** regenerateEnergy on one record. */
  function Regenerated(p: Player, now: int): Player {
    var elapsed := now - LastRegen(p, now);
    if elapsed < ENERGY_REGEN_INTERVAL then p
    else p.(energy := Min(p.maxEnergy, p.energy + (elapsed / ENERGY_REGEN_INTERVAL) * ENERGY_REGEN),
            lastEnergyRegen := now)
  }

  function Regen(ps: map<int, Player>, id: int, now: int): map<int, Player> {
    if id in ps then ps[id := Regenerated(ps[id], now)] else ps
  }

  // ---------- Artifacts ----------

  /** The rarity chain of generateArtifact, with the random number in hundredths. */
  function RarityFor(roll: int): Rarity {
    if roll < Chance(Mythic) then Mythic
    else if roll < Chance(Mythic) + Chance(Legendary) then Legendary
    else if roll < Chance(Mythic) + Chance(Legendary) + Chance(Epic) then Epic
    else if roll < Chance(Mythic) + Chance(Legendary) + Chance(Epic) + Chance(Rare) then Rare
    else Common
  }

  /** Position of a rarity in the chain, rarest first. */
  function Rank(r: Rarity): nat {
    match r
    case Mythic => 0
    case Legendary => 1
    case Epic => 2
    case Rare => 3
    case Common => 4
  }

  /** The chances of the rarities tried before this one. */
  function ChanceBefore(r: Rarity): int {
    match r
    case Mythic => 0
    case Legendary => Chance(Mythic)
    case Epic => Chance(Mythic) + Chance(Legendary)
    case Rare => Chance(Mythic) + Chance(Legendary) + Chance(Epic)
    case Common => Chance(Mythic) + Chance(Legendary) + Chance(Epic) + Chance(Rare)
  }

  /** `baseValue * 0.2`, a whole number for every rarity. */
  function Variance(r: Rarity): int {
    BaseValue(r) / 5
  }

  /** `Math.floor(base + random * variance * 2 - variance)` with `offset` the whole part of `random * variance * 2`. */
  function ArtifactValue(r: Rarity, offset: int): int {
    BaseValue(r) - Variance(r) + offset
  }

  /** The random inputs of one hack. */
  datatype HackRolls = HackRolls(success: int, rarity: int, offset: int, artifactId: string)

  function NewArtifact(owner: int, now: int, rolls: HackRolls): Artifact {
    var r := RarityFor(rolls.rarity);
    Artifact(rolls.artifactId, owner, r, ArtifactValue(r, rolls.offset), now, false)
  }

  // ---------- Hacking ----------

  /** `0.7 + level * 0.02`, in thousandths. */
  function SuccessChance(level: int): int {
    700 + 20 * level
  }

  /** `player.lastHackTime || 0`. */
  function LastHack(p: Player): int {
    if p.lastHackTime.Some? then p.lastHackTime.value else 0
  }

  /** `Math.ceil((HACK_COOLDOWN - elapsed) / 1000)`. */
  function WaitSeconds(elapsed: int): (w: int)
    ensures 1000 * (w - 1) < HACK_COOLDOWN - elapsed <= 1000 * w
  {
    -((elapsed - HACK_COOLDOWN) / 1000)
  }

  /** The hacker's record after a hack that went ahead; `found` is the new artifact's id on success. */
  function Charged(p: Player, gain: int, found: Option<string>, now: int): Player {
    var s := p.stats;
    p.(energy := p.energy - HACK_COST,
       experience := p.experience + gain,
       inventory := if found.Some? then p.inventory + [found.value] else p.inventory,
       lastHackTime := Some(now),
       lastAction := Some(now),
       stats := s.(hacksDone := s.hacksDone + 1,
                   successfulHacks := if found.Some? then s.successfulHacks + 1 else s.successfulHacks,
                   artifactsFound := if found.Some? then s.artifactsFound + 1 else s.artifactsFound,
                   failedHacks := if found.Some? then s.failedHacks else s.failedHacks + 1))
  }

  datatype HackOutcome =
    | PlayerNotFound
    | LowEnergy
    | CoolingDown(waitSeconds: int)
    | Hacked(artifact: Option<Artifact>, energyLeft: int, gain: int)

  /** The store and the answer after a hack. */
  datatype HackState = HackState(players: map<int, Player>, artifacts: seq<Artifact>, outcome: HackOutcome)

  ghost function AfterHack(ps: map<int, Player>, arts: seq<Artifact>, id: int, now: int, rolls: HackRolls): HackState {
    if id !in ps then HackState(ps, arts, PlayerNotFound)
    else
      var p := Regenerated(ps[id], now);
      var ps1 := ps[id := p];
      if p.energy < HACK_COST then HackState(ps1, arts, LowEnergy)
      else if now - LastHack(p) < HACK_COOLDOWN then HackState(ps1, arts, CoolingDown(WaitSeconds(now - LastHack(p))))
      else Proceeded(ps1, arts, id, now, rolls)
  }

  /** The part of a hack after the checks, from the store with the hacker's energy regenerated. */
  ghost function Proceeded(ps: map<int, Player>, arts: seq<Artifact>, id: int, now: int, rolls: HackRolls): (h: HackState)
    requires id in ps
    ensures h.players.Keys == ps.Keys
  {
    var p := ps[id];
    var success := rolls.success < SuccessChance(p.level);
    var a := NewArtifact(id, now, rolls);
    var gain := if success then SUCCESS_GAIN + a.value else FAIL_GAIN;
    var ps2 := ps[id := Charged(p, gain, if success then Some(a.id) else None, now)];
    var ps3 := Twins.TwinHacked(ps2, id, gain);
    HackState(LevelChecked(ps3, id, p.experience + gain),
              if success then arts + [a] else arts,
              Hacked(if success then Some(a) else None, p.energy - HACK_COST, gain))
  }

  // ---------- Levels ----------

  /** How many leading rows of the table a total (in tenths) meets, scanning in order and stopping at the first miss. */
  function Scanned(rows: seq<LevelRow>, total: int): (n: nat)
    ensures n <= |rows|
  {
    if rows == [] || total < 10 * rows[0].expNeeded then 0 else 1 + Scanned(rows[1..], total)
  }

  /** checkLevelUp: the level the scan reaches, written only when it is above the current one. */
  function LevelChecked(ps: map<int, Player>, id: int, total: int): (after: map<int, Player>)
    ensures after.Keys == ps.Keys
  {
    if id !in ps then ps
    else
      var n := Scanned(LEVELS, total);
      if n > 0 && n > ps[id].level then ps[id := ps[id].(level := n, maxEnergy := LEVELS[n - 1].maxEnergy)]
      else ps
  }

  // ---------- Profile ----------

  /** `Math.round(successful / total * 100)`, or 0 before any hack. */
  function SuccessRate(successful: int, failed: int): (rate: int)
    ensures successful >= 0 && failed >= 0 ==> 0 <= rate <= 100
    ensures successful + failed > 0 ==>
      2 * (successful + failed) * rate - (successful + failed) <= 200 * successful < 2 * (successful + failed) * rate + (successful + failed)
    ensures successful + failed <= 0 ==> rate == 0
  {
    if successful + failed > 0 then Percent(successful, successful + failed) else 0
  }

  /** `LEVELS.find(l => l.level === level + 1)?.expNeeded || player.experience`, in tenths. */
  function NextLevelExp(level: int, experience: int): int {
    if 0 <= level < |LEVELS| && LEVELS[level].expNeeded != 0 then 10 * LEVELS[level].expNeeded else experience
  }

  datatype Profile = Profile(
    username: string, stars: int, energy: int, maxEnergy: int, level: int, experience: int,
    nextLevelExp: int, hacksDone: int, artifactsFound: int, successRate: int, pvpRating: int,
    twinFeeling: Option<Twins.Feeling>, twinBond: int)

  // ---------- The game ----------

  class SentinelGame {
    const db: Database

    constructor (db: Database)
      ensures this.db == db
    {
      this.db := db;
    }

    method RegisterPlayer(id: int, username: string, now: int, roll: int, v: Twins.VirtualRolls) returns (isNew: bool)
      requires 0 <= roll < 1000
      modifies db
      ensures isNew <==> id !in old(db.players)
      ensures db.players == Registered(old(db.players), id, username, now, roll, v)
      ensures db.hallOfFame == old(db.hallOfFame) && db.artifacts == old(db.artifacts)
    {
      if id in db.players {
        return false;
      }
      db.players := db.players[id := NewPlayer(username, now)];
      var twins := new Twins.TwinSystem(db);
      twins.AssignTwin(id, now, roll, v);
      isNew := true;
    }

    method RegenerateEnergy(id: int, now: int)
      modifies db
      ensures db.players == Regen(old(db.players), id, now)
      ensures db.hallOfFame == old(db.hallOfFame) && db.artifacts == old(db.artifacts)
    {
      if id !in db.players {
        return;
      }
      var p := db.players[id];
      var lastRegen := if p.lastEnergyRegen != 0 then p.lastEnergyRegen else now;
      var timePassed := now - lastRegen;
      if timePassed < ENERGY_REGEN_INTERVAL {
        assert Regenerated(p, now) == p;
        return;
      }
      var intervals := timePassed / ENERGY_REGEN_INTERVAL;
      var energyToAdd := intervals * ENERGY_REGEN;
      if energyToAdd > 0 {
        var newEnergy := Min(p.maxEnergy, p.energy + energyToAdd);
        db.players := db.players[id := p.(energy := newEnergy, lastEnergyRegen := now)];
      }
    }

    method GenerateArtifact(owner: int, now: int, rolls: HackRolls) returns (a: Artifact)
      modifies db
      ensures a == NewArtifact(owner, now, rolls)
      ensures db.artifacts == old(db.artifacts) + [a]
      ensures db.players == old(db.players) && db.hallOfFame == old(db.hallOfFame)
    {
      var rarity := RarityFor(rolls.rarity);
      var value := ArtifactValue(rarity, rolls.offset);
      a := Artifact(rolls.artifactId, owner, rarity, value, now, false);
      db.artifacts := db.artifacts + [a];
    }

    method Hack(id: int, now: int, rolls: HackRolls) returns (out: HackOutcome)
      modifies db
      ensures HackState(db.players, db.artifacts, out) == AfterHack(old(db.players), old(db.artifacts), id, now, rolls)
      ensures db.hallOfFame == old(db.hallOfFame)
    {
      if id !in db.players {
        return PlayerNotFound;
      }
      RegenerateEnergy(id, now);
      var p := db.players[id];
      if p.energy < HACK_COST {
        return LowEnergy;
      }
      var lastHack := if p.lastHackTime.Some? then p.lastHackTime.value else 0;
      if now - lastHack < HACK_COOLDOWN {
        return CoolingDown(WaitSeconds(now - lastHack));
      }
      var success := rolls.success < SuccessChance(p.level);
      var artifact: Option<Artifact> := None;
      var gain := FAIL_GAIN;
      if success {
        var a := GenerateArtifact(id, now, rolls);
        artifact := Some(a);
        gain := SUCCESS_GAIN + a.value;
        db.players := db.players[id := Charged(p, gain, Some(a.id), now)];
      } else {
        db.players := db.players[id := Charged(p, gain, None, now)];
      }
      var twins := new Twins.TwinSystem(db);
      twins.OnTwinHack(id, gain);
      CheckLevelUp(id, p.experience + gain);
      out := Hacked(artifact, p.energy - HACK_COST, gain);
    }

    method CheckLevelUp(id: int, total: int)
      modifies db
      ensures db.players == LevelChecked(old(db.players), id, total)
      ensures db.hallOfFame == old(db.hallOfFame) && db.artifacts == old(db.artifacts)
    {
      if id !in db.players {
        return;
      }
      var p := db.players[id];
      LevelsWellFormed();
      var newLevel := p.level;
      var i := 0;
      while i < |LEVELS|
        invariant 0 <= i <= |LEVELS|
        invariant Scanned(LEVELS, total) == i + Scanned(LEVELS[i..], total)
        invariant newLevel == if i == 0 then p.level else i
      {
        if total >= 10 * LEVELS[i].expNeeded {
          newLevel := LEVELS[i].level;
        } else {
          break;
        }
        assert LEVELS[i..][1..] == LEVELS[i + 1..];
        i := i + 1;
      }
      ghost var n := Scanned(LEVELS, total);
      assert n == i;
      if newLevel > p.level {
        db.players := db.players[id := p.(level := newLevel, maxEnergy := LEVELS[newLevel - 1].maxEnergy)];
      }
    }

    method GetProfile(id: int, now: int) returns (r: Option<Profile>)
      modifies db
      ensures r.None? <==> id !in old(db.players)
      ensures db.players == Regen(old(db.players), id, now)
      ensures db.hallOfFame == old(db.hallOfFame) && db.artifacts == old(db.artifacts)
      ensures r.Some? ==>
        var p := Regenerated(old(db.players)[id], now);
        && r.value.username == p.username && r.value.stars == p.stars
        && r.value.energy == p.energy && r.value.maxEnergy == p.maxEnergy
        && r.value.level == p.level && r.value.experience == p.experience
        && r.value.hacksDone == p.stats.hacksDone && r.value.artifactsFound == p.stats.artifactsFound
        && r.value.nextLevelExp == NextLevelExp(p.level, p.experience)
        && r.value.successRate == SuccessRate(p.stats.successfulHacks, p.stats.failedHacks)
        && r.value.pvpRating == p.pvp.rating
        && (r.value.twinFeeling.Some? <==> p.twin.Some?)
        && (p.twin.Some? ==>
              r.value.twinFeeling.value == Twins.FeelingFor(p.twin.value.bondMilli) && r.value.twinBond == Min(Twins.FULL_BOND, p.twin.value.bondMilli))
        && (p.twin.None? ==> r.value.twinBond == 0)
    {
      if id !in db.players {
        return None;
      }
      RegenerateEnergy(id, now);
      var p := db.players[id];
      var twins := new Twins.TwinSystem(db);
      var sense := twins.GetTwinFeeling(id);
      var feeling := if sense.Some? then Some(sense.value.feeling) else None;
      var bond := if sense.Some? then sense.value.strength else 0;
      r := Some(Profile(p.username, p.stars, p.energy, p.maxEnergy, p.level, p.experience,
                        NextLevelExp(p.level, p.experience), p.stats.hacksDone, p.stats.artifactsFound,
                        SuccessRate(p.stats.successfulHacks, p.stats.failedHacks), p.pvp.rating, feeling, bond));
    }
  }

  // ---------- Properties ----------

  /**
   * registerPlayer leaves an existing id alone. A new id gets the starting
   * stars, energy and energy cap, level 1, no experience, an empty inventory,
   * zeroed PvP record and counters, no soul, and a twin link; at most one
   * other player changes, the newcomer's new original.
   */
  lemma RegisterEffects(ps: map<int, Player>, id: int, username: string, now: int, roll: int, v: Twins.VirtualRolls)
    requires 0 <= roll < 1000
    ensures id in ps ==> Registered(ps, id, username, now, roll, v) == ps
    ensures id !in ps ==>
      var after := Registered(ps, id, username, now, roll, v);
      && after.Keys == ps.Keys + {id}
      && after[id] == NewPlayer(username, now).(twin := after[id].twin)
      && after[id].stars == START_STARS && after[id].energy == START_ENERGY && after[id].maxEnergy == MAX_ENERGY
      && after[id].level == 1 && after[id].experience == 0 && after[id].inventory == []
      && after[id].pvp == PvpRecord(0, 0, 0) && after[id].soul.None? && after[id].twin.Some?
      && (forall q, r :: q in ps && r in ps && after[q] != ps[q] && after[r] != ps[r] ==> q == r)
  {
    if id !in ps {
      var ps1 := ps[id := NewPlayer(username, now)];
      Twins.AssignedFromShape(ps1, id, Twins.Candidates(ps1, id), now, roll, v);
    }
  }

  /**
   * Regeneration never takes energy away from a player within the cap and
   * never lifts it past the cap; below the cap a whole interval always adds
   * some. Energy above the cap, which the uncapped bonus of onOriginalHack
   * can leave, is cut down to the cap by a whole interval. Less than one
   * interval changes nothing.
   */
  lemma RegenBounded(p: Player, now: int)
    ensures var q := Regenerated(p, now);
      && (p.energy <= p.maxEnergy ==> p.energy <= q.energy <= p.maxEnergy)
      && (p.energy > p.maxEnergy && now - LastRegen(p, now) >= ENERGY_REGEN_INTERVAL ==> q.energy == p.maxEnergy)
      && (now - LastRegen(p, now) < ENERGY_REGEN_INTERVAL ==> q == p)
      && (now - LastRegen(p, now) >= ENERGY_REGEN_INTERVAL ==> q.lastEnergyRegen == now)
      && (now - LastRegen(p, now) >= ENERGY_REGEN_INTERVAL && p.energy < p.maxEnergy ==> q.energy > p.energy)
  {
    var elapsed := now - LastRegen(p, now);
    if elapsed >= ENERGY_REGEN_INTERVAL {
      assert elapsed / ENERGY_REGEN_INTERVAL >= 1;
    }
  }

  /** A second regeneration at the same moment changes nothing. */
  lemma RegenIdempotent(p: Player, now: int)
    ensures Regenerated(Regenerated(p, now), now) == Regenerated(p, now)
  {
    var q := Regenerated(p, now);
    assert now - LastRegen(q, now) < ENERGY_REGEN_INTERVAL || q == p;
  }

  /**
   * Each rarity is rolled by exactly the rolls of its own slice of the
   * hundred, the slices laid end to end in the order of the chain, so a
   * rarity comes up with exactly its configured chance.
   */
  lemma RarityOdds(roll: int, r: Rarity)
    requires 0 <= roll < 100
    ensures RarityFor(roll) == r <==> ChanceBefore(r) <= roll < ChanceBefore(r) + Chance(r)
    ensures ChanceBefore(Common) + Chance(Common) == 100
  {
  }

  /** A higher roll never gives a rarer artifact. */
  lemma RarityMonotone(a: int, b: int)
    requires a <= b
    ensures Rank(RarityFor(a)) <= Rank(RarityFor(b))
  {
  }

  /** The value lies within 20% of the base value: from 0.8 of it up to, not including, 1.2 of it. */
  lemma ValueRange(r: Rarity, offset: int)
    requires 0 <= offset < 2 * Variance(r)
    ensures 4 * BaseValue(r) <= 5 * ArtifactValue(r, offset) < 6 * BaseValue(r)
  {
  }

  /**
   * A hack goes ahead exactly when the player exists, has HACK_COST energy
   * after regeneration and is off cooldown. Otherwise only regeneration is
   * written and no artifact is made; a cooling-down player is told to wait
   * between 1 and 30 seconds.
   */
  lemma HackGate(ps: map<int, Player>, arts: seq<Artifact>, id: int, now: int, rolls: HackRolls)
    ensures var h := AfterHack(ps, arts, id, now, rolls);
      && (h.outcome.Hacked? <==>
            id in ps && Regenerated(ps[id], now).energy >= HACK_COST
            && now - LastHack(Regenerated(ps[id], now)) >= HACK_COOLDOWN)
      && (!h.outcome.Hacked? ==> h.players == Regen(ps, id, now) && h.artifacts == arts)
      && (h.outcome.CoolingDown? && now - LastHack(Regenerated(ps[id], now)) >= 0 ==>
            1 <= h.outcome.waitSeconds <= HACK_COOLDOWN / 1000)
  {
  }

  /**
   * checkLevelUp: the new level is the higher of the current level and the
   * highest table level whose threshold the total meets; when it rises, the
   * energy cap comes from that row. Nothing else changes.
   */
  lemma LevelCheckEffects(ps: map<int, Player>, id: int, total: int)
    requires id in ps
    ensures var after := LevelChecked(ps, id, total);
      && after.Keys == ps.Keys
      && (forall q :: q in ps && q != id ==> after[q] == ps[q])
      && after[id] == ps[id].(level := after[id].level, maxEnergy := after[id].maxEnergy)
      && after[id].level >= ps[id].level
      && (forall i :: 0 <= i < |LEVELS| && 10 * LEVELS[i].expNeeded <= total ==> LEVELS[i].level <= after[id].level)
      && (after[id].level > ps[id].level ==>
            && 1 <= after[id].level <= |LEVELS|
            && LEVELS[after[id].level - 1].level == after[id].level
            && 10 * LEVELS[after[id].level - 1].expNeeded <= total
            && (after[id].level < |LEVELS| ==> total < 10 * LEVELS[after[id].level].expNeeded)
            && after[id].maxEnergy == LEVELS[after[id].level - 1].maxEnergy)
  {
    LevelsWellFormed();
    forall i, j | 0 <= i < j < |LEVELS|
      ensures LEVELS[i].expNeeded < LEVELS[j].expNeeded
    {
      ThresholdsAscending(LEVELS, i, j);
    }
    ScannedMeetsPrefix(LEVELS, total);
  }

  /** Over thresholds that rise, the scan stops exactly after the rows the total meets. */
  lemma {:induction false} ScannedMeetsPrefix(rows: seq<LevelRow>, total: int)
    requires forall i, j :: 0 <= i < j < |rows| ==> rows[i].expNeeded < rows[j].expNeeded
    ensures forall i :: 0 <= i < |rows| ==> (10 * rows[i].expNeeded <= total <==> i < Scanned(rows, total))
    decreases |rows|
  {
    if rows != [] {
      var rest := rows[1..];
      ScannedMeetsPrefix(rest, total);
      forall i | 0 <= i < |rows|
        ensures 10 * rows[i].expNeeded <= total <==> i < Scanned(rows, total)
      {
        if i > 0 {
          assert rest[i - 1] == rows[i];
        }
      }
    }
  }

  /**
   * A hack that goes ahead costs exactly HACK_COST energy, counts one hack
   * and exactly one success or failure, stamps the hack time, and grants 5
   * points of experience on failure or 20 plus a tenth of the value on
   * success, when the artifact is also stored and its id pushed to the
   * inventory. The level never falls. The only other player that changes is
   * the hacker's real original, which gains its share.
   */
  lemma HackEffects(ps: map<int, Player>, arts: seq<Artifact>, id: int, now: int, rolls: HackRolls)
    requires id in ps && !ListsTwin(ps[id], id)
    requires AfterHack(ps, arts, id, now, rolls).outcome.Hacked?
    ensures var h := AfterHack(ps, arts, id, now, rolls);
      var p := Regenerated(ps[id], now);
      var success := rolls.success < SuccessChance(p.level);
      var a := NewArtifact(id, now, rolls);
      && h.players.Keys == ps.Keys
      && h.players[id].energy == p.energy - HACK_COST == h.outcome.energyLeft
      && h.players[id].experience == p.experience + h.outcome.gain
      && h.players[id].stats.hacksDone == p.stats.hacksDone + 1
      && h.players[id].stats.successfulHacks + h.players[id].stats.failedHacks
           == p.stats.successfulHacks + p.stats.failedHacks + 1
      && h.players[id].lastHackTime == Some(now)
      && h.players[id].level >= p.level
      && (success ==>
            && h.outcome.gain == SUCCESS_GAIN + a.value
            && h.players[id].stats.successfulHacks == p.stats.successfulHacks + 1
            && h.players[id].inventory == p.inventory + [a.id]
            && h.artifacts == arts + [a])
      && (!success ==>
            && h.outcome.gain == FAIL_GAIN
            && h.players[id].stats.failedHacks == p.stats.failedHacks + 1
            && h.players[id].inventory == p.inventory
            && h.artifacts == arts)
      && (forall q :: q in ps && q != id && h.players[q] != ps[q] ==>
            Some(q) == OriginalOf(ps, id) && h.players[q] == ps[q].(experience := ps[q].experience + Twins.Share(h.outcome.gain)))
  {
    var p := Regenerated(ps[id], now);
    var ps1 := ps[id := p];
    assert AfterHack(ps, arts, id, now, rolls) == Proceeded(ps1, arts, id, now, rolls);
    assert SameTwins(ps, ps1);
    OriginalOfKept(ps, ps1, id);
    ProceededEffects(ps1, arts, id, now, rolls);
  }

  /** HackEffects for the store after regeneration. */
  lemma ProceededEffects(ps: map<int, Player>, arts: seq<Artifact>, id: int, now: int, rolls: HackRolls)
    requires id in ps && !ListsTwin(ps[id], id)
    ensures var h := Proceeded(ps, arts, id, now, rolls);
      var p := ps[id];
      var success := rolls.success < SuccessChance(p.level);
      var gain := if success then SUCCESS_GAIN + NewArtifact(id, now, rolls).value else FAIL_GAIN;
      var hk := h.players[id];
      && h.players.Keys == ps.Keys
      && h.outcome == Hacked(if success then Some(NewArtifact(id, now, rolls)) else None, p.energy - HACK_COST, gain)
      && h.artifacts == (if success then arts + [NewArtifact(id, now, rolls)] else arts)
      && hk == Charged(p, gain, if success then Some(NewArtifact(id, now, rolls).id) else None, now).(twin := hk.twin, level := hk.level, maxEnergy := hk.maxEnergy)
      && hk.level >= p.level
      && (forall q :: q in ps && q != id && h.players[q] != ps[q] ==>
            Some(q) == OriginalOf(ps, id) && h.players[q] == ps[q].(experience := ps[q].experience + Twins.Share(gain)))
  {
    var p := ps[id];
    var success := rolls.success < SuccessChance(p.level);
    var a := NewArtifact(id, now, rolls);
    var gain := if success then SUCCESS_GAIN + a.value else FAIL_GAIN;
    var ps2 := ps[id := Charged(p, gain, if success then Some(a.id) else None, now)];
    var ps3 := Twins.TwinHacked(ps2, id, gain);
    assert Proceeded(ps, arts, id, now, rolls).players == LevelChecked(ps3, id, p.experience + gain);
    assert SameTwins(ps, ps2);
    OriginalOfKept(ps, ps2, id);
    Twins.TwinHackEffects(ps2, id, gain);
    LevelCheckEffects(ps3, id, p.experience + gain);
  }

  /** The success rate is 0 for a player with no successes and 100 for one with no failures. */
  lemma SuccessRateExtremes(successful: int, failed: int)
    requires successful >= 0 && failed >= 0
    ensures successful == 0 ==> SuccessRate(successful, failed) == 0
    ensures successful > 0 && failed == 0 ==> SuccessRate(successful, failed) == 100
  {
    if successful == 0 && failed > 0 {
      PercentOfNothing(failed);
    } else if successful > 0 && failed == 0 {
      PercentOfWhole(successful);
    }
  }

  /** The profile's target is the next row's threshold, above the current one; past the table it is the player's own experience. */
  lemma NextLevelIsNextThreshold(level: int, experience: int)
    ensures 1 <= level < |LEVELS| ==>
      && LEVELS[level].level == level + 1
      && NextLevelExp(level, experience) == 10 * LEVELS[level].expNeeded
      && 10 * LEVELS[level - 1].expNeeded < NextLevelExp(level, experience)
    ensures !(1 <= level < |LEVELS|) ==> NextLevelExp(level, experience) == experience
  {
    LevelsWellFormed();
  }

  // ---------- The candidate filter as written ----------

  /** No player record carries `stats.twinCount`. */
  ghost predicate NoTwinCounts(ps: map<int, Player>) {
    forall id :: id in ps ==> ps[id].stats.twinCount.None?
  }

  /**
   * registerPlayer never sets `stats.twinCount`, and as written the filter
   * needs it, so from a store without the field nobody is ever a candidate:
   * every newcomer gets a virtual original and the field never appears.
   */
  lemma AsWrittenNeverLinks(ps: map<int, Player>, id: int, username: string, now: int, roll: int, v: Twins.VirtualRolls)
    requires 0 <= roll < 1000 && NoTwinCounts(ps)
    ensures id !in ps ==> Twins.CandidatesAsWritten(ps[id := NewPlayer(username, now)], id) == {}
    ensures id !in ps ==>
      var after := RegisteredAsWritten(ps, id, username, now, roll, v);
      id in after && after[id].twin.Some? && after[id].twin.value.isVirtual
    ensures NoTwinCounts(RegisteredAsWritten(ps, id, username, now, roll, v))
  {
    if id !in ps {
      var ps1 := ps[id := NewPlayer(username, now)];
      var pool := Twins.CandidatesAsWritten(ps1, id);
      if pool != {} {
        var x := Pick(pool);
        assert false;
      }
      assert Twins.Shortlist(ps1, pool, Twins.SHORTLIST_SIZE) == [];
    }
  }

  /**
   * Two registrations into an empty store. As written the second newcomer
   * is given a virtual original although the first player has no shadow yet;
   * as intended it becomes the first player's shadow.
   */
  lemma TwinFilterCounterexample()
    ensures var v := Twins.VirtualRolls(0, 0, 0, 0);
      var first := RegisteredAsWritten(map[], 1, "a", 0, 0, v);
      var second := RegisteredAsWritten(first, 2, "b", 0, 0, v);
      && 1 in second && 2 in second
      && second[2].twin.Some? && second[2].twin.value.isVirtual
      && second[1].twins == []
    ensures var v := Twins.VirtualRolls(0, 0, 0, 0);
      var first := Registered(map[], 1, "a", 0, 0, v);
      var second := Registered(first, 2, "b", 0, 0, v);
      && 1 in second && 2 in second
      && second[2].twin.Some? && !second[2].twin.value.isVirtual
      && second[1].twins == [TwinEntry(2, 0, 1, 0)]
  {
    var v := Twins.VirtualRolls(0, 0, 0, 0);
    var empty: map<int, Player> := map[];
    AsWrittenNeverLinks(empty, 1, "a", 0, 0, v);
    var first := RegisteredAsWritten(empty, 1, "a", 0, 0, v);
    AsWrittenNeverLinks(first, 2, "b", 0, 0, v);

    var e1 := empty[1 := NewPlayer("a", 0)];
    assert Twins.Candidates(e1, 1) == {};
    assert Twins.Shortlist(e1, {}, Twins.SHORTLIST_SIZE) == [];
    var good := Registered(empty, 1, "a", 0, 0, v);
    assert good == Twins.Fabricated(e1, 1, v, 0);
    assert good.Keys == {1} && good[1].twins == [] && Twins.TwinCount(good[1]) == 0;
    var g2 := good[2 := NewPlayer("b", 0)];
    assert Twins.Candidates(g2, 2) == {1};
    assert Twins.Least(g2, {1}) == 1;
    assert Twins.Shortlist(g2, {1} - {1}, Twins.SHORTLIST_SIZE - 1) == [];
    assert Twins.Shortlist(g2, {1}, Twins.SHORTLIST_SIZE) == [1];
    assert Twins.PickIndex(0, 1) == 0;
  }
}
