/**
 * The soul ledger (soul.ts): a per-player counter between 0 and its maximum,
 * an append-only history of its changes, lazy whole-day idle decay, the death
 * transition (a resurrection request to the player's original, or a reset and
 * an entry in the hall of fame) and resurrection by another player.
 *
 * Each operation of SoulSystem is a method that reads and rewrites records of
 * the store as the source does; its postcondition equates the new store with
 * a ghost function of the old one (AfterLoss, AfterDeath, ...). The lemmas at
 * the end state what the source promises about those functions. The clock is
 * the parameter `now`.
 */
module Souls {
  import opened Config
  import opened Records

  const UNKNOWN_GUARDIAN: string := "Неизвестный Страж"
  const IDLE_DECAY: string := "idle_decay"
  const RESURRECTION_SACRIFICE: string := "resurrection_sacrifice"

  /** The soul level below which getSoul reports the soul as critical. */
  const CRITICAL_SOUL: int := 30

  // ---------- Arithmetic of one soul record ----------

  /** `Math.max(0, current - amount)`. */
  function Drained(current: int, amount: int): (r: int)
    ensures r >= 0
    ensures r == 0 <==> current <= amount
    ensures r > 0 ==> r == current - amount
  {
    if current - amount > 0 then current - amount else 0
  }

  /** `Math.min(max, current + amount)`. */
  function Refilled(current: int, max: int, amount: int): (r: int)
    ensures r <= max
    ensures r == max <==> current + amount >= max
    ensures r < max ==> r == current + amount
  {
    if current + amount < max then current + amount else max
  }

  /** `Math.floor((now - lastDecay) / 86400000)`: whole days elapsed. */
  function DaysSince(now: int, lastDecay: int): (days: int)
    ensures days * DAY_MS <= now - lastDecay < (days + 1) * DAY_MS
  {
    (now - lastDecay) / DAY_MS
  }

  /** The soul written by initSoul and by permanentDeath: full, with no history. */
  function FreshSoul(now: int): (s: Soul)
    ensures s.current == s.max == MAX_SOUL && s.lastDecay == now
    ensures s.history.None? && s.resurrectedBy.None? && s.lastResurrection.None?
  {
    Soul(MAX_SOUL, MAX_SOUL, now, None, None, None)
  }

  /** loseSoul's update of the soul record. */
  function Lost(s: Soul, amount: int, reason: string, now: int): (r: Soul)
    ensures r.current == Drained(s.current, amount) && r.lastDecay == now
    ensures Entries(r.history) == Entries(s.history) + [SoulEntry(now, -amount, reason, r.current)]
    ensures r.max == s.max && r.resurrectedBy == s.resurrectedBy && r.lastResurrection == s.lastResurrection
  {
    var v := Drained(s.current, amount);
    s.(current := v, lastDecay := now, history := Pushed(s.history, SoulEntry(now, -amount, reason, v)))
  }

  /** restoreSoul's update of the soul record; lastDecay is left alone. */
  function Regained(s: Soul, amount: int, reason: string, now: int): (r: Soul)
    ensures r.current == Refilled(s.current, s.max, amount)
    ensures Entries(r.history) == Entries(s.history) + [SoulEntry(now, amount, reason, r.current)]
    ensures r.max == s.max && r.lastDecay == s.lastDecay
    ensures r.resurrectedBy == s.resurrectedBy && r.lastResurrection == s.lastResurrection
  {
    var v := Refilled(s.current, s.max, amount);
    s.(current := v, history := Pushed(s.history, SoulEntry(now, amount, reason, v)))
  }

  /** What getSoul reports. */
  datatype SoulView = SoulView(current: int, max: int, percentage: int, isCritical: bool, isDead: bool)

  function ViewOf(s: Soul): (v: SoulView)
    ensures v.current == s.current && v.max == s.max
    ensures v.isCritical <==> s.current < CRITICAL_SOUL
    ensures v.isDead <==> s.current <= 0
    ensures s.max > 0 ==> 2 * s.max * v.percentage - s.max <= 200 * s.current < 2 * s.max * v.percentage + s.max
  {
    SoulView(s.current, s.max, Percent(s.current, s.max), s.current < CRITICAL_SOUL, s.current <= 0)
  }

  datatype LossReport = LossReport(lost: int, remaining: int, isDead: bool)
  datatype RestoreReport = RestoreReport(restored: int, current: int)

  // ---------- Whole-player updates ----------

  /** permanentDeath's reset: level 1, no experience, starting stars, a full soul, an empty inventory. */
  function Reborn(p: Player, now: int): (r: Player)
    ensures r.level == 1 && r.experience == 0 && r.stars == START_STARS && r.inventory == []
    ensures r.soul == Some(FreshSoul(now))
    ensures r.energy == p.energy && r.pvp == p.pvp && r.stats == p.stats && r.twin == p.twin && r.twins == p.twins
  {
    p.(level := 1, experience := 0, stars := START_STARS, soul := Some(FreshSoul(now)), inventory := [])
  }

  /** The archive record permanentDeath writes. */
  function Epitaph(p: Player, now: int): FallenRecord {
    FallenRecord(p.username, p.level, p.stats.artifactsFound, now, false)
  }

  /**
   * The target's update in resurrect: `$set` of soul.current, soul.resurrectedBy
   * and soul.lastResurrection. On a record without a soul the store would create
   * one holding only those three fields; the missing ones read as 0 and absent.
   */
  function Revived(p: Player, rescuer: int, now: int): (r: Player)
    ensures r.soul.Some? && r.soul.value.current == HALF_SOUL
    ensures r.soul.value.resurrectedBy == Some(rescuer) && r.soul.value.lastResurrection == Some(now)
    ensures p.soul.Some? ==> r.soul.value.max == p.soul.value.max && r.soul.value.history == p.soul.value.history
    ensures r.(soul := p.soul) == p
  {
    var s := if p.soul.Some? then p.soul.value.(current := HALF_SOUL, resurrectedBy := Some(rescuer), lastResurrection := Some(now))
             else Soul(HALF_SOUL, 0, 0, Some(rescuer), Some(now), None);
    p.(soul := Some(s))
  }

  /** The rescuer's update in resurrect: `$set` of soul.lastResurrection and `$inc` of stats.resurrectionsGiven. */
  function Thanked(p: Player, now: int): (r: Player)
    ensures r.soul.Some? && r.soul.value.lastResurrection == Some(now)
    ensures p.soul.Some? ==> r.soul.value == p.soul.value.(lastResurrection := Some(now))
    ensures r.stats == p.stats.(resurrectionsGiven := p.stats.resurrectionsGiven + 1)
    ensures r.(soul := p.soul, stats := p.stats) == p
  {
    var s := if p.soul.Some? then p.soul.value.(lastResurrection := Some(now))
             else Soul(0, 0, 0, None, Some(now), None);
    p.(soul := Some(s), stats := p.stats.(resurrectionsGiven := p.stats.resurrectionsGiven + 1))
  }

  // ---------- Transitions of the store ----------

  /** `deadPlayer?.username || 'Неизвестный Страж'`. */
  function SenderName(ps: map<int, Player>, deadId: int): (name: string)
    ensures name != []
    ensures deadId in ps && ps[deadId].username != [] ==> name == ps[deadId].username
  {
    if deadId in ps && ps[deadId].username != "" then ps[deadId].username else UNKNOWN_GUARDIAN
  }

  /** sendResurrectionRequest: a request from the dead player, valid for a day, pushed onto the twin's record. */
  ghost function RequestSent(l: Ledger, twinId: int, deadId: int, now: int): (r: Ledger)
    ensures r.hallOfFame == l.hallOfFame && r.players.Keys == l.players.Keys
    ensures forall id :: id in l.players && id != twinId ==> r.players[id] == l.players[id]
    ensures twinId in l.players ==>
      var t := l.players[twinId];
      r.players[twinId] == t.(resurrectionRequests := t.resurrectionRequests + [ResurrectionRequest(deadId, SenderName(l.players, deadId), now, now + DAY_MS)])
  {
    if twinId !in l.players then l
    else
      var name := SenderName(l.players, deadId);
      var t := l.players[twinId];
      var req := ResurrectionRequest(deadId, name, now, now + DAY_MS);
      l.(players := l.players[twinId := t.(resurrectionRequests := t.resurrectionRequests + [req])])
  }

  /** permanentDeath: archive the player, then reset them. */
  ghost function Archived(l: Ledger, id: int, now: int): (r: Ledger)
    ensures r.players.Keys == l.players.Keys
    ensures forall q :: q in l.players && q != id ==> r.players[q] == l.players[q]
    ensures id in l.players ==> r.players[id] == Reborn(l.players[id], now) && r.hallOfFame == l.hallOfFame + [Epitaph(l.players[id], now)]
    ensures id !in l.players ==> r == l
  {
    if id !in l.players then l
    else Ledger(l.players[id := Reborn(l.players[id], now)], l.hallOfFame + [Epitaph(l.players[id], now)])
  }

  /** onDeath: a request to the player's original if one lists them among its twins, otherwise permanent death. */
  ghost function AfterDeath(l: Ledger, id: int, now: int): (r: Ledger)
    ensures id in l.players && OriginalOf(l.players, id).Some? ==> r == RequestSent(l, OriginalOf(l.players, id).value, id, now)
    ensures id in l.players && OriginalOf(l.players, id).None? ==> r == Archived(l, id, now)
    ensures id !in l.players ==> r == l
  {
    if id !in l.players then l
    else match OriginalOf(l.players, id)
      case Some(o) => RequestSent(l, o, id, now)
      case None => Archived(l, id, now)
  }

  /** loseSoul: record the loss, then run the death transition whenever the soul ends at 0. */
  ghost function AfterLoss(l: Ledger, id: int, amount: int, reason: string, now: int): Ledger {
    if id !in l.players || l.players[id].soul.None? then l
    else
      var p := l.players[id];
      var s := Lost(p.soul.value, amount, reason, now);
      var l1 := l.(players := l.players[id := p.(soul := Some(s))]);
      if s.current <= 0 then AfterDeath(l1, id, now) else l1
  }

  /** restoreSoul. */
  ghost function AfterRestore(ps: map<int, Player>, id: int, amount: int, reason: string, now: int): map<int, Player> {
    if id !in ps || ps[id].soul.None? then ps
    else ps[id := ps[id].(soul := Some(Regained(ps[id].soul.value, amount, reason, now)))]
  }

  /** applyIdleDecay: lose one point per whole day since lastDecay, when at least one day has passed. */
  ghost function AfterDecay(l: Ledger, id: int, now: int): Ledger {
    if id !in l.players || l.players[id].soul.None? || l.players[id].soul.value.lastDecay == 0 then l
    else
      var days := DaysSince(now, l.players[id].soul.value.lastDecay);
      if days > 0 then AfterLoss(l, id, days * IDLE_DAILY_LOSS, IDLE_DECAY, now) else l
  }

  datatype ResurrectVerdict = Resurrected(rescuerSoul: int) | NotFound | CooldownActive(daysLeft: int) | InsufficientSoul

  /** `Math.ceil(n / DAY_MS)`. */
  function DaysUp(n: int): (d: int)
    ensures (d - 1) * DAY_MS < n <= d * DAY_MS
  {
    -((-n) / DAY_MS)
  }

  /** The three checks of resurrect, in the source's order. */
  function Verdict(ps: map<int, Player>, rescuer: int, dead: int, now: int): (v: ResurrectVerdict)
    ensures v == NotFound <==>
      rescuer !in ps || ps[rescuer].soul.None? || dead !in ps || ps[dead].soul.None?
    ensures v.CooldownActive? <==>
      v != NotFound && Truthy(ps[rescuer].soul.value.lastResurrection) &&
      now - ps[rescuer].soul.value.lastResurrection.value < RESURRECTION_COOLDOWN
    ensures v.CooldownActive? ==> v.daysLeft >= 1
    ensures v == InsufficientSoul <==>
      v != NotFound && !v.CooldownActive? && ps[rescuer].soul.value.current < RESURRECTION_COST
    ensures v.Resurrected? ==> v.rescuerSoul == ps[rescuer].soul.value.current - RESURRECTION_COST >= 0
  {
    if rescuer !in ps || ps[rescuer].soul.None? || dead !in ps || ps[dead].soul.None? then NotFound
    else
      var s := ps[rescuer].soul.value;
      if Truthy(s.lastResurrection) && now - s.lastResurrection.value < RESURRECTION_COOLDOWN then
        CooldownActive(DaysUp(RESURRECTION_COOLDOWN - (now - s.lastResurrection.value)))
      else if s.current < RESURRECTION_COST then InsufficientSoul
      else Resurrected(s.current - RESURRECTION_COST)
  }

  /** resurrect: the rescuer sacrifices the cost through loseSoul, the target comes back at half soul. */
  ghost function AfterResurrect(l: Ledger, rescuer: int, dead: int, now: int): Ledger {
    if !Verdict(l.players, rescuer, dead, now).Resurrected? then l
    else
      var l1 := AfterLoss(l, rescuer, RESURRECTION_COST, RESURRECTION_SACRIFICE, now);
      var ps2 := if dead in l1.players then l1.players[dead := Revived(l1.players[dead], rescuer, now)] else l1.players;
      var ps3 := if rescuer in ps2 then ps2[rescuer := Thanked(ps2[rescuer], now)] else ps2;
      Ledger(ps3, l1.hallOfFame)
  }

  // ---------- The system ----------

  class SoulSystem {
    const db: Database

    constructor (db: Database)
      ensures this.db == db
    {
      this.db := db;
    }

    method InitSoul(id: int, now: int)
      modifies db
      ensures id in old(db.players) ==> db.players == old(db.players)[id := old(db.players)[id].(soul := Some(FreshSoul(now)))]
      ensures id !in old(db.players) ==> db.players == old(db.players)
      ensures db.hallOfFame == old(db.hallOfFame) && db.artifacts == old(db.artifacts)
    {
      if id in db.players {
        db.players := db.players[id := db.players[id].(soul := Some(FreshSoul(now)))];
      }
    }

    /** Reports the soul as read, then applies idle decay; the report does not include that decay. */
    method GetSoul(id: int, now: int) returns (v: Option<SoulView>)
      modifies db
      ensures v.None? <==> id !in old(db.players) || old(db.players)[id].soul.None?
      ensures v.Some? ==> v.value == ViewOf(old(db.players)[id].soul.value)
      ensures db.State() == AfterDecay(old(db.State()), id, now)
      ensures db.artifacts == old(db.artifacts)
    {
      if id !in db.players || db.players[id].soul.None? {
        return None;
      }
      var s := db.players[id].soul.value;
      ApplyIdleDecay(id, now);
      v := Some(ViewOf(s));
    }

    method LoseSoul(id: int, amount: int, reason: string, now: int) returns (r: Option<LossReport>)
      modifies db
      ensures r.None? <==> id !in old(db.players) || old(db.players)[id].soul.None?
      ensures r.Some? ==>
        var left := Drained(old(db.players)[id].soul.value.current, amount);
        r.value == LossReport(amount, left, left <= 0)
      ensures db.State() == AfterLoss(old(db.State()), id, amount, reason, now)
      ensures db.artifacts == old(db.artifacts)
    {
      if id !in db.players || db.players[id].soul.None? {
        return None;
      }
      var p := db.players[id];
      var newSoulValue := Drained(p.soul.value.current, amount);
      var isDead := newSoulValue <= 0;
      db.players := db.players[id := p.(soul := Some(Lost(p.soul.value, amount, reason, now)))];
      if isDead {
        OnDeath(id, now);
      }
      r := Some(LossReport(amount, newSoulValue, isDead));
    }

    method RestoreSoul(id: int, amount: int, reason: string, now: int) returns (r: Option<RestoreReport>)
      modifies db
      ensures r.None? <==> id !in old(db.players) || old(db.players)[id].soul.None?
      ensures r.Some? ==>
        var s := old(db.players)[id].soul.value;
        r.value == RestoreReport(amount, Refilled(s.current, s.max, amount))
      ensures db.players == AfterRestore(old(db.players), id, amount, reason, now)
      ensures db.hallOfFame == old(db.hallOfFame) && db.artifacts == old(db.artifacts)
    {
      if id !in db.players || db.players[id].soul.None? {
        return None;
      }
      var p := db.players[id];
      var newSoulValue := Refilled(p.soul.value.current, p.soul.value.max, amount);
      db.players := db.players[id := p.(soul := Some(Regained(p.soul.value, amount, reason, now)))];
      r := Some(RestoreReport(amount, newSoulValue));
    }

    method OnDeath(id: int, now: int)
      modifies db
      ensures db.State() == AfterDeath(old(db.State()), id, now)
      ensures db.artifacts == old(db.artifacts)
    {
      if id !in db.players {
        return;
      }
      var original := FindOriginal(db.players, id);
      if original.Some? {
        SendResurrectionRequest(original.value, id, now);
      } else {
        PermanentDeath(id, now);
      }
    }

    method SendResurrectionRequest(twinId: int, deadId: int, now: int)
      modifies db
      ensures db.State() == RequestSent(old(db.State()), twinId, deadId, now)
      ensures db.artifacts == old(db.artifacts)
    {
      var name := SenderName(db.players, deadId);
      if twinId in db.players {
        var t := db.players[twinId];
        var req := ResurrectionRequest(deadId, name, now, now + DAY_MS);
        db.players := db.players[twinId := t.(resurrectionRequests := t.resurrectionRequests + [req])];
      }
    }

    method Resurrect(rescuer: int, dead: int, now: int) returns (v: ResurrectVerdict)
      modifies db
      ensures v == Verdict(old(db.players), rescuer, dead, now)
      ensures db.State() == AfterResurrect(old(db.State()), rescuer, dead, now)
      ensures db.artifacts == old(db.artifacts)
    {
      if rescuer !in db.players || db.players[rescuer].soul.None? || dead !in db.players || db.players[dead].soul.None? {
        return NotFound;
      }
      var s := db.players[rescuer].soul.value;
      if Truthy(s.lastResurrection) {
        var timeSince := now - s.lastResurrection.value;
        if timeSince < RESURRECTION_COOLDOWN {
          return CooldownActive(DaysUp(RESURRECTION_COOLDOWN - timeSince));
        }
      }
      if s.current < RESURRECTION_COST {
        return InsufficientSoul;
      }
      var _ := LoseSoul(rescuer, RESURRECTION_COST, RESURRECTION_SACRIFICE, now);
      if dead in db.players {
        db.players := db.players[dead := Revived(db.players[dead], rescuer, now)];
      }
      if rescuer in db.players {
        db.players := db.players[rescuer := Thanked(db.players[rescuer], now)];
      }
      v := Resurrected(s.current - RESURRECTION_COST);
    }

    method ApplyIdleDecay(id: int, now: int)
      modifies db
      ensures db.State() == AfterDecay(old(db.State()), id, now)
      ensures db.artifacts == old(db.artifacts)
    {
      if id !in db.players || db.players[id].soul.None? || db.players[id].soul.value.lastDecay == 0 {
        return;
      }
      var daysPassed := DaysSince(now, db.players[id].soul.value.lastDecay);
      if daysPassed > 0 {
        var _ := LoseSoul(id, daysPassed * IDLE_DAILY_LOSS, IDLE_DECAY, now);
      }
    }

    method PermanentDeath(id: int, now: int)
      modifies db
      ensures db.State() == Archived(old(db.State()), id, now)
      ensures db.artifacts == old(db.artifacts)
    {
      if id !in db.players {
        return;
      }
      var p := db.players[id];
      db.hallOfFame := db.hallOfFame + [Epitaph(p, now)];
      db.players := db.players[id := Reborn(p, now)];
    }
  }
  // ---------- Properties ----------

  /** Every soul in the store has the full maximum and a current value between 0 and it. */
  ghost predicate SoulsBounded(ps: map<int, Player>) {
    forall id :: id in ps && ps[id].soul.Some? ==>
      ps[id].soul.value.max == MAX_SOUL && 0 <= ps[id].soul.value.current <= MAX_SOUL
  }

  /** Same ids, and every player keeps whether it has a soul and its twins list. */
  ghost predicate SameShape(ps: map<int, Player>, qs: map<int, Player>) {
    ps.Keys == qs.Keys &&
    forall id :: id in ps ==> (ps[id].soul.Some? <==> qs[id].soul.Some?) && ps[id].twins == qs[id].twins
  }

  /** The original of a player depends only on the ids and the twins lists. */
  lemma OriginalOfStable(ps: map<int, Player>, qs: map<int, Player>, id: int)
    requires SameShape(ps, qs)
    ensures OriginalOf(ps, id) == OriginalOf(qs, id)
  {
    OriginalOfKept(ps, qs, id);
  }

  /** The death transition of a player with a soul keeps every player, every soul and every twins list. */
  lemma DeathKeepsShape(l: Ledger, id: int, now: int)
    requires id in l.players ==> l.players[id].soul.Some?
    ensures SameShape(l.players, AfterDeath(l, id, now).players)
  {
  }

  /** The death transition keeps souls in range: a request changes no soul, a reset restores a full one. */
  lemma DeathKeepsBounds(l: Ledger, id: int, now: int)
    requires SoulsBounded(l.players)
    ensures SoulsBounded(AfterDeath(l, id, now).players)
  {
    var r := AfterDeath(l, id, now);
    forall q | q in r.players && r.players[q].soul.Some?
      ensures r.players[q].soul.value.max == MAX_SOUL && 0 <= r.players[q].soul.value.current <= MAX_SOUL
    {
      if id in l.players && OriginalOf(l.players, id).Some? {
        assert r.players[q].soul == l.players[q].soul;
      }
    }
  }

  /** A loss keeps every soul between 0 and MAX_SOUL and keeps the shape of the store. */
  lemma LossKeepsBounds(l: Ledger, id: int, amount: int, reason: string, now: int)
    requires SoulsBounded(l.players) && amount >= 0
    ensures SoulsBounded(AfterLoss(l, id, amount, reason, now).players)
  {
    if id in l.players && l.players[id].soul.Some? {
      var p := l.players[id];
      var s := Lost(p.soul.value, amount, reason, now);
      var l1 := l.(players := l.players[id := p.(soul := Some(s))]);
      assert SoulsBounded(l1.players);
      if s.current <= 0 {
        DeathKeepsBounds(l1, id, now);
      }
    }
  }

  /** A restore keeps every soul between 0 and MAX_SOUL. */
  lemma RestoreKeepsBounds(ps: map<int, Player>, id: int, amount: int, reason: string, now: int)
    requires SoulsBounded(ps) && amount >= 0
    ensures SoulsBounded(AfterRestore(ps, id, amount, reason, now))
  {
  }

  /** Idle decay keeps every soul between 0 and MAX_SOUL. */
  lemma DecayKeepsBounds(l: Ledger, id: int, now: int)
    requires SoulsBounded(l.players)
    ensures SoulsBounded(AfterDecay(l, id, now).players)
  {
    if id in l.players && l.players[id].soul.Some? && l.players[id].soul.value.lastDecay != 0 {
      var days := DaysSince(now, l.players[id].soul.value.lastDecay);
      if days > 0 {
        LossKeepsBounds(l, id, days * IDLE_DAILY_LOSS, IDLE_DECAY, now);
      }
    }
  }

  /** A resurrection keeps every soul between 0 and MAX_SOUL: the target comes back at half. */
  lemma ResurrectKeepsBounds(l: Ledger, rescuer: int, dead: int, now: int)
    requires SoulsBounded(l.players)
    ensures SoulsBounded(AfterResurrect(l, rescuer, dead, now).players)
  {
    if Verdict(l.players, rescuer, dead, now).Resurrected? {
      LossKeepsBounds(l, rescuer, RESURRECTION_COST, RESURRECTION_SACRIFICE, now);
    }
  }

  /** After a loss the player still has a soul, and its last decay is now. */
  lemma LossStampsDecay(l: Ledger, id: int, amount: int, reason: string, now: int)
    requires id in l.players && l.players[id].soul.Some?
    ensures var r := AfterLoss(l, id, amount, reason, now);
      id in r.players && r.players[id].soul.Some? && r.players[id].soul.value.lastDecay == now
  {
    var p := l.players[id];
    var s := Lost(p.soul.value, amount, reason, now);
    var l1 := l.(players := l.players[id := p.(soul := Some(s))]);
    if s.current <= 0 && OriginalOf(l1.players, id).Some? {
      var o := OriginalOf(l1.players, id).value;
      assert AfterDeath(l1, id, now).players[id].soul == l1.players[id].soul;
    }
  }

  /** Decay at the same instant twice is decay once. */
  lemma DecayIdempotent(l: Ledger, id: int, now: int)
    ensures AfterDecay(AfterDecay(l, id, now), id, now) == AfterDecay(l, id, now)
  {
    if id in l.players && l.players[id].soul.Some? && l.players[id].soul.value.lastDecay != 0 {
      var days := DaysSince(now, l.players[id].soul.value.lastDecay);
      if days > 0 {
        LossStampsDecay(l, id, days * IDLE_DAILY_LOSS, IDLE_DECAY, now);
        assert DaysSince(now, now) == 0;
      }
    }
  }

  /** Once a decay has been applied, no further decay happens for a whole day. */
  lemma DecaySettles(l: Ledger, id: int, now: int, later: int)
    requires id in l.players && l.players[id].soul.Some? && l.players[id].soul.value.lastDecay != 0
    requires DaysSince(now, l.players[id].soul.value.lastDecay) > 0
    requires now <= later < now + DAY_MS
    ensures AfterDecay(AfterDecay(l, id, now), id, later) == AfterDecay(l, id, now)
  {
    var days := DaysSince(now, l.players[id].soul.value.lastDecay);
    LossStampsDecay(l, id, days * IDLE_DAILY_LOSS, IDLE_DECAY, now);
    if now != 0 {
      assert DaysSince(later, now) == 0;
    }
  }

  /** A loss that does not empty the soul is undone by a restore of the same amount. */
  lemma LoseThenRestore(l: Ledger, id: int, amount: int, why: string, how: string, t1: int, t2: int)
    requires id in l.players && l.players[id].soul.Some?
    requires 0 <= amount < l.players[id].soul.value.current <= l.players[id].soul.value.max
    ensures var ps := AfterRestore(AfterLoss(l, id, amount, why, t1).players, id, amount, how, t2);
      ps[id].soul.Some? && ps[id].soul.value.current == l.players[id].soul.value.current &&
      Entries(ps[id].soul.value.history) == Entries(l.players[id].soul.value.history) + [
        SoulEntry(t1, -amount, why, l.players[id].soul.value.current - amount),
        SoulEntry(t2, amount, how, l.players[id].soul.value.current)]
  {
    var s := l.players[id].soul.value;
    var s1 := Lost(s, amount, why, t1);
    var s2 := Regained(s1, amount, how, t2);
    assert AfterLoss(l, id, amount, why, t1).players[id].soul == Some(s1);
    assert Entries(s2.history) == Entries(s.history) + [SoulEntry(t1, -amount, why, s.current - amount)] + [SoulEntry(t2, amount, how, s.current)];
  }

  /**
   * Every loss that leaves a player with a listed original at 0 queues one more
   * request on that original, even when the soul was already at 0.
   */
  lemma LossAtZeroRequestsAgain(l: Ledger, id: int, amount: int, reason: string, now: int, o: int)
    requires id in l.players && l.players[id].soul.Some? && l.players[id].soul.value.current <= amount
    requires OriginalOf(l.players, id) == Some(o)
    ensures var r := AfterLoss(l, id, amount, reason, now);
      o in r.players &&
      r.players[o].resurrectionRequests ==
        l.players[o].resurrectionRequests + [ResurrectionRequest(id, SenderName(l.players, id), now, now + DAY_MS)]
      && r.hallOfFame == l.hallOfFame
  {
    var p := l.players[id];
    var l1 := l.(players := l.players[id := p.(soul := Some(Lost(p.soul.value, amount, reason, now)))]);
    OriginalOfStable(l.players, l1.players, id);
    assert SenderName(l1.players, id) == SenderName(l.players, id);
  }

  /** When the rescuer is a different player, a resurrection revives the target and credits the rescuer. */
  lemma ResurrectEffects(l: Ledger, rescuer: int, dead: int, now: int)
    requires Verdict(l.players, rescuer, dead, now).Resurrected? && rescuer != dead
    ensures var r := AfterResurrect(l, rescuer, dead, now);
      dead in r.players && r.players[dead].soul.Some? &&
      r.players[dead].soul.value.current == HALF_SOUL &&
      r.players[dead].soul.value.resurrectedBy == Some(rescuer) &&
      r.players[dead].soul.value.lastResurrection == Some(now) &&
      rescuer in r.players && r.players[rescuer].soul.Some? &&
      r.players[rescuer].soul.value.lastResurrection == Some(now) &&
      r.players[rescuer].stats.resurrectionsGiven == l.players[rescuer].stats.resurrectionsGiven + 1
    ensures var r := AfterResurrect(l, rescuer, dead, now);
      l.players[rescuer].soul.value.current > RESURRECTION_COST ==>
        r.players[rescuer].soul.value.current == l.players[rescuer].soul.value.current - RESURRECTION_COST &&
        r.hallOfFame == l.hallOfFame
  {
    LossKeepsShape(l, rescuer, RESURRECTION_COST, RESURRECTION_SACRIFICE, now);
  }

  /** A loss keeps the ids, the souls' presence and the twins lists, whatever the amount. */
  lemma LossKeepsShape(l: Ledger, id: int, amount: int, reason: string, now: int)
    ensures SameShape(l.players, AfterLoss(l, id, amount, reason, now).players)
  {
    if id in l.players && l.players[id].soul.Some? {
      var p := l.players[id];
      var l1 := l.(players := l.players[id := p.(soul := Some(Lost(p.soul.value, amount, reason, now)))]);
      assert SameShape(l.players, l1.players);
      if l1.players[id].soul.value.current <= 0 {
        var r := AfterDeath(l1, id, now);
        DeathKeepsShape(l1, id, now);
        forall q | q in l.players
          ensures (l.players[q].soul.Some? <==> r.players[q].soul.Some?) && l.players[q].twins == r.players[q].twins
        {
          assert l1.players[q].twins == l.players[q].twins;
        }
      }
    }
  }

  /**
   * A rescuer holding exactly the cost dies in the act: they become a request
   * to their own original, or, without one, are archived and reborn.
   */
  lemma ResurrectAtExactCost(l: Ledger, rescuer: int, dead: int, now: int)
    requires Verdict(l.players, rescuer, dead, now).Resurrected? && rescuer != dead
    requires l.players[rescuer].soul.value.current == RESURRECTION_COST
    ensures var r := AfterResurrect(l, rescuer, dead, now);
      OriginalOf(l.players, rescuer).None? ==>
        r.hallOfFame == l.hallOfFame + [Epitaph(l.players[rescuer], now)] &&
        r.players[rescuer].level == 1 && r.players[rescuer].soul.value.current == MAX_SOUL
    ensures var r := AfterResurrect(l, rescuer, dead, now);
      OriginalOf(l.players, rescuer).Some? ==>
        r.hallOfFame == l.hallOfFame && r.players[rescuer].soul.value.current == 0
  {
    var p := l.players[rescuer];
    var l1 := l.(players := l.players[rescuer := p.(soul := Some(Lost(p.soul.value, RESURRECTION_COST, RESURRECTION_SACRIFICE, now)))]);
    OriginalOfStable(l.players, l1.players, rescuer);
    if OriginalOf(l.players, rescuer).Some? {
      assert AfterDeath(l1, rescuer, now).players[rescuer].soul == l1.players[rescuer].soul;
    } else {
      assert Epitaph(l1.players[rescuer], now) == Epitaph(p, now);
    }
  }
}
