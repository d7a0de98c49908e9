/**
 * Twin links (twins.ts). Every newcomer becomes the shadow of an original:
 * one of the existing players with the fewest shadows, or a fabricated
 * ("virtual") one when nobody qualifies. A shadow's hacks pass a share of
 * their experience to its original and strengthen the bond, and the strength
 * of the bond decides how the link feels.
 *
 * bondStrength is kept in thousandths: the increments are 0.001 and the tier
 * cut points are multiples of 0.1. Random rolls are parameters.
 */
module Twins {
  import opened Config
  import opened Records

  const MAX_SHADOWS: int := 3
  const SHORTLIST_SIZE: nat := 5
  /** bondStrength 0.1, 0.2 and 1, in thousandths. */
  const LINK_BOND: int := 100
  const VIRTUAL_BOND: int := 200
  const FULL_BOND: int := 1000
  /** A virtual original joined up to 30 days ago. */
  const VIRTUAL_MAX_AGE: int := 30 * DAY_MS

  // ---------- Candidates ----------

  /** `stats.twinCount` as `$inc` sees it: a missing counter is 0. */
  function TwinCount(p: Player): int {
    if p.stats.twinCount.Some? then p.stats.twinCount.value else 0
  }

  /** The filter as written: `{$lt: 3}` on `stats.twinCount` does not match a record that lacks the field. */
  predicate EligibleAsWritten(p: Player) {
    p.stats.twinCount.Some? && p.stats.twinCount.value < MAX_SHADOWS
  }

  /** The filter as intended: fewer than three shadows, a missing counter meaning none. */
  predicate Eligible(p: Player) {
    TwinCount(p) < MAX_SHADOWS
  }

  function CandidatesAsWritten(ps: map<int, Player>, newId: int): (c: set<int>)
    ensures c <= ps.Keys && newId !in c
    ensures forall id :: id in c ==> ps[id].stats.twinCount.Some? && TwinCount(ps[id]) < MAX_SHADOWS
    ensures forall id :: id in ps && id != newId && ps[id].stats.twinCount.Some? && TwinCount(ps[id]) < MAX_SHADOWS ==> id in c
  {
    set id | id in ps && id != newId && EligibleAsWritten(ps[id])
  }

  function Candidates(ps: map<int, Player>, newId: int): (c: set<int>)
    ensures c <= ps.Keys && newId !in c
    ensures forall id :: id in c ==> TwinCount(ps[id]) < MAX_SHADOWS
    ensures forall id :: id in ps && id != newId && ps[id].stats.twinCount.None? ==> id in c
    ensures CandidatesAsWritten(ps, newId) <= c
  {
    set id | id in ps && id != newId && Eligible(ps[id])
  }

  /**
   * The order of `sort({'stats.twinCount': 1})`. The store's order among
   * equal counts is not modelled: the smaller id goes first.
   */
  predicate Before(ps: map<int, Player>, a: int, b: int)
    requires a in ps && b in ps
  {
    TwinCount(ps[a]) < TwinCount(ps[b]) || (TwinCount(ps[a]) == TwinCount(ps[b]) && a < b)
  }

  /** The first of a non-empty pool in that order. */
  ghost function Least(ps: map<int, Player>, pool: set<int>): (m: int)
    requires pool != {} && pool <= ps.Keys
    ensures m in pool
    ensures forall q :: q in pool && q != m ==> Before(ps, m, q)
    decreases |pool|
  {
    var x := Pick(pool);
    if pool == {x} then x
    else
      var r := Least(ps, pool - {x});
      assert forall q :: q in pool && q != x ==> q in pool - {x};
      if Before(ps, x, r) then x
      else
        assert Before(ps, r, x);
        r
  }

  /** The first `n` of the pool in that order: what `.sort(...).limit(n)` returns. */
  ghost function Shortlist(ps: map<int, Player>, pool: set<int>, n: nat): seq<int>
    requires pool <= ps.Keys
    decreases n
  {
    if n == 0 || pool == {} then []
    else
      var m := Least(ps, pool);
      [m] + Shortlist(ps, pool - {m}, n - 1)
  }

  /**
   * The shortlist holds min(n, |pool|) distinct members of the pool in order,
   * and every member of the pool left off comes after all of them, so nobody
   * left off has fewer shadows than anybody on it.
   */
  lemma {:induction false} ShortlistSpec(ps: map<int, Player>, pool: set<int>, n: nat)
    requires pool <= ps.Keys
    ensures var s := Shortlist(ps, pool, n);
      && |s| == Min(n, |pool|)
      && (forall i :: 0 <= i < |s| ==> s[i] in pool)
      && (forall i, j :: 0 <= i < j < |s| ==> Before(ps, s[i], s[j]))
      && (forall i, q :: 0 <= i < |s| && q in pool && q !in s ==> Before(ps, s[i], q))
    decreases n
  {
    if n == 0 || pool == {} {
    } else {
      var m := Least(ps, pool);
      var rest := pool - {m};
      var t := Shortlist(ps, rest, n - 1);
      ShortlistSpec(ps, rest, n - 1);
      var s := [m] + t;
      assert s == Shortlist(ps, pool, n);
      assert |rest| == |pool| - 1;
      forall i, j | 0 <= i < j < |s|
        ensures Before(ps, s[i], s[j])
      {
        if i == 0 {
          assert s[j] == t[j - 1] && t[j - 1] in rest;
        } else {
          assert s[i] == t[i - 1] && s[j] == t[j - 1];
        }
      }
      forall i, q | 0 <= i < |s| && q in pool && q !in s
        ensures Before(ps, s[i], q)
      {
        assert q != m && q in rest && q !in t;
        if i > 0 {
          assert s[i] == t[i - 1];
        }
      }
    }
  }

  /** Shortlist members, as the store returns them, are distinct members of the pool. */
  lemma ShortlistDistinct(ps: map<int, Player>, pool: set<int>, n: nat, i: int, j: int)
    requires pool <= ps.Keys
    requires 0 <= i < j < |Shortlist(ps, pool, n)|
    ensures Shortlist(ps, pool, n)[i] != Shortlist(ps, pool, n)[j]
  {
    ShortlistSpec(ps, pool, n);
  }

  /** The one member of a pool that comes before all others heads its shortlist. */
  lemma ShortlistStep(ps: map<int, Player>, pool: set<int>, n: nat, m: int)
    requires pool <= ps.Keys && n > 0 && m in pool
    requires forall q :: q in pool && q != m ==> Before(ps, m, q)
    ensures Shortlist(ps, pool, n) == [m] + Shortlist(ps, pool - {m}, n - 1)
  {
    var g := Least(ps, pool);
    assert g in pool;
    assert m == g;
  }

  /** One pass of the shortlist query: the first of what is left goes next. */
  lemma ShortlistAdvance(ps: map<int, Player>, pool: set<int>, left: set<int>, s: seq<int>, m: int)
    requires left <= ps.Keys && pool <= ps.Keys && |s| < SHORTLIST_SIZE && m in left
    requires forall q :: q in left && q != m ==> Before(ps, m, q)
    requires s + Shortlist(ps, left, SHORTLIST_SIZE - |s|) == Shortlist(ps, pool, SHORTLIST_SIZE)
    ensures (s + [m]) + Shortlist(ps, left - {m}, SHORTLIST_SIZE - |s + [m]|) == Shortlist(ps, pool, SHORTLIST_SIZE)
  {
    var k := SHORTLIST_SIZE - |s|;
    ShortlistStep(ps, left, k, m);
    assert (s + [m]) + Shortlist(ps, left - {m}, k - 1) == s + ([m] + Shortlist(ps, left - {m}, k - 1));
  }

  /** `Math.floor(Math.random() * n)` with the random number given in thousandths. */
  function PickIndex(roll: int, n: int): (i: int)
    requires 0 <= roll < 1000 && n > 0
    ensures 0 <= i < n
  {
    MulBelow(roll, n);
    roll * n / 1000
  }

  lemma MulBelow(roll: int, n: int)
    requires 0 <= roll < 1000 && n > 0
    ensures 0 <= roll * n < 1000 * n
  {
  }

  // ---------- Linking ----------

  /** What the original looked like to its new shadow. */
  function Snapshot(o: Player): OriginalSnapshot {
    OriginalSnapshot(o.createdAt, o.level, o.stats.hacksDone, o.stats.artifactsFound)
  }

  /** `$set` of `twin.original` and `twin.bondStrength`: a missing `isVirtual` stays missing (false). */
  function Relinked(t: Option<TwinLink>, snap: OriginalSnapshot): TwinLink {
    TwinLink(Some(snap), LINK_BOND, t.Some? && t.value.isVirtual)
  }

  /** The two updates of a link to a real original, the original's first. */
  function Attached(ps: map<int, Player>, newId: int, orig: int, now: int): map<int, Player>
    requires orig in ps
  {
    var o := ps[orig];
    var ps1 := ps[orig := o.(stats := o.stats.(twinCount := Some(TwinCount(o) + 1)),
                             twins := o.twins + [TwinEntry(newId, now, 1, 0)])];
    if newId in ps1 then ps1[newId := ps1[newId].(twin := Some(Relinked(ps1[newId].twin, Snapshot(o))))]
    else ps1
  }

  /** The rolls of createVirtualTwin: milliseconds of age, and offsets of level, hacks and artifacts. */
  datatype VirtualRolls = VirtualRolls(ageMs: int, levelRoll: int, hacksRoll: int, artifactsRoll: int)

  /** The ranges `Math.random()` gives those rolls. */
  predicate RollsInRange(v: VirtualRolls) {
    0 <= v.ageMs < VIRTUAL_MAX_AGE && 0 <= v.levelRoll < 5 && 0 <= v.hacksRoll < 500 && 0 <= v.artifactsRoll < 100
  }

  function VirtualOriginal(v: VirtualRolls, now: int): OriginalSnapshot {
    OriginalSnapshot(now - v.ageMs, 5 + v.levelRoll, 100 + v.hacksRoll, 20 + v.artifactsRoll)
  }

  /** createVirtualTwin: all three `twin` fields set on the shadow, if it exists. */
  function Fabricated(ps: map<int, Player>, twinId: int, v: VirtualRolls, now: int): map<int, Player> {
    if twinId in ps then ps[twinId := ps[twinId].(twin := Some(TwinLink(Some(VirtualOriginal(v, now)), VIRTUAL_BOND, true)))]
    else ps
  }

  /** assignTwin over a given candidate pool: a random member of its shortlist, or a virtual original. */
  ghost function AssignedFrom(ps: map<int, Player>, newId: int, pool: set<int>, now: int, roll: int, v: VirtualRolls): map<int, Player>
    requires pool <= ps.Keys && 0 <= roll < 1000
  {
    var short := Shortlist(ps, pool, SHORTLIST_SIZE);
    if short == [] then Fabricated(ps, newId, v, now)
    else
      ShortlistSpec(ps, pool, SHORTLIST_SIZE);
      Attached(ps, newId, short[PickIndex(roll, |short|)], now)
  }

  /** assignTwin with the candidate filter as intended. */
  ghost function Assigned(ps: map<int, Player>, newId: int, now: int, roll: int, v: VirtualRolls): map<int, Player>
    requires 0 <= roll < 1000
  {
    AssignedFrom(ps, newId, Candidates(ps, newId), now, roll, v)
  }

  /** assignTwin with the candidate filter as written. */
  ghost function AssignedAsWritten(ps: map<int, Player>, newId: int, now: int, roll: int, v: VirtualRolls): map<int, Player>
    requires 0 <= roll < 1000
  {
    AssignedFrom(ps, newId, CandidatesAsWritten(ps, newId), now, roll, v)
  }

  // ---------- Sharing ----------

  /** `Math.floor(expGained * 0.05)`, in tenths of a point of experience given in tenths. */
  function Share(gain: int): (s: int)
    ensures s % 10 == 0
    ensures 20 * s <= gain < 20 * s + 200
  {
    (gain / 200) * 10
  }

  /** onTwinHack: the real original, if any, gains the share; the shadow's bond grows by 0.001. */
  ghost function TwinHacked(ps: map<int, Player>, twinId: int, gain: int): (after: map<int, Player>)
    ensures after.Keys == ps.Keys
  {
    if twinId !in ps || ps[twinId].twin.None? || ps[twinId].twin.value.original.None? then ps
    else
      var link := ps[twinId].twin.value;
      var ps1 := match OriginalOf(ps, twinId)
        case Some(o) => ps[o := ps[o].(experience := ps[o].experience + Share(gain))]
        case None => ps;
      ps1[twinId := ps1[twinId].(twin := Some(link.(bondMilli := link.bondMilli + 1)))]
  }

  /** One `$inc: {energy: 1}` on a player, which matches nobody when the id is unknown. */
  function Bumped(ps: map<int, Player>, id: int): map<int, Player> {
    if id in ps then ps[id := ps[id].(energy := ps[id].energy + 1)] else ps
  }

  /** onOriginalHack's loop: one bump per listed id, in order. */
  function Energised(ps: map<int, Player>, ids: seq<int>): map<int, Player>
    decreases |ids|
  {
    if ids == [] then ps else Bumped(Energised(ps, ids[..|ids| - 1]), ids[|ids| - 1])
  }

  // ---------- Feeling ----------

  /** The six feelings of getTwinFeeling, weakest first. */
  datatype Feeling = Distant | Thoughts | Pride | SameStars | Echo | Meeting

  function Tier(f: Feeling): nat {
    match f
    case Distant => 0
    case Thoughts => 1
    case Pride => 2
    case SameStars => 3
    case Echo => 4
    case Meeting => 5
  }

  /** The cut points 0.1, 0.3, 0.5, 0.7 and 0.9, in thousandths. */
  const CUTS: seq<int> := [100, 300, 500, 700, 900]

  /** How many of the cut points a strength has reached. */
  function Reached(cuts: seq<int>, strength: int): (n: nat)
    ensures n <= |cuts|
  {
    if cuts == [] then 0
    else (if cuts[0] <= strength then 1 else 0) + Reached(cuts[1..], strength)
  }

  /** The count of cut points reached, written out. */
  lemma CutsReached(strength: int)
    ensures Reached(CUTS, strength) ==
      (if 100 <= strength then 1 else 0) + (if 300 <= strength then 1 else 0) + (if 500 <= strength then 1 else 0)
      + (if 700 <= strength then 1 else 0) + (if 900 <= strength then 1 else 0)
  {
    var c := CUTS;
    assert c[1..][1..][1..][1..][1..] == [];
    assert Reached(c[1..][1..][1..][1..], strength) == (if 900 <= strength then 1 else 0);
    assert Reached(c[1..][1..][1..], strength) == (if 700 <= strength then 1 else 0) + Reached(c[1..][1..][1..][1..], strength);
    assert Reached(c[1..][1..], strength) == (if 500 <= strength then 1 else 0) + Reached(c[1..][1..][1..], strength);
    assert Reached(c[1..], strength) == (if 300 <= strength then 1 else 0) + Reached(c[1..][1..], strength);
  }

  function FeelingFor(strength: int): (f: Feeling)
    ensures Tier(f) == Reached(CUTS, strength)
  {
    CutsReached(strength);
    if strength < 100 then Distant
    else if strength < 300 then Thoughts
    else if strength < 500 then Pride
    else if strength < 700 then SameStars
    else if strength < 900 then Echo
    else Meeting
  }

  /** Reaching cut points is monotone in the strength. */
  lemma {:induction false} ReachedMonotone(cuts: seq<int>, a: int, b: int)
    requires a <= b
    ensures Reached(cuts, a) <= Reached(cuts, b)
    decreases |cuts|
  {
    if cuts != [] {
      ReachedMonotone(cuts[1..], a, b);
    }
  }

  /** A stronger bond never feels weaker. */
  lemma FeelingMonotone(a: int, b: int)
    requires a <= b
    ensures Tier(FeelingFor(a)) <= Tier(FeelingFor(b))
  {
    ReachedMonotone(CUTS, a, b);
  }

  /** The report of getTwinFeeling; strength in thousandths. */
  datatype TwinSense = TwinSense(feeling: Feeling, strength: int, originalLevel: Option<int>,
                                 originalHacks: Option<int>, isVirtual: bool)

  // ---------- The system ----------

  class TwinSystem {
    const db: Database

    constructor (db: Database)
      ensures this.db == db
    {
      this.db := db;
    }

    /** The store's answer to the shortlist query over a candidate pool. */
    method QueryShortlist(pool: set<int>) returns (s: seq<int>)
      requires pool <= db.players.Keys
      ensures s == Shortlist(db.players, pool, SHORTLIST_SIZE)
    {
      var ps := db.players;
      var left := pool;
      s := [];
      while |s| < SHORTLIST_SIZE && left != {}
        invariant left <= pool && |s| <= SHORTLIST_SIZE
        invariant s + Shortlist(ps, left, SHORTLIST_SIZE - |s|) == Shortlist(ps, pool, SHORTLIST_SIZE)
        decreases SHORTLIST_SIZE - |s|
      {
        ghost var g := Least(ps, left);
        var m :| m in left && forall q :: q in left && q != m ==> Before(ps, m, q);
        ShortlistAdvance(ps, pool, left, s, m);
        s := s + [m];
        left := left - {m};
      }
    }

    method AssignTwin(newId: int, now: int, roll: int, v: VirtualRolls)
      requires 0 <= roll < 1000
      modifies db
      ensures db.players == Assigned(old(db.players), newId, now, roll, v)
      ensures db.hallOfFame == old(db.hallOfFame) && db.artifacts == old(db.artifacts)
    {
      var ps := db.players;
      var pool := set id | id in ps && id != newId && Eligible(ps[id]);
      assert pool == Candidates(ps, newId);
      var short := QueryShortlist(pool);
      AssignedByShortlist(ps, newId, now, roll, v);
      if |short| == 0 {
        CreateVirtualTwin(newId, now, v);
      } else {
        LinkTo(newId, short[PickIndex(roll, |short|)], now);
      }
    }

    /** The updates of assignTwin once the original `orig` is picked. */
    method LinkTo(newId: int, orig: int, now: int)
      requires orig in db.players
      modifies db
      ensures db.players == Attached(old(db.players), newId, orig, now)
      ensures db.hallOfFame == old(db.hallOfFame) && db.artifacts == old(db.artifacts)
    {
      var ps := db.players;
      var o := ps[orig];
      var ps1 := ps[orig := o.(stats := o.stats.(twinCount := Some(TwinCount(o) + 1)),
                               twins := o.twins + [TwinEntry(newId, now, 1, 0)])];
      if newId in ps1 {
        ps1 := ps1[newId := ps1[newId].(twin := Some(Relinked(ps1[newId].twin, Snapshot(o))))];
      }
      db.players := ps1;
    }

    method CreateVirtualTwin(twinId: int, now: int, v: VirtualRolls)
      modifies db
      ensures db.players == Fabricated(old(db.players), twinId, v, now)
      ensures db.hallOfFame == old(db.hallOfFame) && db.artifacts == old(db.artifacts)
    {
      if twinId in db.players {
        var p := db.players[twinId];
        db.players := db.players[twinId := p.(twin := Some(TwinLink(Some(VirtualOriginal(v, now)), VIRTUAL_BOND, true)))];
      }
    }

    /** `gain` is the shadow's experience from the hack, in tenths. */
    method OnTwinHack(twinId: int, gain: int)
      modifies db
      ensures db.players == TwinHacked(old(db.players), twinId, gain)
      ensures db.hallOfFame == old(db.hallOfFame) && db.artifacts == old(db.artifacts)
    {
      var ps := db.players;
      if twinId !in ps || ps[twinId].twin.None? || ps[twinId].twin.value.original.None? {
        return;
      }
      var link := ps[twinId].twin.value;
      var original := FindOriginal(ps, twinId);
      var ps1 := ps;
      if original.Some? {
        var o := original.value;
        ps1 := ps[o := ps[o].(experience := ps[o].experience + Share(gain))];
      }
      var next := ps1[twinId := ps1[twinId].(twin := Some(link.(bondMilli := link.bondMilli + 1)))];
      assert next == TwinHacked(ps, twinId, gain);
      db.players := next;
    }

    method OnOriginalHack(originalId: int)
      modifies db
      ensures originalId !in old(db.players) ==> db.players == old(db.players)
      ensures originalId in old(db.players) ==>
        db.players == Energised(old(db.players), TwinIds(old(db.players)[originalId].twins))
      ensures db.hallOfFame == old(db.hallOfFame) && db.artifacts == old(db.artifacts)
    {
      if originalId !in db.players || |db.players[originalId].twins| == 0 {
        return;
      }
      var twins := db.players[originalId].twins;
      ghost var ids := TwinIds(twins);
      ghost var ps0 := db.players;
      var cur := db.players;
      for i := 0 to |twins|
        invariant cur == Energised(ps0, ids[..i])
      {
        assert ids[..i + 1][..i] == ids[..i];
        cur := Bumped(cur, twins[i].id);
      }
      assert ids[..|twins|] == ids;
      db.players := cur;
    }

    method GetTwinFeeling(id: int) returns (r: Option<TwinSense>)
      ensures r.None? <==> id !in db.players || db.players[id].twin.None?
      ensures r.Some? ==>
        var t := db.players[id].twin.value;
        && r.value.feeling == FeelingFor(t.bondMilli)
        && r.value.strength == Min(FULL_BOND, t.bondMilli)
        && r.value.isVirtual == t.isVirtual
        && (r.value.originalLevel.Some? <==> t.original.Some?)
        && (t.original.Some? ==>
              r.value.originalLevel.value == t.original.value.level && r.value.originalHacks == Some(t.original.value.hacksDone))
    {
      if id !in db.players || db.players[id].twin.None? {
        return None;
      }
      var t := db.players[id].twin.value;
      var level := if t.original.Some? then Some(t.original.value.level) else None;
      var hacks := if t.original.Some? then Some(t.original.value.hacksDone) else None;
      r := Some(TwinSense(FeelingFor(t.bondMilli), Min(FULL_BOND, t.bondMilli), level, hacks, t.isVirtual));
    }
  }

  // ---------- Properties ----------

  /**
   * assignTwin picks a shortlisted candidate when there is one: that player
   * gains exactly one shadow entry for the newcomer and one to its count, the
   * newcomer stores the original's snapshot with bond 0.1, and nobody else
   * changes. Nobody with fewer shadows was passed over for the shortlist.
   */
  lemma AssignLinksCandidate(ps: map<int, Player>, newId: int, now: int, roll: int, v: VirtualRolls)
      returns (orig: int)
    requires 0 <= roll < 1000 && newId in ps
    requires Candidates(ps, newId) != {}
    ensures orig in Candidates(ps, newId) && orig in Shortlist(ps, Candidates(ps, newId), SHORTLIST_SIZE)
    ensures forall q :: q in Candidates(ps, newId) && TwinCount(ps[q]) < TwinCount(ps[orig]) ==>
              q in Shortlist(ps, Candidates(ps, newId), SHORTLIST_SIZE)
    ensures var after := Assigned(ps, newId, now, roll, v);
      && after.Keys == ps.Keys
      && after[orig].twins == ps[orig].twins + [TwinEntry(newId, now, 1, 0)]
      && TwinCount(after[orig]) == TwinCount(ps[orig]) + 1
      && after[newId].twin == Some(TwinLink(Some(Snapshot(ps[orig])), LINK_BOND, ps[newId].twin.Some? && ps[newId].twin.value.isVirtual))
      && (forall q :: q in ps && q != orig && q != newId ==> after[q] == ps[q])
  {
    var pool := Candidates(ps, newId);
    ShortlistSpec(ps, pool, SHORTLIST_SIZE);
    var short := Shortlist(ps, pool, SHORTLIST_SIZE);
    assert |short| > 0;
    orig := short[PickIndex(roll, |short|)];
    assert Assigned(ps, newId, now, roll, v) == Attached(ps, newId, orig, now);
    AttachedEffects(ps, newId, orig, now);
    forall q | q in pool && TwinCount(ps[q]) < TwinCount(ps[orig])
      ensures q in short
    {
      assert q !in short ==> Before(ps, orig, q);
    }
  }

  lemma AttachedEffects(ps: map<int, Player>, newId: int, orig: int, now: int)
    requires orig in ps && newId in ps && orig != newId
    ensures var after := Attached(ps, newId, orig, now);
      && after.Keys == ps.Keys
      && after[orig].twins == ps[orig].twins + [TwinEntry(newId, now, 1, 0)]
      && TwinCount(after[orig]) == TwinCount(ps[orig]) + 1
      && after[newId].twin == Some(TwinLink(Some(Snapshot(ps[orig])), LINK_BOND, ps[newId].twin.Some? && ps[newId].twin.value.isVirtual))
      && (forall q :: q in ps && q != orig && q != newId ==> after[q] == ps[q])
  {
  }

  /**
   * Whatever the pool, assignTwin gives the newcomer a link to some original
   * and changes nothing else about it, and changes at most one other player,
   * a member of the pool.
   */
  lemma AssignedFromShape(ps: map<int, Player>, newId: int, pool: set<int>, now: int, roll: int, v: VirtualRolls)
    requires pool <= ps.Keys && newId !in pool && newId in ps && 0 <= roll < 1000
    ensures var after := AssignedFrom(ps, newId, pool, now, roll, v);
      && after.Keys == ps.Keys
      && after[newId] == ps[newId].(twin := after[newId].twin)
      && after[newId].twin.Some? && after[newId].twin.value.original.Some?
      && (forall q :: q in ps && q != newId && after[q] != ps[q] ==> q in pool)
      && (forall q, r :: q in ps && r in ps && q != newId && r != newId && after[q] != ps[q] && after[r] != ps[r] ==> q == r)
  {
    var short := Shortlist(ps, pool, SHORTLIST_SIZE);
    ShortlistSpec(ps, pool, SHORTLIST_SIZE);
    if short == [] {
      assert AssignedFrom(ps, newId, pool, now, roll, v) == Fabricated(ps, newId, v, now);
    } else {
      var orig := short[PickIndex(roll, |short|)];
      assert orig in pool;
      assert AssignedFrom(ps, newId, pool, now, roll, v) == Attached(ps, newId, orig, now);
      AttachedTouches(ps, newId, orig, now);
    }
  }

  /** Linking to `orig` changes the newcomer's twin link and the original, nobody else. */
  lemma AttachedTouches(ps: map<int, Player>, newId: int, orig: int, now: int)
    requires orig in ps && newId in ps && orig != newId
    ensures var after := Attached(ps, newId, orig, now);
      && after.Keys == ps.Keys
      && after[newId] == ps[newId].(twin := after[newId].twin)
      && after[newId].twin.Some? && after[newId].twin.value.original.Some?
      && (forall q :: q in ps && q != newId && q != orig ==> after[q] == ps[q])
  {
  }

  /** Which branch of assignTwin the shortlist selects. */
  lemma AssignedByShortlist(ps: map<int, Player>, newId: int, now: int, roll: int, v: VirtualRolls)
    requires 0 <= roll < 1000
    ensures var short := Shortlist(ps, Candidates(ps, newId), SHORTLIST_SIZE);
      && (short == [] ==> Assigned(ps, newId, now, roll, v) == Fabricated(ps, newId, v, now))
      && (short != [] ==>
            && short[PickIndex(roll, |short|)] in ps
            && Assigned(ps, newId, now, roll, v) == Attached(ps, newId, short[PickIndex(roll, |short|)], now))
  {
    ShortlistSpec(ps, Candidates(ps, newId), SHORTLIST_SIZE);
  }

  /** With no candidate, the newcomer gets a virtual original of level 5 to 9 with bond 0.2, and nobody else changes. */
  lemma AssignFallsBackToVirtual(ps: map<int, Player>, newId: int, now: int, roll: int, v: VirtualRolls)
    requires 0 <= roll < 1000 && newId in ps && RollsInRange(v)
    requires Candidates(ps, newId) == {}
    ensures var after := Assigned(ps, newId, now, roll, v);
      && after.Keys == ps.Keys
      && after[newId].twin.Some?
      && after[newId].twin.value.isVirtual
      && after[newId].twin.value.bondMilli == VIRTUAL_BOND
      && after[newId].twin.value.original.Some?
      && 5 <= after[newId].twin.value.original.value.level <= 9
      && now - VIRTUAL_MAX_AGE < after[newId].twin.value.original.value.joinedAt <= now
      && (forall q :: q in ps && q != newId ==> after[q] == ps[q])
  {
    assert Shortlist(ps, Candidates(ps, newId), SHORTLIST_SIZE) == [];
  }

  /** Nobody is ever shortlisted as their own original. */
  lemma ShortlistExcludesNewcomer(ps: map<int, Player>, newId: int)
    ensures newId !in Shortlist(ps, Candidates(ps, newId), SHORTLIST_SIZE)
  {
    var pool := Candidates(ps, newId);
    ShortlistSpec(ps, pool, SHORTLIST_SIZE);
  }

  /**
   * onTwinHack does nothing without a link to an original. Otherwise it grows
   * the bond by exactly 0.001, with no cap, and leaves the rest of the shadow's
   * record alone; the only other player it changes is the real original,
   * which gains the share of the experience.
   */
  lemma TwinHackEffects(ps: map<int, Player>, twinId: int, gain: int)
    ensures var after := TwinHacked(ps, twinId, gain);
      && after.Keys == ps.Keys
      && (twinId !in ps || ps[twinId].twin.None? || ps[twinId].twin.value.original.None? ==> after == ps)
      && (twinId in ps && ps[twinId].twin.Some? && ps[twinId].twin.value.original.Some? ==>
            after[twinId].twin == Some(ps[twinId].twin.value.(bondMilli := ps[twinId].twin.value.bondMilli + 1)))
      && (twinId in ps && OriginalOf(ps, twinId) != Some(twinId) ==> after[twinId] == ps[twinId].(twin := after[twinId].twin))
      && (forall q :: q in ps && q != twinId && after[q] != ps[q] ==>
            Some(q) == OriginalOf(ps, twinId) && after[q] == ps[q].(experience := ps[q].experience + Share(gain)))
  {
  }

  /**
   * onOriginalHack's loop adds to each player's energy exactly the number of
   * times the list names them (once for every listed shadow), and changes
   * nothing else.
   */
  lemma {:induction false} EnergisedEffect(ps: map<int, Player>, ids: seq<int>)
    ensures var after := Energised(ps, ids);
      && after.Keys == ps.Keys
      && forall q :: q in ps ==> after[q] == ps[q].(energy := ps[q].energy + multiset(ids)[q])
    decreases |ids|
  {
    if ids != [] {
      var init := ids[..|ids| - 1];
      var last := ids[|ids| - 1];
      EnergisedEffect(ps, init);
      assert ids == init + [last];
      assert multiset(ids) == multiset(init) + multiset{last};
    }
  }
}
