/**
 * The persisted record shapes of config.ts (IPlayer, IArtifact) and the
 * document store that every system reads and writes.
 *
 * The players collection is a map keyed by telegramId (the store's unique
 * index), so a player record does not repeat its own id. A field the source
 * declares optional is an Option, except where the source only ever reads it
 * through `|| 0` or `|| []`, where the missing value is that default.
 * Experience is kept in tenths of a point because a successful hack grants
 * `20 + value / 10`, which is not a whole number.
 */
module Records {
  import opened Config

  datatype Option<T> = None | Some(value: T)

  /** JavaScript truthiness of an optional number: present and not zero. */
  predicate Truthy(o: Option<int>) {
    o.Some? && o.value != 0
  }

  datatype SoulEntry = SoulEntry(timestamp: int, change: int, reason: string, newValue: int)

  datatype Soul = Soul(
    current: int,
    max: int,
    lastDecay: int,
    resurrectedBy: Option<int>,
    lastResurrection: Option<int>,
    history: Option<seq<SoulEntry>>)

  /** The history as a list, empty when the array was never created. */
  function Entries(h: Option<seq<SoulEntry>>): seq<SoulEntry> {
    if h.Some? then h.value else []
  }

  /** What the store's `$push` does: it creates the array when it is missing. */
  function Pushed(h: Option<seq<SoulEntry>>, e: SoulEntry): (r: Option<seq<SoulEntry>>)
    ensures r.Some? && Entries(r) == Entries(h) + [e]
  {
    Some(Entries(h) + [e])
  }

  /** What `history?.push(e)` does on an object in memory: nothing when the array is missing. */
  function PushedIfPresent(h: Option<seq<SoulEntry>>, e: SoulEntry): (r: Option<seq<SoulEntry>>)
    ensures r.Some? <==> h.Some?
    ensures h.Some? ==> r.value == h.value + [e]
  {
    if h.Some? then Some(h.value + [e]) else None
  }

  /** Snapshot a shadow keeps of its original (or of a fabricated one). */
  datatype OriginalSnapshot = OriginalSnapshot(joinedAt: int, level: int, hacksDone: int, artifactsFound: int)

  /** `twin`: the shadow side of a twin link; `bondMilli` is bondStrength in thousandths. */
  datatype TwinLink = TwinLink(original: Option<OriginalSnapshot>, bondMilli: int, isVirtual: bool)

  /** One entry of `twins`, the original side of a twin link. */
  datatype TwinEntry = TwinEntry(id: int, joinedAt: int, level: int, contribution: int)

  datatype ResurrectionRequest = ResurrectionRequest(from: int, username: string, sentAt: int, expiresAt: int)

  datatype PvpRecord = PvpRecord(rating: int, wins: int, losses: int)

  datatype Stats = Stats(
    hacksDone: int,
    artifactsFound: int,
    pvpBattles: int,
    pvpWins: int,
    successfulHacks: int,
    failedHacks: int,
    resurrectionsGiven: int,
    twinCount: Option<int>,
    generatedImages: seq<int>)  // timestamps of generated images

  datatype Player = Player(
    username: string,
    stars: int,
    energy: int,
    maxEnergy: int,
    level: int,
    experience: int,  // tenths of a point
    inventory: seq<string>,
    lastEnergyRegen: int,
    lastHackTime: Option<int>,
    lastAction: Option<int>,
    lastPvpTime: Option<int>,
    soul: Option<Soul>,
    twin: Option<TwinLink>,
    twins: seq<TwinEntry>,
    resurrectionRequests: seq<ResurrectionRequest>,
    pvp: PvpRecord,
    stats: Stats,
    vipUntil: Option<int>,
    createdAt: int)

  /** A record of the hallOfFame archive. */
  datatype FallenRecord = FallenRecord(username: string, level: int, artifactsFound: int, diedAt: int, resurrected: bool)

  datatype Artifact = Artifact(id: string, owner: int, rarity: Rarity, value: int, foundAt: int, hasImage: bool)

  /** The players and the archive of the fallen, the part of the store the soul ledger changes. */
  datatype Ledger = Ledger(players: map<int, Player>, hallOfFame: seq<FallenRecord>)

  /** The document store: the players, hallOfFame and artifacts collections. */
  class Database {
    var players: map<int, Player>
    var hallOfFame: seq<FallenRecord>
    var artifacts: seq<Artifact>

    constructor ()
      ensures players == map[] && hallOfFame == [] && artifacts == []
    {
      players := map[];
      hallOfFame := [];
      artifacts := [];
    }

    /** The players and the archive as one value. */
    function State(): Ledger
      reads this
    {
      Ledger(players, hallOfFame)
    }
  }

  /** `Math.min` and `Math.max` on whole numbers. */
  function Min(a: int, b: int): int {
    if a < b then a else b
  }

  function Max(a: int, b: int): int {
    if a < b then b else a
  }

  /** `Math.round(part / whole * 100)`, which rounds halves upwards; 0 when whole is not positive. */
  function Percent(part: int, whole: int): (pct: int)
    ensures whole > 0 ==> 2 * whole * pct - whole <= 200 * part < 2 * whole * pct + whole
    ensures whole > 0 && 0 <= part <= whole ==> 0 <= pct <= 100
  {
    if whole > 0 then (200 * part + whole) / (2 * whole) else 0
  }

  /** The quotient is the one whole number whose multiples bracket the dividend. */
  lemma DivIsUnique(n: int, d: int, q: int)
    requires d > 0 && d * q <= n < d * q + d
    ensures n / d == q
  {
    var k := n / d;
    assert d * k <= n < d * k + d;
    if k < q {
      MulAtLeast(d, q - k);
    } else if k > q {
      MulAtLeast(d, k - q);
    }
  }

  lemma {:induction false} MulAtLeast(d: int, m: int)
    requires d > 0 && m >= 1
    ensures d * m >= d
    decreases m
  {
    if m > 1 {
      MulAtLeast(d, m - 1);
      assert d * m == d * (m - 1) + d;
    }
  }

  /** No part of a positive whole is 0%, and all of it 100%. */
  lemma PercentOfNothing(whole: int)
    requires whole > 0
    ensures Percent(0, whole) == 0
  {
    DivIsUnique(whole, 2 * whole, 0);
  }

  lemma PercentOfWhole(whole: int)
    requires whole > 0
    ensures Percent(whole, whole) == 100
  {
    DivIsUnique(200 * whole + whole, 2 * whole, 100);
  }

  /** The PvP rating the source reads as `player?.pvp?.rating || 0`. */
  function RatingOf(ps: map<int, Player>, id: int): int {
    if id in ps then ps[id].pvp.rating else 0
  }

  /** The ids of a `twins` list, in order. */
  function TwinIds(twins: seq<TwinEntry>): (ids: seq<int>)
    ensures |ids| == |twins|
    ensures forall k :: 0 <= k < |twins| ==> ids[k] == twins[k].id
  {
    if twins == [] then [] else TwinIds(twins[..|twins| - 1]) + [twins[|twins| - 1].id]
  }

  /** The query `{'twins.id': id}` matches this player. */
  predicate ListsTwin(p: Player, id: int) {
    id in TwinIds(p.twins)
  }

  /** Smallest element of a non-empty set. */
  ghost function MinOf(s: set<int>): (m: int)
    requires s != {}
    ensures m in s
    ensures forall x :: x in s ==> m <= x
    decreases |s|
  {
    var x := Pick(s);
    if s == {x} then x
    else
      var r := MinOf(s - {x});
      assert forall y :: y in s ==> y == x || y in s - {x};
      if x <= r then x else r
  }

  /** Some element of a non-empty set. */
  ghost function Pick(s: set<int>): (x: int)
    requires s != {}
    ensures x in s
  {
    assert exists y :: y in s by {
      if forall y :: y !in s { assert false; }
    }
    var x :| x in s; x
  }

  /**
   * `findOne({'twins.id': id})`: a player whose `twins` lists `id`. The
   * store's natural order is not modelled; the model takes the smallest id.
   */
  ghost function OriginalOf(ps: map<int, Player>, id: int): (r: Option<int>)
    ensures r.Some? ==> r.value in ps && ListsTwin(ps[r.value], id)
    ensures r.Some? ==> forall o :: o in ps && ListsTwin(ps[o], id) ==> r.value <= o
    ensures r.None? <==> forall o :: o in ps ==> !ListsTwin(ps[o], id)
  {
    var s := set o | o in ps && ListsTwin(ps[o], id);
    if s == {} then
      assert forall o :: o in ps && ListsTwin(ps[o], id) ==> o in s;
      None
    else
      assert forall o :: o in ps && ListsTwin(ps[o], id) ==> o in s;
      Some(MinOf(s))
  }

  /** Two stores with the same ids and the same twins lists. */
  ghost predicate SameTwins(ps: map<int, Player>, qs: map<int, Player>) {
    ps.Keys == qs.Keys && forall o :: o in ps ==> ps[o].twins == qs[o].twins
  }

  /** The original of a player depends only on the ids and the twins lists. */
  lemma OriginalOfKept(ps: map<int, Player>, qs: map<int, Player>, id: int)
    requires SameTwins(ps, qs)
    ensures OriginalOf(ps, id) == OriginalOf(qs, id)
  {
    var a := OriginalOf(ps, id);
    var b := OriginalOf(qs, id);
    assert forall o :: o in ps ==> (ListsTwin(ps[o], id) <==> ListsTwin(qs[o], id));
    if a.Some? && b.Some? {
      assert a.value <= b.value && b.value <= a.value;
    }
  }

  /** The lookup OriginalOf stands for, as the systems run it. */
  method FindOriginal(ps: map<int, Player>, id: int) returns (r: Option<int>)
    ensures r == OriginalOf(ps, id)
  {
    var matching := set o | o in ps && ListsTwin(ps[o], id);
    ghost var g := OriginalOf(ps, id);
    if matching == {} {
      assert forall o :: o in ps && ListsTwin(ps[o], id) ==> o in matching;
      r := None;
    } else {
      assert g.Some? && g.value in matching;
      var o :| o in matching && forall q :: q in matching ==> o <= q;
      r := Some(o);
    }
  }
}
