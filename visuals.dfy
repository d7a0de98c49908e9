/**
 * Image quota, gallery and soul bar (visuals.ts): the daily limit on AI
 * image generations, the paging and buttons of the gallery of artifacts
 * with images, and the bar of the soul ASCII art.
 *
 * The time of today's midnight, which the source reads from the local
 * clock, is a parameter. An artifact "has an image" when its `imageUrl`
 * exists and is not null.
 */
module Visuals {
  import opened Config
  import opened Records
  import Souls

  // ---------- Soul art ----------

  const BAR_LENGTH: int := 20

  /** The picture getSoulArt draws, or the RangeError `repeat` throws on a negative count. */
  datatype SoulArt = RangeError | Fallen | Critical | Bar(filled: int, empty: int, percentage: int)

  function GetSoulArt(percentage: int): (art: SoulArt)
    ensures art.RangeError? <==> percentage < 0 || percentage >= 105
    ensures !art.RangeError? ==>
      && (art.Fallen? <==> percentage == 0)
      && (art.Critical? <==> 0 < percentage < Souls.CRITICAL_SOUL)
      && (art.Bar? <==> Souls.CRITICAL_SOUL <= percentage)
    ensures art.Bar? ==>
      && art.filled + art.empty == BAR_LENGTH
      && 5 * art.filled <= percentage < 5 * art.filled + 5
      && art.percentage == percentage
  {
    var filled := percentage / 5;
    var empty := BAR_LENGTH - filled;
    if filled < 0 || empty < 0 then RangeError
    else if percentage <= 0 then Fallen
    else if percentage < 30 then Critical
    else Bar(filled, empty, percentage)
  }

  /**
   * For a soul within its bounds the art never throws, shows the fallen
   * picture exactly when the soul view says dead, and the critical one
   * exactly when it says critical but not dead.
   */
  lemma SoulArtMatchesView(s: Soul)
    requires s.max == MAX_SOUL && 0 <= s.current <= MAX_SOUL
    ensures var v := Souls.ViewOf(s);
      var art := GetSoulArt(v.percentage);
      && !art.RangeError?
      && v.percentage == s.current
      && (art.Fallen? <==> v.isDead)
      && (art.Critical? <==> v.isCritical && !v.isDead)
  {
    DivIsUnique(200 * s.current + MAX_SOUL, 2 * MAX_SOUL, s.current);
  }

  // ---------- Generation limit ----------

  const FREE_LIMIT: int := 3
  const VIP_LIMIT: int := 10
  const LEGENDARY_BONUS: int := 1
  const MYTHIC_BONUS: int := 2
  const LIMIT_CAP: int := 50

  /** How many timestamps lie strictly after `t`. */
  function CountAfter(ts: seq<int>, t: int): (n: nat)
    ensures n <= |ts|
  {
    if ts == [] then 0
    else CountAfter(ts[..|ts| - 1], t) + (if ts[|ts| - 1] > t then 1 else 0)
  }

  /** `countDocuments({telegramId: owner, rarity})`. */
  function CountOwned(arts: seq<Artifact>, owner: int, r: Rarity): (n: nat)
    ensures n <= |arts|
  {
    if arts == [] then 0
    else CountOwned(arts[..|arts| - 1], owner, r) + (if arts[|arts| - 1].owner == owner && arts[|arts| - 1].rarity == r then 1 else 0)
  }

  /** `player.vip?.until > now`: false when there is no VIP record. */
  predicate VipActive(p: Player, now: int) {
    p.vipUntil.Some? && p.vipUntil.value > now
  }

  /** The day's limit: 3 (10 for VIP), plus 1 per legendary and 2 per mythic owned, at most 50. */
  function DailyLimit(vip: bool, legendaries: int, mythics: int): int {
    Min((if vip then VIP_LIMIT else FREE_LIMIT) + legendaries * LEGENDARY_BONUS + mythics * MYTHIC_BONUS, LIMIT_CAP)
  }

  datatype Quota = Quota(allowed: bool, remaining: int, total: int, resetTime: int)

  /** The limit never falls when a player owns more legendaries or mythics, or becomes VIP, and never leaves 3..50. */
  lemma DailyLimitMonotone(vip: bool, legendaries: nat, mythics: nat, vip': bool, legendaries': nat, mythics': nat)
    requires (vip ==> vip') && legendaries <= legendaries' && mythics <= mythics'
    ensures DailyLimit(vip, legendaries, mythics) <= DailyLimit(vip', legendaries', mythics')
    ensures FREE_LIMIT <= DailyLimit(vip, legendaries, mythics) <= LIMIT_CAP
  {
  }

  /** A generation stamped at or before midnight does not count against today; one after it counts once. */
  lemma CountAfterAppend(ts: seq<int>, x: int, midnight: int)
    ensures CountAfter(ts + [x], midnight) == CountAfter(ts, midnight) + (if x > midnight then 1 else 0)
  {
    assert (ts + [x])[..|ts|] == ts;
  }

  // ---------- Gallery ----------

  const ITEMS_PER_PAGE: int := 5

  /** `find({telegramId: owner, imageUrl: {$exists: true, $ne: null}})`. */
  function Images(arts: seq<Artifact>, owner: int): (r: seq<Artifact>)
    ensures |r| <= |arts|
    ensures forall a :: a in r <==> a in arts && a.owner == owner && a.hasImage
  {
    if arts == [] then []
    else
      var rest := Images(arts[1..], owner);
      assert forall a :: a in arts <==> a == arts[0] || a in arts[1..];
      if arts[0].owner == owner && arts[0].hasImage then [arts[0]] + rest else rest
  }

  predicate NewestFirst(s: seq<Artifact>) {
    forall i, j :: 0 <= i < j < |s| ==> s[i].foundAt >= s[j].foundAt
  }

  /** Puts an artifact before the first one that is not newer than it. */
  function Insert(a: Artifact, s: seq<Artifact>): (r: seq<Artifact>)
    ensures multiset(r) == multiset(s) + multiset{a}
  {
    if s == [] || a.foundAt >= s[0].foundAt then [a] + s
    else
      assert s == [s[0]] + s[1..];
      [s[0]] + Insert(a, s[1..])
  }

  lemma {:induction false} InsertKeepsOrder(a: Artifact, s: seq<Artifact>)
    requires NewestFirst(s)
    ensures NewestFirst(Insert(a, s))
  {
    if s == [] || a.foundAt >= s[0].foundAt {
    } else {
      var rest := Insert(a, s[1..]);
      InsertKeepsOrder(a, s[1..]);
      forall k | 0 <= k < |rest|
        ensures s[0].foundAt >= rest[k].foundAt
      {
        assert rest[k] in multiset(rest);
        assert rest[k] == a || rest[k] in s[1..];
      }
    }
  }

  /** `sort({foundAt: -1})`. The order among equal times is not modelled. */
  function ByNewest(s: seq<Artifact>): (r: seq<Artifact>)
    ensures NewestFirst(r)
    ensures multiset(r) == multiset(s)
  {
    if s == [] then []
    else
      assert s == [s[0]] + s[1..];
      InsertKeepsOrder(s[0], ByNewest(s[1..]));
      Insert(s[0], ByNewest(s[1..]))
  }

  /** `Math.ceil(total / ITEMS_PER_PAGE)`. */
  function PageCount(total: nat): nat {
    (total + ITEMS_PER_PAGE - 1) / ITEMS_PER_PAGE
  }

  /** `.skip(page * 5).limit(5)` over the sorted images. */
  function PageItems(all: seq<Artifact>, page: nat): (items: seq<Artifact>)
    ensures |items| <= ITEMS_PER_PAGE
    ensures items == [] <==> page * ITEMS_PER_PAGE >= |all|
  {
    var start := page * ITEMS_PER_PAGE;
    if start < |all| then all[start..Min(start + ITEMS_PER_PAGE, |all|)] else []
  }

  datatype Button = View(artifactId: string) | Back(toPage: int) | Forward(toPage: int) | Imagine | MainMenu

  /** The navigation buttons of a page. */
  function NavRow(page: nat, total: nat): (nav: seq<Button>)
    ensures Back(page - 1) in nav <==> page > 0
    ensures Forward(page + 1) in nav <==> (page + 1) * ITEMS_PER_PAGE < total
    ensures |nav| <= 2
  {
    (if page > 0 then [Back(page - 1)] else []) + (if (page + 1) * ITEMS_PER_PAGE < total then [Forward(page + 1)] else [])
  }

  /** What showGallery answers: the page's artifacts, the keyboard rows, the total and the page count shown. */
  datatype Gallery = Gallery(items: seq<Artifact>, rows: seq<seq<Button>>, total: int, pageCount: int)

  /**
   * Paging is consistent: a page has items exactly when it is one of the
   * PageCount pages, Forward appears exactly when a later page exists, and
   * every image sits on page k / 5 at slot k % 5 of the newest-first order.
   */
  lemma PagingConsistent(all: seq<Artifact>, page: nat)
    ensures PageItems(all, page) != [] <==> page < PageCount(|all|)
    ensures (page + 1) * ITEMS_PER_PAGE < |all| <==> page + 1 < PageCount(|all|)
    ensures forall k :: 0 <= k < |all| ==> PageItems(all, k / ITEMS_PER_PAGE)[k % ITEMS_PER_PAGE] == all[k]
  {
    forall k | 0 <= k < |all|
      ensures PageItems(all, k / ITEMS_PER_PAGE)[k % ITEMS_PER_PAGE] == all[k]
    {
      var p := k / ITEMS_PER_PAGE;
      assert p * ITEMS_PER_PAGE <= k < p * ITEMS_PER_PAGE + ITEMS_PER_PAGE;
    }
  }

  /** One View button per artifact of the page, in order. */
  function Views(items: seq<Artifact>): (rows: seq<seq<Button>>)
    ensures |rows| == |items|
    ensures forall k :: 0 <= k < |items| ==> rows[k] == [View(items[k].id)]
  {
    seq(|items|, k requires 0 <= k < |items| => [View(items[k].id)])
  }

  /** The gallery page `page` of `owner`'s images, newest first. */
  function GalleryFor(arts: seq<Artifact>, owner: int, page: nat): Gallery {
    var all := ByNewest(Images(arts, owner));
    PageGallery(PageItems(all, page), page, |all|)
  }

  /** What one page shows: its items, their View rows, navigation, Imagine and the main menu. */
  function PageGallery(items: seq<Artifact>, page: nat, total: nat): Gallery {
    if items == [] then Gallery([], [[Imagine]], 0, 0)
    else
      var nav := NavRow(page, total);
      Gallery(items, Views(items) + (if nav == [] then [] else [nav]) + [[Imagine], [MainMenu]], total, PageCount(total))
  }

  /**
   * The gallery lists the page's images newest first, one View row each,
   * then the navigation row when there is one, then Imagine and the main
   * menu; a page beyond the last shows only the Imagine button.
   */
  lemma GalleryShape(arts: seq<Artifact>, owner: int, page: nat)
    ensures var g := GalleryFor(arts, owner, page);
      var all := ByNewest(Images(arts, owner));
      && (g.items == [] <==> page >= PageCount(|all|))
      && (g.items == [] ==> g.rows == [[Imagine]] && g.total == 0)
      && (g.items != [] ==>
            && g.items == PageItems(all, page)
            && g.total == |all| == |Images(arts, owner)|
            && g.pageCount == PageCount(|all|)
            && (forall k :: 0 <= k < |g.items| ==> g.rows[k] == [View(g.items[k].id)])
            && (forall a :: a in g.items ==> a.owner == owner && a.hasImage)
            && (page > 0 ==> Back(page - 1) in g.rows[|g.items|])
            && (page + 1 < g.pageCount ==> Forward(page + 1) in g.rows[|g.items|])
            && g.rows[|g.rows| - 2..] == [[Imagine], [MainMenu]])
  {
    var all := ByNewest(Images(arts, owner));
    var items := PageItems(all, page);
    var g := GalleryFor(arts, owner, page);
    if items != [] {
      var nav := NavRow(page, |all|);
      assert g.rows == Views(items) + (if nav == [] then [] else [nav]) + [[Imagine], [MainMenu]];
      PageHoldsOwnImages(arts, owner, page);
    }
    PagingConsistent(all, page);
  }

  /** A page holds only the owner's artifacts with images, and sorting keeps their number. */
  lemma PageHoldsOwnImages(arts: seq<Artifact>, owner: int, page: nat)
    ensures |ByNewest(Images(arts, owner))| == |Images(arts, owner)|
    ensures forall a :: a in PageItems(ByNewest(Images(arts, owner)), page) ==> a.owner == owner && a.hasImage
  {
    var all := ByNewest(Images(arts, owner));
    assert |all| == |multiset(all)| == |multiset(Images(arts, owner))| == |Images(arts, owner)|;
    forall a | a in PageItems(all, page)
      ensures a.owner == owner && a.hasImage
    {
      assert a in all;
      assert a in multiset(all);
      assert a in Images(arts, owner);
    }
  }

  class VisualsSystem {
    const db: Database

    constructor (db: Database)
      ensures this.db == db
    {
      this.db := db;
    }

    method CheckGenerationLimit(id: int, now: int, midnight: int) returns (q: Quota)
      ensures id !in db.players ==> q == Quota(false, 0, 0, 0)
      ensures id in db.players ==>
        var p := db.players[id];
        var used := CountAfter(p.stats.generatedImages, midnight);
        && q.total == DailyLimit(VipActive(p, now), CountOwned(db.artifacts, id, Legendary), CountOwned(db.artifacts, id, Mythic))
        && (q.allowed <==> used < q.total)
        && q.remaining == Max(0, q.total - used)
        && q.resetTime == midnight + DAY_MS
      ensures 0 <= q.remaining <= q.total <= LIMIT_CAP
      ensures q.allowed <==> q.remaining > 0
    {
      if id !in db.players {
        return Quota(false, 0, 0, 0);
      }
      var p := db.players[id];
      var used := CountAfter(p.stats.generatedImages, midnight);
      var limit := FREE_LIMIT;
      if p.vipUntil.Some? && p.vipUntil.value > now {
        limit := VIP_LIMIT;
      }
      var legendaries := CountOwned(db.artifacts, id, Legendary);
      limit := limit + legendaries * LEGENDARY_BONUS;
      var mythics := CountOwned(db.artifacts, id, Mythic);
      limit := limit + mythics * MYTHIC_BONUS;
      limit := Min(limit, LIMIT_CAP);
      q := Quota(used < limit, Max(0, limit - used), limit, midnight + DAY_MS);
    }

    /** One View button row per artifact of the page. */
    method ViewButtons(items: seq<Artifact>) returns (buttons: seq<seq<Button>>)
      ensures buttons == Views(items)
    {
      buttons := [];
      for i := 0 to |items|
        invariant |buttons| == i
        invariant forall k :: 0 <= k < i ==> buttons[k] == [View(items[k].id)]
      {
        buttons := buttons + [[View(items[i].id)]];
      }
    }

    method ShowGallery(id: int, page: nat) returns (g: Gallery)
      ensures g == GalleryFor(db.artifacts, id, page)
    {
      var all := ByNewest(Images(db.artifacts, id));
      var items := PageItems(all, page);
      g := RenderPage(items, page, |all|);
    }

    /** The answer of showGallery for the page's artifacts, out of `total` images. */
    method RenderPage(items: seq<Artifact>, page: nat, total: nat) returns (g: Gallery)
      ensures g == PageGallery(items, page, total)
    {
      if |items| == 0 {
        return Gallery([], [[Imagine]], 0, 0);
      }
      var buttons := ViewButtons(items);
      var nav: seq<Button> := [];
      if page > 0 {
        nav := nav + [Back(page - 1)];
      }
      if (page + 1) * ITEMS_PER_PAGE < total {
        nav := nav + [Forward(page + 1)];
      }
      assert nav == NavRow(page, total);
      if |nav| > 0 {
        buttons := buttons + [nav];
      }
      buttons := buttons + [[Imagine], [MainMenu]];
      g := Gallery(items, buttons, total, PageCount(total));
    }
  }
}
