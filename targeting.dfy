/** Searches over the site map: the owner query and the filtered nearest-site
    search that every targeting decision goes through. The map is visited
    in no particular order, so each loop takes its next key by choice. */
module Targeting {
  import opened Geometry
  import opened Entities

  /** The seven flags of the nearest-site search. A flag that is false
      excludes its owner or its structure; a flag that is true excludes
      nothing. */
  datatype Filters = Filters(
    owned: bool,
    enemy: bool,
    neutral: bool,
    knightBarracks: bool,
    tower: bool,
    archerBarracks: bool,
    goldmine: bool)

  const AllowAll: Filters := Filters(true, true, true, true, true, true, true)

  /** The square of the starting "closest distance" 9999999.0. */
  const FarSq: nat := 9999999 * 9999999

  /** The site survives all seven exclusions of f. */
  predicate Passes(s: Site, f: Filters)
  {
    && (f.owned || s.owner != Friendly)
    && (f.enemy || s.owner != Enemy)
    && (f.neutral || s.owner != Neutral)
    && (f.knightBarracks || !(s.structureType == Barracks && s.param2 == Knight))
    && (f.archerBarracks || !(s.structureType == Barracks && s.param2 == Archer))
    && (f.tower || s.structureType != Tower)
    && (f.goldmine || s.structureType != Goldmine)
  }

  /** id is an answer the nearest-site search may give: the sentinel when no
      passing site is closer than the starting distance, or otherwise a
      passing site that no passing site is strictly closer than. Which of
      several equally near sites is returned is left open. */
  ghost predicate ClosestResult(sites: map<int, Site>, position: Position, f: Filters, id: int)
  {
    || (id == NoSite
        && forall k | k in sites && Passes(sites[k], f) :: SqDist(position, sites[k].position) >= FarSq)
    || (id in sites && Passes(sites[id], f)
        && SqDist(position, sites[id].position) < FarSq
        && forall k | k in sites && Passes(sites[k], f) ::
             SqDist(position, sites[id].position) <= SqDist(position, sites[k].position))
  }

  /** Sites.findClosestSiteID: the running minimum over the passing sites,
      starting from the sentinel ID and distance. It returns the squared
      distance in place of the distance. */
  method FindClosestSiteID(sites: map<int, Site>, position: Position, f: Filters)
    returns (closestID: int, closestSq: nat)
    ensures closestSq <= FarSq
    ensures closestSq < FarSq ==>
              closestID in sites && Passes(sites[closestID], f)
              && closestSq == SqDist(position, sites[closestID].position)
    ensures closestSq == FarSq ==> closestID == NoSite
    ensures forall k | k in sites && Passes(sites[k], f) :: closestSq <= SqDist(position, sites[k].position)
    ensures ClosestResult(sites, position, f, closestID)
  {
    closestID, closestSq := NoSite, FarSq;
    var remaining := sites.Keys;
    while remaining != {}
      invariant remaining <= sites.Keys
      invariant closestSq <= FarSq
      invariant closestSq < FarSq ==>
                  closestID in sites && Passes(sites[closestID], f)
                  && closestSq == SqDist(position, sites[closestID].position)
      invariant closestSq == FarSq ==> closestID == NoSite
      invariant forall k | k in sites.Keys - remaining && Passes(sites[k], f) ::
                  closestSq <= SqDist(position, sites[k].position)
      decreases remaining
    {
      NonEmptyHasElement(remaining);
      var id :| id in remaining;
      remaining := remaining - {id};
      var site := sites[id];
      if !f.owned && site.owner == Friendly {
        continue;
      }
      if !f.enemy && site.owner == Enemy {
        continue;
      }
      if !f.neutral && site.owner == Neutral {
        continue;
      }
      if !f.knightBarracks && site.structureType == Barracks && site.param2 == Knight {
        continue;
      }
      if !f.archerBarracks && site.structureType == Barracks && site.param2 == Archer {
        continue;
      }
      if !f.tower && site.structureType == Tower {
        continue;
      }
      if !f.goldmine && site.structureType == Goldmine {
        continue;
      }
      var distance := SqDist(position, site.position);
      if distance < closestSq {
        closestID, closestSq := id, distance;
      }
    }
  }

  /** With every flag true no site is excluded, so a found site is nearest
      among all sites. */
  lemma AllowAllFindsGlobalNearest(sites: map<int, Site>, position: Position, id: int)
    requires ClosestResult(sites, position, AllowAll, id)
    requires id != NoSite
    ensures id in sites
    ensures forall k | k in sites :: SqDist(position, sites[id].position) <= SqDist(position, sites[k].position)
  {
  }

  /** A false flag keeps its owner or its structure out of every answer
      other than the sentinel. */
  lemma FalseFlagExcludes(sites: map<int, Site>, position: Position, f: Filters, id: int)
    requires ClosestResult(sites, position, f, id)
    requires id != NoSite
    ensures id in sites
    ensures var s := sites[id];
            && (!f.owned ==> s.owner != Friendly)
            && (!f.enemy ==> s.owner != Enemy)
            && (!f.neutral ==> s.owner != Neutral)
            && (!f.knightBarracks ==> !(s.structureType == Barracks && s.param2 == Knight))
            && (!f.archerBarracks ==> !(s.structureType == Barracks && s.param2 == Archer))
            && (!f.tower ==> s.structureType != Tower)
            && (!f.goldmine ==> s.structureType != Goldmine)
  {
  }

  /** No structure flag excludes a barracks that trains giants: whether it
      passes depends on its owner alone. */
  lemma GiantBarracksOnlyOwnerFiltered(s: Site, f: Filters)
    requires s.structureType == Barracks && s.param2 == Giant
    ensures Passes(s, f) <==> (f.owned || s.owner != Friendly) && (f.enemy || s.owner != Enemy)
                              && (f.neutral || s.owner != Neutral)
  {
  }

  /** When no site is keyed by the sentinel, the search gives the sentinel
      exactly when no passing site is nearer than the starting distance. */
  lemma SentinelIffNothingPasses(sites: map<int, Site>, position: Position, f: Filters, id: int)
    requires ClosestResult(sites, position, f, id) && NoSite !in sites
    ensures id == NoSite
            <==> forall k | k in sites && Passes(sites[k], f) :: SqDist(position, sites[k].position) >= FarSq
  {
  }

  /** The inclusive owner test of findSiteIDs: a site is wanted when one of
      the true flags names its owner. */
  predicate OwnerWanted(s: Site, owned: bool, enemy: bool, neutral: bool)
  {
    (owned && s.owner == Friendly) || (enemy && s.owner == Enemy) || (neutral && s.owner == Neutral)
  }

  /** Sites.findSiteIDs: every wanted site's ID, once each, in map order. */
  method FindSiteIDs(sites: map<int, Site>, owned: bool, enemy: bool, neutral: bool)
    returns (ids: seq<int>)
    ensures forall i | 0 <= i < |ids| :: ids[i] in sites && OwnerWanted(sites[ids[i]], owned, enemy, neutral)
    ensures forall id | id in sites && OwnerWanted(sites[id], owned, enemy, neutral) :: id in ids
    ensures forall i, j | 0 <= i < j < |ids| :: ids[i] != ids[j]
  {
    ids := [];
    var remaining := sites.Keys;
    while remaining != {}
      invariant remaining <= sites.Keys
      invariant forall i | 0 <= i < |ids| ::
                  ids[i] in sites.Keys - remaining && OwnerWanted(sites[ids[i]], owned, enemy, neutral)
      invariant forall id | id in sites.Keys - remaining && OwnerWanted(sites[id], owned, enemy, neutral) :: id in ids
      invariant forall i, j | 0 <= i < j < |ids| :: ids[i] != ids[j]
      decreases remaining
    {
      NonEmptyHasElement(remaining);
      var id :| id in remaining;
      var site := sites[id];
      if (owned == true && site.owner == Friendly)
         || (enemy == true && site.owner == Enemy)
         || (neutral == true && site.owner == Neutral)
      {
        ids := ids + [id];
      }
      remaining := remaining - {id};
    }
  }
}
