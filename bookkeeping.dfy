/** The counters changeSite keeps beside the site records, as functions of
    the stored record and the incoming report, and what they do and do not
    track. */
module Bookkeeping {
  import opened Entities

  predicate IsFriendlyTower(s: Site)
  {
    s.owner == Friendly && s.structureType == Tower
  }

  /** The IDs of the sites that are friendly towers. */
  function FriendlyTowers(sites: map<int, Site>): set<int>
  {
    set id | id in sites && IsFriendlyTower(sites[id])
  }

  /** Maps over the same IDs whose records agree on owner and structure
      hold the same friendly towers. */
  lemma SameKindsSameTowers(a: map<int, Site>, b: map<int, Site>)
    requires a.Keys == b.Keys
    requires forall id | id in a :: a[id].owner == b[id].owner && a[id].structureType == b[id].structureType
    ensures FriendlyTowers(a) == FriendlyTowers(b)
  {
    forall id
      ensures id in FriendlyTowers(a) <==> id in FriendlyTowers(b)
    {
      if id in a {
        assert IsFriendlyTower(a[id]) <==> IsFriendlyTower(b[id]);
      }
    }
  }

  /** The record after changeSite overwrote the six reported fields. */
  function SiteAfter(prior: Site, structureType: int, owner: int, param1: int, param2: int,
                     goldRemaining: int, maxMineSize: int): Site
  {
    prior.(structureType := structureType, owner := owner, param1 := param1, param2 := param2,
           goldRemaining := goldRemaining, maxMineSize := maxMineSize)
  }

  /** A report for a site moves the tower counter down when a friendly tower
      changes owner, and up when the structure changes into a friendly
      tower. */
  function TowerStep(prior: Site, structureType: int, owner: int): int
  {
    (if prior.owner != owner && prior.owner == Friendly && prior.structureType == Tower then -1 else 0)
    + (if structureType != prior.structureType && owner == Friendly && structureType == Tower then 1 else 0)
  }

  /** The two transitions the counter misses: a friendly tower that stays
      friendly but is reported with another structure, and a tower of
      another owner reported as a friendly tower. */
  predicate TowerTrackingGap(prior: Site, structureType: int, owner: int)
  {
    || (IsFriendlyTower(prior) && owner == Friendly && structureType != Tower)
    || (!IsFriendlyTower(prior) && prior.structureType == Tower && owner == Friendly && structureType == Tower)
  }

  /** The counter moves by at most one, down exactly when a friendly tower
      passes to another owner and up exactly when a non-tower becomes a
      friendly tower. */
  lemma TowerStepCases(prior: Site, structureType: int, owner: int)
    ensures -1 <= TowerStep(prior, structureType, owner) <= 1
    ensures TowerStep(prior, structureType, owner) == -1 <==> IsFriendlyTower(prior) && owner != Friendly
    ensures TowerStep(prior, structureType, owner) == 1
            <==> prior.structureType != Tower && owner == Friendly && structureType == Tower
  {
  }

  /** Replacing one record changes the friendly-tower count by whether the
      old and the new record are friendly towers. */
  lemma FriendlyTowersUpdate(sites: map<int, Site>, id: int, s: Site)
    requires id in sites
    ensures |FriendlyTowers(sites[id := s])|
            == |FriendlyTowers(sites)| - (if IsFriendlyTower(sites[id]) then 1 else 0)
               + (if IsFriendlyTower(s) then 1 else 0)
  {
    var before := FriendlyTowers(sites);
    var after := FriendlyTowers(sites[id := s]);
    var rest := before - {id};
    assert after - {id} == rest;
    assert |before| == |rest| + (if IsFriendlyTower(sites[id]) then 1 else 0) by {
      if IsFriendlyTower(sites[id]) {
        assert before == rest + {id};
      } else {
        assert before == rest;
      }
    }
    if IsFriendlyTower(s) {
      assert after == rest + {id};
    } else {
      assert after == rest;
    }
  }

  /** A counter equal to the number of friendly towers is still equal after a
      report exactly when the report is not one of the two missed
      transitions. */
  lemma TowerCounterStaysExact(sites: map<int, Site>, id: int, structureType: int, owner: int,
                               param1: int, param2: int, goldRemaining: int, maxMineSize: int, count: int)
    requires id in sites && count == |FriendlyTowers(sites)|
    ensures var updated := sites[id := SiteAfter(sites[id], structureType, owner, param1, param2, goldRemaining, maxMineSize)];
            count + TowerStep(sites[id], structureType, owner) == |FriendlyTowers(updated)|
            <==> !TowerTrackingGap(sites[id], structureType, owner)
  {
    FriendlyTowersUpdate(sites, id, SiteAfter(sites[id], structureType, owner, param1, param2, goldRemaining, maxMineSize));
  }

  /** The barracks counters after a report: the incoming param2 names the
      counter both for a barracks lost and for a barracks gained. */
  function BarracksAfter(counts: map<int, int>, prior: Site, structureType: int, owner: int, param2: int): map<int, int>
  {
    var afterLoss :=
      if prior.owner != owner && prior.owner == Friendly && prior.structureType == Barracks
      then counts[param2 := Lookup(counts, param2) - 1] else counts;
    if structureType != prior.structureType && owner == Friendly && structureType == Barracks
    then afterLoss[param2 := Lookup(afterLoss, param2) + 1] else afterLoss
  }

  /** Only the counter of the incoming param2 moves: down when a friendly
      barracks changes owner, up when the structure changes into a friendly
      barracks, never both. */
  lemma BarracksAfterCounters(counts: map<int, int>, prior: Site, structureType: int, owner: int, param2: int)
    ensures var after := BarracksAfter(counts, prior, structureType, owner, param2);
            && (forall t | t != param2 :: Lookup(after, t) == Lookup(counts, t))
            && Lookup(after, param2) - Lookup(counts, param2)
               == (if prior.structureType != Barracks && owner == Friendly && structureType == Barracks then 1
                   else if prior.owner == Friendly && owner != Friendly && prior.structureType == Barracks then -1
                   else 0)
  {
  }

  /** A friendly knight barracks reported destroyed (no structure, no owner,
      param2 -1) leaves the knight counter where it was. */
  lemma LostBarracksKeepsItsCount(counts: map<int, int>, prior: Site)
    requires IsLostKnightBarracks(prior)
    ensures Lookup(BarracksAfter(counts, prior, -1, Neutral, -1), Knight) == Lookup(counts, Knight)
    ensures Lookup(BarracksAfter(counts, prior, -1, Neutral, -1), -1) == Lookup(counts, -1) - 1
  {
    BarracksAfterCounters(counts, prior, -1, Neutral, -1);
  }

  predicate IsLostKnightBarracks(prior: Site)
  {
    prior.owner == Friendly && prior.structureType == Barracks && prior.param2 == Knight
  }

  /** The enemy-tower IDs after a report: added when the stored owner is not
      friendly, the owner changes and a tower is reported; then removed when
      the structure changes into a tower of another owner. */
  function EnemyTowersAfter(towers: set<int>, id: int, prior: Site, structureType: int, owner: int): set<int>
  {
    var added :=
      if prior.owner != owner && prior.owner != Friendly && structureType == Tower
      then towers + {id} else towers;
    if structureType != prior.structureType && owner != Friendly && structureType == Tower
    then added - {id} else added
  }

  /** No other ID moves; id ends up recorded exactly in these cases: it was a
      tower and still is one of another owner that was recorded or changed
      hands between non-friendly owners, or it is reported as a friendly
      tower that was not friendly before or was recorded, or it is reported
      as no tower and was recorded. */
  lemma EnemyTowersMembership(towers: set<int>, id: int, prior: Site, structureType: int, owner: int)
    ensures forall k | k != id :: k in EnemyTowersAfter(towers, id, prior, structureType, owner) <==> k in towers
    ensures id in EnemyTowersAfter(towers, id, prior, structureType, owner)
            <==> if structureType != Tower then id in towers
                 else if owner == Friendly then id in towers || prior.owner != Friendly
                 else prior.structureType == Tower
                      && (id in towers || (prior.owner != owner && prior.owner != Friendly))
  {
  }

  /** A site that becomes an enemy tower is not recorded: it is added and
      then removed in the same report. */
  lemma NewEnemyTowerNotTracked(towers: set<int>, id: int, prior: Site)
    requires prior.structureType != Tower
    ensures id !in EnemyTowersAfter(towers, id, prior, Tower, Enemy)
  {
    EnemyTowersMembership(towers, id, prior, Tower, Enemy);
  }

  /** A tower the bot builds on a site it did not own is recorded as an
      enemy tower. */
  lemma NewFriendlyTowerTracked(towers: set<int>, id: int, prior: Site)
    requires prior.owner != Friendly
    ensures id in EnemyTowersAfter(towers, id, prior, Tower, Friendly)
  {
    EnemyTowersMembership(towers, id, prior, Tower, Friendly);
  }

  /** The number of units of type t. */
  function CountOfType(units: seq<Unit>, t: int): nat
  {
    if |units| == 0 then 0
    else CountOfType(units[..|units| - 1], t) + (if units[|units| - 1].unitType == t then 1 else 0)
  }

  /** The count is the number of positions holding a unit of type t. */
  lemma {:induction false} CountOfTypeIsIndexCount(units: seq<Unit>, t: int)
    ensures CountOfType(units, t) == |set i | 0 <= i < |units| && units[i].unitType == t|
  {
    if |units| > 0 {
      var n := |units| - 1;
      var prefix := units[..n];
      CountOfTypeIsIndexCount(prefix, t);
      var before := set i | 0 <= i < n && prefix[i].unitType == t;
      var all := set i | 0 <= i < |units| && units[i].unitType == t;
      assert n !in before;
      if units[n].unitType == t {
        assert all == before + {n};
      } else {
        assert all == before;
      }
    }
  }

  /** Appending a unit raises its own type's count by one and no other. */
  lemma CountOfTypeAppend(units: seq<Unit>, u: Unit, t: int)
    ensures CountOfType(units + [u], t) == CountOfType(units, t) + (if u.unitType == t then 1 else 0)
  {
    assert (units + [u])[..|units|] == units;
  }
}
