/** The bot's game state and its per-turn operations: site bookkeeping, unit
    intake, the start ordering, the queen's command and the training order. */
module GameState {
  import opened Geometry
  import opened Entities
  import opened Text
  import opened Commands
  import opened Targeting
  import opened Ordering
  import opened Planning
  import opened QueenRules
  import opened Bookkeeping

  /** The training search: friendly sites that are not a tower, an archer
      barracks or a mine. */
  const TrainFilter: Filters := Filters(true, false, false, true, false, false, false)

  /** A training target is a site that is neither the enemy's nor neutral
      (so friendly, for the three owners the referee reports), holding
      something other than a tower, a mine or an archer barracks. */
  lemma TrainTargetPassesTrainFilter(sites: map<int, Site>, position: Position, id: int)
    requires ClosestResult(sites, position, TrainFilter, id) && id != NoSite
    ensures id in sites && sites[id].owner != Enemy && sites[id].owner != Neutral
    ensures sites[id].structureType != Tower && sites[id].structureType != Goldmine
    ensures !(sites[id].structureType == Barracks && sites[id].param2 == Archer)
  {
    FalseFlagExcludes(sites, position, TrainFilter, id);
    assert !TrainFilter.enemy && !TrainFilter.neutral && !TrainFilter.tower;
    assert !TrainFilter.goldmine && !TrainFilter.archerBarracks;
  }

  /** Without a site that passes the training search, the search gives the
      sentinel and no training order is issued. */
  lemma NoTrainingSiteNoTarget(sites: map<int, Site>, position: Position, id: int)
    requires ClosestResult(sites, position, TrainFilter, id)
    requires forall k | k in sites :: !Passes(sites[k], TrainFilter)
    ensures id == NoSite
  {
  }

  /** The record with its start distance set to the truncated distance
      from start. */
  function WithStartDistance(s: Site, start: Position): Site
  {
    s.(distanceFromStartingLocation := FloorSqrt(SqDist(s.position, start)))
  }

  /** Ranking by truncated start distance never puts a site after one that
      is strictly nearer, unless the two share the same truncated distance. */
  lemma StartRankFollowsDistance(order: seq<SiteAndDistance>, sites: map<int, Site>, start: Position, i: int, j: int)
    requires IsStartOrdering(order, sites)
    requires forall id | id in sites ::
               sites[id].distanceFromStartingLocation == FloorSqrt(SqDist(sites[id].position, start))
    requires 0 <= i < j < |order|
    ensures var di := SqDist(sites[order[i].id].position, start);
            var dj := SqDist(sites[order[j].id].position, start);
            di <= dj || order[i].value == order[j].value
  {
    var di := SqDist(sites[order[i].id].position, start);
    var dj := SqDist(sites[order[j].id].position, start);
    if dj < di {
      FloorSqrtMonotone(dj, di);
    }
  }

  class Game {
    var numberOfBarracks: map<int, int>
    var numberOfTowers: int
    var numberOfMyUnits: map<int, int>
    var touchedSite: int
    var gold: int
    var myQueen: Unit
    var enemyQueen: Unit
    var myUnits: seq<Unit>
    var enemyUnits: seq<Unit>
    var sites: map<int, Site>
    var turn: int
    var startingHealth: int
    var myQueenStartingPosition: Position
    var sitesOrderedByDistanceFromStart: seq<SiteAndDistance>
    var enemyTowers: set<int>

    /** Every record sits under its own ID, and the start ordering names
        sites of the map, each once. */
    ghost predicate Valid()
      reads this`sites, this`sitesOrderedByDistanceFromStart
    {
      && (forall id | id in sites :: sites[id].id == id)
      && OrderWithin(sitesOrderedByDistanceFromStart, sites)
      && DistinctIds(sitesOrderedByDistanceFromStart)
    }

    /** The tower counter equals the number of friendly towers. */
    ghost predicate TowerCounterAccurate()
      reads this`numberOfTowers, this`sites
    {
      numberOfTowers == |FriendlyTowers(sites)|
    }

    /** Every unit counter equals the number of own units of its type. */
    ghost predicate UnitCountsAccurate()
      reads this`numberOfMyUnits, this`myUnits
    {
      forall t :: Lookup(numberOfMyUnits, t) == CountOfType(myUnits, t)
    }

    /** What the queen's decision reads. */
    function Observed(): Snapshot
      reads this`sites, this`sitesOrderedByDistanceFromStart, this`touchedSite, this`numberOfTowers,
            this`myQueen, this`enemyUnits, this`myQueenStartingPosition
    {
      Snapshot(sites, sitesOrderedByDistanceFromStart, touchedSite, numberOfTowers,
               myQueen.position, enemyUnits, myQueenStartingPosition)
    }

    /** The game as main creates it, with the site map made empty. */
    constructor ()
      ensures numberOfBarracks == map[Knight := 0, Archer := 0, Giant := 0]
      ensures numberOfTowers == 0 && numberOfMyUnits == map[]
      ensures touchedSite == 0 && gold == 0 && turn == 1
      ensures myQueen == NoUnit && enemyQueen == NoUnit
      ensures myUnits == [] && enemyUnits == [] && enemyTowers == {}
      ensures sites == map[] && sitesOrderedByDistanceFromStart == []
      ensures startingHealth == 0 && myQueenStartingPosition == Position(0, 0)
      ensures Valid() && TowerCounterAccurate() && UnitCountsAccurate()
    {
      numberOfBarracks := map[Knight := 0, Archer := 0, Giant := 0];
      numberOfTowers := 0;
      numberOfMyUnits := map[];
      touchedSite := 0;
      gold := 0;
      myQueen := NoUnit;
      enemyQueen := NoUnit;
      myUnits := [];
      enemyUnits := [];
      enemyTowers := {};
      sites := map[];
      turn := 1;
      startingHealth := 0;
      myQueenStartingPosition := Position(0, 0);
      sitesOrderedByDistanceFromStart := [];
    }

    /** Records a site read at start-up: neutral, zero everywhere else. */
    method RegisterSite(id: int, x: int, y: int, radius: int)
      requires Valid()
      modifies this`sites
      ensures sites == old(sites)[id := FreshSite(id, Position(x, y), radius)]
      ensures FriendlyTowers(sites) == FriendlyTowers(old(sites)) - {id}
      ensures Valid()
    {
      sites := sites[id := FreshSite(id, Position(x, y), radius)];
    }

    /** changeSite: adjusts the tower counter, the barracks counters and the
        enemy-tower IDs from the stored and the reported owner and structure,
        then overwrites the reported fields of the record. */
    method ChangeSite(id: int, structureType: int, owner: int, param1: int, param2: int,
                      goldRemaining: int, maxMineSize: int)
      requires Valid() && id in sites
      modifies this`sites, this`numberOfTowers, this`numberOfBarracks, this`enemyTowers
      ensures Valid()
      ensures sites == old(sites)[id := SiteAfter(old(sites)[id], structureType, owner, param1, param2, goldRemaining, maxMineSize)]
      ensures numberOfTowers == old(numberOfTowers) + TowerStep(old(sites)[id], structureType, owner)
      ensures numberOfBarracks == BarracksAfter(old(numberOfBarracks), old(sites)[id], structureType, owner, param2)
      ensures enemyTowers == EnemyTowersAfter(old(enemyTowers), id, old(sites)[id], structureType, owner)
      ensures old(TowerCounterAccurate()) ==>
                (TowerCounterAccurate() <==> !TowerTrackingGap(old(sites)[id], structureType, owner))
    {
      var prior := sites[id];
      if prior.owner != owner {
        if prior.owner == Friendly {
          if prior.structureType == Tower {
            numberOfTowers := numberOfTowers - 1;
          }
          if prior.structureType == Barracks {
            numberOfBarracks := numberOfBarracks[param2 := Lookup(numberOfBarracks, param2) - 1];
          }
        } else {
          if structureType == Tower {
            enemyTowers := enemyTowers + {id};
          }
        }
      }
      if structureType != prior.structureType {
        if owner == Friendly {
          if structureType == Tower {
            numberOfTowers := numberOfTowers + 1;
          }
          if structureType == Barracks {
            numberOfBarracks := numberOfBarracks[param2 := Lookup(numberOfBarracks, param2) + 1];
          }
        } else {
          if structureType == Tower {
            enemyTowers := enemyTowers - {id};
          }
        }
      }
      sites := sites[id := prior.(structureType := structureType, owner := owner, param1 := param1,
                                  param2 := param2, goldRemaining := goldRemaining, maxMineSize := maxMineSize)];
      if old(numberOfTowers) == |FriendlyTowers(old(sites))| {
        TowerCounterStaysExact(old(sites), id, structureType, owner, param1, param2, goldRemaining, maxMineSize,
                               old(numberOfTowers));
      }
    }

    /** The per-turn reset before the unit reports: no units, zero counters
        for the three unit types. */
    method ResetUnits()
      modifies this`myUnits, this`enemyUnits, this`numberOfMyUnits
      ensures myUnits == [] && enemyUnits == []
      ensures numberOfMyUnits == map[Knight := 0, Archer := 0, Giant := 0]
      ensures UnitCountsAccurate()
    {
      myUnits := [];
      enemyUnits := [];
      numberOfMyUnits := map[Knight := 0, Archer := 0, Giant := 0];
    }

    /** buildUnit: a queen replaces the queen of her side; any other unit is
        appended to its side's list, and an own unit raises its type's
        counter. */
    method BuildUnit(x: int, y: int, owner: int, unitType: int, health: int)
      modifies this`myQueen, this`enemyQueen, this`myUnits, this`enemyUnits, this`numberOfMyUnits
      ensures var u := Unit(Position(x, y), health, owner, unitType);
              && myQueen == (if unitType == Queen && owner == Friendly then u else old(myQueen))
              && enemyQueen == (if unitType == Queen && owner != Friendly then u else old(enemyQueen))
              && myUnits == (if unitType != Queen && owner == Friendly then old(myUnits) + [u] else old(myUnits))
              && enemyUnits == (if unitType != Queen && owner != Friendly then old(enemyUnits) + [u] else old(enemyUnits))
      ensures numberOfMyUnits
              == if unitType != Queen && owner == Friendly
                 then old(numberOfMyUnits)[unitType := Lookup(old(numberOfMyUnits), unitType) + 1]
                 else old(numberOfMyUnits)
      ensures old(UnitCountsAccurate()) ==> UnitCountsAccurate()
    {
      var newUnit := Unit(Position(x, y), health, owner, unitType);
      if unitType == Queen {
        if owner == Friendly {
          myQueen := newUnit;
        } else {
          enemyQueen := newUnit;
        }
      } else {
        if owner == Friendly {
          myUnits := myUnits + [newUnit];
          numberOfMyUnits := numberOfMyUnits[newUnit.unitType := Lookup(numberOfMyUnits, newUnit.unitType) + 1];
          forall t | true
            ensures CountOfType(myUnits, t) == CountOfType(old(myUnits), t) + (if unitType == t then 1 else 0)
          {
            CountOfTypeAppend(old(myUnits), newUnit, t);
          }
        } else {
          enemyUnits := enemyUnits + [newUnit];
        }
      }
    }

    /** setSitesOrderedByDistanceFromStart: stores every site's truncated
        distance from the queen's start, then ranks the sites by it. */
    method SetSitesOrderedByDistanceFromStart()
      requires Valid()
      modifies this`sites, this`sitesOrderedByDistanceFromStart
      ensures sites.Keys == old(sites).Keys
      ensures forall id | id in sites :: sites[id] == WithStartDistance(old(sites)[id], myQueenStartingPosition)
      ensures IsStartOrdering(sitesOrderedByDistanceFromStart, sites)
      ensures FriendlyTowers(sites) == FriendlyTowers(old(sites))
      ensures Valid()
    {
      var remaining := sites.Keys;
      while remaining != {}
        invariant remaining <= sites.Keys && sites.Keys == old(sites).Keys
        invariant forall id | id in sites :: sites[id] == if id in remaining then old(sites)[id]
                                                          else WithStartDistance(old(sites)[id], myQueenStartingPosition)
        decreases remaining
      {
        NonEmptyHasElement(remaining);
        var id :| id in remaining;
        sites := sites[id := WithStartDistance(sites[id], myQueenStartingPosition)];
        remaining := remaining - {id};
      }
      SameKindsSameTowers(old(sites), sites);
      sitesOrderedByDistanceFromStart := ReturnSortedByDistance(sites);
    }

    /** The first-turn setup: the queen's position and health become the
        start values and the sites are ranked. Later turns change nothing. */
    method BeginGame()
      requires Valid()
      modifies this`myQueenStartingPosition, this`startingHealth, this`sites, this`sitesOrderedByDistanceFromStart
      ensures turn == 1 ==>
                && myQueenStartingPosition == myQueen.position
                && startingHealth == myQueen.health
                && sites.Keys == old(sites).Keys
                && IsStartOrdering(sitesOrderedByDistanceFromStart, sites)
                && forall id | id in sites ::
                     sites[id].distanceFromStartingLocation == FloorSqrt(SqDist(sites[id].position, myQueen.position))
      ensures turn == 1 ==>
                forall id | id in sites :: sites[id] == WithStartDistance(old(sites)[id], myQueen.position)
      ensures turn != 1 ==>
                && myQueenStartingPosition == old(myQueenStartingPosition)
                && startingHealth == old(startingHealth)
                && sites == old(sites)
                && sitesOrderedByDistanceFromStart == old(sitesOrderedByDistanceFromStart)
      ensures FriendlyTowers(sites) == FriendlyTowers(old(sites))
      ensures Valid()
    {
      if turn == 1 {
        myQueenStartingPosition := Position(myQueen.position.x, myQueen.position.y);
        startingHealth := myQueen.health;
        SetSitesOrderedByDistanceFromStart();
      }
    }

    /** areEnemyUnitsNear: some enemy unit is within the alert radius. */
    method AreEnemyUnitsNear(position: Position) returns (near: bool)
      ensures near == EnemiesNear(enemyUnits, position)
    {
      for i := 0 to |enemyUnits|
        invariant forall k | 0 <= k < i :: SqDist(position, enemyUnits[k].position) >= AlertRadius * AlertRadius
      {
        var distance := SqDist(position, enemyUnits[i].position);
        if distance < AlertRadius * AlertRadius {
          return true;
        }
      }
      return false;
    }

    /** Rules 2 to 7 of getQueenAction, with its loops: the plan rewrite, the
        scan for the touched site's rank, the upgrades and the scan for the
        first unfinished slot. */
    method FollowBuildOrder() returns (r: Outcome)
      requires Valid()
      ensures r == PlanDecision(Observed())
    {
      var order := sitesOrderedByDistanceFromStart;
      var rewritten := ReplaceDepletedMines(GetBuildOrder(), sites, order);
      if rewritten.None? {
        return Panic;
      }
      var plan := rewritten.value;
      if touchedSite != Neutral {
        ghost var rank := RankOf(order, touchedSite);
        var k := 0;
        while k < |order|
          invariant 0 <= k <= |order|
          invariant rank == -1 || k <= rank || (rank < |plan| && sites[touchedSite].structureType == plan[rank])
        {
          if order[k].id == touchedSite {
            assert k == rank;
            if k >= |plan| {
              return Panic;
            }
            if sites[order[k].id].structureType != plan[k] {
              var near := AreEnemyUnitsNear(sites[touchedSite].position);
              if plan[k] == Goldmine && (near || sites[touchedSite].goldRemaining <= IgnoreGoldmine) {
                return Done(GetBuildCommand(touchedSite, Tower));
              }
              return Done(GetBuildCommand(touchedSite, plan[k]));
            }
          }
          k := k + 1;
        }
      }
      if touchedSite != Neutral && touchedSite !in sites {
        return Panic;
      }
      if touchedSite != Neutral && MineUpgradable(sites[touchedSite]) {
        return Done(GetBuildCommand(touchedSite, Goldmine));
      }
      if touchedSite != Neutral && TowerUpgradable(sites[touchedSite]) {
        return Done(GetBuildCommand(touchedSite, Tower));
      }
      var j := 0;
      while j < |plan|
        invariant 0 <= j <= |plan|
        invariant forall p | 0 <= p < j :: SlotFinished(plan, sites, order, p)
      {
        if j >= |order| {
          FirstUnfinishedAt(plan, sites, order, 0, j);
          return Panic;
        }
        var targetSite := sites[order[j].id];
        if targetSite.structureType != plan[j] {
          FirstUnfinishedAt(plan, sites, order, 0, j);
          return Done(GetMoveOrderForSite(targetSite));
        }
        j := j + 1;
      }
      FirstUnfinishedNone(plan, sites, order, 0);
      r := Done(GetMoveToEdge(myQueenStartingPosition));
    }

    /** getQueenAction: the emergency tower first, then the build plan. The
        result is the chain's decision for some answer the emergency search
        may give. */
    method GetQueenAction() returns (r: Outcome)
      requires Valid()
      ensures exists target :: EmergencyTarget(Observed(), target) && r == QueenDecision(Observed(), target)
    {
      var areEnemiesNear := AreEnemyUnitsNear(myQueen.position);
      ghost var target := NoSite;
      if areEnemiesNear && numberOfTowers == 0 {
        var closestSiteID, closestSq := FindClosestSiteID(sites, myQueen.position, EmergencyFilter);
        target := closestSiteID;
        if touchedSite == closestSiteID {
          r := Done(GetBuildCommand(touchedSite, Tower));
          assert EmergencyTarget(Observed(), target) && r == QueenDecision(Observed(), target);
          return;
        }
      }
      r := FollowBuildOrder();
      assert EmergencyTarget(Observed(), target) && r == QueenDecision(Observed(), target);
    }

    /** getTrainAction: with more than 80 gold and fewer than 12 knights, one
        training order at the friendly site nearest the enemy queen that the
        training search finds, paid from the gold; otherwise an empty order. */
    method GetTrainAction() returns (command: string)
      modifies this`gold
      ensures var wanted := old(gold) > KnightCost && Lookup(numberOfMyUnits, Knight) < MaxKnights;
              || (&& command == "TRAIN" && gold == old(gold)
                  && (wanted ==> ClosestResult(sites, enemyQueen.position, TrainFilter, NoSite)))
              || (&& wanted && gold == old(gold) - KnightCost
                  && exists id :: && id != NoSite
                                  && ClosestResult(sites, enemyQueen.position, TrainFilter, id)
                                  && command == "TRAIN " + IntToString(id))
    {
      var trainingLocations := "";
      if gold > KnightCost && Lookup(numberOfMyUnits, Knight) < MaxKnights {
        var closestAttackKnightsSiteID, closestSq := FindClosestSiteID(sites, enemyQueen.position, TrainFilter);
        if closestAttackKnightsSiteID != NoSite {
          trainingLocations := trainingLocations + " " + IntToString(closestAttackKnightsSiteID);
          gold := gold - KnightCost;
          assert "TRAIN" + trainingLocations == "TRAIN " + IntToString(closestAttackKnightsSiteID);
        }
      }
      command := "TRAIN" + trainingLocations;
    }
  }
}
