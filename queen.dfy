/** The queen's rule chain as a function of what the bot knows at the start
    of its decision: the first rule whose condition holds gives the command.
    Evaluations that would stop the Go program (an index past the end of a
    slice, a missing site record) give Panic. */
module QueenRules {
  import opened Geometry
  import opened Entities
  import opened Text
  import opened Commands
  import opened Targeting
  import opened Ordering
  import opened Planning

  datatype Outcome = Done(command: string) | Panic

  /** The parts of the game state the queen's decision reads. */
  datatype Snapshot = Snapshot(
    sites: map<int, Site>,
    order: seq<SiteAndDistance>,
    touched: int,
    towers: int,
    queen: Position,
    enemies: seq<Unit>,
    start: Position)

  /** Some enemy unit is closer to position than the alert radius. */
  predicate EnemiesNear(enemies: seq<Unit>, position: Position)
  {
    exists i | 0 <= i < |enemies| :: SqDist(position, enemies[i].position) < AlertRadius * AlertRadius
  }

  /** The squared test agrees with the rooted distance the code compares:
      some enemy is near exactly when some enemy's whole-unit distance is
      below the alert radius. */
  lemma EnemiesNearIffRootDistance(enemies: seq<Unit>, position: Position)
    ensures EnemiesNear(enemies, position)
            <==> exists i | 0 <= i < |enemies| :: FloorSqrt(SqDist(position, enemies[i].position)) < AlertRadius
  {
    forall i | 0 <= i < |enemies|
      ensures SqDist(position, enemies[i].position) < AlertRadius * AlertRadius
              <==> FloorSqrt(SqDist(position, enemies[i].position)) < AlertRadius
    {
      WithinRadiusIffFloorDistance(SqDist(position, enemies[i].position), AlertRadius);
    }
  }

  /** The emergency search: neutral or enemy sites without a knight barracks,
      archer barracks, tower or mine. */
  const EmergencyFilter: Filters := Filters(false, true, true, false, false, false, false)

  /** A friendly mine that is not at full size and still has gold. */
  predicate MineUpgradable(s: Site)
  {
    s.owner == Friendly && s.maxMineSize != s.param1 && s.structureType == Goldmine
    && s.goldRemaining > IgnoreGoldmine
  }

  /** A friendly tower whose range is below the target. */
  predicate TowerUpgradable(s: Site)
  {
    s.owner == Friendly && s.structureType == Tower && s.param2 < MinTowerRangeConstruction
  }

  /** Rules 2 to 7: plan rewrite, build on the touched site by plan, mine
      upgrade, tower upgrade, move to the first unfinished slot, corner. */
  function PlanDecision(v: Snapshot): Outcome
    requires OrderWithin(v.order, v.sites) && DistinctIds(v.order)
  {
    if !PlanFits(GetBuildOrder(), v.order) then Panic
    else
      var plan := AdjustedPlan(GetBuildOrder(), v.sites, v.order);
      var k := if v.touched != Neutral then RankOf(v.order, v.touched) else -1;
      if k >= |plan| then Panic
      else if k >= 0 && v.sites[v.touched].structureType != plan[k] then
        if plan[k] == Goldmine
           && (EnemiesNear(v.enemies, v.sites[v.touched].position)
               || v.sites[v.touched].goldRemaining <= IgnoreGoldmine)
        then Done(GetBuildCommand(v.touched, Tower))
        else Done(GetBuildCommand(v.touched, plan[k]))
      else if v.touched != Neutral && v.touched !in v.sites then Panic
      else if v.touched != Neutral && MineUpgradable(v.sites[v.touched]) then
        Done(GetBuildCommand(v.touched, Goldmine))
      else if v.touched != Neutral && TowerUpgradable(v.sites[v.touched]) then
        Done(GetBuildCommand(v.touched, Tower))
      else
        var j := FirstUnfinished(plan, v.sites, v.order, 0);
        if j == |plan| then Done(GetMoveToEdge(v.start))
        else if j >= |v.order| then Panic
        else Done(GetMoveOrderForSite(v.sites[v.order[j].id]))
  }

  /** The whole chain, given the site the emergency search returns. */
  function QueenDecision(v: Snapshot, target: int): Outcome
    requires OrderWithin(v.order, v.sites) && DistinctIds(v.order)
  {
    if EnemiesNear(v.enemies, v.queen) && v.towers == 0 && v.touched == target then
      Done(GetBuildCommand(v.touched, Tower))
    else PlanDecision(v)
  }

  /** target is what the emergency search may return whenever rule 1 runs it. */
  ghost predicate EmergencyTarget(v: Snapshot, target: int)
  {
    EnemiesNear(v.enemies, v.queen) && v.towers == 0 ==> ClosestResult(v.sites, v.queen, EmergencyFilter, target)
  }

  /** Rule 1 comes first: with enemies near, no tower and the queen touching
      the emergency target (the search's sentinel included, when she touches
      nothing and nothing qualifies), she builds a tower there. */
  lemma EmergencyTowerFirst(v: Snapshot, target: int)
    requires OrderWithin(v.order, v.sites) && DistinctIds(v.order)
    requires EnemiesNear(v.enemies, v.queen) && v.towers == 0 && v.touched == target
    ensures QueenDecision(v, target) == Done(GetBuildCommand(v.touched, Tower))
    ensures ParseQueenCommand(QueenDecision(v, target).command) == Some(BuildAt(v.touched, Tower))
  {
    BuildCommandRoundTrip(v.touched, Tower);
  }

  /** Outside rule 1 the emergency target plays no part. */
  lemma TargetOnlyMattersInEmergency(v: Snapshot, t1: int, t2: int)
    requires OrderWithin(v.order, v.sites) && DistinctIds(v.order)
    requires !(EnemiesNear(v.enemies, v.queen) && v.towers == 0)
    ensures QueenDecision(v, t1) == QueenDecision(v, t2) == PlanDecision(v)
  {
  }

  /** On the touched site the gold clause never decides: a mine slot that
      survives the rewrite has gold at its site, so a planned mine turns
      into a tower there exactly when enemies are near. */
  lemma TouchedMineTowerOnlyNearEnemies(v: Snapshot)
    requires OrderWithin(v.order, v.sites) && DistinctIds(v.order) && PlanFits(GetBuildOrder(), v.order)
    requires v.touched != Neutral
    requires var k := RankOf(v.order, v.touched);
             var plan := AdjustedPlan(GetBuildOrder(), v.sites, v.order);
             0 <= k < |plan| && plan[k] == Goldmine && v.sites[v.touched].structureType != Goldmine
    ensures PlanDecision(v) == Done(GetBuildCommand(v.touched, Tower))
            <==> EnemiesNear(v.enemies, v.sites[v.touched].position)
    ensures PlanDecision(v) == Done(GetBuildCommand(v.touched, Tower))
            || PlanDecision(v) == Done(GetBuildCommand(v.touched, Goldmine))
  {
    var k := RankOf(v.order, v.touched);
    AdjustedPlanSlots(GetBuildOrder(), v.sites, v.order, k);
    assert |GetBuildCommand(v.touched, Tower)| != |GetBuildCommand(v.touched, Goldmine)|;
  }

  /** Without rule 1 and without a touched site, the queen walks to the
      site of the first slot, in rank order, whose site does not yet have
      its planned structure. */
  lemma MoveGoesToFirstUnfinishedSlot(v: Snapshot, target: int, i: int)
    requires OrderWithin(v.order, v.sites) && DistinctIds(v.order) && PlanFits(GetBuildOrder(), v.order)
    requires !(EnemiesNear(v.enemies, v.queen) && v.towers == 0 && v.touched == target)
    requires v.touched == Neutral
    requires var plan := AdjustedPlan(GetBuildOrder(), v.sites, v.order);
             && 0 <= i < |plan| && i < |v.order|
             && v.sites[v.order[i].id].structureType != plan[i]
             && forall p | 0 <= p < i :: v.sites[v.order[p].id].structureType == plan[p]
    ensures QueenDecision(v, target) == Done(GetMoveOrderForSite(v.sites[v.order[i].id]))
  {
    var plan := AdjustedPlan(GetBuildOrder(), v.sites, v.order);
    FirstUnfinishedAt(plan, v.sites, v.order, 0, i);
  }

  /** When every slot is finished and no earlier rule applies, the queen
      retreats to her corner. */
  lemma AllFinishedRetreats(v: Snapshot, target: int)
    requires OrderWithin(v.order, v.sites) && DistinctIds(v.order) && PlanFits(GetBuildOrder(), v.order)
    requires !(EnemiesNear(v.enemies, v.queen) && v.towers == 0 && v.touched == target)
    requires v.touched == Neutral
    requires var plan := AdjustedPlan(GetBuildOrder(), v.sites, v.order);
             forall i | 0 <= i < |plan| :: SlotFinished(plan, v.sites, v.order, i)
    ensures QueenDecision(v, target) == Done(GetMoveToEdge(v.start))
  {
    var plan := AdjustedPlan(GetBuildOrder(), v.sites, v.order);
    FirstUnfinishedNone(plan, v.sites, v.order, 0);
  }

  /** The chain stops the program only for a short ordering, a touched site
      ranked past the plan or missing from the map, or a ten-site ordering
      whose ten slots are all finished. */
  lemma PanicCauses(v: Snapshot, target: int)
    requires OrderWithin(v.order, v.sites) && DistinctIds(v.order)
    requires QueenDecision(v, target) == Panic
    ensures || |v.order| < 10
            || (v.touched != Neutral && (RankOf(v.order, v.touched) >= 11 || v.touched !in v.sites))
            || (|v.order| == 10
                && forall i | 0 <= i < 10 ::
                     v.sites[v.order[i].id].structureType == AdjustedPlan(GetBuildOrder(), v.sites, v.order)[i])
  {
    BuildOrderFitsIff(v.order);
    if |v.order| >= 10 {
      var plan := AdjustedPlan(GetBuildOrder(), v.sites, v.order);
      var j := FirstUnfinished(plan, v.sites, v.order, 0);
      var k := if v.touched != Neutral then RankOf(v.order, v.touched) else -1;
      if k < |plan| && !(0 <= k && v.sites[v.touched].structureType != plan[k])
         && !(v.touched != Neutral && v.touched !in v.sites)
      {
        assert PlanDecision(v) == Panic;
        assert j < |plan| && j >= |v.order|;
        assert SlotFinished(plan, v.sites, v.order, j - 1);
        assert j == |v.order| == 10;
        forall i | 0 <= i < 10
          ensures v.sites[v.order[i].id].structureType == AdjustedPlan(GetBuildOrder(), v.sites, v.order)[i]
        {
          assert SlotFinished(plan, v.sites, v.order, i);
        }
      }
    }
  }

  /** With at least eleven ranked sites and a touched site that is either
      none or a ranked site within the plan's eleven slots, no rule stops the
      program. */
  lemma NoPanicWhenWellFormed(v: Snapshot, target: int)
    requires OrderWithin(v.order, v.sites) && DistinctIds(v.order)
    requires |v.order| >= 11
    requires v.touched == Neutral || (v.touched in v.sites && RankOf(v.order, v.touched) < 11)
    ensures QueenDecision(v, target) != Panic
  {
    BuildOrderFitsIff(v.order);
  }

  /** Every command the chain produces reads back as a BUILD or MOVE order:
      builds on the touched site, moves to a ranked site or to the corner. */
  lemma DecisionIsWellFormed(v: Snapshot, target: int)
    requires OrderWithin(v.order, v.sites) && DistinctIds(v.order)
    requires QueenDecision(v, target).Done?
    ensures match ParseQueenCommand(QueenDecision(v, target).command)
            case Some(BuildAt(site, _)) => site == v.touched
            case Some(MoveTo(p)) =>
              p == FindClosestEdge(v.start)
              || exists i | 0 <= i < |v.order| :: p == v.sites[v.order[i].id].position
            case None => false
  {
    BuildCommandRoundTrip(v.touched, Tower);
    BuildCommandRoundTrip(v.touched, Goldmine);
    MoveCommandRoundTrip(FindClosestEdge(v.start));
    if QueenDecision(v, target) != Done(GetBuildCommand(v.touched, Tower))
       && QueenDecision(v, target) != Done(GetBuildCommand(v.touched, Goldmine))
       && QueenDecision(v, target) != Done(GetMoveToEdge(v.start))
    {
      var plan := AdjustedPlan(GetBuildOrder(), v.sites, v.order);
      var k := if v.touched != Neutral then RankOf(v.order, v.touched) else -1;
      if 0 <= k < |plan| && v.sites[v.touched].structureType != plan[k] {
        BuildCommandRoundTrip(v.touched, plan[k]);
      } else {
        var j := FirstUnfinished(plan, v.sites, v.order, 0);
        MoveCommandRoundTrip(v.sites[v.order[j].id].position);
      }
    }
  }
}
