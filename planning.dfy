/** The build plan: eleven desired structures, slot i meant for the i-th
    nearest site to the queen's start, and the per-turn rewrite that turns a
    planned mine on a depleted site into a tower. */
module Planning {
  import opened Entities
  import opened Text
  import opened Ordering

  /** getBuildOrder: the compiled-in plan. */
  function GetBuildOrder(): (plan: seq<int>)
    ensures |plan| == 11
    ensures forall i | 0 <= i < |plan| :: plan[i] == Goldmine || plan[i] == Tower || plan[i] == Barracks
    ensures forall i | 0 <= i < |plan| :: plan[i] == Barracks <==> i == 1
  {
    [Goldmine, Barracks, Goldmine, Goldmine, Goldmine, Tower, Tower, Goldmine, Tower, Goldmine, Tower]
  }

  /** The rewrite reads the start ordering at every mine slot, so every mine
      slot must have a site at its rank. */
  predicate PlanFits(plan: seq<int>, order: seq<SiteAndDistance>)
  {
    forall i | 0 <= i < |plan| && plan[i] == Goldmine :: i < |order|
  }

  /** The compiled-in plan fits exactly when at least ten sites are ranked:
      its last mine slot is slot 9. */
  lemma BuildOrderFitsIff(order: seq<SiteAndDistance>)
    ensures PlanFits(GetBuildOrder(), order) <==> |order| >= 10
  {
    if |order| < 10 {
      assert GetBuildOrder()[9] == Goldmine;
    }
  }

  /** The site ranked at slot i has no more gold than the depletion limit. */
  predicate Depleted(sites: map<int, Site>, order: seq<SiteAndDistance>, i: int)
    requires 0 <= i < |order| && OrderWithin(order, sites)
  {
    sites[order[i].id].goldRemaining <= IgnoreGoldmine
  }

  /** The plan after the depleted-mine rewrite. */
  function AdjustedPlan(plan: seq<int>, sites: map<int, Site>, order: seq<SiteAndDistance>): seq<int>
    requires PlanFits(plan, order) && OrderWithin(order, sites)
  {
    seq(|plan|, i requires 0 <= i < |plan| =>
      if plan[i] == Goldmine && Depleted(sites, order, i) then Tower else plan[i])
  }

  /** A mine slot becomes a tower exactly when its site is depleted, no other
      slot changes, and a mine slot that survives has gold left at its site. */
  lemma AdjustedPlanSlots(plan: seq<int>, sites: map<int, Site>, order: seq<SiteAndDistance>, i: int)
    requires PlanFits(plan, order) && OrderWithin(order, sites)
    requires 0 <= i < |plan|
    ensures |AdjustedPlan(plan, sites, order)| == |plan|
    ensures var adjusted := AdjustedPlan(plan, sites, order);
            && (adjusted[i] != plan[i] <==> plan[i] == Goldmine && Depleted(sites, order, i))
            && (adjusted[i] != plan[i] ==> adjusted[i] == Tower)
            && (adjusted[i] == Goldmine ==> sites[order[i].id].goldRemaining > IgnoreGoldmine)
  {
  }

  /** The loop of getQueenAction that rewrites the local copy of the plan.
      It stops with None where main.go would index the ordering past its
      end, at the first mine slot without a ranked site. */
  method ReplaceDepletedMines(plan: seq<int>, sites: map<int, Site>, order: seq<SiteAndDistance>)
    returns (adjusted: Option<seq<int>>)
    requires OrderWithin(order, sites)
    ensures adjusted.Some? <==> PlanFits(plan, order)
    ensures adjusted.Some? ==> adjusted.value == AdjustedPlan(plan, sites, order)
  {
    var rewritten := plan;
    for i := 0 to |plan|
      invariant |rewritten| == |plan|
      invariant forall k | 0 <= k < i && plan[k] == Goldmine :: k < |order|
      invariant forall k | 0 <= k < i ::
                  rewritten[k] == if plan[k] == Goldmine && Depleted(sites, order, k) then Tower else plan[k]
      invariant forall k | i <= k < |plan| :: rewritten[k] == plan[k]
    {
      if plan[i] == Goldmine {
        if i >= |order| {
          return None;
        }
        if sites[order[i].id].goldRemaining <= IgnoreGoldmine {
          rewritten := rewritten[i := Tower];
        }
      }
    }
    adjusted := Some(rewritten);
  }

  /** The first rank at which the ordering lists id, or -1. */
  function RankOf(order: seq<SiteAndDistance>, id: int): (k: int)
    ensures -1 <= k < |order|
    ensures k == -1 <==> forall i | 0 <= i < |order| :: order[i].id != id
    ensures k >= 0 ==> order[k].id == id && forall i | 0 <= i < k :: order[i].id != id
  {
    if |order| == 0 then -1
    else if order[0].id == id then 0
    else
      var k := RankOf(order[1..], id);
      if k == -1 then -1 else k + 1
  }

  /** A slot is finished when the site at its rank has the planned structure. */
  predicate SlotFinished(plan: seq<int>, sites: map<int, Site>, order: seq<SiteAndDistance>, i: int)
    requires 0 <= i < |plan| && OrderWithin(order, sites)
  {
    i < |order| && sites[order[i].id].structureType == plan[i]
  }

  /** The first slot, scanning forward from slot `from`, that is not
      finished; |plan| when all are. */
  function FirstUnfinished(plan: seq<int>, sites: map<int, Site>, order: seq<SiteAndDistance>, from: nat): (j: nat)
    requires from <= |plan| && OrderWithin(order, sites)
    ensures from <= j <= |plan|
    ensures forall i | from <= i < j :: SlotFinished(plan, sites, order, i)
    ensures j < |plan| ==> !SlotFinished(plan, sites, order, j)
    decreases |plan| - from
  {
    if from == |plan| || !SlotFinished(plan, sites, order, from) then from
    else FirstUnfinished(plan, sites, order, from + 1)
  }

  /** The scan from `from` stops at i when slots from..i-1 are finished and
      slot i is not. */
  lemma {:induction false} FirstUnfinishedAt(plan: seq<int>, sites: map<int, Site>, order: seq<SiteAndDistance>, from: nat, i: nat)
    requires from <= i < |plan| && OrderWithin(order, sites)
    requires forall p | from <= p < i :: SlotFinished(plan, sites, order, p)
    requires !SlotFinished(plan, sites, order, i)
    ensures FirstUnfinished(plan, sites, order, from) == i
    decreases i - from
  {
    if from < i {
      assert SlotFinished(plan, sites, order, from);
      FirstUnfinishedAt(plan, sites, order, from + 1, i);
    }
  }

  /** The scan runs off the end of the plan when every slot from `from` on is
      finished. */
  lemma {:induction false} FirstUnfinishedNone(plan: seq<int>, sites: map<int, Site>, order: seq<SiteAndDistance>, from: nat)
    requires from <= |plan| && OrderWithin(order, sites)
    requires forall p | from <= p < |plan| :: SlotFinished(plan, sites, order, p)
    ensures FirstUnfinished(plan, sites, order, from) == |plan|
    decreases |plan| - from
  {
    if from < |plan| {
      assert SlotFinished(plan, sites, order, from);
      FirstUnfinishedNone(plan, sites, order, from + 1);
    }
  }
}
