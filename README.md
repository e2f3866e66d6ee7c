# Code-royale queen bot in Dafny

This project models the per-turn decision engine of a bot for a strategy
mini-game. The Go program is a single file, `main.go`. The bot keeps a map of
capturable sites and a few counters, and updates them from each turn's report.
Every turn it prints two lines:

- a queen order: `BUILD <site> <structure>` or `MOVE <x> <y>`;
- a training order: `TRAIN` followed by at most one site ID.

The model is organised around the program's own structure:

- `geometry.dfy`: positions, squared distance, and the integer square root.
  Each float comparison `distance < r` becomes `dx²+dy² < r²`. Each
  truncation `int(distance)` becomes the floor square root of the squared
  distance.
- `entities.dfy`: the site and unit records and the compiled-in constants.
- `targeting.dfy`: `findClosestSiteID` with its seven exclusion flags, and
  `findSiteIDs`. Both are loops over the site map.
- `ordering.dfy`: `returnSortedByDistance`. An insertion sort on an array
  stands in for `sort.Sort`.
- `planning.dfy`: the eleven-slot build order, the depleted-mine rewrite, and
  the forward scan for the first unfinished slot.
- `queen.dfy`: the queen's first-match rule chain as a function of a snapshot
  of the state. An evaluation that would stop the Go program gives `Panic`:
  an index past the end of a slice, or a nil site record.
- `bookkeeping.dfy`: the tower counter, the barracks counters and the
  enemy-tower IDs that `changeSite` adjusts, with what they track exactly and
  where they drift.
- `commands.dfy` and `text.dfy`: the command serialisers and `strconv.Itoa`.
  A reader for each line format recovers what was ordered, and round-trip
  lemmas tie each reader to its writer.
- `game.dfy`: the `Game` class. It has the Go struct's fields and one method
  per operation. `changeSite`, `buildUnit` and `getTrainAction` update fields
  in place. `getQueenAction` runs its loops and early returns, and is proved
  equal to the rule chain of `queen.dfy`.

The Go map is visited in no fixed order, so each loop over the map takes its
next key by choice. Results that depend on that order are stated up to ties:
which of several equally near sites is returned, and the order of equal
distances after sorting.

### Where the counters drift

- A full re-scan of the site map would count the friendly towers exactly.
  The tower counter drifts on two transitions (`Bookkeeping.TowerTrackingGap`):
  - a friendly tower reported with another structure and the same owner;
  - a tower of another owner reported as a friendly tower.
- Both barracks-counter updates use the incoming `param2`
  (`main.go:275`, `main.go:294`). So a friendly barracks that is destroyed
  decrements the counter of the reported sub-type, not its own
  (`Bookkeeping.LostBarracksKeepsItsCount`).
- A site that turns from neutral into an enemy tower is added to the
  enemy-tower set and removed again in the same report. A tower the bot builds
  on a neutral site is recorded as an enemy tower
  (`Bookkeeping.NewEnemyTowerNotTracked`, `Bookkeeping.NewFriendlyTowerTracked`).

The plan-advance scan runs forward from slot 0 (`main.go:406-412`). The rule
chain is emergency tower, plan build, mine upgrade, tower upgrade, move to the
first unfinished slot, and corner.

## Model

| member | source | states |
|---|---|---|
| Geometry.FloorSqrt | main.go:233 | the truncated distance r satisfies r² ≤ d < (r+1)² for the squared distance d |
| Geometry.FloorSqrtMonotone | main.go:233 | truncating a larger distance never gives a smaller whole number |
| Geometry.WithinRadiusIffFloorDistance | main.go:511-513 | a squared distance below r² is exactly a distance whose whole part is below r, so for a whole radius the squared test decides as the rooted distance does |
| Text.ParseIntToString | main.go:340 | the decimal text `strconv.Itoa` produces reads back as the same integer, negative numbers included |
| Text.IntToStringIsWord | main.go:340 | a rendered integer is non-empty and has no space, so it is one word of a command line |
| Commands.BuildCommandRoundTrip | main.go:332-341 | `BUILD id X` reads back as the site ID and the structure: barracks for Barracks, tower for Tower, a mine for every other type |
| Commands.MoveCommandRoundTrip | main.go:422-429 | `MOVE x y` reads back as the target position |
| Commands.MoveOrderForSiteTargetsSite | main.go:422-424 | the move order for a site targets that site's position |
| Commands.MoveToEdgeTargetsNearerCorner | main.go:436-448 | the fallback target is (1920,1000) or (0,0), whichever is horizontally nearer to the start, and it is what the MOVE line names |
| Commands.TrainCommandRoundTrip | main.go:311-330 | `TRAIN` reads back as no site, and `TRAIN id` as exactly the one site |
| Targeting.FindClosestSiteID | main.go:474-509 | sentinel −1 with the starting distance when no passing site is nearer than it; otherwise a passing site at its distance, and no passing site is strictly closer |
| Targeting.AllowAllFindsGlobalNearest | main.go:474-509 | with all seven flags true, a found site is nearest among all sites |
| Targeting.FalseFlagExcludes | main.go:479-499 | a false flag keeps its owner or structure category out of every non-sentinel answer |
| Targeting.GiantBarracksOnlyOwnerFiltered | main.go:488-493 | a barracks training giants is excluded by no structure flag, only by its owner |
| Targeting.SentinelIffNothingPasses | main.go:476-508 | if no site uses the ID −1, the sentinel is returned exactly when no passing site is within the starting distance |
| Targeting.FindSiteIDs | main.go:453-463 | the result lists every site whose owner one of the true flags names, each once, and nothing else |
| Ordering.SortByValue | main.go:206-214 | the pairs end sorted by distance and form a permutation of the input |
| Ordering.GatherPairs | main.go:218-221 | one pair per site: every site ID once, with its start distance |
| Ordering.ReturnSortedByDistance | main.go:216-226 | the ordering lists every site ID exactly once, with its start distance, in non-decreasing distance order |
| Ordering.PermutationKeepsOrdering | main.go:216-226 | rearranging the gathered pairs keeps every site listed once with its own distance |
| Planning.GetBuildOrder | main.go:418-420 | the plan has eleven slots, each a mine, tower or barracks, with the one barracks at slot 1 |
| Planning.BuildOrderFitsIff | main.go:369-373 | the rewrite stays in range exactly when at least ten sites are ranked, because the last mine slot is slot 9 |
| Planning.AdjustedPlanSlots | main.go:369-373 | a mine slot becomes a tower exactly when its site has at most 10 gold, no other slot changes, and a surviving mine slot's site has gold left |
| Planning.ReplaceDepletedMines | main.go:369-373 | the loop gives the rewritten plan, or stops where the code indexes past the ordering, exactly when a mine slot has no ranked site |
| Planning.RankOf | main.go:377-378 | the first rank at which the ordering lists an ID, or −1 exactly when it is not listed |
| Planning.FirstUnfinished | main.go:406-412 | the first slot from a start whose site lacks its planned structure or is missing; every earlier slot is finished |
| Planning.FirstUnfinishedAt | main.go:406-412 | the forward scan stops at slot i when slots before i are finished and slot i is not |
| Planning.FirstUnfinishedNone | main.go:406-415 | the scan runs past the plan when every slot is finished |
| QueenRules.EnemiesNearIffRootDistance | main.go:343-351 | the squared alert test holds exactly when some enemy's rooted distance, in whole units, is below 150 |
| QueenRules.EmergencyTowerFirst | main.go:355-363 | enemies near, no towers and the touched site equal to the emergency target give `BUILD touched TOWER` before any other rule, −1 included |
| QueenRules.TargetOnlyMattersInEmergency | main.go:356-366 | without near enemies or with a tower, the emergency search has no effect and the plan rules decide |
| QueenRules.TouchedMineTowerOnlyNearEnemies | main.go:369-383 | on the touched site's mine slot, the order is TOWER exactly when enemies are near it, else MINE, so the gold test never decides |
| QueenRules.MoveGoesToFirstUnfinishedSlot | main.go:405-412 | with no site touched, the queen moves to the site of the first slot, in forward order, whose structure differs from the plan |
| QueenRules.AllFinishedRetreats | main.go:405-415 | with every slot finished and no earlier rule firing, the queen moves to the fallback corner |
| QueenRules.PanicCauses | main.go:369-412 | the chain stops the program only for fewer than ten ranked sites, a touched site ranked at 11 or beyond or missing, or ten ranked sites with all ten slots finished |
| QueenRules.NoPanicWhenWellFormed | main.go:369-412 | with at least eleven ranked sites, and a touched site that is none or a site ranked within the plan, the chain always gives a command |
| QueenRules.DecisionIsWellFormed | main.go:353-416 | every command the chain gives reads back as a BUILD on the touched site, or a MOVE to a ranked site or to the fallback corner |
| Bookkeeping.SameKindsSameTowers | main.go:231-234 | maps that agree on every record's owner and structure hold the same friendly towers, so writing start distances leaves them unchanged |
| Bookkeeping.TowerStepCases | main.go:268-292 | the tower counter moves by at most one: down exactly when a friendly tower changes owner, up exactly when a non-tower becomes a friendly tower |
| Bookkeeping.FriendlyTowersUpdate | main.go:303-308 | overwriting a record changes the friendly-tower count by whether the old and the new record are friendly towers |
| Bookkeeping.TowerCounterStaysExact | main.go:268-302 | a correct tower counter stays correct after a report exactly when the report is not one of the two missed transitions |
| Bookkeeping.BarracksAfterCounters | main.go:268-302 | only the counter of the incoming param2 moves: +1 for a new friendly barracks, −1 for a friendly barracks changing owner |
| Bookkeeping.LostBarracksKeepsItsCount | main.go:274-277 | a destroyed friendly knight barracks leaves the knight counter unchanged and decrements the counter for −1 |
| Bookkeeping.EnemyTowersMembership | main.go:278-301 | the exact cases in which the site ends up in the enemy-tower set; no other ID changes |
| Bookkeeping.NewEnemyTowerNotTracked | main.go:278-301 | a site that becomes an enemy tower is not in the set afterwards |
| Bookkeeping.NewFriendlyTowerTracked | main.go:278-301 | a tower built on a site the bot did not own is in the enemy-tower set afterwards |
| Bookkeeping.CountOfTypeIsIndexCount | main.go:256-259 | the unit count of a type is the number of list positions holding that type |
| Bookkeeping.CountOfTypeAppend | main.go:256-259 | appending a unit raises its own type's count by one and no other |
| GameState.TrainTargetPassesTrainFilter | main.go:314 | a training target is neither enemy nor neutral, and is not a tower, mine or archer barracks |
| GameState.StartRankFollowsDistance | main.go:231-236 | in the start ordering a site never comes after a strictly nearer one unless both have the same truncated distance |
| GameState.NoTrainingSiteNoTarget | main.go:314-318 | without a site that passes the training search, the search gives the sentinel |
| GameState.Game.constructor | main.go:130-151 | the initial counters, queens, lists, turn 1 and an empty site map; every tracking invariant holds |
| GameState.Game.RegisterSite | main.go:152-156 | the site is stored under its ID as neutral with zero fields; only that ID can leave the friendly-tower set |
| GameState.Game.ChangeSite | main.go:265-309 | the record takes the six reported fields; counters and enemy-tower IDs move as the bookkeeping functions say; no other record changes; the tower count stays exact unless a missed transition occurs |
| GameState.Game.ResetUnits | main.go:170-176 | empty unit lists and zero counters for the three unit types, which count the units exactly |
| GameState.Game.BuildUnit | main.go:239-263 | a queen replaces her side's queen; another unit is appended to its side's list; an own unit raises its type's counter, so exact counts stay exact |
| GameState.Game.SetSitesOrderedByDistanceFromStart | main.go:231-236 | every site gets its truncated start distance and nothing else changes; the ordering lists each site once, nearest first |
| GameState.Game.BeginGame | main.go:183-190 | on turn 1 the queen's position and health become the start values, each record gets its truncated distance from the queen with every other field as it was, and the sites are ranked; later turns change nothing |
| GameState.Game.AreEnemyUnitsNear | main.go:343-351 | true exactly when some enemy unit is within distance 150 |
| GameState.Game.FollowBuildOrder | main.go:365-416 | the loops and early returns compute exactly the plan part of the rule chain, stops included |
| GameState.Game.GetQueenAction | main.go:353-416 | the command is the rule chain's decision for an answer the emergency search may give |
| GameState.Game.GetTrainAction | main.go:311-330 | `TRAIN` with gold unchanged, or `TRAIN id` for a nearest passing site with gold down by exactly 80; the second needs more than 80 gold and fewer than 12 knights; with those, `TRAIN` alone means no passing site |

## Left out

- Input and output in `main`: the `fmt.Scan` reads, the two printed lines and
  every `os.Stderr` log line (`main.go:129-198`). The model's methods are what
  one turn calls, in the order `main` calls them. The per-turn scans
  of `gold` and `touchedSite`, and the `turn++` at the end of each turn, are
  plain field writes that no method models.
- `setDistancesFromQueens` (`main.go:465-472`) writes the two per-turn queen
  distances. No decision reads them, and the model leaves them unchanged.
- The float `distanceBetween` and the float second result of
  `findClosestSiteID`. `GameState.Game.SetSitesOrderedByDistanceFromStart` and
  `Targeting.FindClosestSiteID` use the
  integer square root or the squared distance instead. These agree with the
  float values for whole-number coordinates of the map's size: a whole
  radius is passed exactly when its square is
  (`Geometry.WithinRadiusIffFloorDistance`), and truncation keeps the order
  of distances (`Geometry.FloorSqrtMonotone`).
- Map iteration order. Searches and the sort are stated up to ties.
- The unused constants `MaxKnightBarracks`, `MaxGoldMines`,
  `MaxArcherBarracks`, `MaxTowers` and `MaxArcher`, the unused record fields
  `ignore1` and `ignore2`, the unused `unitBuildQueue` field, and the
  commented-out code.
- The enemy-tower map points at the same site records as the main map. The
  model keeps the set of its IDs only, so it does not capture that aliasing.
- `GameState.Game.ChangeSite`: requires that the site ID is in the map. The
  Go code would dereference a nil record otherwise.
- `GameState.TrainTargetPassesTrainFilter`: states "neither enemy nor
  neutral" rather than "friendly". The checks in the code exclude only those
  two owners, and it is the referee that reports no owner value besides the
  three.
