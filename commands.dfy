/** The command lines the bot writes: the queen's BUILD and MOVE orders and
    the TRAIN line, with a reader for each that recovers what was ordered. */
module Commands {
  import opened Geometry
  import opened Entities
  import opened Text

  /** What a queen command line orders. */
  datatype QueenCommand = BuildAt(site: int, structureType: int) | MoveTo(target: Position)

  /** The building word of a BUILD order: barracks train knights, towers are
      towers, and every other structure type is ordered as a mine. */
  function BuildingToken(structureType: int): string
  {
    if structureType == Barracks then "BARRACKS-KNIGHT"
    else if structureType == Tower then "TOWER"
    else "MINE"
  }

  /** The structure a building word stands for. */
  function TokenStructure(token: string): Option<int>
  {
    if token == "BARRACKS-KNIGHT" then Some(Barracks)
    else if token == "TOWER" then Some(Tower)
    else if token == "MINE" then Some(Goldmine)
    else None
  }

  /** The structure actually ordered when structureType is requested. */
  function OrderedStructure(structureType: int): int
  {
    if structureType == Barracks || structureType == Tower then structureType else Goldmine
  }

  function GetBuildCommand(siteID: int, structureType: int): string
  {
    "BUILD " + IntToString(siteID) + " " + BuildingToken(structureType)
  }

  function MoveCommand(p: Position): string
  {
    "MOVE " + IntToString(p.x) + " " + IntToString(p.y)
  }

  function GetMoveOrderForSite(site: Site): string
  {
    MoveCommand(site.position)
  }

  /** The corner the queen falls back to: the far corner of the field when
      she started right of the middle, the origin otherwise. */
  function FindClosestEdge(start: Position): Position
  {
    if start.x > FieldWidth / 2 then Position(FieldWidth, FieldHeight) else Position(0, 0)
  }

  function GetMoveToEdge(start: Position): string
  {
    MoveCommand(FindClosestEdge(start))
  }

  /** Reads a queen command line. */
  function ParseQueenCommand(line: string): Option<QueenCommand>
  {
    var ws := Split(line);
    if |ws| != 3 then None
    else if ws[0] == "BUILD" then
      match (ParseInt(ws[1]), TokenStructure(ws[2]))
      case (Some(id), Some(st)) => Some(BuildAt(id, st))
      case _ => None
    else if ws[0] == "MOVE" then
      match (ParseInt(ws[1]), ParseInt(ws[2]))
      case (Some(x), Some(y)) => Some(MoveTo(Position(x, y)))
      case _ => None
    else None
  }

  function ParseInts(ws: seq<string>): Option<seq<int>>
  {
    if |ws| == 0 then Some([])
    else
      match (ParseInt(ws[0]), ParseInts(ws[1..]))
      case (Some(v), Some(vs)) => Some([v] + vs)
      case _ => None
  }

  /** Reads a TRAIN line into the site IDs it names. */
  function ParseTrainCommand(line: string): Option<seq<int>>
  {
    var ws := Split(line);
    if ws[0] == "TRAIN" then ParseInts(ws[1..]) else None
  }

  lemma ThreeWords(a: string, b: string, c: string)
    requires ' ' !in a && ' ' !in b && ' ' !in c
    ensures Split(a + " " + b + " " + c) == [a, b, c]
  {
    assert [a, b, c][1..] == [b, c] && [b, c][1..] == [c];
    assert Join([b, c]) == b + " " + c;
    assert a + " " + b + " " + c == Join([a, b, c]);
    SplitJoin([a, b, c]);
  }

  /** A BUILD line reads back as the site and the structure ordered. */
  lemma BuildCommandRoundTrip(siteID: int, structureType: int)
    ensures ParseQueenCommand(GetBuildCommand(siteID, structureType))
         == Some(BuildAt(siteID, OrderedStructure(structureType)))
  {
    IntToStringIsWord(siteID);
    ParseIntToString(siteID);
    ThreeWords("BUILD", IntToString(siteID), BuildingToken(structureType));
    assert GetBuildCommand(siteID, structureType)
        == "BUILD" + " " + IntToString(siteID) + " " + BuildingToken(structureType);
  }

  /** A MOVE line reads back as its target. */
  lemma MoveCommandRoundTrip(p: Position)
    ensures ParseQueenCommand(MoveCommand(p)) == Some(MoveTo(p))
  {
    IntToStringIsWord(p.x);
    IntToStringIsWord(p.y);
    ParseIntToString(p.x);
    ParseIntToString(p.y);
    ThreeWords("MOVE", IntToString(p.x), IntToString(p.y));
    assert MoveCommand(p) == "MOVE" + " " + IntToString(p.x) + " " + IntToString(p.y);
  }

  /** "MOVE x y" towards a site names that site's position. */
  lemma MoveOrderForSiteTargetsSite(site: Site)
    ensures ParseQueenCommand(GetMoveOrderForSite(site)) == Some(MoveTo(site.position))
  {
    MoveCommandRoundTrip(site.position);
  }

  /** The fallback corner is the one of the two diagonal corners that is
      horizontally nearer to the start, and it is announced as a
      MOVE to that corner. */
  lemma MoveToEdgeTargetsNearerCorner(start: Position)
    ensures var c := FindClosestEdge(start);
            var other := if c == Position(0, 0) then Position(FieldWidth, FieldHeight) else Position(0, 0);
            (c == Position(0, 0) || c == Position(FieldWidth, FieldHeight))
            && (if c.x >= start.x then c.x - start.x else start.x - c.x)
               <= (if other.x >= start.x then other.x - start.x else start.x - other.x)
            && ParseQueenCommand(GetMoveToEdge(start)) == Some(MoveTo(c))
  {
    MoveCommandRoundTrip(FindClosestEdge(start));
  }

  /** The TRAIN line with no site and with one site reads back as the sites
      named. */
  lemma TrainCommandRoundTrip(siteID: int)
    ensures ParseTrainCommand("TRAIN") == Some([])
    ensures ParseTrainCommand("TRAIN" + " " + IntToString(siteID)) == Some([siteID])
  {
    SplitWord("TRAIN");
    IntToStringIsWord(siteID);
    ParseIntToString(siteID);
    SplitWordThenSpace("TRAIN", IntToString(siteID));
    SplitWord(IntToString(siteID));
    var ws := Split("TRAIN" + " " + IntToString(siteID));
    assert ws == ["TRAIN", IntToString(siteID)];
    assert ws[1..] == [IntToString(siteID)];
    assert [IntToString(siteID)][1..] == [];
    assert ParseInts([]) == Some([]);
    assert [siteID] + [] == [siteID];
    assert ParseInts([IntToString(siteID)]) == Some([siteID]);
  }
}
