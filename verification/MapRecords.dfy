/** Which record of a map file a cell shows, and what becomes of the records on the border that the loader lets in. */
module MapRecords {
  import opened Components
  import opened Tiles

  // The line gives the code a tile.
  predicate Coded(s: MapState, tileSet: TileSet, line: MapLine, code: nat) {
    Accepted(s, tileSet, line) && ConvertCoords(s.width, s.height, line.x, line.y, line.layer) == code
  }

  // A place on the map.
  datatype Place = Place(x: nat, y: nat, layer: nat)

  predicate IsAt(line: MapLine, cell: Place) {
    line.TileLine? && line.x == cell.x && line.y == cell.y && line.layer == cell.layer
  }

  // The loader's check is `>`, so it accepts records one past the last column or row.
  predicate OnBorder(s: MapState, line: MapLine) {
    line.TileLine? && (line.x == s.width || line.y == s.height)
  }

  // The size the SIZE lines leave.
  function SizedBy(s: MapState, lines: seq<MapLine>): MapState {
    if lines == [] then s
    else
      var before, line := SizedBy(s, lines[..|lines| - 1]), lines[|lines| - 1];
      if line.SizeLine? then before.(width := line.width, height := line.height) else before
  }

  // Line k gives the code a tile, with the size the lines before it have left.
  predicate CodedAt(s: MapState, tileSet: TileSet, lines: seq<MapLine>, k: nat, code: nat)
    requires k < |lines|
  {
    Coded(SizedBy(s, lines[..k]), tileSet, lines[k], code)
  }

  // Leaving off the last line changes nothing for the others.
  predicate SamePrefix(s: MapState, tileSet: TileSet, lines: seq<MapLine>, code: nat)
    requires lines != []
  {
    var before := lines[..|lines| - 1];
    forall j :: 0 <= j < |before| ==> (CodedAt(s, tileSet, lines, j, code) <==> CodedAt(s, tileSet, before, j, code))
  }

  lemma PrefixCoded(s: MapState, tileSet: TileSet, lines: seq<MapLine>, code: nat)
    requires lines != []
    ensures SamePrefix(s, tileSet, lines, code)
  {
    var before := lines[..|lines| - 1];
    assert forall j :: 0 <= j < |before| ==> before[..j] == lines[..j];
  }

  // The position of the first line that gives the code a tile, or the number of lines.
  function FirstCoded(s: MapState, tileSet: TileSet, lines: seq<MapLine>, code: nat): (k: nat)
    ensures k <= |lines| && (k < |lines| ==> CodedAt(s, tileSet, lines, k, code))
    ensures forall j :: 0 <= j < k ==> !CodedAt(s, tileSet, lines, j, code)
  {
    if lines == [] then 0
    else
      var before := lines[..|lines| - 1];
      var k := FirstCoded(s, tileSet, before, code);
      assert SamePrefix(s, tileSet, lines, code) by {
        PrefixCoded(s, tileSet, lines, code);
      }
      if k < |before| || CodedAt(s, tileSet, lines, k, code) then k else k + 1
  }

  // The position of the first record of the cell with the code, or the number of lines.
  function FirstOwned(s: MapState, tileSet: TileSet, lines: seq<MapLine>, cell: Place, code: nat): (k: nat)
    ensures k <= |lines| && (k < |lines| ==> CodedAt(s, tileSet, lines, k, code) && IsAt(lines[k], cell))
    ensures forall j :: 0 <= j < k ==> !(CodedAt(s, tileSet, lines, j, code) && IsAt(lines[j], cell))
  {
    if lines == [] then 0
    else
      var before := lines[..|lines| - 1];
      var k := FirstOwned(s, tileSet, before, cell, code);
      assert SamePrefix(s, tileSet, lines, code) by {
        PrefixCoded(s, tileSet, lines, code);
      }
      if k < |before| || (CodedAt(s, tileSet, lines, k, code) && IsAt(lines[k], cell)) then k else k + 1
  }

  function RecordAt(tileSet: TileSet, lines: seq<MapLine>, k: nat): Option<Tile>
    requires k <= |lines|
    requires k < |lines| ==> lines[k].TileLine? && lines[k].tileId in tileSet
  {
    if k < |lines| then Some(Made(tileSet, lines[k])) else None
  }

  function CodeOf(s: MapState, cell: Place): nat {
    ConvertCoords(s.width, s.height, cell.x, cell.y, cell.layer)
  }

  lemma {:induction false} CodeShows(s: MapState, tileSet: TileSet, lines: seq<MapLine>, code: nat)
    requires code !in s.tiles
    ensures var loaded, sized := Load(s, tileSet, lines), SizedBy(s, lines);
            && loaded.width == sized.width && loaded.height == sized.height
            && TileAt(loaded.tiles, code) == RecordAt(tileSet, lines, FirstCoded(s, tileSet, lines, code))
  {
    if lines != [] {
      CodeShows(s, tileSet, lines[..|lines| - 1], code);
    }
  }

  // The tile of a record: the properties the tile set has under its id, solid and warping as the record says.
  lemma TileOfRecord(tileSet: TileSet, line: MapLine)
    requires line.TileLine? && line.tileId in tileSet
    ensures var t := Made(tileSet, line);
            t.properties == tileSet[line.tileId] && (t.solid <==> line.solid) && (t.warp <==> line.warp)
  {
  }

  // Whatever lines the file has, in whatever order, a cell of the map that is loaded in the end shows the first
  // accepted record with the code of the cell.
  lemma FirstCodedWins(s: MapState, tileSet: TileSet, lines: seq<MapLine>, cell: Place)
    requires s.tiles == map[] && Fits(SizedBy(s, lines)) && InRange(SizedBy(s, lines), cell.x, cell.y, cell.layer)
    ensures GetTile(Load(s, tileSet, lines), cell.x, cell.y, cell.layer) ==
            RecordAt(tileSet, lines, FirstCoded(s, tileSet, lines, CodeOf(SizedBy(s, lines), cell)))
  {
    CodeShows(s, tileSet, lines, CodeOf(SizedBy(s, lines), cell));
    GetTileReads(Load(s, tileSet, lines), cell.x, cell.y, cell.layer);
  }

  // A record of another place with the code comes before line k.
  predicate Preempted(s: MapState, tileSet: TileSet, lines: seq<MapLine>, cell: Place, code: nat, k: nat)
    requires k <= |lines|
  {
    exists j :: 0 <= j < k && CodedAt(s, tileSet, lines, j, code) && !IsAt(lines[j], cell)
  }

  // The record a code shows is the first one of the cell if and only if no record of another place with the code comes
  // before that.
  lemma OwnRecordWins(s: MapState, tileSet: TileSet, lines: seq<MapLine>, cell: Place, code: nat)
    ensures var own := FirstOwned(s, tileSet, lines, cell, code);
            FirstCoded(s, tileSet, lines, code) == own <==> !Preempted(s, tileSet, lines, cell, code, own)
  {
  }

  // While the size stays as it is, the records of other places with the code of a cell are the border records with it,
  // and every accepted record of the cell has it.
  lemma OthersAreBorder(s: MapState, tileSet: TileSet, line: MapLine, cell: Place)
    requires Fits(s) && InRange(s, cell.x, cell.y, cell.layer)
    ensures Coded(s, tileSet, line, CodeOf(s, cell)) && !IsAt(line, cell) <==>
            Coded(s, tileSet, line, CodeOf(s, cell)) && OnBorder(s, line)
    ensures Accepted(s, tileSet, line) && IsAt(line, cell) ==> Coded(s, tileSet, line, CodeOf(s, cell))
  {
    if Accepted(s, tileSet, line) && !OnBorder(s, line) {
      CodesAgree(s, line.x, line.y, line.layer, cell.x, cell.y, cell.layer);
    }
  }

  lemma {:induction false} SizeStays(s: MapState, lines: seq<MapLine>, k: nat)
    requires k <= |lines| && forall line :: line in lines ==> !line.SizeLine?
    ensures SizedBy(s, lines[..k]) == s
  {
    if k > 0 {
      assert lines[..k][..k - 1] == lines[..k - 1] && lines[k - 1] in lines;
      SizeStays(s, lines, k - 1);
    }
  }

  lemma SizedLine(s: MapState, tileSet: TileSet, lines: seq<MapLine>, cell: Place, j: nat)
    requires Fits(s) && InRange(s, cell.x, cell.y, cell.layer) && j < |lines|
    requires forall line :: line in lines ==> !line.SizeLine?
    ensures var code := CodeOf(s, cell);
            && (CodedAt(s, tileSet, lines, j, code) <==> Coded(s, tileSet, lines[j], code))
            && (Coded(s, tileSet, lines[j], code) && IsAt(lines[j], cell) <==>
                Accepted(s, tileSet, lines[j]) && IsAt(lines[j], cell))
            && (Coded(s, tileSet, lines[j], code) && !IsAt(lines[j], cell) <==>
                Coded(s, tileSet, lines[j], code) && OnBorder(s, lines[j]))
  {
    SizeStays(s, lines, j);
    OthersAreBorder(s, tileSet, lines[j], cell);
  }

  // In a file without SIZE lines, the record a cell shows is its own first accepted one if and only if no border record
  // with its code comes before that.
  lemma OwnRecordWinsExactly(s: MapState, tileSet: TileSet, lines: seq<MapLine>, cell: Place)
    requires Fits(s) && InRange(s, cell.x, cell.y, cell.layer) && forall line :: line in lines ==> !line.SizeLine?
    ensures var code, own := CodeOf(s, cell), FirstOwned(s, tileSet, lines, cell, CodeOf(s, cell));
            && (FirstCoded(s, tileSet, lines, code) == own <==>
                !(exists j :: 0 <= j < own && OnBorder(s, lines[j]) && Coded(s, tileSet, lines[j], code)))
            && (forall j :: 0 <= j < own ==> !(Accepted(s, tileSet, lines[j]) && IsAt(lines[j], cell)))
            && (own < |lines| ==> Accepted(s, tileSet, lines[own]) && IsAt(lines[own], cell))
  {
    forall j | 0 <= j < |lines| {
      SizedLine(s, tileSet, lines, cell, j);
    }
    OwnRecordWins(s, tileSet, lines, cell, CodeOf(s, cell));
    hide Coded, Accepted, OnBorder, IsAt;
  }

  // If it has no accepted records on the border either, each cell shows its first accepted record.
  lemma FirstRecordWins(s: MapState, tileSet: TileSet, lines: seq<MapLine>, cell: Place)
    requires Fits(s) && s.tiles == map[] && InRange(s, cell.x, cell.y, cell.layer)
    requires forall line :: line in lines ==>
               !line.SizeLine? && (OnBorder(s, line) ==> !Accepted(s, tileSet, line))
    ensures GetTile(Load(s, tileSet, lines), cell.x, cell.y, cell.layer) ==
            RecordAt(tileSet, lines, FirstOwned(s, tileSet, lines, cell, CodeOf(s, cell)))
  {
    SizeStays(s, lines, |lines|);
    assert lines[..|lines|] == lines;
    FirstCodedWins(s, tileSet, lines, cell);
    OwnRecordWinsExactly(s, tileSet, lines, cell);
    forall j | 0 <= j < |lines|
      ensures !(OnBorder(s, lines[j]) && Accepted(s, tileSet, lines[j]))
    {
      assert lines[j] in lines;
    }
  }

  // The cell with a given code.
  lemma CellOf(s: MapState, code: nat) returns (x: nat, y: nat, layer: nat)
    requires Fits(s) && code < NUM_LAYERS * s.width * s.height
    ensures InRange(s, x, y, layer) && ConvertCoords(s.width, s.height, x, y, layer) == code
  {
    assert s.width > 0 && s.height > 0;
    var row: nat;
    row, x := Divide(code, s.width);
    layer, y := Divide(row, s.height);
    assert (NUM_LAYERS * s.height) * s.width == NUM_LAYERS * s.width * s.height;
    if layer >= NUM_LAYERS {
      MulMonotone(NUM_LAYERS, layer, s.height);
      MulMonotone(NUM_LAYERS * s.height, row, s.width);
      assert false;
    }
  }

  // What becomes of a border record: if its code is that of a cell, it lands in that other cell, unless the cell has a
  // tile already; otherwise no cell shows it.
  lemma BorderRecordAliases(s: MapState, tileSet: TileSet, line: MapLine)
    requires Fits(s) && Accepted(s, tileSet, line) && OnBorder(s, line)
    ensures var code := ConvertCoords(s.width, s.height, line.x, line.y, line.layer);
            var s' := LoadLine(s, tileSet, line);
            && (code < NUM_LAYERS * s.width * s.height <==>
                exists x: nat, y: nat, layer: nat :: Aliases(s, line, x, y, layer))
            && forall x: nat, y: nat, layer: nat :: InRange(s, x, y, layer) ==>
                 GetTile(s', x, y, layer) ==
                 if Aliases(s, line, x, y, layer) && GetTile(s, x, y, layer).None? then Some(Made(tileSet, line))
                 else GetTile(s, x, y, layer)
  {
    forall x: nat, y: nat, layer: nat | InRange(s, x, y, layer) {
      BorderRecordShown(s, tileSet, line, x, y, layer);
    }
    hide Accepted, LoadLine, GetTile;
    var code := ConvertCoords(s.width, s.height, line.x, line.y, line.layer);
    if code < NUM_LAYERS * s.width * s.height {
      var x, y, layer := CellOf(s, code);
      assert Aliases(s, line, x, y, layer);
    }
  }

  lemma BorderRecordShown(s: MapState, tileSet: TileSet, line: MapLine, x: nat, y: nat, layer: nat)
    requires Fits(s) && Accepted(s, tileSet, line) && OnBorder(s, line) && InRange(s, x, y, layer)
    ensures GetTile(LoadLine(s, tileSet, line), x, y, layer) ==
            if Aliases(s, line, x, y, layer) && GetTile(s, x, y, layer).None? then Some(Made(tileSet, line))
            else GetTile(s, x, y, layer)
    ensures Aliases(s, line, x, y, layer) ==>
            ConvertCoords(s.width, s.height, line.x, line.y, line.layer) < NUM_LAYERS * s.width * s.height
  {
    LinearBelow(s.width, s.height, x, y, layer);
    GetTileReads(s, x, y, layer);
    GetTileReads(LoadLine(s, tileSet, line), x, y, layer);
    hide GetTile;
  }

  // The cell, which is not the record's own, has the code of the record.
  predicate Aliases(s: MapState, line: MapLine, x: nat, y: nat, layer: nat) {
    && line.TileLine? && InRange(s, x, y, layer) && (x, y, layer) != (line.x, line.y, line.layer)
    && ConvertCoords(s.width, s.height, x, y, layer) ==
       ConvertCoords(s.width, s.height, line.x, line.y, line.layer)
  }

  // The neighbour a border record lands in: from the right border the first cell of the next row, from the lower one
  // the first row of the next layer, and from the end of a layer its start.
  lemma BorderNeighbours(s: MapState, line: MapLine)
    requires Fits(s) && line.TileLine? && s.width > 0 && s.height > 0
    ensures line.x == s.width && line.y + 1 < s.height && line.layer < NUM_LAYERS ==>
            Aliases(s, line, 0, line.y + 1, line.layer)
    ensures line.x < s.width && line.y == s.height && line.layer + 1 < NUM_LAYERS ==>
            Aliases(s, line, line.x, 0, line.layer + 1)
    ensures line.x == s.width && line.y + 1 == s.height && line.layer + 1 < NUM_LAYERS ==>
            Aliases(s, line, 0, 0, line.layer + 1)
  {
    NextMultiple(line.layer * s.height + line.y, s.width);
    NextMultiple(line.layer, s.height);
  }
}
