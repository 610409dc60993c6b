/** Canvas geometry discovered from the space's tiles, and the grid derived from it. */
module Grid {
  import opened Wrappers

  /** One display client of a space: its pixel rectangle. */
  datatype Tile = Tile(x: int, y: int, w: int, h: int)

  /** The `geometry` dictionary of a space. */
  datatype Geometry = Geometry(width: int, height: int, screenRows: int, screenCols: int)

  /** Python's `max` over a non-empty list. */
  function MaxOf(xs: seq<int>): (m: int)
    requires xs != []
    ensures m in xs
    ensures forall k :: 0 <= k < |xs| ==> xs[k] <= m
  {
    if |xs| == 1 then xs[0]
    else
      var rest := MaxOf(xs[1..]);
      assert forall k :: 1 <= k < |xs| ==> xs[k] == xs[1..][k - 1];
      if xs[0] >= rest then xs[0] else rest
  }

  function RightEdges(tiles: seq<Tile>): (r: seq<int>)
    ensures |r| == |tiles|
  {
    seq(|tiles|, k requires 0 <= k < |tiles| => tiles[k].x + tiles[k].w)
  }

  function BottomEdges(tiles: seq<Tile>): (r: seq<int>)
    ensures |r| == |tiles|
  {
    seq(|tiles|, k requires 0 <= k < |tiles| => tiles[k].y + tiles[k].h)
  }

  /** `[client['x'] for client in space]`. */
  function XOrigins(tiles: seq<Tile>): (r: seq<int>)
    ensures |r| == |tiles|
  {
    seq(|tiles|, k requires 0 <= k < |tiles| => tiles[k].x)
  }

  /** `[client['y'] for client in space]`. */
  function YOrigins(tiles: seq<Tile>): (r: seq<int>)
    ensures |r| == |tiles|
  {
    seq(|tiles|, k requires 0 <= k < |tiles| => tiles[k].y)
  }

  /** `set(xs)`. */
  function Distinct(xs: seq<int>): set<int> {
    set x | x in xs
  }

  /**
   * The reduction `get_geometry` applies to the tiles of a space: the canvas is
   * as wide and as high as the farthest tile edge, and has as many grid columns
   * and rows as there are distinct tile origins. None for an empty tile list,
   * where Python's `max` raises.
   */
  function GetGeometry(tiles: seq<Tile>): (g: Option<Geometry>)
    ensures g.None? <==> tiles == []
    ensures g.Some? ==> forall t :: t in tiles ==> t.x + t.w <= g.value.width && t.y + t.h <= g.value.height
    ensures g.Some? ==> (exists t :: t in tiles && t.x + t.w == g.value.width)
    ensures g.Some? ==> (exists t :: t in tiles && t.y + t.h == g.value.height)
    ensures g.Some? ==> g.value.screenCols == |Distinct(XOrigins(tiles))| && g.value.screenRows == |Distinct(YOrigins(tiles))|
  {
    if |tiles| == 0 then None
    else
      var width := MaxOf(RightEdges(tiles));
      var height := MaxOf(BottomEdges(tiles));
      assert forall k :: 0 <= k < |tiles| ==> RightEdges(tiles)[k] == tiles[k].x + tiles[k].w;
      assert forall k :: 0 <= k < |tiles| ==> BottomEdges(tiles)[k] == tiles[k].y + tiles[k].h;
      Some(Geometry(width, height, |Distinct(YOrigins(tiles))|, |Distinct(XOrigins(tiles))|))
  }

  /** A list has at most as many distinct elements as entries. */
  lemma {:induction false} DistinctBounded(xs: seq<int>)
    ensures |Distinct(xs)| <= |xs|
  {
    if xs != [] {
      var init := xs[..|xs| - 1];
      DistinctBounded(init);
      assert xs == init + [xs[|xs| - 1]];
      assert Distinct(xs) == Distinct(init) + {xs[|xs| - 1]};
    }
  }

  /** A discovered grid has between one and |tiles| columns and rows. */
  lemma GeometryCounts(tiles: seq<Tile>)
    requires tiles != []
    ensures 1 <= GetGeometry(tiles).value.screenCols <= |tiles|
    ensures 1 <= GetGeometry(tiles).value.screenRows <= |tiles|
  {
    DistinctBounded(XOrigins(tiles));
    DistinctBounded(YOrigins(tiles));
    assert XOrigins(tiles)[0] in Distinct(XOrigins(tiles));
    assert YOrigins(tiles)[0] in Distinct(YOrigins(tiles));
  }

  /** `max(n, 1)`. */
  function AtLeastOne(n: int): int {
    if n > 1 then n else 1
  }

  /** `math.floor(extent / max(count, 1))`: the size of one grid cell. */
  function CellSize(extent: int, count: int): (size: int)
    ensures size * AtLeastOne(count) <= extent < (size + 1) * AtLeastOne(count)
  {
    var m := AtLeastOne(count);
    var size := extent / m;
    assert extent == size * m + extent % m;
    size
  }

  /**
   * A span of grid cells that fits the grid also fits the canvas: on a canvas of
   * non-negative extent, cells `offset .. offset + span` end within it.
   */
  lemma GridSpanFitsCanvas(extent: int, count: int, offset: int, span: int)
    requires extent >= 0
    requires offset + span <= count
    ensures offset * CellSize(extent, count) + span * CellSize(extent, count) <= extent
  {
    var c := CellSize(extent, count);
    var m := AtLeastOne(count);
    assert c >= 0;
    assert offset * c + span * c == (offset + span) * c;
    assert (offset + span) * c <= count * c by {
      assert c >= 0 && offset + span <= count;
      assert (count - (offset + span)) * c >= 0;
      assert c * (offset + span) <= c * count;
    }
    if count >= 1 {
      assert m == count;
    } else {
      assert count * c <= 0;
    }
  }
}
