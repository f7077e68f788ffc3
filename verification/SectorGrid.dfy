/**
 The sector grid: 50 x 50 sectors numbered row by row, and the area of interest around one of them.
 */
module SectorGrid {

  const SECTOR_MAX_X: nat := 50
  const SECTOR_MAX_Y: nat := 50
  const TOTAL_SECTORS: nat := 2500
  const AROUND_COUNT: nat := 9
  const INVALID_SECTOR: nat := 0xFFFF

  predicate Placed(sector: nat) {
    sector < TOTAL_SECTORS
  }

  /** to_sector_index; the cast to 16 bits cannot truncate inside the grid. */
  function ToSectorIndex(x: nat, y: nat): (sector: nat)
    requires x < SECTOR_MAX_X && y < SECTOR_MAX_Y
    ensures Placed(sector) && sector % SECTOR_MAX_X == x && sector / SECTOR_MAX_X == y
  {
    (y * SECTOR_MAX_X + x) % 0x1_0000
  }

  /** At most one sector apart on each axis. */
  predicate Near(a: nat, b: nat) {
    && -1 <= (a % SECTOR_MAX_X) as int - (b % SECTOR_MAX_X) as int <= 1
    && -1 <= (a / SECTOR_MAX_X) as int - (b / SECTOR_MAX_X) as int <= 1
  }

  /** Entry i of the area around a sector: offsets run over rows -1, 0, 1 and in each over columns -1, 0, 1. */
  function AroundAt(sector: nat, i: nat): nat
    requires Placed(sector) && i < AROUND_COUNT
  {
    var x := (sector % SECTOR_MAX_X) as int + (i % 3) as int - 1;
    var y := (sector / SECTOR_MAX_X) as int + (i / 3) as int - 1;
    if x < 0 || x >= SECTOR_MAX_X || y < 0 || y >= SECTOR_MAX_Y then INVALID_SECTOR
    else y * SECTOR_MAX_X + x
  }

  /** get_around_sectors. */
  method AroundSectors(sector: nat) returns (out: array<nat>)
    requires Placed(sector)
    ensures fresh(out) && out.Length == AROUND_COUNT
    ensures forall i :: 0 <= i < AROUND_COUNT ==> out[i] == AroundAt(sector, i)
  {
    out := new nat[AROUND_COUNT];
    var centerX, centerY := sector % SECTOR_MAX_X, sector / SECTOR_MAX_X;
    var index := 0;
    for row := 0 to 3
      invariant index == 3 * row
      invariant forall i :: 0 <= i < index ==> out[i] == AroundAt(sector, i)
    {
      for column := 0 to 3
        invariant index == 3 * row + column
        invariant forall i :: 0 <= i < index ==> out[i] == AroundAt(sector, i)
      {
        var dx, dy := column - 1, row - 1;
        var nx, ny := centerX + dx, centerY + dy;
        if nx < 0 || nx >= SECTOR_MAX_X || ny < 0 || ny >= SECTOR_MAX_Y {
          out[index] := INVALID_SECTOR;
        } else {
          out[index] := ny * SECTOR_MAX_X + nx;
        }
        assert index % 3 == column && index / 3 == row;
        index := index + 1;
      }
    }
  }

  lemma Coordinates(x: int, y: int)
    requires 0 <= x < SECTOR_MAX_X && 0 <= y < SECTOR_MAX_Y
    ensures var s: nat := y * SECTOR_MAX_X + x;
      Placed(s) && s % SECTOR_MAX_X == x && s / SECTOR_MAX_X == y && s != INVALID_SECTOR
  {
  }

  /** The area lists every near sector exactly once, and nothing else, at the edges of the grid too. */
  lemma AroundIsNear(sector: nat, t: nat)
    requires Placed(sector) && Placed(t)
    ensures Near(sector, t) <==> exists i :: 0 <= i < AROUND_COUNT && AroundAt(sector, i) == t
  {
    if Near(sector, t) {
      var i := 3 * (t / SECTOR_MAX_X - sector / SECTOR_MAX_X + 1) + (t % SECTOR_MAX_X - sector % SECTOR_MAX_X + 1);
      assert i % 3 == t % SECTOR_MAX_X - sector % SECTOR_MAX_X + 1;
      assert AroundAt(sector, i) == t;
    }
    forall i | 0 <= i < AROUND_COUNT && AroundAt(sector, i) == t ensures Near(sector, t) {
      AroundEntryNear(sector, i);
    }
  }

  lemma AroundEntryNear(sector: nat, i: nat)
    requires Placed(sector) && i < AROUND_COUNT && AroundAt(sector, i) != INVALID_SECTOR
    ensures Placed(AroundAt(sector, i)) && Near(sector, AroundAt(sector, i))
  {
    var x := (sector % SECTOR_MAX_X) as int + (i % 3) as int - 1;
    var y := (sector / SECTOR_MAX_X) as int + (i / 3) as int - 1;
    Coordinates(x, y);
  }

  lemma AroundDistinct(sector: nat, i: nat, j: nat)
    requires Placed(sector) && i < j < AROUND_COUNT && AroundAt(sector, i) != INVALID_SECTOR
    ensures AroundAt(sector, i) != AroundAt(sector, j)
  {
    var x := (sector % SECTOR_MAX_X) as int;
    var y := (sector / SECTOR_MAX_X) as int;
    Coordinates(x + i % 3 - 1, y + i / 3 - 1);
    if AroundAt(sector, j) != INVALID_SECTOR {
      Coordinates(x + j % 3 - 1, y + j / 3 - 1);
    }
  }
}
