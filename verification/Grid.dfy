/** Where stations and sensors stand: sensors on a grid, stations on the rectangle around it. */
module Grid {

  datatype Coordinate = Coordinate(x: real, y: real)

  /** The square root rounded up. */
  function CeilSqrt(n: nat): (w: nat)
    ensures n <= w * w && (w > 0 ==> (w - 1) * (w - 1) < n)
  {
    CeilSqrtFrom(n, 0)
  }

  function CeilSqrtFrom(n: nat, k: nat): (w: nat)
    requires k > 0 ==> (k - 1) * (k - 1) < n
    ensures n <= w * w && (w > 0 ==> (w - 1) * (w - 1) < n)
    decreases n - k
  {
    if n <= k * k then k
    else
      BelowSquare(n, k);
      CeilSqrtFrom(n, k + 1)
  }

  lemma BelowSquare(n: nat, k: nat)
    requires k * k < n
    ensures k < n
  {
    if k > 0 {
      Products(k, 1, k);
    }
  }

  lemma Products(a: nat, b: nat, c: nat)
    requires a >= b
    ensures a * c >= b * c
  {
    assert (a - b) * c >= 0;
  }

  function CeilDiv(n: nat, d: nat): nat
    requires d > 0
  {
    (n + d - 1) / d
  }

  function Width(maxSensors: nat): nat {
    CeilSqrt(maxSensors)
  }

  lemma WidthPositive(maxSensors: nat)
    requires maxSensors >= 1
    ensures Width(maxSensors) >= 1
  {
  }

  function Height(maxSensors: nat): nat
    requires maxSensors >= 1
  {
    WidthPositive(maxSensors);
    CeilDiv(maxSensors, Width(maxSensors))
  }

  // ---------- stations ----------

  /** The point at this distance along the perimeter, clockwise from the north-west corner. */
  function PerimeterPoint(position: real, borderX: real, borderY: real): Coordinate {
    if position <= borderX then Coordinate(position, 0.0)
    else if position <= borderX + borderY then Coordinate(borderX, position - borderX)
    else if position <= borderX + borderY + borderX then Coordinate(borderX - (position - (borderX + borderY)), borderY)
    else Coordinate(0.0, borderY - (position - (borderX + borderY + borderX)))
  }

  /** How far along the perimeter a boundary point is. */
  function Along(c: Coordinate, borderX: real, borderY: real): real {
    if c.y == 0.0 then c.x
    else if c.x == borderX then borderX + c.y
    else if c.y == borderY then borderX + borderY + (borderX - c.x)
    else borderX + borderY + borderX + (borderY - c.y)
  }

  predicate OnBoundary(c: Coordinate, borderX: real, borderY: real) {
    && 0.0 <= c.x <= borderX && 0.0 <= c.y <= borderY
    && (c.x == 0.0 || c.x == borderX || c.y == 0.0 || c.y == borderY)
  }

  predicate StrictlyInside(c: Coordinate, borderX: real, borderY: real) {
    0.0 < c.x < borderX && 0.0 < c.y < borderY
  }

  lemma PerimeterRoundTrip(position: real, borderX: real, borderY: real)
    requires borderX > 0.0 && borderY > 0.0 && 0.0 < position < 2.0 * (borderX + borderY)
    ensures OnBoundary(PerimeterPoint(position, borderX, borderY), borderX, borderY)
    ensures Along(PerimeterPoint(position, borderX, borderY), borderX, borderY) == position
  {
  }

  function Distance(c: Coordinate, d: Coordinate): real {
    (if c.x < d.x then d.x - c.x else c.x - d.x) + (if c.y < d.y then d.y - c.y else c.y - d.y)
  }

  /**
   * The walk starts in the north-west and passes the north-east, south-east and south-west corners; and between one
   * corner and the next it goes straight, as far as the position increases.
   */
  lemma WalkIsClockwise(p: real, q: real, borderX: real, borderY: real)
    requires borderX > 0.0 && borderY > 0.0
    ensures PerimeterPoint(0.0, borderX, borderY) == Coordinate(0.0, 0.0)
    ensures PerimeterPoint(borderX, borderX, borderY) == Coordinate(borderX, 0.0)
    ensures PerimeterPoint(borderX + borderY, borderX, borderY) == Coordinate(borderX, borderY)
    ensures PerimeterPoint(borderX + borderY + borderX, borderX, borderY) == Coordinate(0.0, borderY)
    ensures 0.0 <= p <= q <= borderX || borderX <= p <= q <= borderX + borderY
            || borderX + borderY <= p <= q <= borderX + borderY + borderX
            || borderX + borderY + borderX <= p <= q <= 2.0 * (borderX + borderY) ==>
              Distance(PerimeterPoint(p, borderX, borderY), PerimeterPoint(q, borderX, borderY)) == q - p
  {
  }

  function BorderX(maxSensors: nat): real {
    Width(maxSensors) as real + 1.0
  }

  function BorderY(maxSensors: nat): real
    requires maxSensors >= 1
  {
    Height(maxSensors) as real + 1.0
  }

  /** The border is one step outside the smallest square's width, and outside the rows that this width needs. */
  lemma BordersFit(maxSensors: nat)
    requires maxSensors >= 1
    ensures var w, h := Width(maxSensors), Height(maxSensors);
            && BorderX(maxSensors) == w as real + 1.0 && BorderY(maxSensors) == h as real + 1.0
            && (w - 1) * (w - 1) < maxSensors <= w * w
            && (h - 1) * w < maxSensors <= h * w
  {
    hide CeilSqrtFrom;
    var w := Width(maxSensors);
    WidthPositive(maxSensors);
    var k := maxSensors + w - 1;
    assert k == w * (k / w) + k % w;
  }

  function SlotPosition(slot: int, totalStations: int, perimeter: real): real
    requires totalStations != 0
  {
    (slot as real - 0.5) * (perimeter / totalStations as real)
  }

  function CalculateStationPosition(slot: int, totalStations: int, maxSensors: nat): Coordinate
    requires maxSensors >= 1 && totalStations != 0
  {
    var borderX, borderY := BorderX(maxSensors), BorderY(maxSensors);
    var perimeter := borderX + borderY + borderX + borderY;
    PerimeterPoint(SlotPosition(slot, totalStations, perimeter), borderX, borderY)
  }

  lemma SlotInPerimeter(slot: int, total: int, perimeter: real)
    requires 1 <= slot <= total && perimeter > 0.0
    ensures 0.0 < SlotPosition(slot, total, perimeter) < perimeter
  {
    var s, t := slot as real - 0.5, total as real;
    var spacing := perimeter / t;
    assert spacing * t == perimeter;
    Scaled(s, t, spacing);
    Scaled(0.0, s, spacing);
  }

  lemma Scaled(a: real, b: real, c: real)
    requires a < b && c > 0.0
    ensures a * c < b * c
  {
    assert (b - a) * c > 0.0;
  }

  lemma SlotsApart(slot: int, other: int, total: int, perimeter: real)
    requires total > 0 && perimeter > 0.0
    ensures SlotPosition(slot, total, perimeter) == SlotPosition(other, total, perimeter) <==> slot == other
  {
    var spacing := perimeter / total as real;
    if slot < other {
      Scaled(slot as real - 0.5, other as real - 0.5, spacing);
    } else if other < slot {
      Scaled(other as real - 0.5, slot as real - 0.5, spacing);
    }
  }

  /** Stations stand on the boundary, each slot at a point of its own. */
  lemma StationsAreApart(slot: int, other: int, total: int, maxSensors: nat)
    requires maxSensors >= 1 && 1 <= slot <= total && 1 <= other <= total
    ensures OnBoundary(CalculateStationPosition(slot, total, maxSensors), BorderX(maxSensors), BorderY(maxSensors))
    ensures CalculateStationPosition(slot, total, maxSensors) == CalculateStationPosition(other, total, maxSensors)
            <==> slot == other
  {
    hide SlotPosition, PerimeterPoint, Along, OnBoundary;
    var borderX, borderY := BorderX(maxSensors), BorderY(maxSensors);
    var perimeter := borderX + borderY + borderX + borderY;
    SlotInPerimeter(slot, total, perimeter);
    SlotInPerimeter(other, total, perimeter);
    PerimeterRoundTrip(SlotPosition(slot, total, perimeter), borderX, borderY);
    PerimeterRoundTrip(SlotPosition(other, total, perimeter), borderX, borderY);
    SlotsApart(slot, other, total, perimeter);
  }

  /** Neighbouring stations are one spacing apart along the border, the first half a spacing from its start. */
  lemma StationsAreSpaced(slot: int, total: int, maxSensors: nat)
    requires maxSensors >= 1 && 1 <= slot <= total
    ensures var borderX, borderY := BorderX(maxSensors), BorderY(maxSensors);
            var spacing := 2.0 * (borderX + borderY) / total as real;
            Along(CalculateStationPosition(slot, total, maxSensors), borderX, borderY)
            == spacing / 2.0 + (slot - 1) as real * spacing
  {
    hide Along, PerimeterPoint;
    var borderX, borderY := BorderX(maxSensors), BorderY(maxSensors);
    var perimeter := borderX + borderY + borderX + borderY;
    SlotInPerimeter(slot, total, perimeter);
    PerimeterRoundTrip(SlotPosition(slot, total, perimeter), borderX, borderY);
    Spacing(slot, perimeter / total as real);
  }

  lemma Spacing(slot: int, spacing: real)
    ensures (slot as real - 0.5) * spacing == spacing / 2.0 + (slot - 1) as real * spacing
  {
    assert (slot - 1) as real == slot as real - 1.0;
    assert (slot as real - 0.5) * spacing == (slot as real - 1.0) * spacing + 0.5 * spacing;
  }

  // ---------- sensors ----------

  /** Column and row of a sector, from one. */
  function Cell(sectorID: int, maxSensors: nat): (int, int) {
    var sector := if sectorID <= 0 then 1 else sectorID;
    var width := if Width(maxSensors) == 0 then 1 else Width(maxSensors);
    ((sector - 1) % width + 1, (sector - 1) / width + 1)
  }

  function CalculateSensorPosition(sectorID: int, maxSensors: nat): Coordinate {
    var (column, row) := Cell(sectorID, maxSensors);
    Coordinate(column as real, row as real)
  }

  lemma {:induction false} DivMonotone(a: nat, b: nat, d: nat)
    requires a <= b && d > 0
    ensures a / d <= b / d
    decreases a
  {
    if a >= d {
      OneRowMore(a - d, d);
      OneRowMore(b - d, d);
      DivMonotone(a - d, b - d, d);
    }
  }

  lemma OneRowMore(a: nat, d: nat)
    requires d > 0
    ensures (a + d) / d == a / d + 1
  {
    var k := (a + d) / d - (a / d + 1);
    var q, r := a / d, a % d;
    assert a == d * q + r && a + d == d * ((a + d) / d) + (a + d) % d;
    Multiples(d, k);
    assert d * k == d * ((a + d) / d) - d * (q + 1);
  }

  lemma Multiples(d: int, k: int)
    requires d >= 0
    ensures k >= 1 ==> d * k >= d
    ensures k <= -1 ==> d * k <= -d
  {
    if k >= 1 {
      assert d * (k - 1) >= 0;
    } else if k <= -1 {
      assert d * (-1 - k) >= 0;
    }
  }

  lemma RowsFit(sectorID: int, maxSensors: nat)
    requires 1 <= sectorID <= maxSensors
    ensures Width(maxSensors) >= 1 && (sectorID - 1) / Width(maxSensors) + 1 <= Height(maxSensors)
  {
    hide CeilSqrtFrom;
    var w := Width(maxSensors);
    DivMonotone(sectorID - 1, maxSensors - 1, w);
    OneRowMore(maxSensors - 1, w);
  }

  lemma RecoverSector(sectorID: int, w: nat)
    requires sectorID >= 1 && w >= 1
    ensures (sectorID - 1) / w * w + ((sectorID - 1) % w + 1) == sectorID
    ensures 0 <= (sectorID - 1) % w < w
  {
  }

  lemma ProductAsReal(a: int, b: int)
    ensures (a * b) as real == a as real * b as real
  {
  }

  /** The sector from its column and row, in reals. */
  lemma SectorFromPoint(column: int, row: int, w: nat)
    ensures (row as real - 1.0) * w as real + column as real == ((row - 1) * w + column) as real
  {
    ProductAsReal(row - 1, w);
  }

  lemma CellInGrid(sectorID: int, maxSensors: nat)
    requires 1 <= sectorID <= maxSensors
    ensures var (column, row) := Cell(sectorID, maxSensors); var w := Width(maxSensors);
            && 1 <= column <= w && 1 <= row <= Height(maxSensors)
            && (row - 1) * w + column == sectorID
  {
    hide Width, Height;
    WidthPositive(maxSensors);
    RowsFit(sectorID, maxSensors);
    var w := Width(maxSensors);
    RecoverSector(sectorID, w);
    DivMonotone(0, sectorID - 1, w);
  }

  /** A sector that is not positive counts as the first; and without a number of sensors there is one column. */
  lemma DefaultPositions(sectorID: int, maxSensors: nat)
    ensures sectorID <= 0 ==> CalculateSensorPosition(sectorID, maxSensors) == Coordinate(1.0, 1.0)
    ensures sectorID >= 1 ==> CalculateSensorPosition(sectorID, 0) == Coordinate(1.0, sectorID as real)
  {
    hide CeilSqrtFrom;
    assert Width(0) == 0;
  }

  /** Sensors stand strictly inside the boundary, and the point gives the sector back; so no two share a point. */
  lemma SensorsAreApart(sectorID: int, other: int, maxSensors: nat)
    requires 1 <= sectorID <= maxSensors && 1 <= other <= maxSensors
    ensures StrictlyInside(CalculateSensorPosition(sectorID, maxSensors), BorderX(maxSensors), BorderY(maxSensors))
    ensures var c := CalculateSensorPosition(sectorID, maxSensors);
            (c.y - 1.0) * Width(maxSensors) as real + c.x == sectorID as real
    ensures CalculateSensorPosition(sectorID, maxSensors) == CalculateSensorPosition(other, maxSensors)
            <==> sectorID == other
  {
    hide Width, Height, Cell;
    var w := Width(maxSensors);
    CellInGrid(sectorID, maxSensors);
    CellInGrid(other, maxSensors);
    var (column, row) := Cell(sectorID, maxSensors);
    var (otherColumn, otherRow) := Cell(other, maxSensors);
    SectorFromPoint(column, row, w);
    SectorFromPoint(otherColumn, otherRow, w);
  }
}
