/** Grid geometry of the procedural map: the constants of the section grid,
    the mapping between grid coordinates and section slots, the four axis
    directions and the integer world geometry derived from a slot (section
    centre, door anchors, the margin test used while generating). */
module Grid {

  const MAP_SIZE: int := 128
  const SECTION_MIN_HEIGHT: int := 5
  const SECTION_MAX_HEIGHT: int := 10
  const SECTION_SIZE: int := 10
  /** Sections per grid line: MAP_SIZE / SECTION_SIZE = 128 / 10 with
      integer division (GridConstants checks both values). */
  const SECTIONS_LINE: int := 12
  const SECTIONS_COUNT: int := 144
  const DEFAULT_GRID: int := 8
  /** Merge cap: no open compound grows by merging past this size. */
  const COMPOUND_MAX_SIZE: int := 8
  /** Number of slots of a compound's index buffer. */
  const COMPOUND_CAPACITY: int := COMPOUND_MAX_SIZE * 4

  /** The four axis directions, in the order +Y, +X, -Y, -X. */
  const DIRECTIONS: seq<(int, int)> := [(0, 1), (1, 0), (0, -1), (-1, 0)]

  /** The world z coordinate of every section's floor. */
  const FLOOR_Z: int := 504
  /** Half the horizontal extent of a section, in grid units. */
  const HALF_EXTENT: int := SECTION_SIZE / 2
  /** Height above the anchor at which a door is probed. */
  const DOOR_Z_PADDING: int := DEFAULT_GRID

  type Direction = d: int | 0 <= d < 4
  type Slot = i: int | 0 <= i < 144

  lemma GridConstants()
    ensures SECTIONS_LINE == MAP_SIZE / SECTION_SIZE && SECTIONS_COUNT == SECTIONS_LINE * SECTIONS_LINE
    ensures COMPOUND_CAPACITY == 32 && COMPOUND_MAX_SIZE < COMPOUND_CAPACITY
    ensures 0 < SECTION_MAX_HEIGHT - SECTION_MIN_HEIGHT
    ensures |DIRECTIONS| == 4
  {
  }

  predicate InGrid(x: int, y: int) {
    0 <= x < SECTIONS_LINE && 0 <= y < SECTIONS_LINE
  }

  function DX(d: Direction): int { DIRECTIONS[d].0 }
  function DY(d: Direction): int { DIRECTIONS[d].1 }

  /** Row-major slot arithmetic with the line length written out. */
  lemma LineDivMod(x: int, y: int)
    requires InGrid(x, y)
    ensures 0 <= x * SECTIONS_LINE + y < SECTIONS_COUNT
    ensures (x * SECTIONS_LINE + y) / SECTIONS_LINE == x && (x * SECTIONS_LINE + y) % SECTIONS_LINE == y
  {
    GridConstants();
    assert x * SECTIONS_LINE == x * 12;
    assert (x * 12 + y) / 12 == x && (x * 12 + y) % 12 == y;
  }

  /** Slot of the section at grid coordinates (x, y), or -1 off the grid. */
  function IndexFrom(x: int, y: int): (r: int)
    ensures InGrid(x, y) <==> r != -1
    ensures InGrid(x, y) ==> 0 <= r < SECTIONS_COUNT
    ensures InGrid(x, y) ==> r / SECTIONS_LINE == x && r % SECTIONS_LINE == y
  {
    if x >= 0 && y >= 0 && x < SECTIONS_LINE && y < SECTIONS_LINE then
      LineDivMod(x, y);
      x * SECTIONS_LINE + y
    else
      -1
  }

  /** Grid coordinates of a slot: the inverse of IndexFrom. */
  function IndexTo(idx: int): (p: (int, int))
    requires 0 <= idx < SECTIONS_COUNT
    ensures InGrid(p.0, p.1)
    ensures IndexFrom(p.0, p.1) == idx
  {
    (idx / SECTIONS_LINE, idx % SECTIONS_LINE)
  }

  lemma IndexRoundTrip(x: int, y: int)
    requires InGrid(x, y)
    ensures IndexTo(IndexFrom(x, y)) == (x, y)
  {
  }

  lemma IndexFromInjective(x1: int, y1: int, x2: int, y2: int)
    requires InGrid(x1, y1) && InGrid(x2, y2)
    requires IndexFrom(x1, y1) == IndexFrom(x2, y2)
    ensures x1 == x2 && y1 == y2
  {
    IndexRoundTrip(x1, y1);
    IndexRoundTrip(x2, y2);
  }

  /** The inverse as the repository writes it: the remainder first, then the
      slot minus the remainder. */
  function IndexToAsWritten(idx: int): (p: (int, int))
    requires 0 <= idx < SECTIONS_COUNT
  {
    (idx % SECTIONS_LINE, idx - idx % SECTIONS_LINE)
  }

  /** What the written inverse really returns for a slot built from (x, y). */
  lemma IndexToAsWrittenSwaps(x: int, y: int)
    requires InGrid(x, y)
    ensures IndexToAsWritten(IndexFrom(x, y)) == (y, SECTIONS_LINE * x)
  {
    var i := IndexFrom(x, y);
    assert i == x * SECTIONS_LINE + y;
    assert i % SECTIONS_LINE == y;
  }

  /** The written inverse recovers (x, y) only for the corner (0, 0). */
  lemma IndexToAsWrittenRoundTripIff(x: int, y: int)
    requires InGrid(x, y)
    ensures IndexToAsWritten(IndexFrom(x, y)) == (x, y) <==> x == 0 && y == 0
  {
    IndexToAsWrittenSwaps(x, y);
  }

  /** Concrete witness: the section (0, 1) sits in slot 1, which the written
      inverse maps to (1, 0). */
  lemma IndexToAsWrittenCounterexample()
    ensures IndexFrom(0, 1) == 1
    ensures IndexToAsWritten(1) == (1, 0)
    ensures IndexTo(1) == (0, 1)
  {
  }

  /** The direction pointing back: +Y and -Y, +X and -X are opposite. */
  function OppositeDirection(v: Direction): (r: Direction)
    ensures r == (v + 2) % 4
    ensures DX(r) == -DX(v) && DY(r) == -DY(v)
  {
    if v == 0 then 2
    else if v == 1 then 3
    else if v == 2 then 0
    else 1
  }

  lemma OppositeInvolution(v: Direction)
    ensures OppositeDirection(OppositeDirection(v)) == v
    ensures OppositeDirection(v) != v
  {
  }

  /** The four entries are unit vectors along the axes, and entry (i+2) mod 4
      is the negation of entry i. */
  lemma DirectionsAreAxisUnits(i: Direction)
    ensures DX(i) * DX(i) + DY(i) * DY(i) == 1
    ensures DX((i + 2) % 4) == -DX(i) && DY((i + 2) % 4) == -DY(i)
  {
  }

  /** Slot of the neighbour of `idx` in direction `d`, or -1 off the grid. */
  function Neighbour(idx: Slot, d: Direction): (r: int)
    ensures r == -1 || 0 <= r < SECTIONS_COUNT
  {
    var p := IndexTo(idx);
    IndexFrom(p.0 + DX(d), p.1 + DY(d))
  }

  /** Stepping to an existing neighbour and back returns to the start. */
  lemma NeighbourSymmetric(idx: Slot, d: Direction)
    requires Neighbour(idx, d) != -1
    ensures 0 <= Neighbour(idx, d) < SECTIONS_COUNT
    ensures Neighbour(Neighbour(idx, d), OppositeDirection(d)) == idx
  {
    var p := IndexTo(idx);
    var n := Neighbour(idx, d);
    IndexRoundTrip(p.0 + DX(d), p.1 + DY(d));
    assert IndexTo(n) == (p.0 + DX(d), p.1 + DY(d));
  }

  /** Distinct directions lead to distinct neighbours, none of them the section itself. */
  lemma NeighboursDistinct(idx: Slot, d: Direction, e: Direction)
    requires Neighbour(idx, d) != -1
    ensures Neighbour(idx, d) != idx
    ensures d != e ==> Neighbour(idx, d) != Neighbour(idx, e)
  {
    var p := IndexTo(idx);
    IndexRoundTrip(p.0 + DX(d), p.1 + DY(d));
    if Neighbour(idx, e) != -1 {
      IndexRoundTrip(p.0 + DX(e), p.1 + DY(e));
    }
  }

  /** Direction from `idx` whose neighbour is `room`, or -1 if `room` is not adjacent. */
  function IsConnectedTo(idx: Slot, room: int): (r: int)
    ensures -1 <= r < 4
    ensures r == -1 <==> forall d: Direction :: Neighbour(idx, d) != room
    ensures r != -1 ==> Neighbour(idx, r) == room
    ensures r != -1 ==> forall d: Direction :: d < r ==> Neighbour(idx, d) != room
  {
    ScanConnected(idx, room, 0)
  }

  function ScanConnected(idx: Slot, room: int, i: int): (r: int)
    requires 0 <= i <= 4
    ensures r == -1 || i <= r < 4
    ensures r == -1 <==> forall d: Direction :: i <= d ==> Neighbour(idx, d) != room
    ensures r != -1 ==> Neighbour(idx, r) == room
    ensures r != -1 ==> forall d: Direction :: i <= d < r ==> Neighbour(idx, d) != room
    decreases 4 - i
  {
    if i == 4 then -1
    else if Neighbour(idx, i) == room then i
    else ScanConnected(idx, room, i + 1)
  }

  /** Asking for the neighbour in direction d yields d back. */
  lemma {:induction false} IsConnectedToNeighbour(idx: Slot, d: Direction)
    requires Neighbour(idx, d) != -1
    ensures IsConnectedTo(idx, Neighbour(idx, d)) == d
  {
    var r := IsConnectedTo(idx, Neighbour(idx, d));
    NeighboursDistinct(idx, r, d);
  }

  // ---------------------------------------------------------------------
  // World geometry of a section (all values integral in the source).

  function PosX(idx: Slot): int { IndexTo(idx).0 * SECTION_SIZE * DEFAULT_GRID }
  function PosY(idx: Slot): int { IndexTo(idx).1 * SECTION_SIZE * DEFAULT_GRID }

  /** The generation margin: a section decides undecided directions only when
      its centre is away from the map edge. */
  predicate Margin(idx: Slot) {
    && PosX(idx) > (DEFAULT_GRID * 2) + 1
    && PosY(idx) > (DEFAULT_GRID * 2) + 1
    && PosX(idx) + (DEFAULT_GRID * 2) < (MAP_SIZE * DEFAULT_GRID) - 1
    && PosY(idx) + (DEFAULT_GRID * 2) < (MAP_SIZE * DEFAULT_GRID) - 1
  }

  /** The margin test fails exactly on the first row and the first column. */
  lemma MarginIff(idx: Slot)
    ensures Margin(idx) <==> IndexTo(idx).0 >= 1 && IndexTo(idx).1 >= 1
  {
    var p := IndexTo(idx);
    assert PosX(idx) == p.0 * 80;
    assert PosY(idx) == p.1 * 80;
  }

  datatype Point = Point(x: int, y: int, z: int)

  /** Candidate door position of a section in direction d. */
  function Anchor(idx: Slot, d: Direction): Point {
    Point(PosX(idx) + DX(d) * HALF_EXTENT * DEFAULT_GRID,
          PosY(idx) + DY(d) * HALF_EXTENT * DEFAULT_GRID,
          FLOOR_Z)
  }

  function SqDist(p: Point, q: Point): int {
    (p.x - q.x) * (p.x - q.x) + (p.y - q.y) * (p.y - q.y) + (p.z - q.z) * (p.z - q.z)
  }

  /** The door probe: within 2 * DEFAULT_GRID of the anchor raised by the padding. */
  predicate NearDoor(q: Point, idx: Slot, d: Direction) {
    SqDist(q, ProbeTarget(idx, d)) < (2 * DEFAULT_GRID) * (2 * DEFAULT_GRID)
  }

  /** Neighbour slot behind the first door anchor of `idx` near q, or -1. */
  function DoorAt(idx: Slot, q: Point): (r: int)
    ensures -1 <= r < SECTIONS_COUNT
    ensures (forall d: Direction :: !NearDoor(q, idx, d)) ==> r == -1
    ensures r != -1 ==> exists d: Direction :: NearDoor(q, idx, d) && r == Neighbour(idx, d)
  {
    DoorScan(idx, q, 0)
  }

  function DoorScan(idx: Slot, q: Point, i: int): (r: int)
    requires 0 <= i <= 4
    ensures -1 <= r < SECTIONS_COUNT
    ensures (forall d: Direction :: i <= d ==> !NearDoor(q, idx, d)) ==> r == -1
    ensures r != -1 ==> exists d: Direction :: i <= d && NearDoor(q, idx, d) && r == Neighbour(idx, d)
    decreases 4 - i
  {
    if i == 4 then -1
    else if NearDoor(q, idx, i) then Neighbour(idx, i)
    else DoorScan(idx, q, i + 1)
  }

  lemma SquareOfSum(u: int, v: int)
    ensures (u + v) * (u + v) <= 2 * (u * u) + 2 * (v * v)
  {
    assert 2 * (u * u) + 2 * (v * v) - (u + v) * (u + v) == (u - v) * (u - v);
    SquareNonNegative(u - v);
  }

  lemma SquareNonNegative(w: int)
    ensures w * w >= 0
  {
    if w < 0 {
      assert w * w == (-w) * (-w);
    }
  }

  /** Two points both within reach of q are close to each other. */
  lemma NearPointsClose(q: Point, a: Point, b: Point)
    ensures SqDist(a, b) <= 2 * SqDist(q, a) + 2 * SqDist(q, b)
  {
    SquareOfSum(a.x - q.x, q.x - b.x);
    SquareOfSum(a.y - q.y, q.y - b.y);
    SquareOfSum(a.z - q.z, q.z - b.z);
    assert (a.x - q.x) * (a.x - q.x) == (q.x - a.x) * (q.x - a.x);
    assert (a.y - q.y) * (a.y - q.y) == (q.y - a.y) * (q.y - a.y);
    assert (a.z - q.z) * (a.z - q.z) == (q.z - a.z) * (q.z - a.z);
  }

  /** The raised anchor a door probe is measured against. */
  function ProbeTarget(idx: Slot, d: Direction): Point {
    var a := Anchor(idx, d);
    Point(a.x, a.y, a.z + DOOR_Z_PADDING)
  }

  /** Anchors of one section in different directions are at least 40*sqrt(2) apart. */
  lemma AnchorsApart(idx: Slot, d: Direction, e: Direction)
    ensures d != e ==> SqDist(ProbeTarget(idx, d), ProbeTarget(idx, e)) >= 3200
  {
    if d != e {
      AnchorOffset(idx, d);
      AnchorOffset(idx, e);
      var a := ProbeTarget(idx, d);
      var b := ProbeTarget(idx, e);
      DirectionsSpread(d, e);
      SquareOfStep(a.x - b.x);
      SquareOfStep(a.y - b.y);
      assert (a.z - b.z) * (a.z - b.z) == 0;
    }
  }

  /** Squares of the anchor offsets that occur between two directions. */
  lemma SquareOfStep(v: int)
    ensures v * v >= 0
    ensures v == 40 || v == -40 ==> v * v == 1600
    ensures v == 80 || v == -80 ==> v * v == 6400
  {
  }

  /** A door anchor sits 40 world units from the section centre along its axis. */
  lemma AnchorOffset(idx: Slot, d: Direction)
    ensures Anchor(idx, d).x == PosX(idx) + DX(d) * 40
    ensures Anchor(idx, d).y == PosY(idx) + DY(d) * 40
  {
    assert HALF_EXTENT == 5 && DEFAULT_GRID == 8;
    assert DX(d) == -1 || DX(d) == 0 || DX(d) == 1;
    assert DY(d) == -1 || DY(d) == 0 || DY(d) == 1;
  }

  /** Two different axis directions are perpendicular (one step apart in
      both coordinates) or opposite (two steps apart in one). */
  lemma DirectionsSpread(d: Direction, e: Direction)
    requires d != e
    ensures || ((DX(d) - DX(e) == 1 || DX(d) - DX(e) == -1) && (DY(d) - DY(e) == 1 || DY(d) - DY(e) == -1))
            || DX(d) - DX(e) == 2 || DX(d) - DX(e) == -2
            || DY(d) - DY(e) == 2 || DY(d) - DY(e) == -2
  {
    if d == 0 {
    } else if d == 1 {
    } else if d == 2 {
    } else {
    }
  }

  /** A probe position lies near at most one door anchor of a section, so the
      scan order of DoorAt never matters. */
  lemma NearDoorUnique(q: Point, idx: Slot, d: Direction, e: Direction)
    requires NearDoor(q, idx, d) && NearDoor(q, idx, e)
    ensures d == e
  {
    NearPointsClose(q, ProbeTarget(idx, d), ProbeTarget(idx, e));
    AnchorsApart(idx, d, e);
  }

  /** Whatever door anchor a probe is near determines DoorAt's answer. */
  lemma DoorAtNear(idx: Slot, q: Point, d: Direction)
    requires NearDoor(q, idx, d)
    ensures DoorAt(idx, q) == Neighbour(idx, d)
  {
    DoorScanHits(idx, q, 0, d);
  }

  lemma {:induction false} DoorScanHits(idx: Slot, q: Point, i: int, d: Direction)
    requires 0 <= i <= d
    requires NearDoor(q, idx, d)
    ensures DoorScan(idx, q, i) == Neighbour(idx, d)
    decreases 4 - i
  {
    if NearDoor(q, idx, i) {
      NearDoorUnique(q, idx, d, i);
    } else {
      DoorScanHits(idx, q, i + 1, d);
    }
  }

  /** Coordinates each slot receives when the level is set up: the double loop
      over x and y writes (x, y) into slot IndexFrom(x, y). The world position
      `generate` later computes from them is the one PosX and PosY give. */
  function InitCoordinates(): (coords: seq<(int, int)>)
    ensures |coords| == SECTIONS_COUNT
    ensures forall x, y :: InGrid(x, y) ==> coords[IndexFrom(x, y)] == (x, y)
    ensures forall i: Slot :: InGrid(coords[i].0, coords[i].1)
    ensures forall i: Slot :: PosX(i) == coords[i].0 * SECTION_SIZE * DEFAULT_GRID
                           && PosY(i) == coords[i].1 * SECTION_SIZE * DEFAULT_GRID
  {
    var coords := seq(SECTIONS_COUNT, i requires 0 <= i < SECTIONS_COUNT => IndexTo(i));
    assert forall x, y :: InGrid(x, y) ==> coords[IndexFrom(x, y)] == (x, y) by {
      forall x, y | InGrid(x, y) ensures coords[IndexFrom(x, y)] == (x, y) {
        IndexRoundTrip(x, y);
      }
    }
    coords
  }
}
