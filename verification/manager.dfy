/** The procedural manager's entry points: the level start, the door
    callback that instantiates the section behind a reached door, and the
    lookup of the section under a point. */
module Manager {
  import opened Grid
  import opened Difficulty
  import opened Level
  import opened Generation
  import opened Instantiation

  /** The centre cell (6, 6), where the pre-built spawn room sits. */
  const CENTRE: Slot := 78

  lemma CentreSlot()
    ensures CENTRE == IndexFrom(SECTIONS_LINE / 2, SECTIONS_LINE / 2)
    ensures Neighbour(CENTRE, 0) == 79
  {
  }

  // ---------------------------------------------------------------------
  // The level start.

  /** `startProcedural`: fresh sections and counters, the spawn generated
      at the centre with its single door, and then instantiated, which
      generates the section behind that door. The exit chance that
      `instantialize()` reads is a file-local copy the reset at
      procedural.cpp:47 does not reach: a level starts with whatever chance
      the previous one left, `carriedExit` (0 for the first level). */
  method StartProcedural(rng: Oracle, t: Telemetry, apm: Apm, carriedExit: int) returns (st: State)
    ensures Valid(st)
    ensures Ledger(st) == 1
    ensures st.sections[CENTRE].generated && st.sections[CENTRE].instantiated
    ensures st.sections[CENTRE].connections == SPAWN_CONNECTIONS
    ensures st.sections[CENTRE].kind == Spawn || (st.sections[CENTRE].kind == Exit && st.hasCreatedEnd)
    ensures st.sections[Neighbour(CENTRE, 0)].generated
    ensures st.progression >= 1
  {
    var st0 := InitialState(apm).(probabilityExit := carriedExit);
    CentreSlot();
    var st1, _ := Generate(rng, st0, CENTRE, -1);
    assert Outcome(st0, st1, CENTRE, -1);
    var r;
    st, r := Instantialize(rng, t, st1, CENTRE);
    assert Arrived(st1, st, CENTRE);
    assert Reached(st1, st, CENTRE, 0);
    if st.sections[CENTRE].kind == Exit {
      assert ExitOk(st.sections, st.hasCreatedEnd);
    }
  }

  // ---------------------------------------------------------------------
  // The door callback.

  /** What every section's door probe answers for the point q. */
  function Probes(q: Point): (probes: seq<int>)
    ensures |probes| == SECTIONS_COUNT
    ensures forall d: Slot :: probes[d] == DoorAt(d, q)
  {
    seq(SECTIONS_COUNT, d requires 0 <= d < SECTIONS_COUNT => DoorAt(d, q))
  }

  /** Section d is instantiated and its door probe names a slot above 0. */
  predicate Hit(sections: seq<Section>, probes: seq<int>, d: Slot)
    requires |sections| == SECTIONS_COUNT && |probes| == SECTIONS_COUNT
  {
    sections[d].instantiated && probes[d] > 0
  }

  /** The first section from `from` on that the probe hits, or -1. */
  function FirstHit(sections: seq<Section>, probes: seq<int>, from: int): (h: int)
    requires |sections| == SECTIONS_COUNT && |probes| == SECTIONS_COUNT && 0 <= from <= SECTIONS_COUNT
    ensures h == -1 || (from <= h < SECTIONS_COUNT && Hit(sections, probes, h))
    ensures forall d: Slot :: from <= d && Hit(sections, probes, d) ==> from <= h <= d
    decreases SECTIONS_COUNT - from
  {
    if from == SECTIONS_COUNT then -1
    else if Hit(sections, probes, from) then from
    else FirstHit(sections, probes, from + 1)
  }

  /** The slot behind the first door hit, or -1. */
  function Target(sections: seq<Section>, probes: seq<int>): (ns: int)
    requires |sections| == SECTIONS_COUNT && |probes| == SECTIONS_COUNT
    ensures ns == -1 || ns > 0
    ensures ns == -1 <==> forall d: Slot :: !Hit(sections, probes, d)
  {
    var h := FirstHit(sections, probes, 0);
    if h == -1 then -1 else probes[h]
  }

  /** `openDoorAt`: the instantiated sections are scanned in slot order and
      the first whose door probe at q names a slot above 0 ends the scan.
      That slot is instantiated; when this succeeds the frontier counter
      drops by one and the callback reports true. Apart from that drop, the
      counter moves only with the doors the instantiation placed and the
      compound entries it made. */
  method OpenDoorAt(rng: Oracle, t: Telemetry, st: State, q: Point) returns (st2: State, unlocked: bool)
    requires Valid(st)
    ensures Valid(st2)
    ensures unlocked <==> (var ns := Target(st.sections, Probes(q));
                           ns != -1 && st.sections[ns].generated && !st.sections[ns].instantiated)
    ensures !unlocked ==> st2 == st
    ensures unlocked ==> && Shaped(st2.sections) && Arrived(st, st2, Target(st.sections, Probes(q)))
                         && Grown(st, st2.(unknownSections := st2.unknownSections + 1), -1)
    ensures unlocked ==> st2.unknownSections ==
                           st.unknownSections + (st2.doorsPlaced - st.doorsPlaced) - (st2.compoundEntries - st.compoundEntries) - 1
  {
    var probes := Probes(q);
    var h := ScanDoors(st.sections, probes);
    st2, unlocked := Unlock(rng, t, st, if h == -1 then -1 else probes[h]);
  }

  /** The section behind the door, if there is one, is instantiated; the
      counter drops by one when that succeeds. */
  method Unlock(rng: Oracle, t: Telemetry, st: State, ns: int) returns (st2: State, unlocked: bool)
    requires Valid(st) && -1 <= ns < SECTIONS_COUNT
    ensures Valid(st2)
    ensures unlocked <==> ns != -1 && st.sections[ns].generated && !st.sections[ns].instantiated
    ensures !unlocked ==> st2 == st
    ensures unlocked ==> && ns != -1 && Shaped(st2.sections) && Arrived(st, st2, ns)
                         && Grown(st, st2.(unknownSections := st2.unknownSections + 1), -1)
    ensures unlocked ==> Ledger(st2) == Ledger(st) - 1
  {
    if ns == -1 {
      return st, false;
    }
    var mid, code := Instantialize(rng, t, st, ns);
    if code == 0 {
      st2 := Decrement(st, mid, ns);
      unlocked := true;
    } else {
      st2, unlocked := mid, false;
    }
  }

  /** Dropping the frontier counter after a successful instantiation keeps
      the invariant and what the instantiation achieved, and lowers the
      ledger by one. */
  function Decrement(st: State, mid: State, ns: Slot): (st2: State)
    requires Valid(st) && Valid(mid) && Grown(st, mid, -1) && Arrived(st, mid, ns)
    ensures Valid(st2) && Shaped(st2.sections) && Arrived(st, st2, ns)
    ensures Grown(st, st2.(unknownSections := st2.unknownSections + 1), -1)
    ensures Ledger(st2) == Ledger(mid) - 1
    ensures st2.(unknownSections := mid.unknownSections) == mid
  {
    var st2 := mid.(unknownSections := mid.unknownSections - 1);
    assert st2.(unknownSections := st2.unknownSections + 1) == mid;
    assert st2.sections == mid.sections && st2.requests == mid.requests && st2.progression == mid.progression;
    assert forall d: Direction :: Reached(st, st2, ns, d) == Reached(st, mid, ns, d);
    st2
  }

  /** The scan loop of `openDoorAt`: slots in increasing order, stopping at
      the first instantiated section whose probe names a slot above 0. */
  method ScanDoors(sections: seq<Section>, probes: seq<int>) returns (h: int)
    requires |sections| == SECTIONS_COUNT && |probes| == SECTIONS_COUNT
    ensures h == FirstHit(sections, probes, 0)
    ensures h != -1 ==> 0 <= h < SECTIONS_COUNT && probes[h] == Target(sections, probes)
  {
    var d := 0;
    while d < SECTIONS_COUNT
      invariant 0 <= d <= SECTIONS_COUNT
      invariant forall e: Slot :: e < d ==> !Hit(sections, probes, e)
    {
      if sections[d].instantiated && probes[d] > 0 {
        FirstHitAt(sections, probes, d);
        return d;
      }
      d := d + 1;
    }
    FirstHitAt(sections, probes, SECTIONS_COUNT);
    return -1;
  }

  /** The scan that found no hit before d stops at d, or runs out. */
  lemma FirstHitAt(sections: seq<Section>, probes: seq<int>, d: int)
    requires |sections| == SECTIONS_COUNT && |probes| == SECTIONS_COUNT && 0 <= d <= SECTIONS_COUNT
    requires forall e: Slot :: e < d ==> !Hit(sections, probes, e)
    requires d < SECTIONS_COUNT ==> Hit(sections, probes, d)
    ensures FirstHit(sections, probes, 0) == (if d == SECTIONS_COUNT then -1 else d)
  {
  }

  // ---------------------------------------------------------------------
  // The section under a point.

  /** Half the side of a section's box as `init` sets it: SECTION_SIZE / 2,
      compared against world positions without the grid factor. */
  const BOX_HALF: int := SECTION_SIZE / 2

  /** The query box (px, py) +- (ax, ay) meets the box of section s. */
  predicate Overlaps(s: Slot, px: int, py: int, ax: int, ay: int) {
    && px + ax >= PosX(s) - BOX_HALF && px - ax <= PosX(s) + BOX_HALF
    && py + ay >= PosY(s) - BOX_HALF && py - ay <= PosY(s) + BOX_HALF
  }

  predicate Occupies(sections: seq<Section>, s: Slot, px: int, py: int, ax: int, ay: int)
    requires |sections| == SECTIONS_COUNT
  {
    sections[s].generated && Overlaps(s, px, py, ax, ay)
  }

  /** `sectionAt`: the smallest generated slot whose box meets the query
      box, or -1. */
  function SectionAt(sections: seq<Section>, px: int, py: int, ax: int, ay: int): (r: int)
    requires |sections| == SECTIONS_COUNT
    ensures r == -1 || (0 <= r < SECTIONS_COUNT && Occupies(sections, r, px, py, ax, ay))
    ensures forall s: Slot :: Occupies(sections, s, px, py, ax, ay) ==> 0 <= r <= s
  {
    SectionScan(sections, px, py, ax, ay, 0)
  }

  function SectionScan(sections: seq<Section>, px: int, py: int, ax: int, ay: int, from: int): (r: int)
    requires |sections| == SECTIONS_COUNT && 0 <= from <= SECTIONS_COUNT
    ensures r == -1 || (from <= r < SECTIONS_COUNT && Occupies(sections, r, px, py, ax, ay))
    ensures forall s: Slot :: from <= s && Occupies(sections, s, px, py, ax, ay) ==> from <= r <= s
    decreases SECTIONS_COUNT - from
  {
    if from == SECTIONS_COUNT then -1
    else if Occupies(sections, from, px, py, ax, ay) then from
    else SectionScan(sections, px, py, ax, ay, from + 1)
  }

  /** Centres of two different sections are a whole section apart on some axis. */
  lemma CentresApart(s: Slot, u: Slot)
    ensures s == u || PosX(s) - PosX(u) >= 80 || PosX(u) - PosX(s) >= 80 || PosY(s) - PosY(u) >= 80 || PosY(u) - PosY(s) >= 80
  {
    if s != u {
      var a := IndexTo(s);
      var b := IndexTo(u);
      assert a != b;
      assert PosX(s) == a.0 * 80 && PosX(u) == b.0 * 80;
      assert PosY(s) == a.1 * 80 && PosY(u) == b.1 * 80;
    }
  }

  /** A point query at the centre of a generated section finds that section. */
  lemma CentreFound(sections: seq<Section>, s: Slot)
    requires |sections| == SECTIONS_COUNT && sections[s].generated
    ensures SectionAt(sections, PosX(s), PosY(s), 0, 0) == s
  {
    var r := SectionAt(sections, PosX(s), PosY(s), 0, 0);
    assert Occupies(sections, s, PosX(s), PosY(s), 0, 0);
    CentresApart(r, s);
  }
}
