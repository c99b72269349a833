/** The second step of a section's life: `instantialize()`. The section is
    marked instantiated and counted in the progression, its door neighbours
    are generated and those of its open neighbours that are already generated
    are instantiated, it may become the
    level's exit, the distribution tables are refreshed, its walls, doors,
    ceiling and covers are requested, the rest of its compound is
    instantiated, and finally items and monsters (or the end trigger) are
    placed. Geometry and entity calls are recorded in the request log. */
module Instantiation {
  import opened Grid
  import opened Compounds
  import opened Distribution
  import opened Difficulty
  import opened Level
  import opened Generation

  /** Section i, if it was generated in st, keeps everything in st2 but its
      instantiated flag and its kind, and keeps those too once it is
      instantiated. */
  predicate Settled(st: State, st2: State, i: int) {
    0 <= i < |st.sections| && |st2.sections| == |st.sections| && st.sections[i].generated ==>
      && st2.sections[i] == st.sections[i].(instantiated := st2.sections[i].instantiated, kind := st2.sections[i].kind)
      && (st.sections[i].instantiated ==> st2.sections[i] == st.sections[i])
  }

  /** What every step of an instantiation leaves in place: generated
      sections other than c keep their shape and instantiated ones stay as
      they are, the generated and instantiated flags are only ever set, the
      compound arena only grows, progression never drops, the request log
      only grows at its end, and the frontier counter moves only with the
      doors placed and the compound entries made. */
  predicate Grown(st: State, st2: State, c: int) {
    && |st2.sections| == |st.sections|
    && (forall i {:trigger Settled(st, st2, i)} :: 0 <= i < |st.sections| && i != c ==> Settled(st, st2, i))
    && Ungenerated(st2.sections) <= Ungenerated(st.sections)
    && Uninstantiated(st2.sections) <= Uninstantiated(st.sections)
    && ArenaGrown(st.compounds, st2.compounds)
    && st.progression <= st2.progression
    && st.requests <= st2.requests
    && st.doorsPlaced <= st2.doorsPlaced && st.compoundEntries <= st2.compoundEntries
    && Ledger(st2) == Ledger(st)
  }

  lemma GrownTrans(st1: State, st2: State, st3: State, c: int)
    requires Grown(st1, st2, c) && Grown(st2, st3, c)
    ensures Grown(st1, st3, c)
  {
    forall i | 0 <= i < |st1.sections| && i != c ensures Settled(st1, st3, i) {
      assert Settled(st1, st2, i) && Settled(st2, st3, i);
    }
    ArenaTrans(st1.compounds, st2.compounds, st3.compounds);
  }

  /** The generated and instantiated flags of a section are never cleared. */
  lemma FlagsPersist(st: State, st2: State, c: int, i: int)
    requires Grown(st, st2, c) && 0 <= i < |st.sections|
    ensures st.sections[i].generated ==> st2.sections[i].generated
    ensures st.sections[i].instantiated ==> st2.sections[i].instantiated
  {
    if st.sections[i].generated {
      assert i !in Ungenerated(st.sections);
      assert i !in Ungenerated(st2.sections);
    }
    if st.sections[i].instantiated {
      assert i !in Uninstantiated(st.sections);
      assert i !in Uninstantiated(st2.sections);
    }
  }

  /** A generation keeps every generated section, hence every instantiated one. */
  lemma GenerationGrows(st: State, st2: State)
    requires Valid(st)
    requires Fixed(st, st2, -1)
    requires Ungenerated(st2.sections) <= Ungenerated(st.sections)
    requires Uninstantiated(st2.sections) == Uninstantiated(st.sections)
    requires ArenaGrown(st.compounds, st2.compounds)
    ensures Grown(st, st2, -1)
  {
    forall i | 0 <= i < |st.sections| ensures Settled(st, st2, i) {
      assert Kept(st, st2, i);
    }
  }

  /** A step that touches neither the sections nor the progression, and
      only appends to the log, grows the state. */
  lemma SectionsUntouched(st: State, st2: State)
    requires st2.sections == st.sections && st2.compounds == st.compounds && st2.progression == st.progression
    requires st.requests <= st2.requests
    requires st2.unknownSections == st.unknownSections && st2.doorsPlaced == st.doorsPlaced
    requires st2.compoundEntries == st.compoundEntries
    ensures Grown(st, st2, -1)
  {
    forall i | 0 <= i < |st.sections| ensures Settled(st, st2, i) {
    }
  }

  /** Setting the flag of a generated, uninstantiated section and counting it
      in the progression. */
  method MarkInstantiated(st: State, c: Slot) returns (st2: State)
    requires Valid(st) && st.sections[c].generated && !st.sections[c].instantiated
    ensures Valid(st2)
    ensures st2.sections[c] == st.sections[c].(instantiated := true)
    ensures st2 == st.(sections := st2.sections, progression := st.progression + 1)
    ensures Uninstantiated(st2.sections) == Uninstantiated(st.sections) - {c}
    ensures c in Uninstantiated(st.sections)
    ensures Grown(st, st2, -1)
  {
    var s := st.sections[c].(instantiated := true);
    var sections2 := st.sections[c := s];
    InstantiatedOne(st.sections, sections2, c);
    KindsKeepExits(st.sections, sections2, st.hasCreatedEnd);
    CompoundsGrow(st.sections, sections2, st.compounds);
    forall i: Slot ensures LinksOk(i, sections2[i]) {
      assert LinksOk(i, st.sections[i]);
    }
    st2 := st.(sections := sections2, progression := st.progression + 1);
    forall i | 0 <= i < |st.sections| ensures Settled(st, st2, i) {
    }
  }

  /** The exit roll is drawn only when no exit exists yet and the exit
      chance is positive. */
  predicate ExitRolled(st: State, chance: int) {
    !st.hasCreatedEnd && chance > 0
  }

  /** The exit decision for the section c being instantiated. Once
      progression has reached its minimum the exit chance grows by
      PROBABILITY_EXIT_INC on every call. While no exit exists, c becomes the
      exit when the exit roll succeeds, or, as a Normal section, when at most
      two sections are still reachable through unopened doors. */
  method DecideExit(rng: Oracle, st: State, c: Slot) returns (st2: State)
    requires Valid(st) && st.sections[c].instantiated && st.sections[c].kind != Exit
    ensures Valid(st2)
    ensures st2.sections == st.sections[c := st.sections[c].(kind := st2.sections[c].kind)]
    ensures st2 == st.(sections := st2.sections, hasCreatedEnd := st2.hasCreatedEnd,
                       probabilityExit := st2.probabilityExit, tick := st2.tick)
    ensures st2.probabilityExit ==
              st.probabilityExit + (if st.progression >= PROGRESSION_MIN then PROBABILITY_EXIT_INC else 0)
    ensures st2.tick == st.tick + (if ExitRolled(st, st2.probabilityExit) then 1 else 0)
    ensures st.hasCreatedEnd ==> st2.sections == st.sections && st2.hasCreatedEnd
    ensures st2.hasCreatedEnd <==> (st.hasCreatedEnd || st2.sections[c].kind == Exit)
    ensures st2.sections[c].kind == Exit ==> !st.hasCreatedEnd
    ensures st2.sections[c].kind != Exit ==> st2.sections[c].kind == st.sections[c].kind
    ensures ExitRolled(st, st2.probabilityExit) && rng(st.tick) % 101 <= st2.probabilityExit ==>
              st2.sections[c].kind == Exit
    ensures !st.hasCreatedEnd && st.sections[c].kind == Normal && st.unknownSections <= 2 ==>
              st2.sections[c].kind == Exit
    ensures st2.sections[c].kind == Exit ==>
              (ExitRolled(st, st2.probabilityExit) && rng(st.tick) % 101 <= st2.probabilityExit) ||
              (st.sections[c].kind == Normal && st.unknownSections <= 2)
    ensures Grown(st, st2, c)
  {
    var chance := st.probabilityExit + (if st.progression >= PROGRESSION_MIN then PROBABILITY_EXIT_INC else 0);
    var exit := false;
    var tick := st.tick;
    if ExitRolled(st, chance) {
      exit := rng(st.tick) % 101 <= chance;
      tick := tick + 1;
    }
    if !exit && st.sections[c].kind == Normal && st.unknownSections <= 2 && !st.hasCreatedEnd {
      exit := true;
    }
    if exit {
      var sections2 := st.sections[c := st.sections[c].(kind := Exit)];
      assert LinksOk(c, st.sections[c]);
      ReplaceSectionKeepsShape(st, c, sections2);
      st2 := st.(sections := sections2, hasCreatedEnd := true, probabilityExit := chance, tick := tick);
      NewExitOk(st, c, st2);
    } else {
      st2 := st.(probabilityExit := chance, tick := tick);
    }
    forall i | 0 <= i < |st.sections| && i != c ensures Settled(st, st2, i) {
    }
  }

  /** Rewriting the kind of section c to Exit keeps the section, compound
      and flag invariants. */
  lemma ReplaceSectionKeepsShape(st: State, c: Slot, sections2: seq<Section>)
    requires Valid(st) && st.sections[c].instantiated
    requires sections2 == st.sections[c := st.sections[c].(kind := Exit)]
    ensures SectionsOk(sections2, |st.compounds|)
    ensures CompoundsOk(sections2, st.compounds)
    ensures Instantiated(sections2) == Instantiated(st.sections)
    ensures Ungenerated(sections2) == Ungenerated(st.sections)
    ensures Uninstantiated(sections2) == Uninstantiated(st.sections)
  {
    FlagSets(st.sections, sections2);
    CompoundsGrow(st.sections, sections2, st.compounds);
    forall i: Slot ensures LinksOk(i, sections2[i]) {
      assert LinksOk(i, st.sections[i]);
    }
  }

  /** The first exit of a level keeps the exit invariant. */
  lemma NewExitOk(st: State, c: Slot, st2: State)
    requires Valid(st) && !st.hasCreatedEnd
    requires st2.sections == st.sections[c := st.sections[c].(kind := Exit)]
    requires SectionsOk(st2.sections, |st.compounds|) && CompoundsOk(st2.sections, st.compounds)
    requires Instantiated(st2.sections) == Instantiated(st.sections)
    requires st2 == st.(sections := st2.sections, hasCreatedEnd := true,
                        probabilityExit := st2.probabilityExit, tick := st2.tick)
    ensures Valid(st2)
  {
    forall i | 0 <= i < |st.sections| ensures st.sections[i].kind != Exit {
    }
    assert st2.sections[c].kind == Exit;
  }

  /** `updateProbabilities`: both spawn chances and both tables are rebuilt
      from the telemetry, the progression and the action counters, and the
      action counters are reset. */
  method Retune(t: Telemetry, st: State) returns (st2: State)
    requires Valid(st)
    ensures Valid(st2)
    ensures st2.apm == Apm(0, 0, 0)
    ensures var r := UpdateProbabilities(t, st.progression, st.apm);
            st2 == st.(itemSpawnProbability := r.itemChance, monsterSpawnProbability := r.monsterChance,
                       monsterDist := r.monsterDist, itemsDist := r.itemsDist, apm := Apm(0, 0, 0))
    ensures Grown(st, st2, -1)
  {
    var r := UpdateProbabilities(t, st.progression, st.apm);
    st2 := st.(itemSpawnProbability := r.itemChance, monsterSpawnProbability := r.monsterChance,
               monsterDist := r.monsterDist, itemsDist := r.itemsDist, apm := Apm(0, 0, 0));
    SectionsUntouched(st, st2);
  }

  // ---------------------------------------------------------------------
  // Neighbours.

  /** What instantiating c promises about side d, judged against the state
      st it started from: behind a door there is a generated section, and
      behind an open side a section that was already generated is now
      instantiated. */
  predicate Reached(st: State, st2: State, c: Slot, d: Direction)
    requires Shaped(st.sections) && Shaped(st2.sections)
  {
    var nb := Neighbour(c, d);
    var v := st.sections[c].connections[d];
    && (v == Door ==> nb != -1 && st2.sections[nb].generated)
    && (v == NoWall ==> nb != -1 && (st.sections[nb].generated ==> st2.sections[nb].instantiated))
  }

  /** Later steps keep what a visit reached. */
  lemma ReachedPersists(st: State, st2: State, st3: State, c: Slot, d: Direction, x: int)
    requires Shaped(st.sections) && Shaped(st2.sections) && Shaped(st3.sections)
    requires Grown(st2, st3, x) && Reached(st, st2, c, d)
    ensures Reached(st, st3, c, d)
  {
    var nb := Neighbour(c, d);
    if nb != -1 {
      FlagsPersist(st2, st3, x, nb);
    }
  }

  /** The neighbour pass of `instantialize()`: the section behind every door
      is generated with c as its parent, and the section behind every open
      side is instantiated. */
  method VisitNeighbours(rng: Oracle, t: Telemetry, st: State, c: Slot) returns (st2: State)
    requires Valid(st) && st.sections[c].instantiated
    ensures Valid(st2) && Grown(st, st2, -1)
    ensures forall d: Direction :: Reached(st, st2, c, d)
    decreases Uninstantiated(st.sections), 2
  {
    assert LinksOk(c, st.sections[c]);
    st2 := st;
    SectionsUntouched(st, st);
    var d := 0;
    while d < 4
      invariant 0 <= d <= 4 && Valid(st2) && Grown(st, st2, -1)
      invariant forall e: Direction :: e < d ==> Reached(st, st2, c, e)
    {
      var v := st.sections[c].connections[d];
      var nb := Neighbour(c, d);
      var next := st2;
      if v == Door {
        var created;
        next, created := Generate(rng, st2, nb, c);
        GenerationGrows(st2, next);
      } else if v == NoWall {
        FlagsPersist(st, st2, -1, nb);
        var r;
        next, r := Instantialize(rng, t, st2, nb);
      } else {
        SectionsUntouched(st2, next);
      }
      assert Reached(st, next, c, d);
      forall e: Direction | e < d ensures Reached(st, next, c, e) {
        ReachedPersists(st, st2, next, c, e, -1);
      }
      GrownTrans(st, st2, next, -1);
      st2, d := next, d + 1;
    }
  }

  // ---------------------------------------------------------------------
  // The shell: floor, walls, doors, ceiling and covers.

  /** The wall on side d of c is raised, and a door placed in it, only when
      nothing stands there yet: the side faces off the grid or a section
      that is not instantiated. */
  predicate Raised(sections: seq<Section>, c: Slot, d: Direction)
    requires |sections| == SECTIONS_COUNT
  {
    var li := Neighbour(c, d);
    li == -1 || !sections[li].instantiated
  }

  /** The requests for sides d..3 of c: a wall face for every wall or door
      side, followed by a door entity when that side is a door whose wall is
      raised. */
  function SideRequests(sections: seq<Section>, c: Slot, d: int): (rs: seq<Request>)
    requires Shaped(sections) && 0 <= d <= 4
    ensures forall r :: r in rs ==> (r.WallFace? || r.DoorEntity?) && r.section == c
    decreases 4 - d
  {
    if d == 4 then []
    else
      var v := sections[c].connections[d];
      var raised := Raised(sections, c, d);
      var here := if v == Wall || v == Door then
                    [WallFace(c, d, raised)] + (if raised && v == Door then [DoorEntity(c, d)] else [])
                  else [];
      here + SideRequests(sections, c, d + 1)
  }

  /** Side e gets a wall face exactly when it is a wall or a door, raised as
      Raised says, and a door entity exactly when it is a door whose wall is
      raised. */
  lemma {:induction false} SideRequestsContent(sections: seq<Section>, c: Slot, d: int)
    requires Shaped(sections) && 0 <= d <= 4
    ensures forall e: Direction, raised: bool :: WallFace(c, e, raised) in SideRequests(sections, c, d) <==>
              && d <= e
              && (sections[c].connections[e] == Wall || sections[c].connections[e] == Door)
              && raised == Raised(sections, c, e)
    ensures forall e: Direction :: DoorEntity(c, e) in SideRequests(sections, c, d) <==>
              d <= e && sections[c].connections[e] == Door && Raised(sections, c, e)
    decreases 4 - d
  {
    if d < 4 {
      SideRequestsContent(sections, c, d + 1);
    }
  }

  /** A draw folded into a sign. */
  function Sign(draw: nat): (s: int)
    ensures s == -1 || s == 1
    ensures s == 1 <==> draw % 2 == 1
  {
    (draw % 2) * 2 - 1
  }

  /** A cover block of c: offset signs of -1 or 1 along both axes and one of
      the four directions. */
  predicate CoverOk(r: Request, c: Slot) {
    r.Cover? && r.section == c && (r.xSign == -1 || r.xSign == 1) && (r.ySign == -1 || r.ySign == 1) && 0 <= r.dir < 4
  }

  /** The two covers of c; each takes three draws (x side, y side, direction). */
  function Covers(rng: Oracle, t: nat, c: Slot): (rs: seq<Request>)
    ensures |rs| == 2 && CoverOk(rs[0], c) && CoverOk(rs[1], c)
  {
    [Cover(c, Sign(rng(t)), Sign(rng(t + 1)), rng(t + 2) % 4),
     Cover(c, Sign(rng(t + 3)), Sign(rng(t + 4)), rng(t + 5) % 4)]
  }

  /** What the shell step adds for c: the floor first, the ceiling and two
      covers last, and in between exactly the wall faces and doors that
      SideRequestsContent describes; six draws are used. */
  predicate BuiltShell(st: State, st2: State, c: Slot)
    requires Shaped(st.sections)
  {
    && st.requests <= st2.requests
    && st2.tick == st.tick + 6
    && var added := st2.requests[|st.requests|..];
       && |added| >= 4 && added[0] == Floor(c) && added[|added| - 3] == Ceiling(c)
       && CoverOk(added[|added| - 2], c) && CoverOk(added[|added| - 1], c)
       && (forall e: Direction, raised: bool :: WallFace(c, e, raised) in added <==>
             && (st.sections[c].connections[e] == Wall || st.sections[c].connections[e] == Door)
             && raised == Raised(st.sections, c, e))
       && (forall e: Direction :: DoorEntity(c, e) in added <==>
             st.sections[c].connections[e] == Door && Raised(st.sections, c, e))
  }

  /** Appending requests without invalid entities, and advancing the draw
      counter, keeps the invariant and grows the state. */
  lemma AppendRequests(st: State, added: seq<Request>, t: nat)
    requires Valid(st) && EntitiesOk(added)
    ensures Valid(st.(requests := st.requests + added, tick := t))
    ensures Grown(st, st.(requests := st.requests + added, tick := t), -1)
  {
    EntitiesAppend(st.requests, added);
    SectionsUntouched(st, st.(requests := st.requests + added, tick := t));
  }

  /** The requests of the shell step, laid out as BuiltShell describes. */
  lemma ShellLayout(st: State, st2: State, c: Slot, rng: Oracle)
    requires Shaped(st.sections)
    requires st2.requests == st.requests + ([Floor(c)] + SideRequests(st.sections, c, 0) + [Ceiling(c)] + Covers(rng, st.tick, c))
    requires st2.tick == st.tick + 6
    ensures BuiltShell(st, st2, c)
  {
    var sides := SideRequests(st.sections, c, 0);
    SideRequestsContent(st.sections, c, 0);
    var added := [Floor(c)] + sides + [Ceiling(c)] + Covers(rng, st.tick, c);
    assert st2.requests[|st.requests|..] == added;
    assert added[|added| - 3] == Ceiling(c);
    var covers := Covers(rng, st.tick, c);
    forall e: Direction, raised: bool ensures WallFace(c, e, raised) in added <==> WallFace(c, e, raised) in sides {
      MiddleMembership(Floor(c), Ceiling(c), sides, covers, WallFace(c, e, raised));
    }
    forall e: Direction ensures DoorEntity(c, e) in added <==> DoorEntity(c, e) in sides {
      MiddleMembership(Floor(c), Ceiling(c), sides, covers, DoorEntity(c, e));
    }
  }

  /** The shell holds no item or monster requests. */
  lemma ShellEntitiesOk(sections: seq<Section>, c: Slot, rng: Oracle, t: nat)
    requires Shaped(sections)
    ensures EntitiesOk([Floor(c)] + SideRequests(sections, c, 0) + [Ceiling(c)] + Covers(rng, t, c))
  {
    var added := [Floor(c)] + SideRequests(sections, c, 0) + [Ceiling(c)] + Covers(rng, t, c);
    forall q | q in added ensures !q.ItemEntity? && !q.MonsterEntity? {
    }
  }

  /** A request that is neither the first, nor the one after the middle
      part, nor a cover is in the whole exactly when it is in the middle. */
  lemma MiddleMembership(a: Request, b: Request, middle: seq<Request>, covers: seq<Request>, x: Request)
    requires x != a && x != b && !x.Cover?
    requires forall q :: q in covers ==> q.Cover?
    ensures x in [a] + middle + [b] + covers <==> x in middle
  {
  }

  /** The container of a Normal or Exit section; the spawn room already
      exists in the map and is not built. */
  method Build(rng: Oracle, st: State, c: Slot) returns (st2: State)
    requires Valid(st) && st.sections[c].generated
    ensures Valid(st2) && Grown(st, st2, -1)
    ensures st2 == st.(requests := st2.requests, tick := st2.tick)
    ensures st.sections[c].kind == Spawn ==> st2 == st
    ensures st.sections[c].kind != Spawn ==> BuiltShell(st, st2, c)
  {
    if st.sections[c].kind == Spawn {
      SectionsUntouched(st, st);
      return st;
    }
    var added := [Floor(c)] + SideRequests(st.sections, c, 0) + [Ceiling(c)] + Covers(rng, st.tick, c);
    ShellEntitiesOk(st.sections, c, rng, st.tick);
    AppendRequests(st, added, st.tick + 6);
    st2 := st.(requests := st.requests + added, tick := st.tick + 6);
    ShellLayout(st, st2, c, rng);
  }

  // ---------------------------------------------------------------------
  // The compound pass.

  /** The first i members of c's compound are instantiated. */
  predicate SweptTo(st: State, c: Slot, i: int)
    requires Valid(st) && st.sections[c].generated
  {
    && 0 <= i <= CompoundOf(st, c).count
    && forall j :: 0 <= j < i ==> st.sections[CompoundOf(st, c).indexes[j]].instantiated
  }

  /** Members already swept stay swept while the compound grows at its end,
      and the member just visited joins them. */
  lemma SweepStep(st: State, st2: State, c: Slot, i: int)
    requires Valid(st) && Valid(st2) && Grown(st, st2, -1) && st.sections[c].generated
    requires SweptTo(st, c, i) && i < CompoundOf(st, c).count
    requires st2.sections[CompoundOf(st, c).indexes[i]].instantiated
    ensures st2.sections[c].generated && SweptTo(st2, c, i + 1)
  {
    assert Settled(st, st2, c);
    var h := st.sections[c].compound;
    var k1, k2 := st.compounds[h], st2.compounds[h];
    assert CompoundGrew(k1, k2);
    forall j | 0 <= j <= i ensures k2.indexes[j] == k1.indexes[j] && st2.sections[k2.indexes[j]].instantiated {
      if k2 != k1 {
        assert Members(k1)[j] == Members(k2)[j];
      }
      FlagsPersist(st, st2, -1, k1.indexes[j]);
    }
  }

  /** A compound entry takes one off the unknown sections and keeps the
      ledger. */
  lemma CountEntry(st: State, st2: State)
    requires Grown(st, st2, -1)
    ensures Grown(st, st2.(unknownSections := st2.unknownSections - 1, compoundEntries := st2.compoundEntries + 1), -1)
  {
    var st3 := st2.(unknownSections := st2.unknownSections - 1, compoundEntries := st2.compoundEntries + 1);
    forall i | 0 <= i < |st.sections| ensures Settled(st, st3, i) {
      assert Settled(st, st2, i);
    }
  }

  /** The inner loop of the compound pass, over the compound of member m:
      every member is instantiated, and each one this loop itself
      instantiates takes one off the count of unknown sections. */
  method SweepMember(rng: Oracle, t: Telemetry, st: State, m: Slot) returns (st2: State)
    requires Valid(st) && st.sections[m].generated
    ensures Valid(st2) && Grown(st, st2, -1)
    ensures st2.sections[m].generated && SweptTo(st2, m, CompoundOf(st2, m).count)
    decreases Uninstantiated(st.sections), 1
  {
    st2 := st;
    SectionsUntouched(st, st);
    var j := 0;
    while j < CompoundOf(st2, m).count
      invariant Valid(st2) && Grown(st, st2, -1) && st2.sections[m].generated
      invariant SweptTo(st2, m, j)
      decreases COMPOUND_CAPACITY - j
    {
      var member := CompoundOf(st2, m).indexes[j];
      var next, r := Instantialize(rng, t, st2, member);
      if r == 0 {
        CountEntry(st2, next);
        next := next.(unknownSections := next.unknownSections - 1, compoundEntries := next.compoundEntries + 1);
      }
      SweepStep(st2, next, m, j);
      GrownTrans(st, st2, next, -1);
      st2, j := next, j + 1;
    }
  }

  /** The compound pass of `instantialize()`: every member of c's compound
      is instantiated, and then the inner loop runs over that member's own
      compound. The count is read again on every pass, as the compound may
      have grown. */
  method InstantializeCompound(rng: Oracle, t: Telemetry, st: State, c: Slot) returns (st2: State)
    requires Valid(st) && st.sections[c].generated
    ensures Valid(st2) && Grown(st, st2, -1)
    ensures st2.sections[c].generated && SweptTo(st2, c, CompoundOf(st2, c).count)
    decreases Uninstantiated(st.sections), 2
  {
    st2 := st;
    SectionsUntouched(st, st);
    var i := 0;
    while i < CompoundOf(st2, c).count
      invariant Valid(st2) && Grown(st, st2, -1) && st2.sections[c].generated
      invariant SweptTo(st2, c, i)
      decreases COMPOUND_CAPACITY - i
    {
      var m := CompoundOf(st2, c).indexes[i];
      var visited, _ := Instantialize(rng, t, st2, m);
      var next := SweepMember(rng, t, visited, m);
      GrownTrans(st2, visited, next, -1);
      FlagsPersist(visited, next, -1, m);
      SweepStep(st2, next, c, i);
      GrownTrans(st, st2, next, -1);
      st2, i := next, i + 1;
    }
  }

  // ---------------------------------------------------------------------
  // Items, monsters and the end trigger.

  /** The spawn roll: one draw folded into [0, 100] against a chance. */
  predicate Rolled(rng: Oracle, t: nat, chance: int) {
    rng(t) % 101 <= chance
  }

  /** The spawn loop shared by items and monsters, from draw t with s
      already placed: while the roll succeeds and fewer than max were placed,
      one slot of the table is sampled (one draw) and placed (two more
      draws). The result lists the sampled slots. The roll is drawn before
      the count is compared, so a loop that reaches max still draws it. */
  function Spawns(rng: Oracle, t: nat, chance: int, dist: seq<int>, max: int, s: int): (picks: seq<nat>)
    requires Sampleable(dist) && s <= max
    ensures |picks| <= max - s
    ensures forall k :: 0 <= k < |picks| ==> picks[k] < |dist|
    ensures chance >= 100 ==> |picks| == max - s
    ensures chance < 0 ==> picks == []
    decreases max - s
  {
    if Rolled(rng, t, chance) && s < max then
      [SampleDistribution(dist, rng(t + 1))] + Spawns(rng, t + 4, chance, dist, max, s + 1)
    else []
  }

  /** The k-th placement of the spawn loop rolled successfully at draw
      t + 4k and sampled the table with draw t + 4k + 1. */
  lemma {:induction false} SpawnsPlacement(rng: Oracle, t: nat, chance: int, dist: seq<int>, max: int, s: int, k: nat)
    requires Sampleable(dist) && s <= max && k < |Spawns(rng, t, chance, dist, max, s)|
    ensures Rolled(rng, t + 4 * k, chance)
    ensures Spawns(rng, t, chance, dist, max, s)[k] == SampleDistribution(dist, rng(t + 4 * k + 1))
    decreases k
  {
    var rest := Spawns(rng, t + 4, chance, dist, max, s + 1);
    assert Rolled(rng, t, chance) && s < max;
    assert Spawns(rng, t, chance, dist, max, s) == [SampleDistribution(dist, rng(t + 1))] + rest;
    if k > 0 {
      SpawnsPlacement(rng, t + 4, chance, dist, max, s + 1, k - 1);
      assert t + 4 + 4 * (k - 1) == t + 4 * k;
    }
  }

  /** The spawn loop stops at max or at the first failed roll, the one
      drawn right after the last placement. */
  lemma {:induction false} SpawnsStop(rng: Oracle, t: nat, chance: int, dist: seq<int>, max: int, s: int)
    requires Sampleable(dist) && s <= max
    ensures |Spawns(rng, t, chance, dist, max, s)| < max - s ==>
              !Rolled(rng, t + 4 * |Spawns(rng, t, chance, dist, max, s)|, chance)
    decreases max - s
  {
    if Rolled(rng, t, chance) && s < max {
      var rest := Spawns(rng, t + 4, chance, dist, max, s + 1);
      SpawnsStop(rng, t + 4, chance, dist, max, s + 1);
      assert |Spawns(rng, t, chance, dist, max, s)| == |rest| + 1;
      assert t + 4 + 4 * |rest| == t + 4 * (|rest| + 1);
    }
  }

  /** The draws the spawn loop consumes: four per placement and the final roll. */
  function SpawnDraws(picks: seq<nat>): nat {
    4 * |picks| + 1
  }

  /** The draw the monster loop starts at, right after an item loop that
      started at draw t and placed `items`. */
  function MonsterStart(t: nat, items: seq<nat>): nat {
    t + SpawnDraws(items)
  }

  function ItemRequests(c: Slot, picks: seq<nat>): (rs: seq<Request>)
    requires forall k :: 0 <= k < |picks| ==> picks[k] < ITEMS_COUNT
    ensures |rs| == |picks|
    ensures forall k :: 0 <= k < |rs| ==> rs[k] == ItemEntity(c, ITEMS_INDEXES[picks[k]])
  {
    seq(|picks|, k requires 0 <= k < |picks| => ItemEntity(c, ITEMS_INDEXES[picks[k]]))
  }

  function MonsterRequests(c: Slot, picks: seq<nat>): (rs: seq<Request>)
    ensures |rs| == |picks|
    ensures forall k :: 0 <= k < |rs| ==> rs[k] == MonsterEntity(c, picks[k])
  {
    seq(|picks|, k requires 0 <= k < |picks| => MonsterEntity(c, picks[k]))
  }

  /** Item requests name item entity types and monster requests name rows
      of the monster table. */
  lemma SpawnRequestsOk(c: Slot, items: seq<nat>, monsters: seq<nat>)
    requires forall k :: 0 <= k < |items| ==> items[k] < ITEMS_COUNT
    requires forall k :: 0 <= k < |monsters| ==> monsters[k] < MONSTERS_COUNT
    ensures EntitiesOk(ItemRequests(c, items) + MonsterRequests(c, monsters))
  {
    var rs := ItemRequests(c, items) + MonsterRequests(c, monsters);
    forall q | q in rs
      ensures (q.ItemEntity? ==> q.entityType in ITEMS_INDEXES) && (q.MonsterEntity? ==> 0 <= q.kind < MONSTERS_COUNT)
    {
      var k :| 0 <= k < |rs| && rs[k] == q;
      if k < |items| {
        assert q == ItemEntity(c, ITEMS_INDEXES[items[k]]);
      } else {
        assert q == MonsterEntity(c, monsters[k - |items|]);
      }
    }
  }

  /** The item types a Normal section receives, starting at the state's
      current draw. */
  function ItemPicks(rng: Oracle, st: State): (picks: seq<nat>)
    requires TablesOk(st.monsterDist, st.itemsDist)
    ensures |picks| <= ITEMS_MAX_PERSECTION
    ensures forall k :: 0 <= k < |picks| ==> picks[k] < ITEMS_COUNT
  {
    Spawns(rng, st.tick, st.itemSpawnProbability, st.itemsDist, ITEMS_MAX_PERSECTION, 0)
  }

  /** The monster rows, drawn after the item loop's last roll. */
  function MonsterPicks(rng: Oracle, st: State): (picks: seq<nat>)
    requires TablesOk(st.monsterDist, st.itemsDist)
    ensures |picks| <= MONSTERS_MAX_PERSECTION
    ensures forall k :: 0 <= k < |picks| ==> picks[k] < MONSTERS_COUNT
  {
    Spawns(rng, MonsterStart(st.tick, ItemPicks(rng, st)), st.monsterSpawnProbability, st.monsterDist,
           MONSTERS_MAX_PERSECTION, 0)
  }

  /** A higher chance never places fewer entities: from the same draws, the
      loop with the lower chance places a prefix of what the other places. */
  lemma {:induction false} SpawnsMonotone(rng: Oracle, t: nat, c1: int, c2: int, dist: seq<int>, max: int, s: int)
    requires Sampleable(dist) && s <= max && c1 <= c2
    ensures Spawns(rng, t, c1, dist, max, s) <= Spawns(rng, t, c2, dist, max, s)
    decreases max - s
  {
    if Rolled(rng, t, c1) && s < max {
      SpawnsMonotone(rng, t + 4, c1, c2, dist, max, s + 1);
    }
  }

  /** The last step of `instantialize()`: a Normal section gets its items
      (at most ITEMS_MAX_PERSECTION) and then its monsters (at most
      MONSTERS_MAX_PERSECTION), the Exit section gets the end trigger, and
      the spawn gets nothing. */
  method Populate(rng: Oracle, st: State, c: Slot) returns (st2: State)
    requires Valid(st)
    ensures Valid(st2) && Grown(st, st2, -1)
    ensures st2 == st.(requests := st2.requests, tick := st2.tick)
    ensures st.sections[c].kind == Spawn ==> st2 == st
    ensures st.sections[c].kind == Exit ==> st2 == st.(requests := st.requests + [EndOfLevel(c)])
    ensures st.sections[c].kind == Normal ==>
              && st2.requests == st.requests + (ItemRequests(c, ItemPicks(rng, st)) + MonsterRequests(c, MonsterPicks(rng, st)))
              && st2.tick == st.tick + SpawnDraws(ItemPicks(rng, st)) + SpawnDraws(MonsterPicks(rng, st))
  {
    match st.sections[c].kind {
      case Spawn =>
        SectionsUntouched(st, st);
        st2 := st;
      case Exit =>
        AppendRequests(st, [EndOfLevel(c)], st.tick);
        st2 := st.(requests := st.requests + [EndOfLevel(c)]);
      case Normal =>
        var items := ItemPicks(rng, st);
        var monsters := MonsterPicks(rng, st);
        SpawnRequestsOk(c, items, monsters);
        var added := ItemRequests(c, items) + MonsterRequests(c, monsters);
        var t := st.tick + SpawnDraws(items) + SpawnDraws(monsters);
        AppendRequests(st, added, t);
        st2 := st.(requests := st.requests + added, tick := t);
    }
  }

  // ---------------------------------------------------------------------
  // The whole step.

  /** A level that has an exit keeps it. */
  lemma EndPersists(st: State, st2: State)
    requires Valid(st) && Valid(st2) && Grown(st, st2, -1) && st.hasCreatedEnd
    ensures st2.hasCreatedEnd
  {
    var e :| 0 <= e < |st.sections| && st.sections[e].kind == Exit;
    assert SectionShape(st.sections[e]);
    assert Settled(st, st2, e);
  }

  /** The first half of `instantialize()` after the flag is set: the
      neighbour pass and the exit decision. */
  method Arrive(rng: Oracle, t: Telemetry, st: State, c: Slot) returns (st2: State)
    requires Valid(st) && st.sections[c].instantiated && st.sections[c].kind != Exit
    ensures Valid(st2) && Grown(st, st2, c)
    ensures st2.sections[c] == st.sections[c].(kind := st2.sections[c].kind)
    ensures st2.sections[c].kind == st.sections[c].kind || (st2.sections[c].kind == Exit && !st.hasCreatedEnd)
    ensures forall d: Direction :: Reached(st, st2, c, d)
    decreases Uninstantiated(st.sections), 3
  {
    var sv := VisitNeighbours(rng, t, st, c);
    assert Settled(st, sv, c);
    if st.hasCreatedEnd {
      EndPersists(st, sv);
    }
    st2 := DecideExit(rng, sv, c);
    GrownTrans(st, sv, st2, c);
    forall d: Direction ensures Reached(st, st2, c, d) {
      ReachedPersists(st, sv, st2, c, d, c);
    }
  }

  /** The second half: the refreshed tables, the container, the compound
      pass and the contents. */
  method Furnish(rng: Oracle, t: Telemetry, st: State, c: Slot) returns (st2: State)
    requires Valid(st) && st.sections[c].instantiated
    ensures Valid(st2) && Grown(st, st2, -1)
    ensures st2.sections[c] == st.sections[c]
    ensures SweptTo(st2, c, CompoundOf(st2, c).count)
    ensures st.sections[c].kind != Spawn ==> |st.requests| < |st2.requests| && st2.requests[|st.requests|] == Floor(c)
    ensures st.sections[c].kind == Exit ==> |st2.requests| > 0 && st2.requests[|st2.requests| - 1] == EndOfLevel(c)
    decreases Uninstantiated(st.sections), 3
  {
    var sb := Prepare(rng, t, st, c);
    var sc := InstantializeCompound(rng, t, sb, c);
    GrownTrans(st, sb, sc, -1);
    assert Settled(st, sc, c);
    st2 := Populate(rng, sc, c);
    GrownTrans(st, sc, st2, -1);
  }

  /** The refreshed tables and the container. */
  method Prepare(rng: Oracle, t: Telemetry, st: State, c: Slot) returns (st2: State)
    requires Valid(st) && st.sections[c].instantiated
    ensures Valid(st2) && Grown(st, st2, -1)
    ensures st2.sections == st.sections
    ensures st.sections[c].kind != Spawn ==> |st.requests| < |st2.requests| && st2.requests[|st.requests|] == Floor(c)
  {
    var sr := Retune(t, st);
    st2 := Build(rng, sr, c);
    GrownTrans(st, sr, st2, -1);
  }

  /** What a successful `instantialize()` of c guarantees, judged against the
      state st it started from: c is instantiated and otherwise unchanged
      except that it may have become the level's first exit; progression
      grew; every door of c leads to a generated section and every open side
      to an instantiated one; a built section's floor was requested; and the
      exit's last request is its end trigger. */
  predicate Arrived(st: State, st2: State, c: Slot)
    requires Shaped(st.sections) && Shaped(st2.sections)
  {
    var s := st2.sections[c];
    && s == st.sections[c].(instantiated := true, kind := s.kind)
    && (s.kind == st.sections[c].kind || (s.kind == Exit && !st.hasCreatedEnd))
    && st2.progression > st.progression
    && (forall d: Direction :: Reached(st, st2, c, d))
    && |st.requests| <= |st2.requests|
    && (s.kind != Spawn ==> Floor(c) in st2.requests[|st.requests|..])
    && (s.kind == Exit ==> |st2.requests| > 0 && st2.requests[|st2.requests| - 1] == EndOfLevel(c))
  }

  /** The three parts of Instantialize add up to Arrived: st1 after the
      flag, sx after the first half and st2 after the second. */
  lemma Arrival(st: State, st1: State, sx: State, st2: State, c: Slot)
    requires Shaped(st.sections) && Shaped(st1.sections) && Shaped(sx.sections) && Shaped(st2.sections)
    requires st.sections[c].generated && !st.sections[c].instantiated
    requires Grown(st, st1, -1) && st1.sections[c] == st.sections[c].(instantiated := true)
    requires st1.progression == st.progression + 1 && st1.requests == st.requests
    requires st1.hasCreatedEnd == st.hasCreatedEnd
    requires Grown(st1, sx, c) && sx.sections[c] == st1.sections[c].(kind := sx.sections[c].kind)
    requires sx.sections[c].kind == st1.sections[c].kind || (sx.sections[c].kind == Exit && !st1.hasCreatedEnd)
    requires forall d: Direction :: Reached(st1, sx, c, d)
    requires Grown(sx, st2, -1) && st2.sections[c] == sx.sections[c]
    requires sx.sections[c].kind != Spawn ==> |sx.requests| < |st2.requests| && st2.requests[|sx.requests|] == Floor(c)
    requires sx.sections[c].kind == Exit ==> |st2.requests| > 0 && st2.requests[|st2.requests| - 1] == EndOfLevel(c)
    ensures Arrived(st, st2, c)
  {
    forall d: Direction ensures Reached(st, st2, c, d) {
      var nb := Neighbour(c, d);
      if nb != -1 {
        FlagsPersist(st, st1, -1, nb);
      }
      assert Reached(st1, sx, c, d);
      assert Reached(st, sx, c, d);
      ReachedPersists(st, sx, st2, c, d, -1);
    }
    if sx.sections[c].kind != Spawn {
      assert st2.requests[|st.requests|..][|sx.requests| - |st.requests|] == Floor(c);
    }
  }

  /** `instantialize()` of the section in slot c: -1 when c is not generated
      or already instantiated, and nothing changes; otherwise 0, after c has
      been counted in the progression, its neighbours generated or
      instantiated, the exit decided, the tables refreshed, its container
      built, its compound instantiated and its contents placed. No other
      instantiated section is touched. */
  method Instantialize(rng: Oracle, t: Telemetry, st: State, c: Slot) returns (st2: State, r: int)
    requires Valid(st)
    ensures Valid(st2) && Grown(st, st2, -1)
    ensures r == -1 || r == 0
    ensures r == -1 <==> !st.sections[c].generated || st.sections[c].instantiated
    ensures r == -1 ==> st2 == st
    ensures st.sections[c].generated ==> st2.sections[c].instantiated
    ensures r == 0 ==> Arrived(st, st2, c)
    ensures r == 0 ==> st2.sections[c].generated && SweptTo(st2, c, CompoundOf(st2, c).count)
    ensures st2.unknownSections ==
              st.unknownSections + (st2.doorsPlaced - st.doorsPlaced) - (st2.compoundEntries - st.compoundEntries)
    decreases Uninstantiated(st.sections), 0
  {
    if !st.sections[c].generated || st.sections[c].instantiated {
      SectionsUntouched(st, st);
      return st, -1;
    }
    assert SectionShape(st.sections[c]);
    var st1 := MarkInstantiated(st, c);
    var sx := Arrive(rng, t, st1, c);
    st2 := Furnish(rng, t, sx, c);
    r := 0;
    Arrival(st, st1, sx, st2, c);
    GrownTrans(st, st1, sx, c);
    GrownTrans(st, sx, st2, c);
    assert Settled(st, st2, c);
  }
}
