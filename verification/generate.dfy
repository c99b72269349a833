/** The first step of a section's life: `generate(parent)`. The section
    adopts the connections its generated neighbours already chose toward it,
    joins or creates a compound, picks its style and then, for every side
    still undecided, draws a door, an open merge into a new neighbour
    (generated recursively) or a wall. */
module Generation {
  import opened Grid
  import opened Compounds
  import opened Difficulty
  import opened Level

  const SPAWN_STYLE: Style := Style(1, 9, 24)
  /** `(int)(SECTION_SIZE / 1.5f)`: ten grid units over one and a half, truncated. */
  const SPAWN_HEIGHT: int := SECTION_SIZE * 2 / 3
  const SPAWN_CONNECTIONS: seq<Connection> := [Door, Wall, Wall, Wall]

  /** What section c finds toward d when it is generated: Wall off the grid,
      the neighbour's own connection back toward c when the neighbour is
      generated, and None (still free) otherwise. */
  function Mirror(st: State, c: Slot, d: Direction): (v: Connection)
    requires Shaped(st.sections)
    ensures v == Wall || Neighbour(c, d) != -1
    ensures v == NoWall ==> st.sections[Neighbour(c, d)].generated
  {
    var li := Neighbour(c, d);
    if li >= 0 then
      if st.sections[li].generated then st.sections[li].connections[OppositeDirection(d)]
      else None
    else Wall
  }

  /** The compound c adopts: that of the last direction, in scan order, whose
      adopted connection is NoWall; -1 when there is none. */
  function JoinHandle(st: State, c: Slot, d: int): (h: int)
    requires Shaped(st.sections) && 0 <= d <= 4
    ensures (forall e: Direction :: e < d ==> Mirror(st, c, e) != NoWall) ==> h == -1
    ensures h != -1 ==> exists e: Direction :: e < d && Mirror(st, c, e) == NoWall &&
                          h == st.sections[Neighbour(c, e)].compound
    decreases d
  {
    if d == 0 then -1
    else if Mirror(st, c, d - 1) == NoWall then st.sections[Neighbour(c, d - 1)].compound
    else JoinHandle(st, c, d - 1)
  }

  /** In a valid state an adopted handle is the compound of a generated
      neighbour, so it lies in the arena, and there is one exactly when some
      side adopts an open connection. */
  lemma {:induction false} JoinHandleInArena(st: State, c: Slot, d: int)
    requires Valid(st) && 0 <= d <= 4
    ensures JoinHandle(st, c, d) == -1 || 0 <= JoinHandle(st, c, d) < |st.compounds|
    ensures JoinHandle(st, c, d) == -1 <==> forall e: Direction :: e < d ==> Mirror(st, c, e) != NoWall
    decreases d
  {
    if d > 0 && Mirror(st, c, d - 1) != NoWall {
      JoinHandleInArena(st, c, d - 1);
    }
  }

  /** Section i, if it was generated in st, is unchanged in st2. */
  predicate Kept(st: State, st2: State, i: int) {
    0 <= i < |st.sections| && |st2.sections| == |st.sections| && st.sections[i].generated ==>
      st2.sections[i] == st.sections[i]
  }

  /** st2 agrees with st on every generated section other than c (c == -1
      excepts none) and on everything but the compounds, the draw counter
      and the door counters, which only grow, the frontier counter by
      exactly the doors placed. The per-section part is only instantiated
      where a proof mentions Kept. */
  predicate Fixed(st: State, st2: State, c: int) {
    && |st2.sections| == |st.sections|
    && (forall i {:trigger Kept(st, st2, i)} :: 0 <= i < |st.sections| && i != c ==> Kept(st, st2, i))
    && st2 == st.(sections := st2.sections, compounds := st2.compounds,
                  unknownSections := st2.unknownSections, doorsPlaced := st2.doorsPlaced, tick := st2.tick)
    && st.unknownSections <= st2.unknownSections
    && st2.unknownSections - st.unknownSections == st2.doorsPlaced - st.doorsPlaced
    && st.tick <= st2.tick
  }

  /** Fixed, and section c keeps everything but its undecided sides. */
  predicate StepFrame(st: State, st2: State, c: Slot)
    requires Shaped(st.sections) && Shaped(st2.sections)
  {
    && Fixed(st, st2, c)
    && st2.sections[c] == st.sections[c].(connections := st2.sections[c].connections)
    && (forall d: Direction :: st.sections[c].connections[d] != None ==>
          st2.sections[c].connections[d] == st.sections[c].connections[d])
  }

  lemma FixedTrans(st1: State, st2: State, st3: State, c: int)
    requires Fixed(st1, st2, c) && Fixed(st2, st3, c)
    ensures Fixed(st1, st3, c)
  {
    forall i | 0 <= i < |st1.sections| && i != c ensures Kept(st1, st3, i) {
      assert Kept(st1, st2, i) && Kept(st2, st3, i);
    }
  }

  /** Placing n doors and advancing the draw counter changes nothing else. */
  lemma Bump(st: State, n: nat, t: nat, c: int)
    requires st.tick <= t
    ensures Fixed(st, st.(unknownSections := st.unknownSections + n, doorsPlaced := st.doorsPlaced + n, tick := t), c)
  {
    var st2 := st.(unknownSections := st.unknownSections + n, doorsPlaced := st.doorsPlaced + n, tick := t);
    forall i | 0 <= i < |st.sections| && i != c ensures Kept(st, st2, i) {
    }
  }

  /** A generation that follows a change to the generated section c leaves
      c as that change left it. */
  lemma ThroughGeneration(st: State, st3: State, st4: State, c: Slot)
    requires |st.sections| == SECTIONS_COUNT && Fixed(st, st3, c) && Fixed(st3, st4, -1)
    requires st3.sections[c].generated
    ensures Fixed(st, st4, c) && st4.sections[c] == st3.sections[c]
  {
    assert Kept(st3, st4, c);
    FixedTrans(st, st3, st4, c);
  }

  /** Rewriting section c, growing the compound arena and advancing the
      draw counter keeps every other section. */
  lemma Rewrite(st: State, c: Slot, s: Section, compounds: seq<Compound>, t: nat)
    requires |st.sections| == SECTIONS_COUNT && st.tick <= t
    ensures Fixed(st, st.(sections := st.sections[c := s], compounds := compounds, tick := t), c)
  {
    var st2 := st.(sections := st.sections[c := s], compounds := compounds, tick := t);
    forall i | 0 <= i < |st.sections| && i != c ensures Kept(st, st2, i) {
    }
  }

  /** The exception can be dropped when section c was not generated. */
  lemma FixedForget(st: State, st2: State, c: int)
    requires Fixed(st, st2, c) && 0 <= c < |st.sections| && !st.sections[c].generated
    ensures Fixed(st, st2, -1)
  {
    assert Kept(st, st2, c);
  }

  /** Marking c generated: it copies the connections it finds, joins the
      adopted compound (or a new one) and is appended to that compound. */
  method Enter(st: State, c: Slot) returns (st2: State)
    requires Valid(st) && !st.sections[c].generated
    ensures Valid(st2)
    ensures st2.sections[c].generated && !st2.sections[c].instantiated && st2.sections[c].kind == Normal
    ensures forall d: Direction :: st2.sections[c].connections[d] == Mirror(st, c, d)
    ensures forall i :: 0 <= i < SECTIONS_COUNT && i != c ==> st2.sections[i] == st.sections[i]
    ensures st2 == st.(sections := st2.sections, compounds := st2.compounds)
    ensures Ungenerated(st2.sections) == Ungenerated(st.sections) - {c} && c in Ungenerated(st.sections)
    ensures Uninstantiated(st2.sections) == Uninstantiated(st.sections)
    ensures JoinHandle(st, c, 4) != -1 ==> st2.sections[c].compound == JoinHandle(st, c, 4)
    ensures JoinHandle(st, c, 4) == -1 ==> st2.sections[c].compound == |st.compounds|
    ensures Fixed(st, st2, c)
    ensures ArenaGrown(st.compounds, st2.compounds)
  {
    JoinHandleInArena(st, c, 4);
    var joined := JoinHandle(st, c, 4);
    assert joined != -1 ==> CompoundOk(st.sections, st.compounds[joined]);
    var compounds := if joined == -1 then st.compounds + [NewCompound()] else st.compounds;
    var h := if joined == -1 then |st.compounds| else joined;
    var k := AddToCompound(c, compounds[h]);
    var s := st.sections[c].(generated := true, compound := h, connections := Adopted(st, c));
    EnterCompounds(st, c, s, compounds, h, k);
    EnterArena(st.sections, st.compounds, compounds, h, c, k);
    MarkGenerated(st, c, s, compounds[h := k]);
    Rewrite(st, c, s, compounds[h := k], st.tick);
    st2 := st.(sections := st.sections[c := s], compounds := compounds[h := k]);
  }

  /** The four connections c adopts when it is generated. */
  function Adopted(st: State, c: Slot): (conns: seq<Connection>)
    requires Shaped(st.sections)
    ensures |conns| == 4
    ensures forall d: Direction :: conns[d] == Mirror(st, c, d)
    ensures LinksOk(c, st.sections[c].(generated := true, connections := conns))
  {
    seq(4, d requires 0 <= d < 4 => Mirror(st, c, d))
  }

  /** The compound arena after c joins compound h stays valid. */
  lemma EnterCompounds(st: State, c: Slot, s: Section, compounds: seq<Compound>, h: int, k: Compound)
    requires Valid(st) && !st.sections[c].generated && s.generated
    requires compounds == st.compounds || compounds == st.compounds + [NewCompound()]
    requires 0 <= h < |compounds|
    requires compounds == st.compounds + [NewCompound()] ==> h == |st.compounds|
    requires ValidCompound(compounds[h]) && k == AddToCompound(c, compounds[h])
    ensures CompoundsOk(st.sections[c := s], compounds[h := k])
  {
    var sections2 := st.sections[c := s];
    var ks := compounds[h := k];
    CompoundsGrow(st.sections, sections2, st.compounds);
    if h == |st.compounds| {
      NewMemberOk(sections2, c, compounds[h], k);
    } else {
      JoinedMemberOk(sections2, c, compounds[h], k);
    }
    forall j | 0 <= j < |ks|
      ensures CompoundOk(sections2, ks[j])
    {
      if j != h {
        assert ks[j] == st.compounds[j];
      }
    }
  }

  /** Joining c to compound h, possibly a new last one, only grows the arena. */
  lemma EnterArena(sections: seq<Section>, arena: seq<Compound>, compounds: seq<Compound>, h: int, c: Slot, k: Compound)
    requires |sections| == SECTIONS_COUNT && CompoundsOk(sections, arena)
    requires compounds == arena || compounds == arena + [NewCompound()]
    requires 0 <= h < |compounds| && ValidCompound(compounds[h]) && k == AddToCompound(c, compounds[h])
    ensures ArenaGrown(arena, compounds[h := k])
  {
    forall j | 0 <= j < |arena| ensures CompoundGrew(arena[j], compounds[h := k][j]) {
      assert CompoundOk(sections, arena[j]);
    }
  }

  /** A new compound holding only c is valid once c is generated. */
  lemma NewMemberOk(sections: seq<Section>, c: Slot, empty: Compound, k: Compound)
    requires |sections| == SECTIONS_COUNT && sections[c].generated
    requires empty == NewCompound() && k == AddToCompound(c, empty)
    ensures CompoundOk(sections, k)
  {
    assert Members(k) == [c];
  }

  /** Adding the generated section c to a valid compound keeps it valid. */
  lemma JoinedMemberOk(sections: seq<Section>, c: Slot, k0: Compound, k: Compound)
    requires |sections| == SECTIONS_COUNT && sections[c].generated
    requires CompoundOk(sections, k0) && k == AddToCompound(c, k0)
    ensures CompoundOk(sections, k)
  {
    forall m | 0 <= m < k.count
      ensures 0 <= k.indexes[m] < SECTIONS_COUNT && sections[k.indexes[m]].generated
    {
      assert Members(k)[m] == k.indexes[m];
      assert k.indexes[m] in Members(k0) || k.indexes[m] == c;
      if k.indexes[m] in Members(k0) {
        var q :| 0 <= q < k0.count && k0.indexes[q] == k.indexes[m];
      }
    }
  }

  /** Sets one connection of a generated section; doors and open sides only
      toward sections of the grid. */
  method SetConnection(st: State, c: Slot, d: Direction, v: Connection) returns (st2: State)
    requires Valid(st) && st.sections[c].generated
    requires v != Wall ==> Neighbour(c, d) != -1
    ensures Valid(st2)
    ensures st2.sections[c].connections[d] == v
    ensures forall e: Direction :: e != d ==> st2.sections[c].connections[e] == st.sections[c].connections[e]
    ensures Ungenerated(st2.sections) == Ungenerated(st.sections) && Uninstantiated(st2.sections) == Uninstantiated(st.sections)
    ensures Fixed(st, st2, c) && st2 == st.(sections := st2.sections)
    ensures st2.sections[c] == st.sections[c].(connections := st2.sections[c].connections)
  {
    assert LinksOk(c, st.sections[c]);
    var s := st.sections[c].(connections := st.sections[c].connections[d := v]);
    ReplaceSection(st, c, s);
    Rewrite(st, c, s, st.compounds, st.tick);
    st2 := st.(sections := st.sections[c := s]);
  }

  /** The style step of a normal section: a section alone in its compound
      draws its textures and a height; a merged one copies both from the
      compound's first member. */
  method ChooseStyle(rng: Oracle, st: State, c: Slot) returns (st2: State)
    requires Valid(st) && st.sections[c].generated && st.sections[c].kind == Normal
    ensures Valid(st2)
    ensures Ungenerated(st2.sections) == Ungenerated(st.sections) && Uninstantiated(st2.sections) == Uninstantiated(st.sections)
    ensures st2.sections[c].kind == Normal
    ensures st2.sections[c] == st.sections[c].(style := st2.sections[c].style, height := st2.sections[c].height)
    ensures Fixed(st, st2, c) && st2.compounds == st.compounds
    ensures CompoundOf(st, c).count == 1 ==>
              && SECTION_MIN_HEIGHT <= st2.sections[c].height < SECTION_MAX_HEIGHT
              && 0 <= st2.sections[c].style.floor < TEX_FLOOR_COUNT
              && 0 <= st2.sections[c].style.wall < TEX_WALL_COUNT
              && 0 <= st2.sections[c].style.ceiling < TEX_CEILING_COUNT
              && st2.tick == st.tick + 4
    ensures CompoundOf(st, c).count != 1 ==>
              var first := CompoundOf(st, c).indexes[0];
              && 0 <= first < SECTIONS_COUNT
              && st2.sections[c].style == st.sections[first].style
              && st2.sections[c].height == st.sections[first].height
              && st2.tick == st.tick
  {
    assert LinksOk(c, st.sections[c]);
    var k := CompoundOf(st, c);
    if k.count == 1 {
      var t := st.tick;
      var s := st.sections[c].(style := Style(rng(t) % TEX_FLOOR_COUNT, rng(t + 1) % TEX_WALL_COUNT, rng(t + 2) % TEX_CEILING_COUNT),
                               height := SECTION_MIN_HEIGHT + rng(t + 3) % (SECTION_MAX_HEIGHT - SECTION_MIN_HEIGHT));
      ReplaceSection(st, c, s);
      Rewrite(st, c, s, st.compounds, t + 4);
      st2 := st.(sections := st.sections[c := s], tick := t + 4);
    } else {
      var first := st.sections[k.indexes[0]];
      var s := st.sections[c].(style := first.style, height := first.height);
      ReplaceSection(st, c, s);
      Rewrite(st, c, s, st.compounds, st.tick);
      st2 := st.(sections := st.sections[c := s]);
    }
  }

  /** The spawn shape: fixed style and height, a single door toward +Y. */
  method MakeSpawn(st: State, c: Slot) returns (st2: State)
    requires Valid(st) && st.sections[c].generated && st.sections[c].kind != Exit
    requires Neighbour(c, 0) != -1
    ensures Valid(st2)
    ensures Fixed(st, st2, c) && st2 == st.(sections := st2.sections)
    ensures st2.sections[c] == st.sections[c].(kind := Spawn, style := SPAWN_STYLE, height := SPAWN_HEIGHT,
                                               connections := SPAWN_CONNECTIONS)
    ensures Ungenerated(st2.sections) == Ungenerated(st.sections) && Uninstantiated(st2.sections) == Uninstantiated(st.sections)
  {
    assert LinksOk(c, st.sections[c]);
    var s := st.sections[c].(kind := Spawn, style := SPAWN_STYLE, height := SPAWN_HEIGHT,
                             connections := SPAWN_CONNECTIONS);
    ReplaceSection(st, c, s);
    Rewrite(st, c, s, st.compounds, st.tick);
    st2 := st.(sections := st.sections[c := s]);
  }

  /** Every side still undecided at the end becomes a wall. */
  method Finish(st: State, c: Slot) returns (st2: State)
    requires Valid(st) && st.sections[c].generated
    ensures Valid(st2)
    ensures Ungenerated(st2.sections) == Ungenerated(st.sections) && Uninstantiated(st2.sections) == Uninstantiated(st.sections)
    ensures forall d: Direction :: st2.sections[c].connections[d] ==
              (if st.sections[c].connections[d] == None then Wall else st.sections[c].connections[d])
    ensures StepFrame(st, st2, c) && st2 == st.(sections := st2.sections)
  {
    assert LinksOk(c, st.sections[c]);
    var was := st.sections[c].connections;
    var s := st.sections[c].(connections := seq(4, d requires 0 <= d < 4 => if was[d] == None then Wall else was[d]));
    ReplaceSection(st, c, s);
    Rewrite(st, c, s, st.compounds, st.tick);
    st2 := st.(sections := st.sections[c := s]);
  }

  /** The door test of one side: the roll (draw number `tick`) succeeds and
      no random door was placed yet, or the level is still young and short of
      unknown sections. */
  predicate DoorRoll(rng: Oracle, st: State, hd: bool) {
    (rng(st.tick) % 101 <= PROBABILITY_DOOR && !hd) || (st.progression < PROGRESSION_MIN && st.unknownSections <= 3)
  }

  /** A door on side i: one more section is waiting behind a door. */
  method PlaceDoor(st: State, c: Slot, i: Direction) returns (st2: State)
    requires Valid(st) && st.sections[c].generated && st.sections[c].connections[i] == None
    ensures Valid(st2)
    ensures Ungenerated(st2.sections) == Ungenerated(st.sections) && Uninstantiated(st2.sections) == Uninstantiated(st.sections)
    ensures Fixed(st, st2, c) && st2.sections[c] == st.sections[c].(connections := st2.sections[c].connections)
    ensures st2.sections[c].connections == st.sections[c].connections[i := Door]
    ensures st2.unknownSections == st.unknownSections + 1 && st2.tick == st.tick + 1
    ensures st2.doorsPlaced == st.doorsPlaced + 1
    ensures st2.compounds == st.compounds
  {
    assert LinksOk(c, st.sections[c]);
    var st1 := st.(tick := st.tick + 1);
    var doored := SetConnection(st1, c, i, Door);
    Bump(st, 0, st.tick + 1, c);
    Bump(doored, 1, doored.tick, c);
    FixedTrans(st, st1, doored, c);
    st2 := doored.(unknownSections := st.unknownSections + 1, doorsPlaced := st.doorsPlaced + 1);
    FixedTrans(st, doored, st2, c);
  }

  /** The merge test of one side, after a failed door roll: the next draw
      succeeds and c's compound, counting the sections this generation call
      has already added, is below its cap. */
  predicate MergeRoll(rng: Oracle, st: State, c: Slot, local: int)
    requires Valid(st) && st.sections[c].generated
  {
    rng(st.tick + 1) % 101 <= PROBABILITY_COMPOUND && CompoundOf(st, c).count + local < COMPOUND_MAX_SIZE
  }

  /** What one step of the decision loop did to the free side i of c: a
      door exactly when the door roll succeeds (one more unknown section);
      otherwise an open side into a neighbour generated on the spot when the
      merge roll succeeds; otherwise a wall. `hd2` records whether a random
      door exists now. */
  predicate Decided(rng: Oracle, st: State, st2: State, c: Slot, i: Direction, hd: bool, hd2: bool, local: int)
    requires Valid(st) && Shaped(st2.sections) && st.sections[c].generated
  {
    var v := st2.sections[c].connections[i];
    && v != None
    && hd2 == (hd || v == Door)
    && (v == Door <==> DoorRoll(rng, st, hd))
    && (v == Door ==> st2.unknownSections == st.unknownSections + 1 && st2.tick == st.tick + 1)
    && (v == NoWall ==> MergeRoll(rng, st, c, local) && Neighbour(c, i) != -1 &&
                        st2.sections[Neighbour(c, i)].generated && st2.tick >= st.tick + 2)
    && (v == Wall ==> !MergeRoll(rng, st, c, local) && st2.unknownSections == st.unknownSections &&
                      st2.tick == st.tick + 2)
  }

  /** Side d of c was free in st and holds a door in st2. */
  predicate NewDoor(st: State, st2: State, c: Slot, d: Direction)
    requires Shaped(st.sections) && Shaped(st2.sections)
  {
    st.sections[c].connections[d] == None && st2.sections[c].connections[d] == Door
  }

  /** What `generate(parent)` leaves in slot c when c was not generated:
      every side decided, open sides leading to generated sections, and
      either the spawn shape (no parent) or a normal section that agrees
      with every neighbour that had already decided toward it, turns every
      free side into a wall when it lies on the first row or column, and,
      once progression has reached its minimum, drew at most one door of
      its own. */
  predicate Outcome(st: State, st2: State, c: Slot, parent: int)
    requires Shaped(st.sections) && Shaped(st2.sections)
  {
    var s := st2.sections[c];
    && s.generated && !s.instantiated
    && (forall d: Direction :: s.connections[d] != None)
    && (forall d: Direction :: s.connections[d] == NoWall ==>
          Neighbour(c, d) != -1 && st2.sections[Neighbour(c, d)].generated)
    && (JoinHandle(st, c, 4) != -1 ==> s.compound == JoinHandle(st, c, 4))
    && (JoinHandle(st, c, 4) == -1 ==> s.compound == |st.compounds|)
    && (parent == -1 ==>
          && s.kind == Spawn && s.connections == SPAWN_CONNECTIONS
          && s.style == SPAWN_STYLE && s.height == SPAWN_HEIGHT)
    && (parent != -1 ==>
          && s.kind == Normal
          && (forall d: Direction :: Mirror(st, c, d) != None ==> s.connections[d] == Mirror(st, c, d))
          && (!Margin(c) ==> forall d: Direction :: Mirror(st, c, d) == None ==> s.connections[d] == Wall)
          && (st.progression >= PROGRESSION_MIN ==>
                forall d1: Direction, d2: Direction ::
                  (Mirror(st, c, d1) == None && s.connections[d1] == Door &&
                   Mirror(st, c, d2) == None && s.connections[d2] == Door) ==> d1 == d2))
  }

  /** `generate(parent)` of the section in slot c; `created` is the number
      of sections this call generated: 0 if c was already generated,
      otherwise c itself plus everything merged into it. Generation never
      rewrites a section that was already generated. */
  method Generate(rng: Oracle, st: State, c: Slot, parent: int) returns (st2: State, created: int)
    requires Valid(st)
    requires parent >= -1
    requires parent == -1 ==> Neighbour(c, 0) != -1
    ensures Valid(st2)
    ensures Ungenerated(st2.sections) <= Ungenerated(st.sections)
    ensures Uninstantiated(st2.sections) == Uninstantiated(st.sections)
    ensures created == |Ungenerated(st.sections)| - |Ungenerated(st2.sections)|
    ensures Fixed(st, st2, -1) && st2.sections[c].generated
    ensures ArenaGrown(st.compounds, st2.compounds)
    ensures st.sections[c].generated ==> st2 == st && created == 0
    ensures !st.sections[c].generated ==> created >= 1 && Outcome(st, st2, c, parent)
    decreases Ungenerated(st.sections), 1
  {
    if st.sections[c].generated {
      return st, 0;
    }
    if parent == -1 {
      st2 := GenerateSpawn(st, c);
      created := 1;
    } else {
      st2, created := GenerateNormal(rng, st, c, parent);
    }
  }

  /** The spawn path: no draws, the fixed spawn style and height, one door
      toward direction 0 and walls elsewhere. */
  method GenerateSpawn(st: State, c: Slot) returns (st2: State)
    requires Valid(st) && !st.sections[c].generated
    requires Neighbour(c, 0) != -1
    ensures Valid(st2)
    ensures Ungenerated(st2.sections) <= Ungenerated(st.sections)
    ensures Uninstantiated(st2.sections) == Uninstantiated(st.sections)
    ensures 1 == |Ungenerated(st.sections)| - |Ungenerated(st2.sections)|
    ensures Fixed(st, st2, -1) && st2.sections[c].generated
    ensures ArenaGrown(st.compounds, st2.compounds)
    ensures Outcome(st, st2, c, -1)
  {
    var st1 := Enter(st, c);
    st2 := MakeSpawn(st1, c);
    FixedTrans(st, st1, st2, c);
    FixedForget(st, st2, c);
    SpawnOutcome(st, st2, c, st1.sections[c].compound);
  }

  lemma SpawnOutcome(st: State, st2: State, c: Slot, h: int)
    requires Shaped(st.sections) && Shaped(st2.sections)
    requires var s := st2.sections[c];
               && s.generated && !s.instantiated && s.kind == Spawn && s.compound == h
               && s.style == SPAWN_STYLE && s.height == SPAWN_HEIGHT && s.connections == SPAWN_CONNECTIONS
    requires JoinHandle(st, c, 4) != -1 ==> h == JoinHandle(st, c, 4)
    requires JoinHandle(st, c, 4) == -1 ==> h == |st.compounds|
    ensures Outcome(st, st2, c, -1)
  {
    var s := st2.sections[c];
    assert forall d: Direction :: s.connections[d] == Door || s.connections[d] == Wall;
  }

  /** The path with a parent: the style step, the decision loop over the
      free sides, and walls on whatever is still free. */
  method GenerateNormal(rng: Oracle, st: State, c: Slot, parent: int) returns (st2: State, created: int)
    requires Valid(st) && !st.sections[c].generated && parent >= 0
    ensures Valid(st2)
    ensures Ungenerated(st2.sections) <= Ungenerated(st.sections)
    ensures Uninstantiated(st2.sections) == Uninstantiated(st.sections)
    ensures created >= 1 && created == |Ungenerated(st.sections)| - |Ungenerated(st2.sections)|
    ensures Fixed(st, st2, -1) && st2.sections[c].generated
    ensures ArenaGrown(st.compounds, st2.compounds)
    ensures Outcome(st, st2, c, parent)
    decreases Ungenerated(st.sections), 0
  {
    var st1 := Enter(st, c);
    var styled := ChooseStyle(rng, st1, c);
    FixedTrans(st, st1, styled, c);
    var decided;
    decided, created := DecideSides(rng, styled, c);
    st2 := Finish(decided, c);
    ArenaTrans(st.compounds, styled.compounds, decided.compounds);
    NormalOutcome(st, styled, decided, st2, c, parent);
  }

  /** The path of Generate for a section with a parent: what Enter and the
      style step leave (styled), what the decision loop leaves (decided) and
      what the final walls leave (st2) add up to the outcome. */
  lemma NormalOutcome(st: State, styled: State, decided: State, st2: State, c: Slot, parent: int)
    requires Shaped(st.sections) && Shaped(styled.sections) && Shaped(decided.sections) && Shaped(st2.sections)
    requires !st.sections[c].generated && parent != -1
    requires Fixed(st, styled, c)
    requires styled.sections[c].generated && !styled.sections[c].instantiated && styled.sections[c].kind == Normal
    requires forall d: Direction :: styled.sections[c].connections[d] == Mirror(st, c, d)
    requires JoinHandle(st, c, 4) != -1 ==> styled.sections[c].compound == JoinHandle(st, c, 4)
    requires JoinHandle(st, c, 4) == -1 ==> styled.sections[c].compound == |st.compounds|
    requires Ungenerated(styled.sections) <= Ungenerated(st.sections)
    requires SidesDone(styled, decided, c) && Ungenerated(decided.sections) <= Ungenerated(styled.sections)
    requires StepFrame(decided, st2, c) && Ungenerated(st2.sections) == Ungenerated(decided.sections)
    requires forall d: Direction :: st2.sections[c].connections[d] ==
               (if decided.sections[c].connections[d] == None then Wall else decided.sections[c].connections[d])
    ensures Fixed(st, st2, -1) && Outcome(st, st2, c, parent)
  {
    FixedTrans(styled, decided, st2, c);
    FixedTrans(st, styled, st2, c);
    FixedForget(st, st2, c);
    var s := st2.sections[c];
    assert s.generated && !s.instantiated && s.kind == Normal;
    assert s.compound == styled.sections[c].compound;
    assert forall d: Direction :: s.connections[d] != None;
    forall d: Direction | s.connections[d] == NoWall
      ensures Neighbour(c, d) != -1 && st2.sections[Neighbour(c, d)].generated
    {
      if styled.sections[c].connections[d] == NoWall {
        assert Kept(st, st2, Neighbour(c, d));
      } else {
        NeighboursDistinct(c, d, d);
        assert Kept(decided, st2, Neighbour(c, d));
      }
    }
    assert forall d: Direction :: Mirror(st, c, d) != None ==> s.connections[d] == Mirror(st, c, d);
    assert !Margin(c) ==> forall d: Direction :: Mirror(st, c, d) == None ==> s.connections[d] == Wall;
    forall d1: Direction, d2: Direction |
        && st.progression >= PROGRESSION_MIN
        && Mirror(st, c, d1) == None && s.connections[d1] == Door
        && Mirror(st, c, d2) == None && s.connections[d2] == Door
      ensures d1 == d2
    {
      assert NewDoor(styled, decided, c, d1) && NewDoor(styled, decided, c, d2);
    }
  }

  /** What the decision loop guarantees about c: only free sides changed;
      on a section off the first row and column every side is decided;
      sides it opened lead to generated sections; and once progression has
      reached its minimum it placed at most one door. */
  predicate SidesDone(st: State, st2: State, c: Slot)
    requires Shaped(st.sections) && Shaped(st2.sections)
  {
    && StepFrame(st, st2, c)
    && (Margin(c) ==> forall d: Direction :: st2.sections[c].connections[d] != None)
    && (!Margin(c) ==> st2 == st)
    && (forall d: Direction ::
          (st.sections[c].connections[d] == None && st2.sections[c].connections[d] == NoWall) ==>
          Neighbour(c, d) != -1 && st2.sections[Neighbour(c, d)].generated)
    && (st.progression >= PROGRESSION_MIN ==>
          forall d1: Direction, d2: Direction :: NewDoor(st, st2, c, d1) && NewDoor(st, st2, c, d2) ==> d1 == d2)
  }

  /** The decision loop over the four sides of the freshly generated c;
      `created` counts c and every section generated through an open side. */
  method DecideSides(rng: Oracle, st: State, c: Slot) returns (st2: State, created: int)
    requires Valid(st) && st.sections[c].generated
    ensures Valid(st2) && st2.sections[c].generated
    ensures Ungenerated(st2.sections) <= Ungenerated(st.sections)
    ensures Uninstantiated(st2.sections) == Uninstantiated(st.sections)
    ensures created >= 1 && created - 1 == |Ungenerated(st.sections)| - |Ungenerated(st2.sections)|
    ensures SidesDone(st, st2, c)
    ensures ArenaGrown(st.compounds, st2.compounds)
    decreases Ungenerated(st.sections), 4
  {
    var hd, i := false, 0;
    st2, created := st, 1;
    Bump(st, 0, st.tick, c);
    while i < 4
      invariant Valid(st2) && st2.sections[c].generated
      invariant Ungenerated(st2.sections) <= Ungenerated(st.sections)
      invariant Uninstantiated(st2.sections) == Uninstantiated(st.sections)
      invariant created >= 1 && created - 1 == |Ungenerated(st.sections)| - |Ungenerated(st2.sections)|
      invariant SidesInv(st, st2, c, i, hd)
      invariant ArenaGrown(st.compounds, st2.compounds)
      decreases 4 - i
    {
      var next, hd2, created2 := DecideStep(rng, st2, c, i, hd, created);
      SidesStep(rng, st, st2, next, c, i, hd, hd2, created);
      ArenaTrans(st.compounds, st2.compounds, next.compounds);
      st2, hd, created, i := next, hd2, created2, i + 1;
    }
    SidesComplete(st, st2, c, hd);
  }

  /** The decision loop's invariant after the first i sides: the frame,
      the sides not yet visited untouched, the visited ones decided off the
      first row and column, open sides leading to generated sections, and
      at most one new door (none while hd is unset) once progression has
      reached its minimum. */
  predicate SidesInv(st: State, st2: State, c: Slot, i: int, hd: bool)
    requires Shaped(st.sections) && Shaped(st2.sections)
  {
    && 0 <= i <= 4
    && StepFrame(st, st2, c)
    && (forall d: Direction :: i <= d ==> st2.sections[c].connections[d] == st.sections[c].connections[d])
    && (Margin(c) ==> forall d: Direction :: d < i ==> st2.sections[c].connections[d] != None)
    && (!Margin(c) ==> st2 == st)
    && (forall d: Direction ::
          (st.sections[c].connections[d] == None && st2.sections[c].connections[d] == NoWall) ==>
          Neighbour(c, d) != -1 && st2.sections[Neighbour(c, d)].generated)
    && (st.progression >= PROGRESSION_MIN ==>
          && (forall d1: Direction, d2: Direction :: NewDoor(st, st2, c, d1) && NewDoor(st, st2, c, d2) ==> d1 == d2)
          && (!hd ==> forall d: Direction :: !NewDoor(st, st2, c, d)))
  }

  /** One pass of the decision loop keeps its invariant. */
  lemma SidesStep(rng: Oracle, st: State, st2: State, next: State, c: Slot, i: Direction, hd: bool, hd2: bool, local: int)
    requires Valid(st) && Valid(st2) && Valid(next) && st2.sections[c].generated
    requires SidesInv(st, st2, c, i, hd)
    requires StepFrame(st2, next, c)
    requires forall e: Direction :: e != i ==> next.sections[c].connections[e] == st2.sections[c].connections[e]
    requires st2.sections[c].connections[i] != None || !Margin(c) ==> next == st2 && hd2 == hd
    requires st2.sections[c].connections[i] == None && Margin(c) ==> Decided(rng, st2, next, c, i, hd, hd2, local)
    ensures SidesInv(st, next, c, i + 1, hd2)
  {
    FixedTrans(st, st2, next, c);
    forall d: Direction | st.sections[c].connections[d] == None && next.sections[c].connections[d] == NoWall
      ensures Neighbour(c, d) != -1 && next.sections[Neighbour(c, d)].generated
    {
      if d != i {
        NeighboursDistinct(c, d, d);
        assert Kept(st2, next, Neighbour(c, d));
      }
    }
    if st.progression >= PROGRESSION_MIN {
      forall d1: Direction, d2: Direction | NewDoor(st, next, c, d1) && NewDoor(st, next, c, d2)
        ensures d1 == d2
      {
        if d1 != i && d2 != i {
          assert NewDoor(st, st2, c, d1) && NewDoor(st, st2, c, d2);
        } else if d1 != i {
          assert NewDoor(st, st2, c, d1);
        } else if d2 != i {
          assert NewDoor(st, st2, c, d2);
        }
      }
      if !hd2 {
        forall d: Direction ensures !NewDoor(st, next, c, d) {
          if d != i {
            assert !NewDoor(st, st2, c, d);
          }
        }
      }
    }
  }

  /** After all four sides the invariant gives the loop's guarantee. */
  lemma SidesComplete(st: State, st2: State, c: Slot, hd: bool)
    requires Valid(st) && Valid(st2)
    requires SidesInv(st, st2, c, 4, hd)
    ensures SidesDone(st, st2, c)
  {
  }

  /** One side of the decision loop. Sides already decided, and every side
      of a section on the first row or column, are skipped without a draw;
      otherwise the door roll is drawn, and the merge roll only when the
      door roll fails. */
  method DecideStep(rng: Oracle, st: State, c: Slot, i: Direction, hd: bool, local: int)
    returns (st2: State, hd2: bool, local2: int)
    requires Valid(st) && st.sections[c].generated
    requires local >= 1
    ensures Valid(st2)
    ensures Ungenerated(st2.sections) <= Ungenerated(st.sections)
    ensures Uninstantiated(st2.sections) == Uninstantiated(st.sections)
    ensures local2 >= local && local2 - local == |Ungenerated(st.sections)| - |Ungenerated(st2.sections)|
    ensures StepFrame(st, st2, c) && ArenaGrown(st.compounds, st2.compounds)
    ensures forall e: Direction :: e != i ==> st2.sections[c].connections[e] == st.sections[c].connections[e]
    ensures st.sections[c].connections[i] != None || !Margin(c) ==> st2 == st && hd2 == hd && local2 == local
    ensures st.sections[c].connections[i] == None && Margin(c) ==> Decided(rng, st, st2, c, i, hd, hd2, local)
    decreases Ungenerated(st.sections), 3
  {
    if st.sections[c].connections[i] != None || !Margin(c) {
      return st, hd, local;
    }
    if DoorRoll(rng, st, hd) {
      st2 := PlaceDoor(st, c, i);
      return st2, true, local;
    }
    st2, local2 := MergeOrWall(rng, st, c, i, local);
    hd2 := hd;
  }

  /** After a failed door roll: the merge roll (the next draw) opens side i
      into the neighbour, which is generated at once, when it succeeds and
      the compound has room; otherwise a wall. */
  method MergeOrWall(rng: Oracle, st: State, c: Slot, i: Direction, local: int) returns (st2: State, local2: int)
    requires Valid(st) && st.sections[c].generated && st.sections[c].connections[i] == None
    requires local >= 1
    ensures Valid(st2)
    ensures Ungenerated(st2.sections) <= Ungenerated(st.sections)
    ensures Uninstantiated(st2.sections) == Uninstantiated(st.sections)
    ensures local2 >= local && local2 - local == |Ungenerated(st.sections)| - |Ungenerated(st2.sections)|
    ensures StepFrame(st, st2, c) && ArenaGrown(st.compounds, st2.compounds)
    ensures forall e: Direction :: e != i ==> st2.sections[c].connections[e] == st.sections[c].connections[e]
    ensures st2.sections[c].connections[i] == NoWall || st2.sections[c].connections[i] == Wall
    ensures st2.sections[c].connections[i] == NoWall ==>
              MergeRoll(rng, st, c, local) && Neighbour(c, i) != -1 &&
              st2.sections[Neighbour(c, i)].generated && st2.tick >= st.tick + 2
    ensures st2.sections[c].connections[i] == Wall ==>
              !MergeRoll(rng, st, c, local) && st2.unknownSections == st.unknownSections && st2.tick == st.tick + 2
    decreases Ungenerated(st.sections), 2
  {
    assert LinksOk(c, st.sections[c]);
    var rolled := st.(tick := st.tick + 2);
    Bump(st, 0, st.tick + 2, c);
    if MergeRoll(rng, st, c, local) {
      var joined := SetConnection(rolled, c, i, NoWall);
      FixedTrans(st, rolled, joined, c);
      var created;
      st2, created := Generate(rng, joined, Neighbour(c, i), c);
      ThroughGeneration(st, joined, st2, c);
      local2 := local + created;
    } else {
      st2 := SetConnection(rolled, c, i, Wall);
      FixedTrans(st, rolled, st2, c);
      local2 := local;
    }
  }
}
