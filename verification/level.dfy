/** The level state the generator threads through every operation: one
    record per grid section, the arena of compounds the sections point into,
    the frontier and progression counters, the live distribution tables and
    the log of requests made to the engine's geometry and entity code.

    References of the source become handles: a section's `compound` is an
    index into `compounds`, -1 standing for NULL. The process-wide
    random generator becomes an oracle `rng`: the k-th draw of the level is
    `rng(k)` and `tick` counts the draws made so far. */
module Level {
  import opened Grid
  import opened Compounds
  import opened Distribution
  import opened Difficulty

  // Probabilities are percentages compared against `rand() % 101`.
  const PROBABILITY_DOOR: int := 20
  const PROBABILITY_COMPOUND: int := 30
  const ITEMS_MAX_PERSECTION: int := 6
  const MONSTERS_MAX_PERSECTION: int := 8
  const PROBABILITY_EXIT_INC: int := 8

  const TEX_FLOOR_COUNT: int := 6
  const TEX_WALL_COUNT: int := 11
  const TEX_CEILING_COUNT: int := 2

  /** How a section meets its neighbour in one direction; None means the
      choice has not been made yet. */
  datatype Connection = Wall | Door | NoWall | None

  datatype SectionType = Spawn | Normal | Exit

  /** Texture choices: floor, walls, ceiling. */
  datatype Style = Style(floor: int, wall: int, ceiling: int)

  datatype Section = Section(
    kind: SectionType,
    compound: int,
    style: Style,
    height: int,
    connections: seq<Connection>,
    generated: bool,
    instantiated: bool)

  /** Requests the generator makes to the engine, in the order it makes them. */
  datatype Request =
    | Floor(section: int)
    | WallFace(section: int, dir: int, raised: bool)
    | DoorEntity(section: int, dir: int)
    | Ceiling(section: int)
    | Cover(section: int, xSign: int, ySign: int, dir: int)
    | ItemEntity(section: int, entityType: int)
    | MonsterEntity(section: int, kind: int)
    | EndOfLevel(section: int)

  datatype State = State(
    sections: seq<Section>,
    compounds: seq<Compound>,
    progression: int,
    unknownSections: int,
    doorsPlaced: nat,
    compoundEntries: nat,
    hasCreatedEnd: bool,
    probabilityExit: int,
    itemSpawnProbability: int,
    monsterSpawnProbability: int,
    monsterDist: seq<int>,
    itemsDist: seq<int>,
    apm: Apm,
    tick: nat,
    requests: seq<Request>)

  type Oracle = nat -> nat

  /** `unknownSections` counts the sections waiting behind doors. Every
      random or forced door placed by `generate` raises it, and every
      section the compound pass or the door callback enters through a
      successful `instantialize()` lowers it. `doorsPlaced` and
      `compoundEntries` count the first two kinds of event; they have no
      counterpart in the source. The ledger below is what the counter is
      once those two are accounted for: generation and instantiation keep
      it, and only the door callback moves it. */
  function Ledger(st: State): int {
    st.unknownSections - st.doorsPlaced + st.compoundEntries
  }

  const UNDECIDED: seq<Connection> := [None, None, None, None]

  /** A section as the constructor leaves it: nothing decided, no compound. */
  const FRESH: Section := Section(Normal, -1, Style(0, 0, 0), 0, UNDECIDED, false, false)

  // ---------------------------------------------------------------------
  // Invariants of a level state.

  predicate SectionShape(s: Section) {
    && |s.connections| == 4
    && (!s.generated ==> s == FRESH)
    && (s.instantiated ==> s.generated)
    && (s.kind == Exit ==> s.instantiated)
  }

  /** Every member of a compound is a generated section of the grid. */
  predicate CompoundOk(sections: seq<Section>, k: Compound)
    requires |sections| == SECTIONS_COUNT
  {
    && ValidCompound(k)
    && k.count >= 1
    && (forall j :: 0 <= j < k.count ==> 0 <= k.indexes[j] < SECTIONS_COUNT && sections[k.indexes[j]].generated)
  }

  predicate CompoundsOk(sections: seq<Section>, compounds: seq<Compound>)
    requires |sections| == SECTIONS_COUNT
  {
    forall k {:trigger CompoundOk(sections, compounds[k])} :: 0 <= k < |compounds| ==> CompoundOk(sections, compounds[k])
  }

  /** k2 is k1, or both are valid and k2's members extend k1's. */
  predicate CompoundGrew(k1: Compound, k2: Compound) {
    k2 == k1 || (ValidCompound(k1) && ValidCompound(k2) && Members(k1) <= Members(k2))
  }

  /** The arena only grows: compounds are appended, never dropped, and a
      compound only gains members at its end. */
  predicate ArenaGrown(a: seq<Compound>, b: seq<Compound>) {
    |a| <= |b| && forall k :: 0 <= k < |a| ==> CompoundGrew(a[k], b[k])
  }

  lemma ArenaTrans(a: seq<Compound>, b: seq<Compound>, c: seq<Compound>)
    requires ArenaGrown(a, b) && ArenaGrown(b, c)
    ensures ArenaGrown(a, c)
  {
    forall k | 0 <= k < |a| ensures CompoundGrew(a[k], c[k]) {
      assert CompoundGrew(a[k], b[k]) && CompoundGrew(b[k], c[k]);
    }
  }

  predicate TablesOk(monsterDist: seq<int>, itemsDist: seq<int>) {
    && |monsterDist| == MONSTERS_COUNT && Sampleable(monsterDist) && NonDecreasing(monsterDist)
    && |itemsDist| == ITEMS_COUNT && Sampleable(itemsDist) && NonDecreasing(itemsDist)
  }

  /** At most one Exit section, and `hasCreatedEnd` says whether there is one. */
  predicate ExitOk(sections: seq<Section>, hasCreatedEnd: bool) {
    && (forall i, j ::
          (0 <= i < |sections| && 0 <= j < |sections| &&
           sections[i].kind == Exit && sections[j].kind == Exit) ==> i == j)
    && (hasCreatedEnd <==> exists i :: 0 <= i < |sections| && sections[i].kind == Exit)
  }

  predicate EntitiesOk(requests: seq<Request>) {
    forall r :: r in requests ==>
      (r.ItemEntity? ==> r.entityType in ITEMS_INDEXES) &&
      (r.MonsterEntity? ==> 0 <= r.kind < MONSTERS_COUNT)
  }

  /** Appending requests without item or monster entities, or with valid
      ones, keeps the entity invariant. */
  lemma EntitiesAppend(a: seq<Request>, b: seq<Request>)
    requires EntitiesOk(a) && EntitiesOk(b)
    ensures EntitiesOk(a + b)
  {
    forall r | r in a + b
      ensures (r.ItemEntity? ==> r.entityType in ITEMS_INDEXES) && (r.MonsterEntity? ==> 0 <= r.kind < MONSTERS_COUNT)
    {
      assert r in a || r in b;
    }
  }

  function Instantiated(sections: seq<Section>): set<int> {
    set i | 0 <= i < |sections| && sections[i].instantiated
  }

  function Uninstantiated(sections: seq<Section>): set<int> {
    set i | 0 <= i < |sections| && !sections[i].instantiated
  }

  function Ungenerated(sections: seq<Section>): set<int> {
    set i | 0 <= i < |sections| && !sections[i].generated
  }

  /** The connections of a generated section at slot c lead into the grid
      wherever they are not walls. */
  predicate LinksOk(c: Slot, s: Section)
    requires |s.connections| == 4
  {
    s.generated ==> forall d: Direction :: s.connections[d] != Wall ==> Neighbour(c, d) != -1
  }

  /** The per-section invariants, including the compound handle. */
  predicate SectionOk(c: Slot, s: Section, compoundCount: int) {
    && SectionShape(s)
    && LinksOk(c, s)
    && (s.generated ==> 0 <= s.compound < compoundCount)
  }

  /** The link condition is only instantiated where a proof asks for it, since
      it unfolds the grid arithmetic of Neighbour. */
  predicate SectionsOk(sections: seq<Section>, compoundCount: int) {
    && |sections| == SECTIONS_COUNT
    && (forall i: Slot :: SectionShape(sections[i]))
    && (forall i: Slot :: sections[i].generated ==> 0 <= sections[i].compound < compoundCount)
    && (forall i: Slot {:trigger LinksOk(i, sections[i])} :: LinksOk(i, sections[i]))
  }

  /** The array shape alone: enough to index every section and its four
      sides. Every valid state has it. */
  predicate Shaped(sections: seq<Section>) {
    |sections| == SECTIONS_COUNT && forall i: Slot :: |sections[i].connections| == 4
  }

  predicate Valid(st: State) {
    && SectionsOk(st.sections, |st.compounds|)
    && CompoundsOk(st.sections, st.compounds)
    && TablesOk(st.monsterDist, st.itemsDist)
    && st.progression == |Instantiated(st.sections)|
    && ExitOk(st.sections, st.hasCreatedEnd)
    && EntitiesOk(st.requests)
  }

  /** The compound a generated section belongs to. */
  function CompoundOf(st: State, c: Slot): (k: Compound)
    requires Valid(st) && st.sections[c].generated
    ensures CompoundOk(st.sections, k)
    ensures k.count >= 1 && 0 <= k.indexes[0] < SECTIONS_COUNT && st.sections[k.indexes[0]].generated
  {
    assert CompoundOk(st.sections, st.compounds[st.sections[c].compound]);
    st.compounds[st.sections[c].compound]
  }

  /** A compound stays valid when sections only become generated. */
  lemma CompoundsGrow(sections: seq<Section>, sections2: seq<Section>, compounds: seq<Compound>)
    requires |sections| == SECTIONS_COUNT && |sections2| == SECTIONS_COUNT
    requires forall i :: 0 <= i < SECTIONS_COUNT && sections[i].generated ==> sections2[i].generated
    requires CompoundsOk(sections, compounds)
    ensures CompoundsOk(sections2, compounds)
  {
    forall k | 0 <= k < |compounds| ensures CompoundOk(sections2, compounds[k]) {
      assert CompoundOk(sections, compounds[k]);
    }
  }

  /** Kinds that stay Exit or non-Exit, and an unchanged flag, keep the exit invariant. */
  lemma KindsKeepExits(sections: seq<Section>, sections2: seq<Section>, hasCreatedEnd: bool)
    requires ExitOk(sections, hasCreatedEnd)
    requires |sections2| == |sections|
    requires forall i :: 0 <= i < |sections| ==> (sections2[i].kind == Exit <==> sections[i].kind == Exit)
    ensures ExitOk(sections2, hasCreatedEnd)
  {
    if hasCreatedEnd {
      var i :| 0 <= i < |sections| && sections[i].kind == Exit;
      assert sections2[i].kind == Exit;
    }
  }

  /** Replacing one section by one with the same flags and exit status,
      whose links lead into the grid, keeps the invariant. */
  lemma ReplaceSection(st: State, c: Slot, s: Section)
    requires Valid(st)
    requires SectionOk(c, s, |st.compounds|)
    requires s.generated == st.sections[c].generated && s.instantiated == st.sections[c].instantiated
    requires (s.kind == Exit) == (st.sections[c].kind == Exit)
    ensures Valid(st.(sections := st.sections[c := s]))
    ensures Ungenerated(st.sections[c := s]) == Ungenerated(st.sections)
    ensures Uninstantiated(st.sections[c := s]) == Uninstantiated(st.sections)
    ensures Instantiated(st.sections[c := s]) == Instantiated(st.sections)
  {
    var sections2 := st.sections[c := s];
    FlagSets(st.sections, sections2);
    KindsKeepExits(st.sections, sections2, st.hasCreatedEnd);
    CompoundsGrow(st.sections, sections2, st.compounds);
    forall i: Slot ensures LinksOk(i, sections2[i]) {
      if i != c {
        assert LinksOk(i, st.sections[i]);
      }
    }
  }

  /** Marking an ungenerated section generated, with a compound arena that
      keeps every compound valid, keeps the invariant. */
  lemma MarkGenerated(st: State, c: Slot, s: Section, compounds: seq<Compound>)
    requires Valid(st) && !st.sections[c].generated
    requires s.generated && !s.instantiated && s.kind != Exit
    requires |compounds| >= |st.compounds|
    requires SectionOk(c, s, |compounds|)
    requires CompoundsOk(st.sections[c := s], compounds)
    ensures Valid(st.(sections := st.sections[c := s], compounds := compounds))
    ensures Ungenerated(st.sections[c := s]) == Ungenerated(st.sections) - {c}
    ensures c in Ungenerated(st.sections)
    ensures Uninstantiated(st.sections[c := s]) == Uninstantiated(st.sections)
  {
    var sections2 := st.sections[c := s];
    GeneratedOne(st.sections, sections2, c);
    KindsKeepExits(st.sections, sections2, st.hasCreatedEnd);
    forall i: Slot ensures LinksOk(i, sections2[i]) {
      if i != c {
        assert LinksOk(i, st.sections[i]);
      }
    }
  }

  /** Equal flags give equal flag sets. */
  lemma FlagSets(sections: seq<Section>, sections2: seq<Section>)
    requires |sections2| == |sections|
    requires forall i :: 0 <= i < |sections| ==> sections2[i].generated == sections[i].generated
    requires forall i :: 0 <= i < |sections| ==> sections2[i].instantiated == sections[i].instantiated
    ensures Ungenerated(sections2) == Ungenerated(sections)
    ensures Uninstantiated(sections2) == Uninstantiated(sections)
    ensures Instantiated(sections2) == Instantiated(sections)
  {
  }

  /** Marking one ungenerated section generated removes exactly it. */
  lemma GeneratedOne(sections: seq<Section>, sections2: seq<Section>, c: int)
    requires |sections2| == |sections| && 0 <= c < |sections|
    requires !sections[c].generated && sections2[c].generated
    requires forall i :: 0 <= i < |sections| && i != c ==> sections2[i].generated == sections[i].generated
    requires forall i :: 0 <= i < |sections| ==> sections2[i].instantiated == sections[i].instantiated
    ensures Ungenerated(sections2) == Ungenerated(sections) - {c}
    ensures c in Ungenerated(sections)
    ensures |Ungenerated(sections2)| == |Ungenerated(sections)| - 1
    ensures Uninstantiated(sections2) == Uninstantiated(sections)
    ensures Instantiated(sections2) == Instantiated(sections)
  {
  }

  /** Marking one uninstantiated section instantiated moves exactly it. */
  lemma InstantiatedOne(sections: seq<Section>, sections2: seq<Section>, c: int)
    requires |sections2| == |sections| && 0 <= c < |sections|
    requires !sections[c].instantiated && sections2[c].instantiated
    requires forall i :: 0 <= i < |sections| ==> sections2[i].generated == sections[i].generated
    requires forall i :: 0 <= i < |sections| && i != c ==> sections2[i].instantiated == sections[i].instantiated
    ensures Uninstantiated(sections2) == Uninstantiated(sections) - {c}
    ensures c in Uninstantiated(sections)
    ensures Instantiated(sections2) == Instantiated(sections) + {c}
    ensures |Instantiated(sections2)| == |Instantiated(sections)| + 1
    ensures Ungenerated(sections2) == Ungenerated(sections)
  {
  }

  /** The section array the constructor loop leaves: every slot fresh. */
  function FreshSections(): (sections: seq<Section>)
    ensures |sections| == SECTIONS_COUNT
    ensures forall i :: 0 <= i < |sections| ==> sections[i] == FRESH
  {
    seq(SECTIONS_COUNT, _ => FRESH)
  }

  /** Fresh sections satisfy the section invariants with no compounds, no
      section is instantiated and there is no exit. */
  lemma FreshSectionsOk()
    ensures SectionsOk(FreshSections(), 0)
    ensures Instantiated(FreshSections()) == {}
    ensures ExitOk(FreshSections(), false)
  {
    var sections := FreshSections();
    forall i: Slot ensures LinksOk(i, sections[i]) {
      assert sections[i] == FRESH;
    }
  }

  /** The state `startProcedural` sets up before generating the spawn:
      every section fresh, progression 0, one unknown section (the spawn's
      pre-built door), no exit, and both tables built with multiplier 0. */
  function InitialState(apm: Apm): (st: State)
    ensures Valid(st)
    ensures st.progression == 0 && st.unknownSections == 1 && !st.hasCreatedEnd && st.probabilityExit == 0
    ensures st.doorsPlaced == 0 && st.compoundEntries == 0 && Ledger(st) == 1
    ensures forall i :: 0 <= i < SECTIONS_COUNT ==> !st.sections[i].generated && !st.sections[i].instantiated
  {
    GameTablesSampleable(Ratio(0, 1));
    FreshSectionsOk();
    State(FreshSections(), [], 0, 1, 0, 0, false, 0,
          ITEM_SPAWN_PROBABILITY_DEFAULT, MONSTER_SPAWN_PROBABILITY_DEFAULT,
          SetupDistribution(MONSTERS_PROBABILITY, Ratio(0, 1), MONSTERS_PROBABILITY_PROGRESSION),
          SetupDistribution(ITEMS_PROBABILITY, Ratio(0, 1), ITEMS_PROBABILITY_NOOB),
          apm, 0, [])
  }
}
