# Procedural level generator for Sauerbraten — Dafny model

This project models the topology and bookkeeping core of a lazy, grid-based
dungeon generator written as a Sauerbraten engine mod. The map is a 12×12 grid
of sections (144 slots). A section is first *generated*: it gets its four
connections (`Wall`, `Door`, `NoWall`, or the undecided `None`), a style and a
height. Open (`NoWall`) sides merge neighbours into one *compound* and generate
them on the spot. Later a section is *instantiated*:

- its door neighbours are generated, and its open neighbours that are
  already generated are instantiated;
- it may become the level's single exit;
- the spawn tables are refreshed from the player's performance;
- its container is built and the rest of its compound is instantiated;
- items and monsters (or the end trigger) are placed.

The manager starts a level at the centre cell. It instantiates the section
behind a door when the player opens one, and it finds the section under a
point.

Modelling choices:

- **State is passed functionally.** `Level.State` holds the 144 sections, an
  arena of compounds, the counters `progression`, `unknownSections`,
  `hasCreatedEnd` and `probabilityExit`, the spawn chances, both cumulative
  tables, the action counters, a draw counter `tick` and a request log. A
  section refers to its compound by a handle (an index into the arena), which
  stands in for the shared `compound *` of the C++ code. Two bookkeeping
  counters have no counterpart in the source: `doorsPlaced` counts the doors
  `generate` placed, and `compoundEntries` counts the successful
  instantiations of the compound loop, the two events that move
  `unknownSections`. `Level.Ledger` is the counter net of both. Generation and
  instantiation keep it, and only the door callback lowers it.
- **File-local statics.** `procedural.h` declares the spawn chances and the
  exit chance `static`, so every source file has its own copy. The state holds
  the copies that `instantialize` reads. For the exit chance this is modelled
  as written: the reset in `startProcedural` does not reach that copy, so a
  new level starts with the chance the previous one left. For the spawn
  chances the model uses the refreshed values. The linked code cannot do
  this; module `Linkage` states what the linked loops do instead (see
  "## Findings").
- **Randomness is an oracle.** `rand()` is `rng: nat -> nat`, and the k-th
  call is `rng(k)`. The draw order follows the C++ short-circuit evaluation:
  - the door roll is drawn for every free side of a section that passes the
    map-edge test;
  - the merge roll is drawn only after a failed door test;
  - the exit roll is drawn only while no exit exists and the exit chance is
    positive;
  - each spawn loop draws its roll before it tests the count.
- **Engine calls become requests.** Every geometry or entity call that
  `instantialize` makes becomes a `Level.Request` appended to the log, in
  call order: the floor, each wall face with its "raised" flag, door
  entities, the ceiling, the two covers, items, monsters and the end
  trigger. The door callback and the level start take the player's
  telemetry (`Difficulty.Telemetry`) as a parameter.
- **Recursion terminates on the unflagged sets.** `generate` and
  `instantialize` are mutually recursive through neighbours and compounds.
  Generation terminates on the set of ungenerated slots, and instantiation
  on the set of uninstantiated slots. Both flags are set before any
  recursive call.
- **Floating point is kept exact.** Noobness is counted in halves. The
  progress score `prog` is kept as the numerator `25 * progression +
  accuracy` over 150. The table multipliers are exact ratios, and every
  `(int)` cast truncates toward zero (`Distribution.TruncDiv`). Positions and
  door anchors are integral in the source. The `sqrt` door probe is the
  squared-distance test `< 256`.

## Model

| member | source | states |
|---|---|---|
| Grid.GridConstants | engine/procedural.h:33-41 | 12 sections per line and 144 in all; the compound buffer holds 32 slots, more than the merge cap of 8; the height modulus `SECTION_MAX_HEIGHT - SECTION_MIN_HEIGHT` is positive |
| Grid.IndexFrom | engine/procedural.cpp:208-213 | the result is -1 exactly when (x, y) is off the grid; otherwise it is a slot in [0, 144) whose quotient and remainder by 12 give back x and y |
| Grid.IndexFromInjective | engine/procedural.cpp:208-213 | two on-grid coordinate pairs with the same slot are equal |
| Grid.IndexTo | engine/procedural.cpp:215-220 | the corrected inverse: every slot maps to on-grid coordinates that IndexFrom sends back to that slot |
| Grid.IndexRoundTrip | engine/procedural.cpp:208-220 | IndexTo(IndexFrom(x, y)) = (x, y) on the whole grid, as the header promises of the pair (engine/procedural.h:153-157) |
| Grid.IndexToAsWrittenSwaps | engine/procedural.cpp:215-220 | the written inverse sends the slot of (x, y) to (y, 12·x) |
| Grid.IndexToAsWrittenRoundTripIff | engine/procedural.cpp:215-220 | the written inverse gives back (x, y) only for the cell (0, 0) |
| Grid.IndexToAsWrittenCounterexample | engine/procedural.cpp:215-220 | slot 1 is cell (0, 1), but the written inverse answers (1, 0) |
| Grid.OppositeDirection | engine/proceduralsection.cpp:35-40 | the opposite of direction v is (v + 2) mod 4, and its unit vector is the negation of v's |
| Grid.OppositeInvolution | engine/proceduralsection.cpp:35-40 | taking the opposite twice gives back the direction, and no direction is its own opposite |
| Grid.DirectionsAreAxisUnits | engine/procedural.h:45 | every DIRECTIONS entry is a unit axis vector, and entry (i + 2) mod 4 is the negation of entry i |
| Grid.NeighbourSymmetric | engine/proceduralsection.cpp:113-117 | the neighbour of a slot's neighbour, looked up in the opposite direction, is the slot itself; this is the cell a section copies its mirrored connection from |
| Grid.NeighboursDistinct | engine/proceduralsection.cpp:113-127 | an on-grid neighbour differs from the slot itself, and different directions lead to different neighbours |
| Grid.IsConnectedTo | engine/proceduralsection.cpp:70-78 | the answer is -1 exactly when no direction leads to `room`; otherwise it is the first direction that does |
| Grid.IsConnectedToNeighbour | engine/proceduralsection.cpp:70-78 | asking which direction leads to the neighbour in direction d answers d |
| Grid.MarginIff | engine/proceduralsection.cpp:181-184 | the map-edge test fails exactly on the first row and the first column of the grid |
| Grid.DoorAt | engine/proceduralsection.cpp:59-68 | no anchor near the point gives -1; any other answer is the neighbour behind an anchor near the point |
| Grid.NearDoorUnique | engine/proceduralsection.cpp:59-68 | the four door anchors of a section are too far apart for one point to be near two of them |
| Grid.DoorAtNear | engine/proceduralsection.cpp:59-68 | a point near the anchor in direction d answers the neighbour in direction d |
| Grid.InitCoordinates | engine/procedural.cpp:32-37 | the set-up double loop gives slot IndexFrom(x, y) the coordinates (x, y); every slot gets on-grid coordinates, and the world position `generate` computes from them is PosX/PosY |
| Distribution.SetupDistribution | engine/procedural.cpp:259-269 | the table has one entry per weight; entry 0 is the first increment and each later entry adds its own increment to the previous one |
| Distribution.CumulativeIsPrefixSum | engine/procedural.cpp:259-269 | entry i is the sum of increments 0..i |
| Distribution.SetupBounds | engine/procedural.cpp:259-269 | with non-negative weights and multiplier the table is non-decreasing and its last entry is at least the sum of the base weights |
| Distribution.BaseSums | engine/procedural.h:101-107 | the item base weights sum to 122 and the monster base weights to 94 |
| Distribution.GameTablesSampleable | engine/procedural.h:101-107 | every table the game builds with a non-negative multiplier is non-decreasing with a last entry of at least 122 (items) or 94 (monsters), so sampling never takes a remainder by 0 |
| Distribution.SampleDistribution | engine/procedural.cpp:271-278 | the index is in range, its entry reaches the target `draw % total + 1`, and every earlier entry falls short of it |
| Distribution.SampleInterval | engine/procedural.cpp:271-278 | on a non-decreasing table, index k is drawn exactly when the target lies in (entry k-1, entry k] |
| Distribution.TruncDiv | engine/procedural.cpp:157 | the quotient truncates toward zero, as C integer division and `(int)` casts do, for both signs of the dividend |
| Compounds.NewCompound | engine/proceduralsection.cpp:129-134 | a fresh buffer is well formed and has no members |
| Compounds.ScanMatchesMembers | engine/proceduralsection.cpp:49-51 | for a slot index, scanning the whole 32-slot buffer finds it exactly when it is a member |
| Compounds.AddToCompound | engine/proceduralsection.cpp:49-56 | the count grows by at most one; a present index leaves the compound unchanged; an absent one is appended when there is room; the members stay distinct |
| Compounds.AddIdempotent | engine/proceduralsection.cpp:49-56 | adding the same slot twice is the same as adding it once |
| Difficulty.Accuracy | engine/procedural.cpp:153-158 | without a player the accuracy is 0; otherwise it is damage·100 divided by the shot count and rounded down, with 1 in the divisor when no shot was fired |
| Difficulty.NoobHalves | engine/procedural.cpp:162-163 | noobness is one of 0, 0.5, 1 and 2; it is 0 exactly when health is at least 75 and 2 exactly when health is below 25 |
| Difficulty.NoobnessAntitone | engine/procedural.cpp:162-163 | lower health never gives a lower noobness |
| Difficulty.UpdateProbabilities | engine/procedural.cpp:150-177 | both rebuilt tables have the right length, are non-decreasing and can be sampled; the item chance lies between its default plus attacks/5 and 10 more; a healthy player gets exactly the default plus attacks/5; the monster chance is 60 minus 5 per half point of noobness plus 8·prog rounded down |
| Difficulty.ChancesFollowHealth | engine/procedural.cpp:166-169 | worse health never lowers the item chance and never raises the monster chance |
| Difficulty.MonsterChanceRises | engine/procedural.cpp:168-169 | a higher progress score never lowers the monster chance |
| Difficulty.MonstersFollowSkill | engine/procedural.cpp:150-169 | "more monsters if good": at equal health, more progression and a better accuracy never lower the refreshed monster chance |
| Difficulty.HealthyProgressRaisesMonsters | engine/procedural.cpp:160-169 | a player with health of at least 75 and progression of at least 1 gets a monster chance above the default of 60 |
| Level.InitialState | engine/procedural.cpp:32-52 | the level before the spawn: all sections fresh, progression 0, one unknown section, no exit, exit chance 0, both bookkeeping counters 0 (so the ledger is 1), and the invariant holds |
| Level.FreshSectionsOk | engine/proceduralsection.cpp:85-91 | constructed sections satisfy the section invariants; none is instantiated and there is no exit |
| Generation.Mirror | engine/proceduralsection.cpp:113-127 | an off-grid side is a wall; a mirrored open side leads to a generated neighbour |
| Generation.JoinHandleInArena | engine/proceduralsection.cpp:118-120 | the compound a new section joins is a valid handle, and there is none exactly when no already-generated neighbour is open toward it |
| Generation.Enter | engine/proceduralsection.cpp:101-135 | the first part of `generate`: the section becomes generated, uninstantiated and Normal, each side set to the mirrored connection; it joins the compound of a neighbour open toward it, or a new compound appended to the arena when there is none; no other section changes and the ungenerated set loses exactly this slot |
| Generation.ChooseStyle | engine/proceduralsection.cpp:156-171 | a section alone in its compound draws 4 values and gets textures and a height in range (height in [5, 9]); otherwise it copies the first member's style and height and draws nothing |
| Generation.MakeSpawn | engine/proceduralsection.cpp:140-151 | the spawn gets the fixed style and height and the connections [Door, Wall, Wall, Wall]; nothing else changes |
| Generation.PlaceDoor | engine/proceduralsection.cpp:186-191 | a door on a free side: exactly that side changes, unknownSections grows by exactly one and one draw is consumed |
| Generation.MergeOrWall | engine/proceduralsection.cpp:193-199 | after a failed door test the side becomes NoWall only if the merge roll succeeds under the compound cap, and then the neighbour is generated; otherwise it becomes a Wall and the counter is unchanged |
| Generation.DecideStep | engine/proceduralsection.cpp:179-200 | a decided side or a section at the map edge is left alone; a free side becomes a door exactly when the door test passes, otherwise NoWall or Wall as the merge roll decides |
| Generation.DecideSides | engine/proceduralsection.cpp:174-202 | off the first row and column every side is decided; open sides lead to generated sections; once progression reaches 6 at most one random door is placed; `created` counts this section and every merged one |
| Generation.Finish | engine/proceduralsection.cpp:213 | every side still undecided becomes a wall, and nothing else changes |
| Generation.Generate | engine/proceduralsection.cpp:101-215 | an already generated section returns 0 and changes nothing; otherwise it returns at least 1 (the number of newly generated sections) and leaves the section generated, uninstantiated, with no undecided side, as the spawn shape or a Normal section consistent with its decided neighbours; sections generated before the call keep every field |
| Generation.GenerateSpawn | engine/proceduralsection.cpp:101-151 | with no parent exactly one section is generated: the spawn shape |
| Generation.GenerateNormal | engine/proceduralsection.cpp:101-215 | with a parent the section is Normal, agrees with every decided neighbour, and turns free sides on the first row or column into walls |
| Instantiation.MarkInstantiated | engine/proceduralsection.cpp:223-226 | the flag is set on exactly that section, progression grows by exactly one, and the uninstantiated set loses exactly that slot |
| Instantiation.VisitNeighbours | engine/proceduralsection.cpp:228-237 | after the neighbour pass every door neighbour is generated and every open neighbour that was generated is instantiated |
| Instantiation.DecideExit | engine/proceduralsection.cpp:239-257 | the exit chance grows by 8 once progression reaches 6; the roll is drawn only while no exit exists and the chance is positive; the section becomes the exit when the roll passes or when it is Normal and at most 2 sections are unknown; only the first exit is ever made, and the exit flag holds exactly when an exit exists |
| Instantiation.EndPersists | engine/proceduralsection.cpp:244-257 | once a level has an exit it keeps it through any later step |
| Instantiation.Retune | engine/proceduralsection.cpp:259-260 | both tables and the spawn chances the loops read are replaced by the refresh (the corrected linkage, see Findings), the three action counters are reset to 0, and nothing else changes |
| Instantiation.SideRequestsContent | engine/proceduralsection.cpp:282-330 | a wall face is requested for exactly the Wall and Door sides, raised exactly when the neighbour is off the grid or not yet instantiated; a door entity is requested for exactly the raised Door sides |
| Instantiation.Build | engine/proceduralsection.cpp:262-358 | the spawn builds nothing; any other section requests its floor first, then its wall faces and doors as above, its ceiling, and two covers, using 6 draws |
| Instantiation.InstantializeCompound | engine/proceduralsection.cpp:360-367 | after the compound pass every member of the section's compound is instantiated, including members that joined during the pass; the frontier counter moves only with doors placed and compound entries made |
| Instantiation.SweepMember | engine/proceduralsection.cpp:363-366 | after the inner loop every member of that member's compound is instantiated; each successful inner instantiation takes one off the frontier counter and is counted as a compound entry |
| Instantiation.Spawns | engine/proceduralsection.cpp:384-403 | a spawn loop places at most `max` entities, each a valid table row; a chance of 100 or more always fills it, and a negative chance places nothing |
| Instantiation.SpawnsPlacement | engine/proceduralsection.cpp:384-392 | the k-th placement passed its roll at draw t+4k and its kind is the sample at draw t+4k+1 |
| Instantiation.SpawnsStop | engine/proceduralsection.cpp:384-392 | a loop that stopped short of `max` failed its roll right after its last placement |
| Instantiation.ItemPicks | engine/proceduralsection.cpp:384-392 | a section receives at most 6 items, each a valid item row, rolled against the refreshed item chance (the corrected linkage, see Findings) |
| Instantiation.MonsterPicks | engine/proceduralsection.cpp:394-403 | a section receives at most 8 monsters, each a valid monster row, rolled against the refreshed monster chance (the corrected linkage); they are drawn after the item loop's final roll |
| Instantiation.SpawnsMonotone | engine/proceduralsection.cpp:384-403 | from the same draws, a loop with a lower chance places a prefix of what a loop with a higher chance places |
| Linkage.MonsterPicksRise | engine/proceduralsection.cpp:394-403 | with the refreshed chance read by the loop, of two states at the same draw with the same item chance and tables, the one with the higher monster chance gets at least as many monsters, and the first ones are the same |
| Linkage.StaticItemPicks | engine/proceduralsection.cpp:384-392 | the items as the code is linked: the loop rolls against its file-local copy, which stays at the default 50; at most 6 valid rows |
| Linkage.StaticMonsterPicks | engine/proceduralsection.cpp:394-403 | the monsters as linked: the loop always rolls against the default 60; at most 8 valid rows |
| Linkage.StaticPicksIgnoreRefresh | engine/procedural.h:75-78 | as linked, two states at the same draw with the same tables get the same items and the same monsters, whatever their spawn chances |
| Linkage.StaticChanceCounterexample | engine/proceduralsection.cpp:394-403 | with a refreshed monster chance above 60 and every roll at 61, the corrected loop places a monster and the loop as linked places none |
| Instantiation.Populate | engine/proceduralsection.cpp:369-411 | the spawn gets nothing; the exit gets exactly the end trigger; a Normal section gets its item requests and then its monster requests, rolled against the refreshed chances (the corrected linkage), consuming 4 draws per placement plus one final roll per loop |
| Instantiation.Arrival | engine/proceduralsection.cpp:222-414 | the flag step, the neighbour and exit step and the building step together give the promise of `instantialize` (Arrived) |
| Instantiation.Instantialize | engine/proceduralsection.cpp:222-414 | returns -1 and changes nothing exactly when the section is not generated or already instantiated; otherwise it returns 0 and the section is instantiated with its fields kept; its kind is kept or it becomes the first exit; progression grows; door neighbours are generated, and open neighbours that were already generated are instantiated; its compound is fully instantiated; its floor request (not for the spawn) and end trigger (for the exit) are logged; generated sections only move forward; the frontier counter changes by exactly the doors placed minus the compound entries made |
| Manager.StartProcedural | engine/procedural.cpp:30-58 | after the level start the centre cell (6, 6) is generated and instantiated with the spawn's connections, it is the spawn unless it became the exit (possible when the previous level left an exit chance behind), the section behind its door is generated, progression is at least 1, and the frontier counter is 1 plus the doors placed minus the compound entries made |
| Manager.FirstHit | engine/procedural.cpp:122-129 | the scan result is the smallest instantiated slot whose probe names a slot above 0, or -1 when there is none |
| Manager.ScanDoors | engine/procedural.cpp:122-129 | the scan loop stops at exactly that first hit |
| Manager.Target | engine/procedural.cpp:122-129 | the target is -1 exactly when no instantiated section's probe names a slot above 0; a hit never targets slot 0 |
| Manager.OpenDoorAt | engine/procedural.cpp:122-138 | the callback reports true exactly when the first hit's target is generated and not yet instantiated; then the target has arrived as `instantialize` promises, and unknownSections is its old value plus the doors placed, minus the compound entries made, minus one; otherwise nothing changes |
| Manager.Unlock | engine/procedural.cpp:130-135 | for a target slot (or -1) the result is true exactly when the slot is generated and not yet instantiated; then the target has arrived and the ledger drops by exactly one; otherwise nothing changes |
| Manager.Decrement | engine/procedural.cpp:128-131 | the decrement after a successful instantiation keeps the invariant and what the instantiation achieved, changes only unknownSections, and lowers the ledger by exactly one |
| Manager.SectionAt | engine/procedural.cpp:192-205 | the answer is -1 or a generated section whose box meets the query box, and no smaller generated slot's box meets it |
| Manager.CentreFound | engine/procedural.cpp:192-205 | a point query at the centre of a generated section finds that section |

## Left out

- Engine geometry and entities: the selections, texture and face edits, and
  the placement of door, item, monster and end-trigger entities. They are
  recorded only as `Level.Request` entries with their section and kind. The
  global entity counter `dct` is not modelled.
- Randomised spawn coordinates: their draws are counted (two per placement),
  but their values are not used.
- `srand(time(NULL))`, key bindings, command registration, console output and
  the action-counter callbacks. These are I/O; the counters come in as
  `Difficulty.Apm`.
- `killedMonster`: its body is empty.
- `inCompound`: nothing calls it.
- `bonus_item_prob`: it is computed and never used.
- Memory: the leaked allocations and the dangling array address that `indexTo` returns have
  no counterpart here.
- Integer width: all counters are unbounded integers. None of the level
  counters can overflow 32 bits. A section's `instantialize()` returns 0 at
  most once, and only a 0 return triggers a decrement, so a level has at most
  144 decrements. `totaldamage * 100` (procedural.cpp:157) would overflow for
  a total damage above about 21 million; the model computes it exactly.
- Compounds.AddToCompound: on a full buffer (32 members) the C++ code would
  write past the end of the array. The model leaves the compound unchanged
  instead.
- Generation.Generate: connection symmetry between neighbours is not
  claimed. A neighbour still inside its own `generate` can mirror `None`, and
  both sides then decide independently.
- Generation.GenerateNormal: one might expect the forced door (young level,
  few unknown sections) to also require that no random door was placed yet.
  The code does not check this, and the model follows the code.
- Instantiation.Instantialize: the counter is not claimed to stay
  non-negative. An open neighbour that was not yet generated in the starting
  state is only claimed to be reached, not instantiated. `generate` generates
  the neighbour behind an open side when it opens it, so such a neighbour
  should not arise after a level start, but the model does not carry that
  invariant.
- Instantiation.VisitNeighbours: an open neighbour that was not yet generated
  in the state before the pass is only claimed to be reached, not
  instantiated, for the same reason.
- Instantiation.Retune: with the code as linked, the refresh never reaches
  the spawn chances the loops read; the model uses the corrected linkage (see
  "## Findings"). The as-linked loops are Linkage.StaticItemPicks and
  Linkage.StaticMonsterPicks.
- Instantiation.ItemPicks: rolls against the refreshed item chance, not the
  constant 50 the linked code reads (see "## Findings").
- Instantiation.MonsterPicks: rolls against the refreshed monster chance, not
  the constant 60 the linked code reads (see "## Findings").
- Instantiation.Populate: places what ItemPicks and MonsterPicks give, so it
  follows the corrected linkage (see "## Findings").
- Manager.StartProcedural: the exit chance left behind by a previous level is
  a parameter. The model does not prove that the spawn stays the spawn when
  that chance is 0; it proves that the spawn is kept unless it became the
  exit.
- Manager.SectionAt: the query point and extents are integers. The box half
  size is `SECTION_SIZE / 2` = 5 world units around a position measured in
  world units (80 per cell), as the code compares them.
- Difficulty.UpdateProbabilities: the float products `0.2f * attack`,
  `8 * prog` and `mult * w` are taken as exact rationals truncated toward
  zero. Float rounding is not modelled.

## Findings

| source | as written | input that shows it | evidently intended | confidence | as-written member | corrected member |
|---|---|---|---|---|---|---|
| engine/procedural.cpp:215-220 | `indexTo` returns (index % 12, index - index % 12), which is (y, 12·x) | slot 1 = IndexFrom(0, 1) maps to (1, 0) instead of (0, 1) | the inverse of `indexFrom`: (index / 12, index % 12) | high; not executed | Grid.IndexToAsWrittenCounterexample | Grid.IndexRoundTrip |
| engine/procedural.h:75-78 | `item_spawn_probability` and `monster_spawn_probability` are `static`, so `updateProbabilities` (procedural.cpp:167-169) writes its own file's copy, and the loops at proceduralsection.cpp:384 and :395 always roll against 50 and 60 | a healthy player with progression of at least 1 at the refresh (monster chance at least 61) and a first monster roll `rand() % 101` of 61: the refreshed chance places a monster, the linked code places none | the loops roll against the refreshed chances ("more monsters if good, less monsters if bad", procedural.cpp:168), so a higher chance never places fewer monsters | high; not executed | Linkage.StaticChanceCounterexample | Linkage.MonsterPicksRise |
