/** How the spawn loops behave as the program is linked. `procedural.h`
    declares the spawn chances `static` at namespace scope, so every source
    file gets its own copy: the refresh writes the copies of `procedural.cpp`,
    while the loops of `proceduralsection.cpp` read copies that keep their
    defaults. The rest of the model uses the refreshed chances; this module
    states what the linked loops do instead and what the refresh was meant to
    achieve. */
module Linkage {
  import opened Distribution
  import opened Level
  import opened Difficulty
  import opened Instantiation

  /** With the refreshed chance read by the monster loop, a higher monster
      chance never gives a section fewer monsters, and the first ones are
      the same, whatever else differs between the two states. */
  lemma MonsterPicksRise(rng: Oracle, st: State, st2: State)
    requires TablesOk(st.monsterDist, st.itemsDist)
    requires st2.tick == st.tick && st2.itemSpawnProbability == st.itemSpawnProbability
    requires st2.itemsDist == st.itemsDist && st2.monsterDist == st.monsterDist
    requires st.monsterSpawnProbability <= st2.monsterSpawnProbability
    ensures MonsterPicks(rng, st) <= MonsterPicks(rng, st2)
  {
    var t := MonsterStart(st.tick, ItemPicks(rng, st));
    SpawnsMonotone(rng, t, st.monsterSpawnProbability, st2.monsterSpawnProbability, st.monsterDist, MONSTERS_MAX_PERSECTION, 0);
  }

  /** The item rows the loop at proceduralsection.cpp:384 places as the code
      is linked: the chance it reads is a file-local copy that the refresh
      never writes, so it is always the default. */
  function StaticItemPicks(rng: Oracle, st: State): (picks: seq<nat>)
    requires TablesOk(st.monsterDist, st.itemsDist)
    ensures |picks| <= ITEMS_MAX_PERSECTION
    ensures forall k :: 0 <= k < |picks| ==> picks[k] < ITEMS_COUNT
  {
    Spawns(rng, st.tick, ITEM_SPAWN_PROBABILITY_DEFAULT, st.itemsDist, ITEMS_MAX_PERSECTION, 0)
  }

  /** The monster rows as the code is linked: the loop always rolls against
      the default chance. */
  function StaticMonsterPicks(rng: Oracle, st: State): (picks: seq<nat>)
    requires TablesOk(st.monsterDist, st.itemsDist)
    ensures |picks| <= MONSTERS_MAX_PERSECTION
    ensures forall k :: 0 <= k < |picks| ==> picks[k] < MONSTERS_COUNT
  {
    Spawns(rng, MonsterStart(st.tick, StaticItemPicks(rng, st)), MONSTER_SPAWN_PROBABILITY_DEFAULT, st.monsterDist,
           MONSTERS_MAX_PERSECTION, 0)
  }

  /** As linked, the refreshed chances have no effect on what is placed:
      two states with the same draw position and tables get the same
      entities, whatever their spawn chances. */
  lemma StaticPicksIgnoreRefresh(rng: Oracle, st: State, st2: State)
    requires TablesOk(st.monsterDist, st.itemsDist)
    requires st2.tick == st.tick && st2.itemsDist == st.itemsDist && st2.monsterDist == st.monsterDist
    ensures StaticItemPicks(rng, st2) == StaticItemPicks(rng, st)
    ensures StaticMonsterPicks(rng, st2) == StaticMonsterPicks(rng, st)
  {
  }

  /** Every draw of this oracle folds to 61. */
  function DrawSixtyOne(k: nat): nat { 61 }

  /** A refreshed monster chance above the default (any healthy player past
      the first section gets one, by HealthyProgressRaisesMonsters) and a
      first monster roll of 61: the refreshed loop places a monster, the
      loop as linked places none. */
  lemma StaticChanceCounterexample(st: State)
    requires TablesOk(st.monsterDist, st.itemsDist) && st.monsterSpawnProbability > MONSTER_SPAWN_PROBABILITY_DEFAULT
    ensures |MonsterPicks(DrawSixtyOne, st)| >= 1
    ensures StaticMonsterPicks(DrawSixtyOne, st) == []
  {
    var t := MonsterStart(st.tick, ItemPicks(DrawSixtyOne, st));
    assert Rolled(DrawSixtyOne, t, st.monsterSpawnProbability);
    var u := MonsterStart(st.tick, StaticItemPicks(DrawSixtyOne, st));
    assert !Rolled(DrawSixtyOne, u, MONSTER_SPAWN_PROBABILITY_DEFAULT);
  }
}
