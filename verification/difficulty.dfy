/** The integer core of the adaptive difficulty refresh: player accuracy,
    the stepped noobness score, the spawn chances and the two rebuilt
    distribution tables. Fractional quantities are kept exact: noobness is
    counted in halves and the progress score `prog` as a numerator over 150. */
module Difficulty {
  import opened Distribution

  const ITEM_SPAWN_PROBABILITY_DEFAULT: int := 50
  const MONSTER_SPAWN_PROBABILITY_DEFAULT: int := 60
  const PROGRESSION_MIN: int := 6

  /** The player as the refresh sees it; the engine may have no player. */
  datatype Telemetry = NoPlayer | Player(health: int, totalDamage: nat, totalShots: int)

  /** Action counters fed by the key bindings (jump, movement, attack). */
  datatype Apm = Apm(jump: nat, movement: nat, attack: nat)

  /** Hit percentage: damage * 100 over shots, with at least one shot in the
      divisor, and 0 without a player. */
  function Accuracy(t: Telemetry): (a: int)
    ensures a >= 0
    ensures t.NoPlayer? ==> a == 0
    ensures t.Player? && t.totalShots <= 0 ==> a == t.totalDamage * 100
    ensures t.Player? && t.totalShots > 0 ==> a * t.totalShots <= t.totalDamage * 100 < (a + 1) * t.totalShots
  {
    match t
    case NoPlayer => 0
    case Player(_, damage, shots) =>
      var divisor := if shots > 0 then shots else 1;
      TruncDiv(damage * 100, divisor)
  }

  function Health(t: Telemetry): int {
    match t
    case NoPlayer => 100
    case Player(hp, _, _) => hp
  }

  /** Noobness in halves: 0, 0.5, 1 and 2 become 0, 1, 2 and 4. */
  function NoobHalves(hp: int): (n: int)
    ensures n == 0 || n == 1 || n == 2 || n == 4
    ensures n == 0 <==> hp >= 75
    ensures n == 4 <==> hp < 25
  {
    if hp < 75 then (if hp < 50 then (if hp < 25 then 4 else 2) else 1) else 0
  }

  /** Lower health never means a lower noobness score. */
  lemma NoobnessAntitone(hp1: int, hp2: int)
    requires hp1 <= hp2
    ensures NoobHalves(hp1) >= NoobHalves(hp2)
  {
  }

  /** `prog * 150` = progression * 25 + accuracy, since prog is
      progression / 6 + accuracy / 150. */
  function ProgNum(progression: int, accuracy: int): int {
    progression * (150 / PROGRESSION_MIN) + accuracy
  }

  /** Result of a refresh: the two spawn chances and the two tables. */
  datatype Retune = Retune(itemChance: int, monsterChance: int, monsterDist: seq<int>, itemsDist: seq<int>)

  function ItemChance(noobHalves: int, attack: nat): int {
    ITEM_SPAWN_PROBABILITY_DEFAULT + TruncDiv(5 * noobHalves, 2) + attack / 5
  }

  function MonsterChance(progNum: int, noobHalves: int): int {
    MONSTER_SPAWN_PROBABILITY_DEFAULT + TruncDiv(8 * progNum, 150) - 5 * noobHalves
  }

  /** Both tables are rebuilt from the base weights: monsters scaled by prog,
      items by noobness. */
  function UpdateProbabilities(t: Telemetry, progression: nat, apm: Apm): (r: Retune)
    ensures |r.monsterDist| == MONSTERS_COUNT && |r.itemsDist| == ITEMS_COUNT
    ensures NonDecreasing(r.monsterDist) && NonDecreasing(r.itemsDist)
    ensures r.monsterDist[MONSTERS_COUNT - 1] >= 94 && r.itemsDist[ITEMS_COUNT - 1] >= 122
    ensures ITEM_SPAWN_PROBABILITY_DEFAULT + apm.attack / 5 <= r.itemChance
    ensures r.itemChance <= ITEM_SPAWN_PROBABILITY_DEFAULT + 10 + apm.attack / 5
    ensures r.monsterChance >= MONSTER_SPAWN_PROBABILITY_DEFAULT - 20
    ensures Health(t) >= 75 ==> r.itemChance == ITEM_SPAWN_PROBABILITY_DEFAULT + apm.attack / 5
    ensures var excess := r.monsterChance - MONSTER_SPAWN_PROBABILITY_DEFAULT + 5 * NoobHalves(Health(t));
            var score := 8 * (25 * progression + Accuracy(t));
            excess * 150 <= score < (excess + 1) * 150
  {
    var accuracy := Accuracy(t);
    var noob := NoobHalves(Health(t));
    var prog := ProgNum(progression, accuracy);
    GameTablesSampleable(Ratio(prog, 150));
    GameTablesSampleable(Ratio(noob, 2));
    Retune(ItemChance(noob, apm.attack),
           MonsterChance(prog, noob),
           SetupDistribution(MONSTERS_PROBABILITY, Ratio(prog, 150), MONSTERS_PROBABILITY_PROGRESSION),
           SetupDistribution(ITEMS_PROBABILITY, Ratio(noob, 2), ITEMS_PROBABILITY_NOOB))
  }

  /** Worse health gives a higher item chance and a lower monster chance. */
  lemma ChancesFollowHealth(hp1: int, hp2: int, progNum: int, attack: nat)
    requires hp1 <= hp2
    ensures ItemChance(NoobHalves(hp1), attack) >= ItemChance(NoobHalves(hp2), attack)
    ensures MonsterChance(progNum, NoobHalves(hp1)) <= MonsterChance(progNum, NoobHalves(hp2))
  {
    NoobnessAntitone(hp1, hp2);
  }

  /** A higher progress score never lowers the monster chance. */
  lemma MonsterChanceRises(p1: int, p2: int, noobHalves: int)
    requires p1 <= p2
    ensures MonsterChance(p1, noobHalves) <= MonsterChance(p2, noobHalves)
  {
  }

  /** "More monsters if good": at the same health, more progression and a
      better accuracy never lower the refreshed monster chance. */
  lemma MonstersFollowSkill(t1: Telemetry, t2: Telemetry, progression1: nat, progression2: nat, apm: Apm)
    requires Health(t1) == Health(t2) && progression1 <= progression2 && Accuracy(t1) <= Accuracy(t2)
    ensures UpdateProbabilities(t1, progression1, apm).monsterChance <= UpdateProbabilities(t2, progression2, apm).monsterChance
  {
    MonsterChanceRises(ProgNum(progression1, Accuracy(t1)), ProgNum(progression2, Accuracy(t2)), NoobHalves(Health(t1)));
  }

  /** A healthy player past the first section already gets a monster chance
      above the default of 60. */
  lemma HealthyProgressRaisesMonsters(t: Telemetry, progression: nat, apm: Apm)
    requires Health(t) >= 75 && progression >= 1
    ensures UpdateProbabilities(t, progression, apm).monsterChance > MONSTER_SPAWN_PROBABILITY_DEFAULT
  {
  }
}
