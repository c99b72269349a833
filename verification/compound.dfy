/** The index buffer of a compound: the sections merged into one open area.
    The buffer has COMPOUND_CAPACITY slots; the first `count` hold member
    slots and the rest hold -1. */
module Compounds {
  import opened Grid

  datatype Compound = Compound(count: int, indexes: seq<int>)

  /** Shape the buffer keeps: live prefix of distinct non-negative slots,
      -1 everywhere after it. */
  predicate ValidCompound(k: Compound) {
    && |k.indexes| == COMPOUND_CAPACITY
    && 0 <= k.count <= COMPOUND_CAPACITY
    && (forall j :: 0 <= j < k.count ==> k.indexes[j] >= 0)
    && (forall j :: k.count <= j < COMPOUND_CAPACITY ==> k.indexes[j] == -1)
    && (forall i, j :: 0 <= i < j < k.count ==> k.indexes[i] != k.indexes[j])
  }

  /** The member slots, in the order they joined. */
  function Members(k: Compound): seq<int>
    requires ValidCompound(k)
  {
    k.indexes[..k.count]
  }

  /** A freshly allocated compound: no members, every slot -1. */
  function NewCompound(): (k: Compound)
    ensures ValidCompound(k) && k.count == 0 && Members(k) == []
  {
    Compound(0, seq(COMPOUND_CAPACITY, _ => -1))
  }

  /** The whole-buffer scan `addToCompound` performs before appending. */
  predicate Scanned(index: int, k: Compound) {
    exists i :: 0 <= i < |k.indexes| && k.indexes[i] == index
  }

  /** For a section slot, scanning all slots of the buffer finds it exactly
      when it is a member, because unused slots hold -1. */
  lemma ScanMatchesMembers(index: int, k: Compound)
    requires ValidCompound(k) && index >= 0
    ensures Scanned(index, k) <==> index in Members(k)
  {
    if Scanned(index, k) {
      var i :| 0 <= i < |k.indexes| && k.indexes[i] == index;
      assert i < k.count;
      assert Members(k)[i] == index;
    }
  }

  /** Adds `index` unless the scan already finds it. A full buffer cannot
      take a new member (the source would write past its end); the compound
      is then left as it is. */
  function AddToCompound(index: Slot, k: Compound): (r: Compound)
    requires ValidCompound(k)
    ensures ValidCompound(r)
    ensures r.count == k.count || r.count == k.count + 1
    ensures index in Members(k) ==> r == k
    ensures index !in Members(k) && k.count < COMPOUND_CAPACITY ==> Members(r) == Members(k) + [index]
    ensures k.count == COMPOUND_CAPACITY ==> r == k
    ensures forall m :: m in Members(r) ==> m in Members(k) || m == index
  {
    ScanMatchesMembers(index, k);
    if Scanned(index, k) then k
    else if k.count < COMPOUND_CAPACITY then
      var r := Compound(k.count + 1, k.indexes[k.count := index]);
      assert Members(r) == Members(k) + [index];
      r
    else k
  }

  /** Adding the same slot twice is the same as adding it once. */
  lemma AddIdempotent(index: Slot, k: Compound)
    requires ValidCompound(k)
    ensures AddToCompound(index, AddToCompound(index, k)) == AddToCompound(index, k)
  {
    var r := AddToCompound(index, k);
    if index !in Members(k) && k.count < COMPOUND_CAPACITY {
      assert Members(r)[k.count] == index;
    }
  }
}
