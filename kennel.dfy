/** The kennel pool: numbered kennels that are free or occupied. A kennel's
    position in `kennels` is its document reference; positions follow
    insertion order, which is the order an unsorted `findOne` scans. */
module Kennels {
  import opened Common

  /** `isOccupied` has no default, so a kennel may hold no flag at all. */
  datatype Kennel = Kennel(kennelId: int, isOccupied: Option<bool>)

  /** The flag is truthy: the test `if (kennel.isOccupied)` of the initial
      observation. An unset flag is not truthy. */
  predicate Occupied(k: Kennel)
  {
    k.isOccupied == Some(true)
  }

  /** The flag is explicitly `false`: the query `{ isOccupied: false }`.
      An unset flag does not match it. */
  predicate Free(k: Kennel)
  {
    k.isOccupied == Some(false)
  }

  /** The highest `kennelId` of a non-empty pool: the first result of
      `sort('-kennelId')`. */
  function HighestKennelId(ks: seq<Kennel>): (m: int)
    requires |ks| > 0
    ensures forall i :: 0 <= i < |ks| ==> ks[i].kennelId <= m
    ensures exists i :: 0 <= i < |ks| && ks[i].kennelId == m
  {
    if |ks| == 1 then ks[0].kennelId
    else
      var m := HighestKennelId(ks[..|ks| - 1]);
      if ks[|ks| - 1].kennelId > m then ks[|ks| - 1].kennelId else m
  }

  /** The id the pre-save hook hands out: highest existing id plus one, or 1
      for an empty pool. It exceeds every id in the pool. */
  function NextKennelId(ks: seq<Kennel>): (id: int)
    ensures forall i :: 0 <= i < |ks| ==> ks[i].kennelId < id
    ensures ks == [] ==> id == 1
    ensures ks != [] ==> exists i :: 0 <= i < |ks| && ks[i].kennelId == id - 1
  {
    (if |ks| == 0 then 0 else HighestKennelId(ks)) + 1
  }

  /** The pre-save hook: a kennel whose `kennelId` is unset or 0 (falsy) gets
      the next id; any other id is kept as it is. */
  function PreSaveKennelId(requested: Option<int>, ks: seq<Kennel>): (id: int)
    ensures requested.Some? && requested.value != 0 ==> id == requested.value
    ensures (requested.None? || requested == Some(0)) ==>
              forall i :: 0 <= i < |ks| ==> ks[i].kennelId < id
    ensures (requested.None? || requested == Some(0)) ==> id == NextKennelId(ks)
  {
    if requested.None? || requested.value == 0 then NextKennelId(ks) else requested.value
  }

  /** No two kennels share an id. */
  predicate DistinctIds(ks: seq<Kennel>)
  {
    forall i, j :: 0 <= i < j < |ks| ==> ks[i].kennelId != ks[j].kennelId
  }

  /** Saving kennels with automatic ids one after another keeps ids distinct,
      and each automatic id is exactly one above the previous one. */
  lemma AutoIdsIncreaseByOne(ks: seq<Kennel>, flag: Option<bool>)
    requires DistinctIds(ks)
    ensures var ks' := ks + [Kennel(NextKennelId(ks), flag)];
      DistinctIds(ks') && NextKennelId(ks') == NextKennelId(ks) + 1
  {
    var ks' := ks + [Kennel(NextKennelId(ks), flag)];
    assert ks'[..|ks'| - 1] == ks;
  }

  /** `findOne({ isOccupied: false })` from position `from` on. */
  function FirstFreeFrom(ks: seq<Kennel>, from: nat): (r: Option<nat>)
    requires from <= |ks|
    ensures r.None? <==> forall i :: from <= i < |ks| ==> !Free(ks[i])
    ensures r.Some? ==> from <= r.value < |ks| && Free(ks[r.value])
    ensures r.Some? ==> forall i :: from <= i < r.value ==> !Free(ks[i])
    decreases |ks| - from
  {
    if from == |ks| then None
    else if Free(ks[from]) then Some(from)
    else FirstFreeFrom(ks, from + 1)
  }

  /** The kennel `assignKennelToDog` picks: the first one whose flag is
      explicitly false. */
  function FirstFree(ks: seq<Kennel>): Option<nat>
  {
    FirstFreeFrom(ks, 0)
  }

  /** `findOne({ kennelId: id })` from position `from` on. */
  function FindFrom(ks: seq<Kennel>, id: int, from: nat): (r: Option<nat>)
    requires from <= |ks|
    ensures r.None? <==> forall i :: from <= i < |ks| ==> ks[i].kennelId != id
    ensures r.Some? ==> from <= r.value < |ks| && ks[r.value].kennelId == id
    ensures r.Some? ==> forall i :: from <= i < r.value ==> ks[i].kennelId != id
    decreases |ks| - from
  {
    if from == |ks| then None
    else if ks[from].kennelId == id then Some(from)
    else FindFrom(ks, id, from + 1)
  }

  /** The kennel a human-facing kennel id names: the first one holding it. */
  function FindByKennelId(ks: seq<Kennel>, id: int): Option<nat>
  {
    FindFrom(ks, id, 0)
  }

  /** The pool after kennel `i` is saved with its flag set to `flag`. The
      pre-save hook runs on this save as on any other, so a kennel whose id
      is 0 is renumbered to the next id. */
  function Resave(ks: seq<Kennel>, i: nat, flag: bool): seq<Kennel>
    requires i < |ks|
  {
    ks[i := Kennel(PreSaveKennelId(Some(ks[i].kennelId), ks), Some(flag))]
  }

  /** The pool after `kennel.isOccupied = true; kennel.save()` on kennel `i`. */
  function Occupy(ks: seq<Kennel>, i: nat): seq<Kennel>
    requires i < |ks|
  {
    Resave(ks, i, true)
  }

  /** The pool after `kennel.isOccupied = false; kennel.save()` on kennel `i`. */
  function Vacate(ks: seq<Kennel>, i: nat): seq<Kennel>
    requires i < |ks|
  {
    Resave(ks, i, false)
  }

  /** Saving a kennel's flag changes that kennel only: its flag is set, its
      id is kept unless it is 0, and an id of 0 becomes the next id, so ids
      stay distinct. */
  lemma ResaveChangesOneKennel(ks: seq<Kennel>, i: nat, flag: bool)
    requires i < |ks|
    ensures var r := Resave(ks, i, flag);
      && |r| == |ks| && r[i].isOccupied == Some(flag)
      && (forall j :: 0 <= j < |ks| && j != i ==> r[j] == ks[j])
      && (ks[i].kennelId != 0 ==> r[i].kennelId == ks[i].kennelId)
      && (ks[i].kennelId == 0 ==> r[i].kennelId == NextKennelId(ks) && r[i].kennelId > 0)
      && (DistinctIds(ks) ==> DistinctIds(r))
  {
    var r := Resave(ks, i, flag);
    if DistinctIds(ks) {
      forall a, b | 0 <= a < b < |r|
        ensures r[a].kennelId != r[b].kennelId
      {
        if a != i && b != i {
          assert r[a] == ks[a] && r[b] == ks[b];
        }
      }
    }
  }

  /** A stored id of 0 can arise: after a kennel saved with id -1, the next
      automatic id is 0. Saving that kennel again then renumbers it. */
  lemma ZeroIdIsReachable(flag: Option<bool>)
    ensures PreSaveKennelId(Some(-1), []) == -1
    ensures PreSaveKennelId(None, [Kennel(-1, flag)]) == 0
    ensures var ks := [Kennel(-1, flag), Kennel(0, flag)];
      Occupy(ks, 1)[1].kennelId == 1
  {
    var ks := [Kennel(-1, flag), Kennel(0, flag)];
    assert ks[..1] == [Kennel(-1, flag)];
  }

  /** A kennel with no flag is never handed out by `assignKennelToDog`, yet
      the initial observation accepts it as not occupied. */
  lemma UnsetFlagReadTwoWays(ks: seq<Kennel>, i: nat)
    requires i < |ks| && ks[i].isOccupied.None?
    ensures FirstFree(ks) != Some(i)
    ensures !Occupied(ks[i])
  {
  }

  class KennelPool {
    var kennels: seq<Kennel>

    constructor ()
      ensures kennels == []
    {
      kennels := [];
    }

    /** Saves a new kennel; the pre-save hook fills in an unset or zero id. */
    method Save(requested: Option<int>, isOccupied: Option<bool>) returns (ref: nat, id: int)
      modifies this
      ensures ref == |old(kennels)| && id == PreSaveKennelId(requested, old(kennels))
      ensures kennels == old(kennels) + [Kennel(id, isOccupied)]
    {
      id := if requested.Some? then requested.value else 0;
      if id == 0 {
        var highest := if |kennels| == 0 then 0 else HighestKennelId(kennels);
        id := highest + 1;
      }
      ref := |kennels|;
      kennels := kennels + [Kennel(id, isOccupied)];
    }

    /** Takes the first explicitly free kennel and marks it occupied; `None`
        when no kennel has `isOccupied == false`. The dog id plays no part. */
    method AssignKennelToDog(dogId: Id) returns (picked: Option<nat>)
      modifies this
      ensures picked == FirstFree(old(kennels))
      ensures picked.None? <==> forall i :: 0 <= i < |old(kennels)| ==> !Free(old(kennels)[i])
      ensures picked.None? ==> kennels == old(kennels)
      ensures picked.Some? ==>
                && picked.value < |old(kennels)|
                && Free(old(kennels)[picked.value])
                && kennels == Occupy(old(kennels), picked.value)
                && Occupied(kennels[picked.value])
    {
      picked := FirstFree(kennels);
      if picked.Some? {
        kennels := Occupy(kennels, picked.value);
      }
    }
  }
}
