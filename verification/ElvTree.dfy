// The sector-sorted request tree of the I/O schedulers (elv_rb_add, elv_rb_del, elv_rb_find
// in block/elevator.c) as its in-order sequence, and the lists beside it.
module ElvTree {
  import opened Collections

  // The fields of struct request the schedulers use; cfqq is the CFQ queue it belongs to.
  datatype Rq = Rq(write: bool, sync: bool, meta: bool, cfqq: nat, sector: nat, end: nat, start: nat, deadline: int)

  // ------------------------------------------------------- lists

  function Index(list: seq<nat>, id: nat): (i: nat)
    requires id in list
    ensures i < |list| && list[i] == id
  {
    if list[0] == id then 0 else 1 + Index(list[1..], id)
  }

  function Remove(list: seq<nat>, id: nat): seq<nat>
    requires id in list
  {
    list[..Index(list, id)] + list[Index(list, id) + 1..]
  }

  // list_move behind a neighbour
  function InsertAfter(list: seq<nat>, place: nat, id: nat): seq<nat>
    requires place in list
  {
    InsertAt(list, Index(list, place) + 1, id)
  }

  // rb_next
  function Latter(sort: seq<nat>, id: nat): Option<nat>
    requires id in sort
  {
    var i := Index(sort, id);
    if i + 1 < |sort| then Some(sort[i + 1]) else None
  }

  ghost predicate Known(rqs: map<nat, Rq>, list: seq<nat>) { forall i :: i in list ==> i in rqs }

  // Where the descent of elv_rb_add ends: at the first request that does not lie below.
  function Place(rqs: map<nat, Rq>, sort: seq<nat>, sector: nat): (p: nat)
    requires Known(rqs, sort)
    ensures p <= |sort|
  {
    if sort == [] || sector <= rqs[sort[0]].sector then 0 else 1 + Place(rqs, sort[1..], sector)
  }

  // elv_rb_add finds a request of the same sector
  function Alias(rqs: map<nat, Rq>, sort: seq<nat>, sector: nat): (r: Option<nat>)
    requires Known(rqs, sort)
    ensures r.Some? ==> r.value in sort && rqs[r.value].sector == sector
  {
    var p := Place(rqs, sort, sector);
    if p < |sort| && rqs[sort[p]].sector == sector then Some(sort[p]) else None
  }

  function RbAdd(rqs: map<nat, Rq>, sort: seq<nat>, id: nat): seq<nat>
    requires Known(rqs, sort) && id in rqs
  {
    InsertAt(sort, Place(rqs, sort, rqs[id].sector), id)
  }

  ghost predicate SectorSorted(rqs: map<nat, Rq>, list: seq<nat>)
    requires Known(rqs, list)
  {
    forall i, j :: 0 <= i < j < |list| ==> rqs[list[i]].sector < rqs[list[j]].sector
  }

  // ------------------------------------------------------- facts about lists

  lemma RemoveAt(list: seq<nat>, id: nat)
    requires id in list
    ensures var i, less := Index(list, id), Remove(list, id);
            && |less| == |list| - 1
            && (forall k :: 0 <= k < i ==> less[k] == list[k]) && (forall k :: i <= k < |less| ==> less[k] == list[k + 1])
  {
  }

  lemma InsertAtIndex(list: seq<nat>, p: nat, id: nat)
    requires p <= |list|
    ensures var more := InsertAt(list, p, id);
            |more| == |list| + 1 && more[p] == id
            && (forall k :: 0 <= k < p ==> more[k] == list[k]) && (forall k :: p < k < |more| ==> more[k] == list[k - 1])
    ensures forall x :: x in InsertAt(list, p, id) <==> x in list || x == id
  {
    assert list == list[..p] + list[p..];
  }

  lemma {:induction false} PlaceSplits(rqs: map<nat, Rq>, sort: seq<nat>, sector: nat)
    requires Known(rqs, sort)
    ensures var p := Place(rqs, sort, sector);
            (forall j :: 0 <= j < p ==> rqs[sort[j]].sector < sector) && (p < |sort| ==> sector <= rqs[sort[p]].sector)
    decreases |sort|
  {
    if sort != [] && rqs[sort[0]].sector < sector {
      PlaceSplits(rqs, sort[1..], sector);
      forall j | 0 < j < Place(rqs, sort, sector) ensures rqs[sort[j]].sector < sector { assert sort[j] == sort[1..][j - 1]; }
    }
  }

  lemma RemoveDistinct(list: seq<nat>, id: nat)
    requires id in list && Distinct(list)
    ensures Distinct(Remove(list, id)) && id !in Remove(list, id)
    ensures forall x :: x in Remove(list, id) <==> x in list && x != id
  {
  }

  lemma RemoveKeeps(list: seq<nat>, id: nat, x: nat)
    requires id in list && x in list && x != id
    ensures x in Remove(list, id)
  {
    assert list == list[..Index(list, id)] + [id] + list[Index(list, id) + 1..];
  }

  lemma SortedDistinct(rqs: map<nat, Rq>, list: seq<nat>)
    requires Known(rqs, list) && SectorSorted(rqs, list)
    ensures Distinct(list)
  {
  }

  lemma InsertAfterKeeps(list: seq<nat>, place: nat, id: nat)
    requires place in list
    ensures place in InsertAfter(list, place, id)
  {
    InsertAtIndex(list, Index(list, place) + 1, id);
  }

  lemma LatterRemains(list: seq<nat>, id: nat)
    requires id in list && Distinct(list)
    ensures Latter(list, id).Some? ==> Latter(list, id).value in Remove(list, id) && Latter(list, id).value != id
  {
    RemoveDistinct(list, id);
  }

  lemma NoAlias(rqs: map<nat, Rq>, sort: seq<nat>, sector: nat)
    requires Known(rqs, sort) && SectorSorted(rqs, sort) && Alias(rqs, sort, sector).None?
    ensures forall i :: i in sort ==> rqs[i].sector != sector
  {
    var p := Place(rqs, sort, sector);
    PlaceSplits(rqs, sort, sector);
    forall k | 0 <= k < |sort| ensures rqs[sort[k]].sector != sector {}
  }

  lemma OnlyAlias(rqs: map<nat, Rq>, sort: seq<nat>, id: nat)
    requires Known(rqs, sort) && SectorSorted(rqs, sort) && id in sort
    ensures forall i :: i in sort && i != id ==> rqs[i].sector != rqs[id].sector
  {
    forall k | 0 <= k < |sort| && sort[k] != id ensures rqs[sort[k]].sector != rqs[id].sector {
      var j := Index(sort, id);
    }
  }

  lemma RbAddSorted(rqs: map<nat, Rq>, sort: seq<nat>, id: nat)
    requires Known(rqs, sort) && SectorSorted(rqs, sort) && id in rqs
    requires forall i :: i in sort ==> rqs[i].sector != rqs[id].sector
    ensures var more := RbAdd(rqs, sort, id);
            (forall i :: i in more <==> i in sort || i == id) && SectorSorted(rqs, more)
  {
    var p := Place(rqs, sort, rqs[id].sector);
    PlaceSplits(rqs, sort, rqs[id].sector);
    assert forall k :: p <= k < |sort| ==> rqs[sort[k]].sector > rqs[id].sector;
    InsertSorted(rqs, sort, p, id);
    hide InsertAt, Place, SectorSorted;
  }

  lemma InsertSorted(rqs: map<nat, Rq>, sort: seq<nat>, p: nat, id: nat)
    requires Known(rqs, sort) && SectorSorted(rqs, sort) && id in rqs && p <= |sort|
    requires forall k :: 0 <= k < p ==> rqs[sort[k]].sector < rqs[id].sector
    requires forall k :: p <= k < |sort| ==> rqs[sort[k]].sector > rqs[id].sector
    ensures Known(rqs, InsertAt(sort, p, id)) && SectorSorted(rqs, InsertAt(sort, p, id))
  {
    InsertAtIndex(sort, p, id);
    hide InsertAt;
  }

  lemma InsertDistinct(list: seq<nat>, p: nat, id: nat)
    requires Distinct(list) && id !in list && p <= |list|
    ensures Distinct(InsertAt(list, p, id))
  {
    InsertAtIndex(list, p, id);
    hide InsertAt;
  }

  lemma {:induction false} DistinctSize(list: seq<nat>) returns (ids: set<nat>)
    requires Distinct(list)
    ensures |ids| == |list| && forall i :: i in ids <==> i in list
    decreases |list|
  {
    if list == [] { ids := {}; } else {
      var less := list[..|list| - 1];
      ids := DistinctSize(less);
      assert list == less + [list[|list| - 1]];
      ids := ids + {list[|list| - 1]};
    }
  }
}
