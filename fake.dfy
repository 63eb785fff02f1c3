/**
 * The pure parts of `sourcegraphFake`, the test double that serves index
 * options from repositories on local disk (cmd/zoekt-sourcegraph-indexserver/sg.go):
 * assembling one result slot per requested id, and `fakeID`.
 *
 * The directory walk is given as its outcome: the repositories it visits,
 * in walk order, each with its id and the outcome of reading its options,
 * or the error that stopped the walk.
 */
module Fake {
  import opened GoInts
  import opened Wrappers
  import opened Config

  /**
   * One repository the walk visits: its id and the options read for it, or
   * why they could not be. In the fake, `getIndexOptions` sets the options'
   * repository id to the same `id(name)` the walk looks up (sg.go:951), which
   * is never 0. The model does not require this, so it also covers visits
   * whose options carry another id.
   */
  datatype Visit = Visit(id: Uint32, outcome: Result<IndexOptions>)

  /** The error recorded for a requested id no visited repository answered. */
  const NotFound: string := "not found"

  /** The zero `indexOptionsItem` every slot starts as. */
  const EmptyItem: IndexOptionsItem := IndexOptionsItem(ZeroIndexOptions, "")

  /** The slot for a visited repository: its options, or only the error. */
  function ItemOf(outcome: Result<IndexOptions>): (item: IndexOptionsItem)
    ensures outcome.Failure? ==> item.error == outcome.error && item.options == ZeroIndexOptions
    ensures outcome.Success? ==> item.error == "" && item.options == outcome.value
  {
    match outcome
    case Success(o) => IndexOptionsItem(o, "")
    case Failure(e) => IndexOptionsItem(ZeroIndexOptions, e)
  }

  /** `reposIdx`: each requested id mapped to the last position it is requested at. */
  function LastIndex(repos: seq<Uint32>): (idx: map<Uint32, nat>)
    ensures forall id :: id in idx <==> id in repos
    ensures forall id :: id in idx ==> idx[id] < |repos| && repos[idx[id]] == id
    ensures forall j :: 0 <= j < |repos| ==> j <= idx[repos[j]]
  {
    if repos == [] then map[]
    else
      var n := |repos| - 1;
      LastIndex(repos[..n])[repos[n] := n]
  }

  /** The slots after the visits, in walk order: each visit of a requested id overwrites that id's slot. */
  function Fill(slots: seq<IndexOptionsItem>, idx: map<Uint32, nat>, visits: seq<Visit>): (r: seq<IndexOptionsItem>)
    ensures |r| == |slots|
    ensures forall j :: 0 <= j < |slots| && (forall k :: 0 <= k < |visits| && visits[k].id in idx ==> idx[visits[k].id] != j) ==>
      r[j] == slots[j]
    ensures forall j :: 0 <= j < |slots| ==>
      r[j] == slots[j] || exists k :: 0 <= k < |visits| && r[j] == ItemOf(visits[k].outcome)
  {
    if visits == [] then slots
    else
      var n := |visits| - 1;
      var before := Fill(slots, idx, visits[..n]);
      var v := visits[n];
      if v.id in idx && idx[v.id] < |before| then before[idx[v.id] := ItemOf(v.outcome)] else before
  }

  /** The last visit whose id is mapped to slot `j`, if any. */
  function LastVisitFor(idx: map<Uint32, nat>, visits: seq<Visit>, j: nat): (r: Option<Visit>)
    ensures r.Some? ==> r.value in visits && r.value.id in idx && idx[r.value.id] == j
    ensures r.None? ==> forall k :: 0 <= k < |visits| && visits[k].id in idx ==> idx[visits[k].id] != j
  {
    if visits == [] then None
    else
      var n := |visits| - 1;
      var v := visits[n];
      if v.id in idx && idx[v.id] == j then Some(v) else LastVisitFor(idx, visits[..n], j)
  }

  /** The visit `LastVisitFor` finds is the last one aimed at slot `j`: no later visit aims there. */
  lemma {:induction false} LastVisitForIsLast(idx: map<Uint32, nat>, visits: seq<Visit>, j: nat)
    requires LastVisitFor(idx, visits, j).Some?
    ensures exists k :: (0 <= k < |visits| && visits[k] == LastVisitFor(idx, visits, j).value &&
                         forall k' :: k < k' < |visits| && visits[k'].id in idx ==> idx[visits[k'].id] != j)
  {
    var n := |visits| - 1;
    var v := visits[n];
    if v.id in idx && idx[v.id] == j {
      assert visits[n] == LastVisitFor(idx, visits, j).value;
    } else {
      var pre := visits[..n];
      LastVisitForIsLast(idx, pre, j);
      var k :| 0 <= k < |pre| && pre[k] == LastVisitFor(idx, pre, j).value &&
               forall k' :: k < k' < |pre| && pre[k'].id in idx ==> idx[pre[k'].id] != j;
      assert visits[k] == LastVisitFor(idx, visits, j).value;
      forall k' | k < k' < |visits| && visits[k'].id in idx
        ensures idx[visits[k'].id] != j
      {
        if k' < n {
          assert visits[k'] == pre[k'];
        }
      }
    }
  }

  /** A slot holds what the last visit aimed at it read, and is untouched if no visit aimed at it. */
  lemma {:induction false} FillSlot(slots: seq<IndexOptionsItem>, idx: map<Uint32, nat>, visits: seq<Visit>, j: nat)
    requires j < |slots|
    ensures Fill(slots, idx, visits)[j] ==
      match LastVisitFor(idx, visits, j)
      case None => slots[j]
      case Some(v) => ItemOf(v.outcome)
  {
    if visits != [] {
      FillSlot(slots, idx, visits[..|visits| - 1], j);
    }
  }

  /** The final pass: a slot with neither an error nor a repository id gets `"not found"`. */
  function MarkNotFound(item: IndexOptionsItem): (r: IndexOptionsItem)
    ensures r.error != "" || r.options.repoID != 0
    ensures item.error != "" || item.options.repoID != 0 ==> r == item
    ensures r.options == item.options
  {
    if item.error == "" && item.options.repoID == 0 then item.(error := NotFound) else item
  }

  /** The items `GetIndexOptions` answers with when the walk succeeds. */
  function FakeItems(repos: seq<Uint32>, visits: seq<Visit>): (items: seq<IndexOptionsItem>)
    ensures |items| == |repos|
    ensures forall j :: 0 <= j < |items| ==> items[j].error != "" || items[j].options.repoID != 0
  {
    var filled := Fill(seq(|repos|, _ => EmptyItem), LastIndex(repos), visits);
    seq(|repos|, j requires 0 <= j < |repos| => MarkNotFound(filled[j]))
  }

  /** An id requested again later: the earlier position is never filled, so it reports "not found". */
  lemma {:induction false} DuplicateKeepsOnlyLast(repos: seq<Uint32>, visits: seq<Visit>, j: nat, k: nat)
    requires j < k < |repos| && repos[j] == repos[k]
    ensures FakeItems(repos, visits)[j] == IndexOptionsItem(ZeroIndexOptions, NotFound)
  {
    var idx := LastIndex(repos);
    FillSlot(seq(|repos|, _ => EmptyItem), idx, visits, j);
    assert LastVisitFor(idx, visits, j).None?;
  }

  /**
   * The slot at the last position of an id holds what the last visit of
   * that id read (marked "not found" if it carries neither an error nor an
   * id), or "not found" if the walk never visits the id.
   */
  lemma {:induction false} LastPositionFilled(repos: seq<Uint32>, visits: seq<Visit>, j: nat)
    requires j < |repos| && LastIndex(repos)[repos[j]] == j
    ensures LastVisitFor(LastIndex(repos), visits, j).None? ==>
      FakeItems(repos, visits)[j] == IndexOptionsItem(ZeroIndexOptions, NotFound)
    ensures LastVisitFor(LastIndex(repos), visits, j).Some? ==>
      LastVisitFor(LastIndex(repos), visits, j).value.id == repos[j] &&
      FakeItems(repos, visits)[j] == MarkNotFound(ItemOf(LastVisitFor(LastIndex(repos), visits, j).value.outcome))
  {
    FillSlot(seq(|repos|, _ => EmptyItem), LastIndex(repos), visits, j);
  }

  /** `reposIdx`, built by one pass over the requested ids. */
  method IndexPositions(repos: seq<Uint32>) returns (reposIdx: map<Uint32, nat>)
    ensures reposIdx == LastIndex(repos)
  {
    reposIdx := map[];
    for i := 0 to |repos|
      invariant reposIdx == LastIndex(repos[..i])
    {
      assert repos[..i + 1][..i] == repos[..i];
      reposIdx := reposIdx[repos[i] := i];
    }
    assert repos[..|repos|] == repos;
  }

  /** The walk's visit callback, applied to each visit in turn. */
  method ApplyVisits(items: array<IndexOptionsItem>, reposIdx: map<Uint32, nat>, visits: seq<Visit>)
    modifies items
    ensures items[..] == Fill(old(items[..]), reposIdx, visits)
  {
    ghost var initial := items[..];
    for k := 0 to |visits|
      invariant items[..] == Fill(initial, reposIdx, visits[..k])
    {
      assert visits[..k + 1][..k] == visits[..k];
      var v := visits[k];
      if v.id in reposIdx && reposIdx[v.id] < items.Length {
        items[reposIdx[v.id]] := ItemOf(v.outcome);
      }
    }
    assert visits[..|visits|] == visits;
  }

  /** The final loop over the slots. */
  method MarkMissing(items: array<IndexOptionsItem>)
    modifies items
    ensures items[..] == seq(items.Length, j requires 0 <= j < items.Length => MarkNotFound(old(items[j])))
  {
    ghost var filled := items[..];
    for i := 0 to items.Length
      invariant forall j :: 0 <= j < i ==> items[j] == MarkNotFound(filled[j])
      invariant forall j :: i <= j < items.Length ==> items[j] == filled[j]
    {
      if items[i].error == "" && items[i].options.repoID == 0 {
        items[i] := items[i].(error := NotFound);
      }
    }
  }

  /**
   * `sourcegraphFake.GetIndexOptions`: a slot per requested position,
   * filled in place while the walk visits repositories, then the empty
   * slots marked "not found". A failed walk yields only its error.
   */
  method GetIndexOptions(repos: seq<Uint32>, walk: Result<seq<Visit>>) returns (r: Result<seq<IndexOptionsItem>>)
    ensures walk.Failure? ==> r == Failure(walk.error)
    ensures walk.Success? ==> r == Success(FakeItems(repos, walk.value))
  {
    var reposIdx := IndexPositions(repos);
    var items := new IndexOptionsItem[|repos|](_ => EmptyItem);
    assert items[..] == seq(|repos|, _ => EmptyItem);
    if walk.Failure? {
      return Failure(walk.error);
    }
    ApplyVisits(items, reposIdx, walk.value);
    ghost var filled := items[..];
    assert filled == Fill(seq(|repos|, _ => EmptyItem), LastIndex(repos), walk.value);
    MarkMissing(items);
    assert items[..] == seq(|repos|, j requires 0 <= j < |repos| => MarkNotFound(filled[j]));
    return Success(items[..]);
  }

  /**
   * `fakeID`: the IEEE CRC-32 of the name, reduced modulo 2^31 - 1 and
   * shifted up by one, so that it is never 0 and stays positive when read
   * as an `int32`.
   */
  function FakeID(checksum: Uint32): (id: Uint32)
    ensures 1 <= id <= 0x7FFF_FFFF
    ensures Int32FromUint32(id) > 0
    ensures id == checksum % 0x7FFF_FFFF + 1
  {
    checksum % 0x7FFF_FFFF + 1
  }
}
