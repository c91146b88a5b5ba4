/**
 * The drag-to-reorder list of music documents: the `items` and `isLoading`
 * state cells, `fetchItems`, and `handleDragEnd`, which moves the dragged
 * document onto the position of the one it was dropped over, shows the new
 * order at once, and PATCHes every document with its 1-based position.
 *
 * `arrayMove` belongs to dnd-kit and is not part of this model; it is
 * modelled as removing the element at `from` and inserting it at `to`.
 * Network requests are replaced by their outcomes; the requests issued are
 * recorded in `sent`, and `listFetches` counts the list reloads.
 */
module DraggableMusicList {
  import opened Wrappers

  datatype MusicDoc = MusicDoc(id: string, description: Option<string>, videoUrl: string, order: int)

  /** One `PATCH <api>/music/<id>` with the JSON body `{ order }`. */
  datatype OrderPatch = OrderPatch(id: string, order: nat)

  /** The ids dnd-kit reports when a drag ends: `active.id` and `over?.id`. */
  datatype DragEndEvent = DragEndEvent(active: string, over: Option<string>)

  /** How one PATCH settled: `fetch` rejected, or some response arrived (of any status). */
  datatype PatchResult = PatchRejected | PatchResponded(status: nat)

  predicate Listed(items: seq<MusicDoc>, id: string) {
    exists i :: 0 <= i < |items| && items[i].id == id
  }

  /** `items.findIndex((item) => item.id === id)`: the first match, or -1. */
  function FindIndex(items: seq<MusicDoc>, id: string): (k: int)
    ensures -1 <= k < |items|
    ensures k == -1 <==> !Listed(items, id)
    ensures k >= 0 ==> items[k].id == id && forall j :: 0 <= j < k ==> items[j].id != id
  {
    if items == [] then -1
    else if items[0].id == id then 0
    else
      var k := FindIndex(items[1..], id);
      assert Listed(items, id) ==> items[0].id == id || Listed(items[1..], id) by {
        if Listed(items, id) {
          var i :| 0 <= i < |items| && items[i].id == id;
          if i > 0 { assert items[1..][i - 1].id == id; }
        }
      }
      if k == -1 then -1 else k + 1
  }

  /** The source position of the element that `ArrayMove(s, from, to)` puts at `i`. */
  function MovedFrom(from: nat, to: nat, i: nat): nat {
    if i == to then from
    else if from < to && from <= i < to then i + 1
    else if to < from && to < i <= from then i - 1
    else i
  }

  /** dnd-kit's `arrayMove(s, from, to)`, as assumed here. */
  function ArrayMove<T>(s: seq<T>, from: nat, to: nat): (r: seq<T>)
    requires from < |s| && to < |s|
    ensures |r| == |s| && r[to] == s[from]
  {
    var rest := s[..from] + s[from + 1..];
    rest[..to] + [s[from]] + rest[to..]
  }

  lemma ArrayMoveAt<T>(s: seq<T>, from: nat, to: nat, i: nat)
    requires from < |s| && to < |s| && i < |s|
    ensures MovedFrom(from, to, i) < |s|
    ensures ArrayMove(s, from, to)[i] == s[MovedFrom(from, to, i)]
  {
    var rest := s[..from] + s[from + 1..];
    assert |rest| == |s| - 1;
    assert forall j :: 0 <= j < |rest| ==> rest[j] == if j < from then s[j] else s[j + 1];
    var r := ArrayMove(s, from, to);
    assert forall j :: 0 <= j < |r| ==> r[j] == if j < to then rest[j] else if j == to then s[from] else rest[j - 1];
  }

  /** The move is a permutation: nothing is lost, duplicated or invented. */
  lemma ArrayMoveIsPermutation<T>(s: seq<T>, from: nat, to: nat)
    requires from < |s| && to < |s|
    ensures multiset(ArrayMove(s, from, to)) == multiset(s)
  {
    var rest := s[..from] + s[from + 1..];
    assert s == s[..from] + [s[from]] + s[from + 1..];
    assert rest == rest[..to] + rest[to..];
    calc {
      multiset(ArrayMove(s, from, to));
      multiset(rest[..to]) + multiset([s[from]]) + multiset(rest[to..]);
      multiset(rest) + multiset([s[from]]);
      multiset(s[..from]) + multiset(s[from + 1..]) + multiset([s[from]]);
      multiset(s);
    }
  }

  /** Moving an element onto its own position changes nothing. */
  lemma ArrayMoveStays<T>(s: seq<T>, i: nat)
    requires i < |s|
    ensures ArrayMove(s, i, i) == s
  {
    forall j | 0 <= j < |s| ensures ArrayMove(s, i, i)[j] == s[j] {
      ArrayMoveAt(s, i, i, j);
    }
  }

  function Ids(items: seq<MusicDoc>): (ids: seq<string>)
    ensures |ids| == |items| && forall i :: 0 <= i < |items| ==> ids[i] == items[i].id
  {
    seq(|items|, i requires 0 <= i < |items| => items[i].id)
  }

  /** Moving documents moves their ids the same way. */
  lemma IdsOfArrayMove(items: seq<MusicDoc>, from: nat, to: nat)
    requires from < |items| && to < |items|
    ensures Ids(ArrayMove(items, from, to)) == ArrayMove(Ids(items), from, to)
  {
    forall i | 0 <= i < |items|
      ensures Ids(ArrayMove(items, from, to))[i] == ArrayMove(Ids(items), from, to)[i]
    {
      ArrayMoveAt(items, from, to, i);
      ArrayMoveAt(Ids(items), from, to, i);
    }
  }

  /** The guard of `handleDragEnd`: `over && active.id !== over.id`. */
  predicate Moves(ev: DragEndEvent) {
    ev.over.Some? && ev.active != ev.over.value
  }

  /** The ids of a drag end are those of listed documents (dnd-kit reports only registered ids). */
  predicate FromList(items: seq<MusicDoc>, ev: DragEndEvent) {
    Listed(items, ev.active) && (ev.over.Some? ==> Listed(items, ev.over.value))
  }

  /** `arrayMove(items, oldIndex, newIndex)` with both indices found by id. */
  function Reorder(items: seq<MusicDoc>, ev: DragEndEvent): (r: seq<MusicDoc>)
    requires FromList(items, ev) && ev.over.Some?
    ensures |r| == |items|
    ensures r[FindIndex(items, ev.over.value)].id == ev.active
  {
    ArrayMove(items, FindIndex(items, ev.active), FindIndex(items, ev.over.value))
  }

  /** The reordered list holds the same documents, and the dragged one sits where the target was. */
  lemma ReorderMovesDraggedOntoTarget(items: seq<MusicDoc>, ev: DragEndEvent)
    requires FromList(items, ev) && ev.over.Some?
    ensures multiset(Reorder(items, ev)) == multiset(items)
    ensures Reorder(items, ev)[FindIndex(items, ev.over.value)].id == ev.active
  {
    ArrayMoveIsPermutation(items, FindIndex(items, ev.active), FindIndex(items, ev.over.value));
  }

  /** `reorderedItems.map((item, index) => PATCH item.id { order: index + 1 })`. */
  function Renumber(items: seq<MusicDoc>): (patches: seq<OrderPatch>)
    ensures |patches| == |items|
    ensures forall i :: 0 <= i < |items| ==> patches[i].id == items[i].id
    ensures forall i :: 0 <= i < |items| ==> patches[i].order == i + 1
  {
    seq(|items|, i requires 0 <= i < |items| => OrderPatch(items[i].id, i + 1))
  }

  function PatchIds(patches: seq<OrderPatch>): seq<string> {
    seq(|patches|, i requires 0 <= i < |patches| => patches[i].id)
  }

  function Orders(patches: seq<OrderPatch>): seq<nat> {
    seq(|patches|, i requires 0 <= i < |patches| => patches[i].order)
  }

  /** The sequence 1, 2, ..., n. */
  function OneToN(n: nat): (r: seq<nat>)
    ensures |r| == n
  {
    if n == 0 then [] else OneToN(n - 1) + [n]
  }

  lemma {:induction false} OneToNAt(n: nat, i: nat)
    requires i < n
    ensures OneToN(n)[i] == i + 1
  {
    if i < n - 1 {
      OneToNAt(n - 1, i);
    }
  }

  /** The orders sent are exactly 1, 2, ..., n in list order, hence distinct and consecutive. */
  lemma RenumberIsOneToN(items: seq<MusicDoc>)
    ensures Orders(Renumber(items)) == OneToN(|items|)
    ensures forall i, j :: 0 <= i < j < |items| ==> Renumber(items)[i].order < Renumber(items)[j].order
  {
    forall i | 0 <= i < |items| ensures Orders(Renumber(items))[i] == OneToN(|items|)[i] {
      OneToNAt(|items|, i);
    }
  }

  /** After a drag, every listed document receives exactly one PATCH, for its own id. */
  lemma OnePatchPerDocument(items: seq<MusicDoc>, ev: DragEndEvent)
    requires FromList(items, ev) && ev.over.Some?
    ensures multiset(PatchIds(Renumber(Reorder(items, ev)))) == multiset(Ids(items))
  {
    var from, to := FindIndex(items, ev.active), FindIndex(items, ev.over.value);
    assert PatchIds(Renumber(Reorder(items, ev))) == Ids(Reorder(items, ev));
    IdsOfArrayMove(items, from, to);
    ArrayMoveIsPermutation(Ids(items), from, to);
  }

  /** `Promise.all(updatePromises)` rejects: some PATCH was rejected (an error status does not count). */
  predicate AnyRejected(patches: seq<OrderPatch>, result: OrderPatch -> PatchResult) {
    exists i :: 0 <= i < |patches| && result(patches[i]).PatchRejected?
  }

  class MusicListState {
    var items: seq<MusicDoc>
    var isLoading: bool
    var sent: seq<OrderPatch>
    var listFetches: nat

    /** `useState([])`, `useState(true)`; nothing requested yet. */
    constructor ()
      ensures items == [] && isLoading && sent == [] && listFetches == 0
    {
      items, isLoading, sent, listFetches := [], true, [], 0;
    }

    /** `fetchItems` up to its request: the loading flag is raised. */
    method StartFetch()
      modifies this
      ensures isLoading && listFetches == old(listFetches) + 1
      ensures items == old(items) && sent == old(sent)
    {
      isLoading := true;
      listFetches := listFetches + 1;
    }

    /** The rest of `fetchItems`: `setItems(data.docs)` on success; `finally` lowers the flag. */
    method FinishFetch(result: Option<seq<MusicDoc>>)
      modifies this
      ensures !isLoading
      ensures items == result.GetOr(old(items))
      ensures sent == old(sent) && listFetches == old(listFetches)
    {
      if result.Some? {
        items := result.value;
      }
      isLoading := false;
    }

    /** `fetchItems`: `result` is `data.docs`, or `None` when the request or its decoding failed. */
    method FetchItems(result: Option<seq<MusicDoc>>)
      modifies this
      ensures !isLoading
      ensures items == result.GetOr(old(items))
      ensures sent == old(sent) && listFetches == old(listFetches) + 1
    {
      StartFetch();
      FinishFetch(result);
    }

    /**
     * `handleDragEnd`.  `result` says how each PATCH settles; `reload` is what
     * the refetch after a rejected update returns.
     */
    method HandleDragEnd(ev: DragEndEvent, result: OrderPatch -> PatchResult, reload: Option<seq<MusicDoc>>)
      requires FromList(items, ev)
      modifies this
      ensures !Moves(ev) ==>
                items == old(items) && sent == old(sent) &&
                isLoading == old(isLoading) && listFetches == old(listFetches)
      ensures Moves(ev) ==>
                var reordered := Reorder(old(items), ev);
                var patches := Renumber(reordered);
                && sent == old(sent) + patches
                && (AnyRejected(patches, result) ==>
                      items == reload.GetOr(reordered) && !isLoading && listFetches == old(listFetches) + 1)
                && (!AnyRejected(patches, result) ==>
                      items == reordered && isLoading == old(isLoading) && listFetches == old(listFetches))
    {
      if Moves(ev) {
        var oldIndex := FindIndex(items, ev.active);
        var newIndex := FindIndex(items, ev.over.value);
        var reordered := ArrayMove(items, oldIndex, newIndex);
        items := reordered;
        var patches := Renumber(reordered);
        sent := sent + patches;
        if AnyRejected(patches, result) {
          FetchItems(reload);
        }
      }
    }
  }
}
