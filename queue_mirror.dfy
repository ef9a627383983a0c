/**
 * The iOS mirror of the receiver's playback queue
 * (ios/Classes/RemoteMediaClienteMethodChannel.swift).
 *
 * The receiver reports queue membership through id-level callbacks and
 * delivers item contents separately, after a fetch. The mirror keeps the two
 * apart: `queueOrder`, the ordered item ids, and `queueItems`, the contents
 * received so far by id. Every callback that changes either re-emits the
 * ordered view, which skips ids whose contents have not arrived yet.
 */
module QueueMirror {
  import opened HostValues
  import opened SeqUtil

  /** A receiver-assigned queue item id (`UInt`). */
  type ItemId = nat

  /** A `GCKMediaQueueItem` as the mirror sees it: its id, and contents that
      the mirror stores and forwards without looking inside. */
  datatype QueueItem = QueueItem(itemID: ItemId, content: Dict)

  /** `GCKMediaPlayerIdleReason`. */
  datatype IdleReason = NoReason | Finished | Cancelled | Interrupted | Error

  // ---- The specification of the two structures and of the ordered view

  /** The ordered view: the contents of the ids of `order`, in that order,
      skipping every id that has no contents in `items`. */
  function Ordered(order: seq<ItemId>, items: map<ItemId, QueueItem>): (view: seq<QueueItem>)
    ensures |view| <= |order|
  {
    if order == [] then []
    else
      var last := order[|order| - 1];
      Ordered(order[..|order| - 1], items) + (if last in items then [items[last]] else [])
  }

  /** `order` with every occurrence of every id of `ids` deleted. */
  function Without(order: seq<ItemId>, ids: seq<ItemId>): (rest: seq<ItemId>)
    ensures |rest| <= |order|
  {
    if order == [] then []
    else
      var last := order[|order| - 1];
      Without(order[..|order| - 1], ids) + (if last in ids then [] else [last])
  }

  function IdSet(ids: seq<ItemId>): set<ItemId> {
    set id | id in ids
  }

  /** `firstIndex(of:)`. */
  function FirstIndex(s: seq<ItemId>, x: ItemId): (r: Option<nat>)
    ensures r.None? <==> x !in s
    ensures r.Some? ==> r.value < |s| && s[r.value] == x && x !in s[..r.value]
  {
    if s == [] then None
    else if s[0] == x then Some(0)
    else
      match FirstIndex(s[1..], x)
      case None => None
      case Some(i) =>
        assert s[..i + 1] == [s[0]] + s[1..][..i];
        Some(i + 1)
  }

  /** The order after inserting `ids` before the first occurrence of
      `before`, or at the end when `before` is not in the order. */
  function InsertedBefore(order: seq<ItemId>, ids: seq<ItemId>, before: ItemId): (r: seq<ItemId>)
    ensures |r| == |order| + |ids|
  {
    match FirstIndex(order, before)
    case Some(i) => order[..i] + ids + order[i..]
    case None => order + ids
  }

  /** The content table after storing each item of `batch` under its id, in
      batch order. */
  function Stored(items: map<ItemId, QueueItem>, batch: seq<QueueItem>): (r: map<ItemId, QueueItem>)
    ensures r.Keys == items.Keys + BatchIds(batch)
  {
    if batch == [] then items
    else
      var last := batch[|batch| - 1];
      assert batch == batch[..|batch| - 1] + [last];
      Stored(items, batch[..|batch| - 1])[last.itemID := last]
  }

  function BatchIds(batch: seq<QueueItem>): set<ItemId> {
    set item | item in batch :: item.itemID
  }

  // ---- The mirror

  class RemoteMediaClient {
    var queueOrder: seq<ItemId>
    var queueItems: map<ItemId, QueueItem>

    constructor ()
      ensures queueOrder == [] && queueItems == map[]
    {
      queueOrder := [];
      queueItems := map[];
    }

    /** `orderedQueueItems`: the view sent to the host after each change. */
    method OrderedQueueItems() returns (items: seq<QueueItem>)
      ensures items == Ordered(queueOrder, queueItems)
    {
      items := [];
      var i := 0;
      while i < |queueOrder|
        invariant 0 <= i <= |queueOrder|
        invariant items == Ordered(queueOrder[..i], queueItems)
      {
        var id := queueOrder[i];
        if id in queueItems {
          items := items + [queueItems[id]];
        }
        i := i + 1;
        assert queueOrder[..i][..i - 1] == queueOrder[..i - 1];
      }
      assert queueOrder[..i] == queueOrder;
    }

    /** `didReceive queueItems`: the fetched contents arrive. */
    method DidReceiveQueueItems(batch: seq<QueueItem>) returns (emitted: seq<QueueItem>)
      modifies this
      ensures queueItems == Stored(old(queueItems), batch)
      ensures queueOrder == old(queueOrder)
      ensures emitted == Ordered(queueOrder, queueItems)
    {
      var i := 0;
      while i < |batch|
        invariant 0 <= i <= |batch|
        invariant queueItems == Stored(old(queueItems), batch[..i])
        invariant queueOrder == old(queueOrder)
      {
        queueItems := queueItems[batch[i].itemID := batch[i]];
        i := i + 1;
        assert batch[..i][..i - 1] == batch[..i - 1];
      }
      assert batch[..i] == batch;
      emitted := OrderedQueueItems();
    }

    /** `didRemoveQueueItemsWithIDs`. */
    method DidRemoveQueueItems(ids: seq<ItemId>) returns (emitted: seq<QueueItem>)
      modifies this
      ensures queueOrder == Without(old(queueOrder), ids)
      ensures queueItems == old(queueItems) - IdSet(ids)
      ensures emitted == Ordered(queueOrder, queueItems)
    {
      var kept: seq<ItemId> := [];
      var i := 0;
      while i < |queueOrder|
        invariant 0 <= i <= |queueOrder|
        invariant kept == Without(queueOrder[..i], ids)
      {
        if queueOrder[i] !in ids {
          kept := kept + [queueOrder[i]];
        }
        i := i + 1;
        assert queueOrder[..i][..i - 1] == queueOrder[..i - 1];
      }
      assert queueOrder[..i] == queueOrder;
      queueOrder := kept;

      var j := 0;
      while j < |ids|
        invariant 0 <= j <= |ids|
        invariant queueOrder == Without(old(queueOrder), ids)
        invariant queueItems == old(queueItems) - IdSet(ids[..j])
      {
        queueItems := queueItems - {ids[j]};
        j := j + 1;
        assert IdSet(ids[..j]) == IdSet(ids[..j - 1]) + {ids[j - 1]} by {
          assert ids[..j] == ids[..j - 1] + [ids[j - 1]];
        }
      }
      assert ids[..j] == ids;
      emitted := OrderedQueueItems();
    }

    /** `didUpdateQueueItemsWithIDs`: only asks the receiver for the contents
        again; nothing here changes. */
    method DidUpdateQueueItems(ids: seq<ItemId>) returns (fetch: seq<ItemId>)
      ensures fetch == ids
    {
      fetch := ids;
    }

    /** `didInsertQueueItemsWithIDs … beforeItemWithID`. */
    method DidInsertQueueItems(ids: seq<ItemId>, before: ItemId) returns (fetch: seq<ItemId>)
      modifies this
      ensures queueOrder == InsertedBefore(old(queueOrder), ids, before)
      ensures queueItems == old(queueItems)
      ensures fetch == ids
    {
      var i := 0;
      while i < |queueOrder| && queueOrder[i] != before
        invariant 0 <= i <= |queueOrder|
        invariant before !in queueOrder[..i]
      {
        i := i + 1;
      }
      if i == |queueOrder| {
        assert queueOrder[..i] == queueOrder;
        queueOrder := queueOrder + ids;
      } else {
        FirstIndexIs(queueOrder, before, i);
        queueOrder := queueOrder[..i] + ids + queueOrder[i..];
      }
      fetch := ids;
    }

    /** `didReceiveQueueItemIDs`: the full id list. */
    method DidReceiveQueueItemIds(ids: seq<ItemId>) returns (fetch: seq<ItemId>)
      modifies this
      ensures queueOrder == ids
      ensures queueItems == old(queueItems)
      ensures fetch == ids
    {
      queueOrder := ids;
      fetch := ids;
    }

    /** `onSessionEnd`: both structures are emptied and the empty view sent. */
    method OnSessionEnd() returns (emitted: seq<QueueItem>)
      modifies this
      ensures queueOrder == [] && queueItems == map[]
      ensures emitted == []
    {
      queueItems := map[];
      queueOrder := [];
      emitted := OrderedQueueItems();
    }

    /** The queue side of `didUpdate mediaStatus`: a status whose idle reason
        is `finished` ends the mirrored queue as a session end does. */
    method DidUpdateMediaStatus(idleReason: Option<IdleReason>) returns (emitted: Option<seq<QueueItem>>)
      modifies this
      ensures idleReason == Some(Finished) ==> queueOrder == [] && queueItems == map[] && emitted == Some([])
      ensures idleReason != Some(Finished) ==>
                queueOrder == old(queueOrder) && queueItems == old(queueItems) && emitted == None
    {
      if idleReason == Some(Finished) {
        var view := OnSessionEnd();
        emitted := Some(view);
      } else {
        emitted := None;
      }
    }
  }

  lemma FirstIndexIs(s: seq<ItemId>, x: ItemId, i: nat)
    requires i < |s| && s[i] == x && x !in s[..i]
    ensures FirstIndex(s, x) == Some(i)
  {
    var r := FirstIndex(s, x);
    assert x in s by { assert s[i] == x; }
  }

  // ---- The ordered view

  /** The view of a concatenation is the concatenation of the views: the view
      follows `order` and nothing reorders it. */
  lemma {:induction false} OrderedConcat(a: seq<ItemId>, b: seq<ItemId>, items: map<ItemId, QueueItem>)
    ensures Ordered(a + b, items) == Ordered(a, items) + Ordered(b, items)
    decreases |b|
  {
    if b == [] {
      assert a + b == a;
    } else {
      var b' := b[..|b| - 1];
      assert (a + b)[..|a + b| - 1] == a + b';
      OrderedConcat(a, b', items);
    }
  }

  /** An item is in the view exactly when some id of the order has it as
      contents. */
  lemma {:induction false} OrderedMembership(order: seq<ItemId>, items: map<ItemId, QueueItem>, x: QueueItem)
    ensures x in Ordered(order, items) <==> exists id :: id in order && id in items && items[id] == x
  {
    if order != [] {
      var init := order[..|order| - 1];
      var last := order[|order| - 1];
      OrderedMembership(init, items, x);
      assert order == init + [last];
      if x in Ordered(order, items) && x !in Ordered(init, items) {
        assert last in order && last in items && items[last] == x;
      }
      if exists id :: id in order && id in items && items[id] == x {
        var id :| id in order && id in items && items[id] == x;
        if id != last {
          assert id in init;
        }
      }
    }
  }

  /** With every id's contents present, the view is the whole order looked
      up, position by position. */
  lemma {:induction false} OrderedComplete(order: seq<ItemId>, items: map<ItemId, QueueItem>)
    requires forall id :: id in order ==> id in items
    ensures |Ordered(order, items)| == |order|
    ensures forall k :: 0 <= k < |order| ==> Ordered(order, items)[k] == items[order[k]]
  {
    if order != [] {
      var init := order[..|order| - 1];
      assert forall id :: id in init ==> id in order;
      OrderedComplete(init, items);
    }
  }

  /** Ids whose contents have not arrived contribute nothing: with an empty
      table the view is empty whatever the order. */
  lemma {:induction false} OrderedNothingFetched(order: seq<ItemId>)
    ensures Ordered(order, map[]) == []
  {
    if order != [] {
      OrderedNothingFetched(order[..|order| - 1]);
    }
  }

  /** A full id list with nothing fetched shows nothing; once item 1 arrives
      it shows exactly that item. */
  lemma SnapshotGapExample(one: QueueItem)
    requires one.itemID == 1
    ensures Ordered([1, 2], map[]) == []
    ensures Ordered([1, 2], Stored(map[], [one])) == [one]
  {
    OrderedNothingFetched([1, 2]);
    var items := Stored(map[], [one]);
    assert items == map[1 := one];
    assert [1, 2][..1] == [1];
    assert Ordered([1], items) == [one] by {
      assert [1][..0] == [];
    }
  }

  // ---- Removal

  /** Removal deletes exactly the listed ids and keeps every other id. */
  lemma {:induction false} WithoutMembership(order: seq<ItemId>, ids: seq<ItemId>, x: ItemId)
    ensures x in Without(order, ids) <==> x in order && x !in ids
  {
    if order != [] {
      var init := order[..|order| - 1];
      WithoutMembership(init, ids, x);
      assert order == init + [order[|order| - 1]];
    }
  }

  /** The remaining ids keep their relative order. */
  lemma {:induction false} WithoutIsSubsequence(order: seq<ItemId>, ids: seq<ItemId>)
    ensures IsSubsequence(Without(order, ids), order)
  {
    if order != [] {
      var init := order[..|order| - 1];
      var last := order[|order| - 1];
      WithoutIsSubsequence(init, ids);
      assert init + [last] == order;
      if last in ids {
        assert Without(order, ids) == Without(init, ids);
        SubsequenceExtend(Without(init, ids), init, last);
      } else {
        assert Without(order, ids) == Without(init, ids) + [last];
        SubsequenceKeep(Without(init, ids), init, last);
      }
    }
  }

  /** Removing ids none of which is present changes nothing. */
  lemma {:induction false} WithoutAbsent(order: seq<ItemId>, ids: seq<ItemId>)
    requires forall id :: id in ids ==> id !in order
    ensures Without(order, ids) == order
  {
    if order != [] {
      var init := order[..|order| - 1];
      assert forall id :: id in init ==> id in order;
      WithoutAbsent(init, ids);
      assert order == init + [order[|order| - 1]];
    }
  }

  /** Applying the same removal twice leaves the state of one removal. */
  lemma RemovalIdempotent(order: seq<ItemId>, items: map<ItemId, QueueItem>, ids: seq<ItemId>)
    ensures Without(Without(order, ids), ids) == Without(order, ids)
    ensures (items - IdSet(ids)) - IdSet(ids) == items - IdSet(ids)
  {
    forall id | id in ids
      ensures id !in Without(order, ids)
    {
      WithoutMembership(order, ids, id);
    }
    WithoutAbsent(Without(order, ids), ids);
  }

  /** Removal keeps an order free of duplicates free of them. */
  lemma {:induction false} WithoutNoDuplicates(order: seq<ItemId>, ids: seq<ItemId>)
    requires NoDuplicates(order)
    ensures NoDuplicates(Without(order, ids))
  {
    if order != [] {
      var init := order[..|order| - 1];
      var last := order[|order| - 1];
      assert NoDuplicates(init);
      WithoutNoDuplicates(init, ids);
      assert last !in init;
      WithoutMembership(init, ids, last);
    }
  }

  // ---- Insertion

  /** Found anchor: the ids are spliced in, in order, at the anchor's first
      occurrence, so the anchor follows them. */
  lemma InsertAnchored(order: seq<ItemId>, ids: seq<ItemId>, before: ItemId, i: nat)
    requires i < |order| && order[i] == before && before !in order[..i]
    ensures InsertedBefore(order, ids, before) == order[..i] + ids + order[i..]
    ensures InsertedBefore(order, ids, before)[i + |ids|] == before
  {
    FirstIndexIs(order, before, i);
  }

  /** Unknown anchor: the ids are appended. */
  lemma InsertUnanchored(order: seq<ItemId>, ids: seq<ItemId>, before: ItemId)
    requires before !in order
    ensures InsertedBefore(order, ids, before) == order + ids
  {
  }

  /** Nothing is lost and nothing is deduplicated: the new order holds the old
      ids and the inserted ones, each as often as before. */
  lemma InsertedMultiset(order: seq<ItemId>, ids: seq<ItemId>, before: ItemId)
    ensures multiset(InsertedBefore(order, ids, before)) == multiset(order) + multiset(ids)
  {
    match FirstIndex(order, before)
    case Some(i) =>
      assert order == order[..i] + order[i..];
    case None =>
  }

  lemma InsertExamples()
    ensures InsertedBefore([1, 2], [3], 2) == [1, 3, 2]
    ensures InsertedBefore([1, 2], [3], 99) == [1, 2, 3]
    ensures InsertedBefore([1, 2], [1], 2) == [1, 1, 2]
  {
    InsertAnchored([1, 2], [3], 2, 1);
    InsertAnchored([1, 2], [1], 2, 1);
  }

  // ---- Received contents

  /** Each received item is stored under its id; of several with one id, the
      last in the batch wins. */
  lemma {:induction false} StoredLastWins(items: map<ItemId, QueueItem>, batch: seq<QueueItem>, k: nat)
    requires k < |batch|
    requires forall j :: k < j < |batch| ==> batch[j].itemID != batch[k].itemID
    ensures Stored(items, batch)[batch[k].itemID] == batch[k]
  {
    if k < |batch| - 1 {
      StoredLastWins(items, batch[..|batch| - 1], k);
    }
  }

  /** Ids not in the batch keep their contents. */
  lemma {:induction false} StoredElsewhereUnchanged(items: map<ItemId, QueueItem>, batch: seq<QueueItem>, id: ItemId)
    requires id in items
    requires forall j :: 0 <= j < |batch| ==> batch[j].itemID != id
    ensures Stored(items, batch)[id] == items[id]
  {
    if batch != [] {
      StoredElsewhereUnchanged(items, batch[..|batch| - 1], id);
    }
  }
}
