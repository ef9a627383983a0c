/**
 * Android queue items
 * (android/src/main/kotlin/com/felnanuke/google_cast/extensions/QueueItemsExtensions.kt).
 */
module AndroidQueueItem {
  import opened HostValues
  import AndroidMediaInfo

  /** A `MediaQueueItem` as the builder leaves it; an optional field is
      `None` when its setter was not called. Times are the doubles the
      32-bit integers convert to. */
  datatype QueueItem = QueueItem(
    media: AndroidMediaInfo.MediaInfo,
    activeTrackIds: seq<LongValue>,
    itemId: Option<Int32>,
    preloadTime: Option<Float>,
    playbackDuration: Option<Float>,
    customData: Option<Dict>,
    autoplay: bool)

  function OfIntOrNone(o: Option<Int32>): Option<Float> {
    if o.Some? then Some(OfInt(o.value)) else None
  }

  /** `GoogleCastQueueItemBuilder.fromMap`. The `media` entry is required;
      the declared result is nullable, but the media parser never yields
      null, so a result that does not throw is always an item. */
  function FromMap(m: Dict, dateTimeLast: AndroidMediaInfo.CreationOrder): (r: Result<Option<QueueItem>>)
    ensures r != Ok(None)
    ensures !Get(m, "media").Map? ==> r.Thrown?
    ensures r.Ok? ==> AndroidMediaInfo.FromMap(Get(m, "media").entries, dateTimeLast) == Ok(Some(r.value.value.media))
    ensures r.Ok? ==> r.value.value.autoplay == (Get(m, "autoPlay") != Bool(false))
    ensures r.Ok? && Get(m, "activeTrackIds") == Null ==> r.value.value.activeTrackIds == []
    ensures r.Ok? && Get(m, "activeTrackIds").List? ==>
              NumbersToLongs(Get(m, "activeTrackIds").elems) == Ok(r.value.value.activeTrackIds)
    ensures r.Ok? ==> (r.value.value.itemId.None? <==> Get(m, "itemId") == Null)
                      && (r.value.value.itemId.Some? ==> Get(m, "itemId") == Int(r.value.value.itemId.value))
    ensures r.Ok? && Get(m, "startTime").Int? ==> r.value.value.preloadTime == Some(OfInt(Get(m, "startTime").i))
    ensures r.Ok? && Get(m, "startTime") == Null && Get(m, "preloadTime").Int? ==>
              r.value.value.preloadTime == Some(OfInt(Get(m, "preloadTime").i))
    ensures r.Ok? ==> (r.value.value.preloadTime.None? <==> Get(m, "startTime") == Null && Get(m, "preloadTime") == Null)
    ensures r.Ok? ==> (r.value.value.playbackDuration.None? <==> Get(m, "playbackDuration") == Null)
    ensures r.Ok? && Get(m, "playbackDuration").Int? ==>
              r.value.value.playbackDuration == Some(OfInt(Get(m, "playbackDuration").i))
    ensures r.Ok? ==> (r.value.value.customData.None? <==> Get(m, "customData") == Null)
    ensures r.Ok? && Get(m, "customData").Map? ==> r.value.value.customData == Some(Get(m, "customData").entries)
  {
    var activeTrackIdsData :- AsListOrNull(Get(m, "activeTrackIds"));
    var activeTrackIds :- NumbersToLongs(activeTrackIdsData.GetOr([]));
    var startTime :- AsIntOrNull(Get(m, "startTime"));
    var id :- AsIntOrNull(Get(m, "itemId"));
    var preloadTime :- AsIntOrNull(Get(m, "preloadTime"));
    var playbackDuration :- AsIntOrNull(Get(m, "playbackDuration"));
    var customData :- AsMapOrNull(Get(m, "customData"));
    var autoPlay :- AsBooleanOrNull(Get(m, "autoPlay"));
    var mediaData :- AsMap(Get(m, "media"));
    var mediaInfo :- AndroidMediaInfo.FromMap(mediaData, dateTimeLast);
    if mediaInfo.None? then Ok(None)
    else
      Ok(Some(QueueItem(
        mediaInfo.value,
        activeTrackIds,
        id,
        if startTime.Some? then OfIntOrNone(startTime) else OfIntOrNone(preloadTime),
        OfIntOrNone(playbackDuration),
        customData,
        autoPlay.GetOr(true))))
  }

  /** One element of the list, used as a map and parsed. */
  function ParseItem(v: Value, dateTimeLast: AndroidMediaInfo.CreationOrder): (r: Result<Option<QueueItem>>)
    ensures r != Ok(None)
    ensures r.Ok? ==> v.Map?
  {
    var item :- AsMap(v);
    FromMap(item, dateTimeLast)
  }

  /** The element parser `listFromMap` applies. */
  function ItemParser(dateTimeLast: AndroidMediaInfo.CreationOrder): Value -> Result<Option<QueueItem>> {
    v => ParseItem(v, dateTimeLast)
  }

  /** The loop of `listFromMap` over any element parser: the parsed items in
      order, null results left out; the first element that throws makes the
      whole list throw. */
  function Collect(items: seq<Value>, parse: Value -> Result<Option<QueueItem>>): (r: Result<seq<QueueItem>>)
    ensures r.Ok? ==> |r.value| <= |items|
  {
    if items == [] then Ok([])
    else
      var before :- Collect(items[..|items| - 1], parse);
      var queueItem :- parse(items[|items| - 1]);
      Ok(before + if queueItem.Some? then [queueItem.value] else [])
  }

  /** What `listFromMap` returns. */
  function ListFromMapSpec(items: seq<Value>, dateTimeLast: AndroidMediaInfo.CreationOrder): (r: Result<seq<QueueItem>>)
    ensures r.Ok? ==> |r.value| <= |items|
  {
    Collect(items, ItemParser(dateTimeLast))
  }

  /** `listFromMap`. */
  method ListFromMap(items: seq<Value>, dateTimeLast: AndroidMediaInfo.CreationOrder) returns (r: Result<seq<QueueItem>>)
    ensures r == ListFromMapSpec(items, dateTimeLast)
  {
    var list: seq<QueueItem> := [];
    var i := 0;
    while i < |items|
      invariant 0 <= i <= |items|
      invariant Collect(items[..i], ItemParser(dateTimeLast)) == Ok(list)
    {
      assert items[..i + 1][..i] == items[..i];
      if !items[i].Map? {
        CollectThrownExtends(items, ItemParser(dateTimeLast), i + 1);
        return Thrown;
      }
      var queueItem := FromMap(items[i].entries, dateTimeLast);
      assert queueItem == ItemParser(dateTimeLast)(items[i]);
      if queueItem.Thrown? {
        CollectThrownExtends(items, ItemParser(dateTimeLast), i + 1);
        return Thrown;
      }
      if queueItem.value.Some? {
        list := list + [queueItem.value.value];
      }
      i := i + 1;
    }
    assert items[..i] == items;
    r := Ok(list);
  }

  lemma {:induction false} CollectThrownExtends(items: seq<Value>, parse: Value -> Result<Option<QueueItem>>, k: nat)
    requires k <= |items| && Collect(items[..k], parse).Thrown?
    ensures Collect(items, parse).Thrown?
    decreases |items| - k
  {
    if k < |items| {
      assert items[..|items| - 1][..k] == items[..k];
      CollectThrownExtends(items[..|items| - 1], parse, k);
    } else {
      assert items[..k] == items;
    }
  }

  lemma {:induction false} CollectThrowsIff(items: seq<Value>, parse: Value -> Result<Option<QueueItem>>)
    ensures Collect(items, parse).Ok? <==> forall i :: 0 <= i < |items| ==> parse(items[i]).Ok?
  {
    if items != [] {
      var init := items[..|items| - 1];
      CollectThrowsIff(init, parse);
      assert forall i :: 0 <= i < |init| ==> init[i] == items[i];
    }
  }

  lemma {:induction false} CollectKeepsAll(items: seq<Value>, parse: Value -> Result<Option<QueueItem>>)
    requires forall v :: parse(v) != Ok(None)
    requires Collect(items, parse).Ok?
    ensures |Collect(items, parse).value| == |items|
    ensures forall i :: 0 <= i < |items| ==> parse(items[i]) == Ok(Some(Collect(items, parse).value[i]))
  {
    if items != [] {
      var init := items[..|items| - 1];
      var last := items[|items| - 1];
      CollectKeepsAll(init, parse);
      var before := Collect(init, parse).value;
      var q := parse(last).value.value;
      assert Collect(items, parse).value == before + [q];
      forall i | 0 <= i < |items|
        ensures parse(items[i]) == Ok(Some(Collect(items, parse).value[i]))
      {
        if i < |init| {
          assert items[i] == init[i];
        }
      }
    }
  }

  /** A list throws exactly when one of its elements is not a map or does
      not parse. */
  lemma ListThrowsIff(items: seq<Value>, dateTimeLast: AndroidMediaInfo.CreationOrder)
    ensures ListFromMapSpec(items, dateTimeLast).Ok? <==>
              forall i :: 0 <= i < |items| ==> ParseItem(items[i], dateTimeLast).Ok?
  {
    CollectThrowsIff(items, ItemParser(dateTimeLast));
  }

  /** Since no element parses to null, a list that does not throw keeps
      every element, in input order. */
  lemma ListKeepsEveryItem(items: seq<Value>, dateTimeLast: AndroidMediaInfo.CreationOrder)
    requires ListFromMapSpec(items, dateTimeLast).Ok?
    ensures |ListFromMapSpec(items, dateTimeLast).value| == |items|
    ensures forall i :: 0 <= i < |items| ==>
              ParseItem(items[i], dateTimeLast) == Ok(Some(ListFromMapSpec(items, dateTimeLast).value[i]))
  {
    CollectKeepsAll(items, ItemParser(dateTimeLast));
  }

  /** `startTime` wins over `preloadTime` when both are given. */
  lemma StartTimeOverridesPreload(m: Dict, dateTimeLast: AndroidMediaInfo.CreationOrder)
    requires FromMap(m, dateTimeLast).Ok?
    requires Get(m, "startTime").Int? && Get(m, "preloadTime").Int?
    ensures FromMap(m, dateTimeLast).value.value.preloadTime == Some(OfInt(Get(m, "startTime").i))
    ensures Get(m, "startTime") != Get(m, "preloadTime") ==>
              FromMap(m, dateTimeLast).value.value.preloadTime != Some(OfInt(Get(m, "preloadTime").i))
  {
  }
}
