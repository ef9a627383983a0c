/**
 * Android media metadata
 * (android/src/main/kotlin/com/felnanuke/google_cast/extensions/MetadataExtensions.kt).
 *
 * The parser walks the entries of the host map in the map's own iteration
 * order, which the model takes as a parameter: four date keys are read as
 * millisecond timestamps, every other entry is stored by the type of its
 * value, and the image list is parsed last.
 */
module AndroidMetadata {
  import opened HostValues

  /** The SDK's date keys the four host date keys land on. */
  datatype DateKey = ReleaseDate | BroadcastDate | CreationDate

  /** An entry stored with `putString`, `putInt` or `putDouble`. */
  datatype Field = Text(s: string) | Whole(i: Int32) | Real(d: Float)

  /** A `WebImage`: its URL as given (`Uri.parse` accepts any string), width
      and height. */
  datatype WebImage = WebImage(url: string, width: Int32, height: Int32)

  /** A `MediaMetadata`: its type, its typed entries, its dates (as the
      milliseconds the calendar was set to) and its images in order. */
  datatype Metadata = Metadata(
    metadataType: Int32,
    fields: map<string, Field>,
    dates: map<DateKey, Int64>,
    images: seq<WebImage>)

  const DEFAULT_IMAGE_SIZE: Int32 := 250

  /** The host keys read as dates; `creationDateTime` and `creationDate`
      both land on the creation date. */
  function DateKeyOf(key: string): (dk: Option<DateKey>)
    ensures dk == Some(CreationDate) <==> key == "creationDateTime" || key == "creationDate"
    ensures dk.Some? <==> key in {"releaseDate", "broadcastDate", "creationDateTime", "creationDate"}
  {
    if key == "releaseDate" then Some(ReleaseDate)
    else if key == "broadcastDate" then Some(BroadcastDate)
    else if key == "creationDateTime" || key == "creationDate" then Some(CreationDate)
    else None
  }

  /** The entry `when (item.value)` stores for a value: strings, 32-bit
      integers and doubles; every other value is ignored. */
  function FieldOf(v: Value): Option<Field> {
    match v
    case Str(s) => Some(Text(s))
    case Int(i) => Some(Whole(i))
    case Double(d) => Some(Real(d))
    case _ => None
  }

  /** One turn of the entry loop: a date key needs a `Long` value. */
  function Put(md: Metadata, key: string, value: Value): Result<Metadata> {
    match DateKeyOf(key)
    case Some(dk) =>
      var ms :- AsLong(value);
      Ok(md.(dates := md.dates[dk := ms]))
    case None =>
      match FieldOf(value)
      case Some(f) => Ok(md.(fields := md.fields[key := f]))
      case None => Ok(md)
  }

  /** The entry loop over the keys in `order`. */
  function PutAll(md: Metadata, args: Dict, order: seq<string>): Result<Metadata>
    requires forall i :: 0 <= i < |order| ==> order[i] in args
  {
    if order == [] then Ok(md)
    else
      var last := order[|order| - 1];
      var before :- PutAll(md, args, order[..|order| - 1]);
      Put(before, last, args[last])
  }

  /** `imageFromMap`: the URL is required, width and height default to
      250. */
  function ImageFromMap(args: Dict): (r: Result<WebImage>)
    ensures r.Ok? <==> Get(args, "url").Str? && AsIntOrNull(Get(args, "width")).Ok?
                       && AsIntOrNull(Get(args, "height")).Ok?
    ensures r.Ok? ==> r.value.url == Get(args, "url").s
    ensures r.Ok? && Get(args, "width") == Null ==> r.value.width == DEFAULT_IMAGE_SIZE
    ensures r.Ok? && Get(args, "height") == Null ==> r.value.height == DEFAULT_IMAGE_SIZE
    ensures r.Ok? && Get(args, "width").Int? ==> r.value.width == Get(args, "width").i
    ensures r.Ok? && Get(args, "height").Int? ==> r.value.height == Get(args, "height").i
  {
    var url :- AsString(Get(args, "url"));
    var width :- AsIntOrNull(Get(args, "width"));
    var height :- AsIntOrNull(Get(args, "height"));
    Ok(WebImage(url, width.GetOr(DEFAULT_IMAGE_SIZE), height.GetOr(DEFAULT_IMAGE_SIZE)))
  }

  /** `imagesData.map { imageFromMap(it) }`. */
  function ImagesFromMaps(items: seq<Value>): (r: Result<seq<WebImage>>)
    ensures r.Ok? <==> forall i :: 0 <= i < |items| ==> items[i].Map? && ImageFromMap(items[i].entries).Ok?
    ensures r.Ok? ==> |r.value| == |items|
                      && forall i :: 0 <= i < |items| ==> r.value[i] == ImageFromMap(items[i].entries).value
  {
    if items == [] then Ok([])
    else
      var head :- AsMap(items[0]);
      var image :- ImageFromMap(head);
      var tail :- ImagesFromMaps(items[1..]);
      Ok([image] + tail)
  }

  /** What `fromMap` returns when the entries are visited in `order`. */
  function FromMapSpec(args: Dict, order: seq<string>): (r: Result<Option<Metadata>>)
    requires forall i :: 0 <= i < |order| ==> order[i] in args
    ensures r == Ok(None) <==> args == map[]
  {
    if args == map[] then Ok(None)
    else
      var metadataType :- AsInt(Get(args, "metadataType"));
      var md :- PutAll(Metadata(metadataType, map[], map[], []), args, order);
      var imagesData :- AsListOrNull(Get(args, "images"));
      var images :- if imagesData.Some? then ImagesFromMaps(imagesData.value) else Ok([]);
      Ok(Some(md.(images := images)))
  }

  /** `GoogleCastMetadataBuilder.fromMap`; `order` is the order in which the
      map yields its entries. */
  method FromMap(args: Dict, order: seq<string>) returns (r: Result<Option<Metadata>>)
    requires forall k :: k in args <==> k in order
    ensures r == FromMapSpec(args, order)
  {
    if |args| == 0 {
      return Ok(None);
    }
    assert args != map[];
    var typeCast := AsInt(Get(args, "metadataType"));
    if typeCast.Thrown? {
      return Thrown;
    }
    var metadata := Metadata(typeCast.value, map[], map[], []);
    ghost var md0 := metadata;
    var i := 0;
    while i < |order|
      invariant 0 <= i <= |order|
      invariant PutAll(md0, args, order[..i]) == Ok(metadata)
      invariant metadata.images == []
    {
      PutAllStep(md0, args, order, i);
      var key := order[i];
      var value := args[key];
      ghost var before := metadata;
      if key == "releaseDate" || key == "broadcastDate" || key == "creationDateTime" || key == "creationDate" {
        if !value.Long? {
          PutAllThrownExtends(md0, args, order, i + 1);
          return Thrown;
        }
        var dk := if key == "releaseDate" then ReleaseDate
                  else if key == "broadcastDate" then BroadcastDate
                  else CreationDate;
        metadata := metadata.(dates := metadata.dates[dk := value.l]);
      } else {
        match value {
          case Str(s) => metadata := metadata.(fields := metadata.fields[key := Text(s)]);
          case Int(n) => metadata := metadata.(fields := metadata.fields[key := Whole(n)]);
          case Double(d) => metadata := metadata.(fields := metadata.fields[key := Real(d)]);
          case _ =>
        }
      }
      assert Put(before, key, value) == Ok(metadata);
      i := i + 1;
    }
    assert order[..i] == order;
    var imagesData := AsListOrNull(Get(args, "images"));
    if imagesData.Thrown? {
      return Thrown;
    }
    if imagesData.value.Some? {
      var images := ImagesFromMaps(imagesData.value.value);
      if images.Thrown? {
        return Thrown;
      }
      var j := 0;
      while j < |images.value|
        invariant 0 <= j <= |images.value|
        invariant metadata == PutAll(md0, args, order).value.(images := images.value[..j])
      {
        metadata := metadata.(images := metadata.images + [images.value[j]]);
        j := j + 1;
      }
      assert images.value[..j] == images.value;
    }
    r := Ok(Some(metadata));
  }

  /** The loop's next turn applies `Put` to the entry at `i`. */
  lemma PutAllStep(md: Metadata, args: Dict, order: seq<string>, i: nat)
    requires forall j :: 0 <= j < |order| ==> order[j] in args
    requires i < |order|
    ensures PutAll(md, args, order[..i + 1]) ==
              if PutAll(md, args, order[..i]).Thrown? then Thrown
              else Put(PutAll(md, args, order[..i]).value, order[i], args[order[i]])
  {
    assert order[..i + 1][..i] == order[..i];
  }

  lemma {:induction false} PutAllThrownExtends(md: Metadata, args: Dict, order: seq<string>, k: nat)
    requires forall i :: 0 <= i < |order| ==> order[i] in args
    requires k <= |order| && PutAll(md, args, order[..k]).Thrown?
    ensures PutAll(md, args, order).Thrown?
    decreases |order| - k
  {
    if k < |order| {
      assert order[..|order| - 1][..k] == order[..k];
      PutAllThrownExtends(md, args, order[..|order| - 1], k);
    } else {
      assert order[..k] == order;
    }
  }

  /** `toMap()` reads every key's type and keeps nothing: the map is always
      empty. */
  function ToMap(md: Metadata): (m: Dict)
    ensures |m| == 0
  {
    map[]
  }

  // ---- What the entry loop computes, independent of the visiting order

  /** The keys visited. */
  function Visited(order: seq<string>): set<string> {
    set k | k in order
  }

  /** The typed entries `fromMap` stores for the given keys: every key that
      is not a date key and holds a string, a 32-bit integer or a double. */
  function TypedEntries(args: Dict, keys: set<string>): map<string, Field> {
    map k | k in keys && k in args && DateKeyOf(k).None? && FieldOf(args[k]).Some? :: FieldOf(args[k]).value
  }

  /** The host key whose value ends up under a date key: the last one
      visited that lands on it. */
  function LastSource(order: seq<string>, dk: DateKey): (src: Option<string>)
    ensures src.Some? ==> src.value in order && DateKeyOf(src.value) == Some(dk)
    ensures src.None? ==> forall i :: 0 <= i < |order| ==> DateKeyOf(order[i]) != Some(dk)
  {
    if order == [] then None
    else
      var last := order[|order| - 1];
      if DateKeyOf(last) == Some(dk) then Some(last)
      else LastSource(order[..|order| - 1], dk)
  }

  /** The entry loop fails exactly when a date key holds something other
      than a `Long`. */
  lemma {:induction false} PutAllOk(md: Metadata, args: Dict, order: seq<string>)
    requires forall i :: 0 <= i < |order| ==> order[i] in args
    ensures PutAll(md, args, order).Ok? <==>
              forall i :: 0 <= i < |order| && DateKeyOf(order[i]).Some? ==> args[order[i]].Long?
  {
    if order != [] {
      var init := order[..|order| - 1];
      PutAllOk(md, args, init);
      assert forall i :: 0 <= i < |init| ==> init[i] == order[i];
    }
  }

  /** The entry loop keeps the type and the images, and adds the typed
      entries of the visited keys to the entries it started with. */
  lemma {:induction false} PutAllFields(md: Metadata, args: Dict, order: seq<string>)
    requires forall i :: 0 <= i < |order| ==> order[i] in args
    requires PutAll(md, args, order).Ok?
    ensures PutAll(md, args, order).value.metadataType == md.metadataType
    ensures PutAll(md, args, order).value.images == md.images
    ensures PutAll(md, args, order).value.fields == md.fields + TypedEntries(args, Visited(order))
  {
    if order != [] {
      var init := order[..|order| - 1];
      var last := order[|order| - 1];
      PutAllFields(md, args, init);
      assert Visited(order) == Visited(init) + {last} by {
        assert order == init + [last];
      }
      var before := PutAll(md, args, init).value;
      var after := PutAll(md, args, order).value;
      assert after == Put(before, last, args[last]).value;
      TypedEntriesStep(args, Visited(init), last);
      if DateKeyOf(last).None? && FieldOf(args[last]).Some? {
        assert after.fields == before.fields[last := FieldOf(args[last]).value];
        MergeUpdate(md.fields, TypedEntries(args, Visited(init)), last, FieldOf(args[last]).value);
      }
    }
  }

  lemma TypedEntriesStep(args: Dict, keys: set<string>, last: string)
    requires last in args
    ensures DateKeyOf(last).None? && FieldOf(args[last]).Some? ==>
              TypedEntries(args, keys + {last}) == TypedEntries(args, keys)[last := FieldOf(args[last]).value]
    ensures !(DateKeyOf(last).None? && FieldOf(args[last]).Some?) ==>
              TypedEntries(args, keys + {last}) == TypedEntries(args, keys)
  {
  }

  lemma MergeUpdate<K, V>(a: map<K, V>, b: map<K, V>, k: K, v: V)
    ensures a + b[k := v] == (a + b)[k := v]
  {
  }

  /** Each date key holds the value of the last visited host key that lands
      on it; date keys no visited key lands on keep what they held. */
  lemma {:induction false} PutAllDates(md: Metadata, args: Dict, order: seq<string>, dk: DateKey)
    requires forall i :: 0 <= i < |order| ==> order[i] in args
    requires PutAll(md, args, order).Ok?
    ensures LastSource(order, dk).Some? ==>
              dk in PutAll(md, args, order).value.dates
              && Long(PutAll(md, args, order).value.dates[dk]) == Get(args, LastSource(order, dk).value)
    ensures LastSource(order, dk).None? ==>
              (dk in PutAll(md, args, order).value.dates <==> dk in md.dates)
              && (dk in md.dates ==> PutAll(md, args, order).value.dates[dk] == md.dates[dk])
  {
    if order != [] {
      var init := order[..|order| - 1];
      PutAllDates(md, args, init, dk);
    }
  }

  // ---- An order-free reference definition

  /** A date key is absent or holds a `Long`. */
  predicate DateOk(args: Dict, key: string) {
    key !in args || args[key].Long?
  }

  predicate AllDatesOk(args: Dict) {
    DateOk(args, "releaseDate") && DateOk(args, "broadcastDate")
    && DateOk(args, "creationDateTime") && DateOk(args, "creationDate")
  }

  /** The dates of a map whose date keys all hold `Long`s; when both
      creation keys are present, `creationKey` names the one that wins. */
  function DatesOf(args: Dict, creationKey: string): (dates: map<DateKey, Int64>)
    requires AllDatesOk(args)
    requires creationKey == "creationDate" || creationKey == "creationDateTime"
    ensures ReleaseDate in dates <==> "releaseDate" in args
    ensures ReleaseDate in dates ==> Long(dates[ReleaseDate]) == args["releaseDate"]
    ensures BroadcastDate in dates <==> "broadcastDate" in args
    ensures BroadcastDate in dates ==> Long(dates[BroadcastDate]) == args["broadcastDate"]
    ensures CreationDate in dates <==> "creationDate" in args || "creationDateTime" in args
    ensures CreationDate in dates ==>
              Long(dates[CreationDate]) == Get(args, creationKey)
              || (creationKey !in args && Long(dates[CreationDate]) == Get(args, Other(creationKey)))
  {
    var release: map<DateKey, Int64> := if "releaseDate" in args then map[ReleaseDate := args["releaseDate"].l] else map[];
    var broadcast := if "broadcastDate" in args then release[BroadcastDate := args["broadcastDate"].l] else release;
    if creationKey in args then broadcast[CreationDate := args[creationKey].l]
    else if Other(creationKey) in args then broadcast[CreationDate := args[Other(creationKey)].l]
    else broadcast
  }

  function Other(creationKey: string): string {
    if creationKey == "creationDate" then "creationDateTime" else "creationDate"
  }

  /** `fromMap` described without the entry loop: an empty map gives no
      metadata; otherwise the type must be a 32-bit integer, every date key
      must hold a `Long` and the images must parse, and the metadata holds
      the typed non-date entries, the dates and the images. */
  function Parse(args: Dict, creationKey: string): (r: Result<Option<Metadata>>)
    requires creationKey == "creationDate" || creationKey == "creationDateTime"
    ensures r == Ok(None) <==> args == map[]
    ensures r.Thrown? <==>
              args != map[]
              && (!Get(args, "metadataType").Int? || !AllDatesOk(args)
                  || AsListOrNull(Get(args, "images")).Thrown?
                  || (Get(args, "images").List? && ImagesFromMaps(Get(args, "images").elems).Thrown?))
    ensures r.Ok? && r.value.Some? ==>
              Get(args, "metadataType") == Int(r.value.value.metadataType)
              && "metadataType" in r.value.value.fields
              && r.value.value.fields["metadataType"] == Whole(r.value.value.metadataType)
              && (forall k :: k in r.value.value.fields <==>
                    k in args && DateKeyOf(k).None? && FieldOf(args[k]).Some?)
              && (forall k :: k in r.value.value.fields ==> Some(r.value.value.fields[k]) == FieldOf(args[k]))
  {
    if args == map[] then Ok(None)
    else
      var metadataType :- AsInt(Get(args, "metadataType"));
      if !AllDatesOk(args) then Thrown
      else
        var imagesData :- AsListOrNull(Get(args, "images"));
        var images :- if imagesData.Some? then ImagesFromMaps(imagesData.value) else Ok([]);
        Ok(Some(Metadata(metadataType, TypedEntries(args, args.Keys), DatesOf(args, creationKey), images)))
  }

  /** The creation key that wins in a visiting order: the one visited
      last. */
  function WinningCreationKey(order: seq<string>): (key: string)
    ensures key == "creationDate" || key == "creationDateTime"
  {
    match LastSource(order, CreationDate)
    case Some(k) => k
    case None => "creationDate"
  }

  /** The entry loop computes the order-free description, with the creation
      key visited last winning. */
  lemma FromMapIsParse(args: Dict, order: seq<string>)
    requires forall k :: k in args <==> k in order
    ensures FromMapSpec(args, order) == Parse(args, WinningCreationKey(order))
  {
    if args != map[] && Get(args, "metadataType").Int? {
      var md0 := Metadata(Get(args, "metadataType").i, map[], map[], []);
      LoopOkIffDatesOk(md0, args, order);
      if AllDatesOk(args) {
        var md := PutAll(md0, args, order).value;
        PutAllFields(md0, args, order);
        assert Visited(order) == args.Keys;
        LoopDates(md0, args, order);
        assert md == Metadata(md0.metadataType, TypedEntries(args, args.Keys), DatesOf(args, WinningCreationKey(order)), []);
      }
    }
  }

  lemma LoopOkIffDatesOk(md: Metadata, args: Dict, order: seq<string>)
    requires forall k :: k in args <==> k in order
    ensures PutAll(md, args, order).Ok? <==> AllDatesOk(args)
  {
    PutAllOk(md, args, order);
    if !DateOk(args, "releaseDate") {
      BadDateThrows(md, args, order, "releaseDate");
    } else if !DateOk(args, "broadcastDate") {
      BadDateThrows(md, args, order, "broadcastDate");
    } else if !DateOk(args, "creationDateTime") {
      BadDateThrows(md, args, order, "creationDateTime");
    } else if !DateOk(args, "creationDate") {
      BadDateThrows(md, args, order, "creationDate");
    }
  }

  lemma BadDateThrows(md: Metadata, args: Dict, order: seq<string>, key: string)
    requires forall k :: k in args <==> k in order
    requires DateKeyOf(key).Some? && key in args && !args[key].Long?
    ensures PutAll(md, args, order).Thrown?
  {
    PutAllOk(md, args, order);
    var i :| 0 <= i < |order| && order[i] == key;
  }

  lemma LoopDates(md0: Metadata, args: Dict, order: seq<string>)
    requires forall k :: k in args <==> k in order
    requires md0.dates == map[] && AllDatesOk(args) && PutAll(md0, args, order).Ok?
    ensures PutAll(md0, args, order).value.dates == DatesOf(args, WinningCreationKey(order))
  {
    var md := PutAll(md0, args, order).value;
    var ck := WinningCreationKey(order);
    PutAllDates(md0, args, order, ReleaseDate);
    PutAllDates(md0, args, order, BroadcastDate);
    PutAllDates(md0, args, order, CreationDate);
    LastSourceIs(order, ReleaseDate, "releaseDate");
    LastSourceIs(order, BroadcastDate, "broadcastDate");
    var dates := DatesOf(args, ck);
    if "creationDate" in args || "creationDateTime" in args {
      assert LastSource(order, CreationDate).Some? by {
        var k := if "creationDate" in args then "creationDate" else "creationDateTime";
        var i :| 0 <= i < |order| && order[i] == k;
      }
      assert ck in args;
    } else {
      assert LastSource(order, CreationDate).None?;
    }
    forall dk ensures (dk in md.dates <==> dk in dates) && (dk in dates ==> md.dates[dk] == dates[dk]) {
      if dk == CreationDate && CreationDate in dates {
        assert Long(md.dates[dk]) == Get(args, ck);
      }
    }
    assert md.dates == dates;
  }

  /** A date key with a single host source takes its value from that
      source. */
  lemma {:induction false} LastSourceIs(order: seq<string>, dk: DateKey, key: string)
    requires DateKeyOf(key) == Some(dk)
    requires forall k :: DateKeyOf(k) == Some(dk) ==> k == key
    ensures LastSource(order, dk).Some? <==> key in order
    ensures LastSource(order, dk).Some? ==> LastSource(order, dk).value == key
  {
    if order != [] {
      LastSourceIs(order[..|order| - 1], dk, key);
      assert order == order[..|order| - 1] + [order[|order| - 1]];
    }
  }

  /** The host map's iteration order decides the creation date when both
      creation keys are present. */
  lemma CreationDateDependsOnOrder()
    ensures var args := map["metadataType" := Int(0), "creationDateTime" := Long(1), "creationDate" := Long(2)];
            var r1 := FromMapSpec(args, ["metadataType", "creationDateTime", "creationDate"]);
            var r2 := FromMapSpec(args, ["metadataType", "creationDate", "creationDateTime"]);
            r1.Ok? && r1.value.Some? && r1.value.value.dates == map[CreationDate := 2]
            && r2.Ok? && r2.value.Some? && r2.value.value.dates == map[CreationDate := 1]
  {
    var args := map["metadataType" := Int(0), "creationDateTime" := Long(1), "creationDate" := Long(2)];
    var o1 := ["metadataType", "creationDateTime", "creationDate"];
    var o2 := ["metadataType", "creationDate", "creationDateTime"];
    var md0 := Metadata(0, map[], map[], []);
    var md1 := Metadata(0, map["metadataType" := Whole(0)], map[], []);
    assert o1[..2][..1] == ["metadataType"] && o1[..2] == ["metadataType", "creationDateTime"];
    assert o2[..2][..1] == ["metadataType"] && o2[..2] == ["metadataType", "creationDate"];
    assert ["metadataType"][..0] == [];
    assert PutAll(md0, args, ["metadataType"]) == Ok(md1);
    assert PutAll(md0, args, o1[..2]) == Ok(md1.(dates := map[CreationDate := 1]));
    assert map[CreationDate := 1][CreationDate := 2] == map[CreationDate := 2];
    assert map[CreationDate := 2][CreationDate := 1] == map[CreationDate := 1];
    assert PutAll(md0, args, o1) == Ok(md1.(dates := map[CreationDate := 2]));
    assert PutAll(md0, args, o2[..2]) == Ok(md1.(dates := map[CreationDate := 2]));
    assert PutAll(md0, args, o2) == Ok(md1.(dates := map[CreationDate := 1]));
    assert Get(args, "images") == Null;
  }

  /** A date given as a 32-bit integer (a small millisecond value) fails the
      `as Long` cast. */
  lemma SmallDateThrows(args: Dict, order: seq<string>)
    requires forall k :: k in args <==> k in order
    requires "releaseDate" in args && args["releaseDate"].Int?
    ensures FromMapSpec(args, order).Thrown?
  {
    FromMapIsParse(args, order);
  }
}
