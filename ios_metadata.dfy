/**
 * iOS media metadata
 * (ios/flutter_chrome_cast/Sources/flutter_chrome_cast/Extensions/MediaMetatadaExtensions.swift).
 *
 * `fromMap` guards on the metadata type, strips the type and image entries
 * from a copy of the dictionary, adds the images, then stores every other
 * entry by its value's type; three keys are also stored as dates.
 * `toMap` reads a fixed set of SDK keys back out.
 */
module IosMetadata {
  import opened HostValues

  /** A value stored with `setString`, `setInteger` or `setDouble`. */
  datatype Field = Text(s: string) | Whole(n: Int64) | Real(d: Float)

  /** The SDK's three date keys the parser fills. */
  datatype DateKey = BroadcastDate | ReleaseDate | CreationDate

  /** A `GCKImage`: the URL string that parsed, width and height. */
  datatype Image = Image(url: string, width: Int64, height: Int64)

  /** A `GCKMediaMetadata`: its type (the raw value of an imported C
      enumeration), images in the order added, the entries stored by host
      key, and the dates, each kept as the seconds value the parser
      computed. */
  datatype Metadata = Metadata(
    metadataType: Int64,
    images: seq<Image>,
    fields: map<string, Field>,
    dates: map<DateKey, Float>)

  /** The host key whose numeric value also becomes a date. */
  function DateName(k: DateKey): string {
    match k
    case BroadcastDate => "broadcastDate"
    case ReleaseDate => "releaseDate"
    case CreationDate => "creationDate"
  }

  /** The `switch mapValue.key` of the date branch. */
  function DateKeyOf(key: string): (k: Option<DateKey>)
    ensures k.Some? ==> DateName(k.value) == key
    ensures forall dk :: DateName(dk) == key ==> k == Some(dk)
  {
    match key
    case "broadcastDate" => Some(BroadcastDate)
    case "releaseDate" => Some(ReleaseDate)
    case "creationDate" => Some(CreationDate)
    case _ => None
  }

  /** The typed `switch` over an entry's value: a string, else an `Int`,
      else a `Double`; anything else is not stored. */
  function FieldOf(v: Value): (f: Option<Field>)
    ensures v.Str? ==> f == Some(Text(v.s))
    ensures !v.Str? && SwiftInt(v).Some? ==> f == Some(Whole(SwiftInt(v).value))
    ensures !v.Str? && SwiftInt(v).None? && SwiftDouble(v).Some? ==> f == Some(Real(SwiftDouble(v).value))
    ensures f.None? <==> !v.Str? && SwiftInt(v).None? && SwiftDouble(v).None?
  {
    if v.Str? then Some(Text(v.s))
    else if SwiftInt(v).Some? then Some(Whole(SwiftInt(v).value))
    else if SwiftDouble(v).Some? then Some(Real(SwiftDouble(v).value))
    else None
  }

  /** One element of `images`: skipped unless its `url` string parses (a
      missing url reads as the empty string, which never does); width and
      height default to 0. */
  function ImageOf(d: Dict, urlOk: UrlCheck): (img: Option<Image>)
    ensures img.Some? <==> urlOk(SwiftString(Get(d, "url")).GetOr(""))
    ensures SwiftString(Get(d, "url")).None? ==> img.None?
    ensures img.Some? ==> img.value == Image(SwiftString(Get(d, "url")).value,
                                             SwiftInt(Get(d, "width")).GetOr(0),
                                             SwiftInt(Get(d, "height")).GetOr(0))
  {
    var url := SwiftString(Get(d, "url")).GetOr("");
    if urlOk(url) then
      Some(Image(url, SwiftInt(Get(d, "width")).GetOr(0), SwiftInt(Get(d, "height")).GetOr(0)))
    else None
  }

  /** The images the loop adds, in order. */
  function ImagesOf(ds: seq<Dict>, urlOk: UrlCheck): (r: seq<Image>)
    ensures |r| <= |ds|
  {
    if ds == [] then []
    else
      var img := ImageOf(ds[|ds| - 1], urlOk);
      ImagesOf(ds[..|ds| - 1], urlOk) + if img.Some? then [img.value] else []
  }

  /** The image dictionaries, when `images` casts to an array of them. */
  function ImageDicts(args: Dict): seq<Dict> {
    SwiftDictionaries(Get(args, "images")).GetOr([])
  }

  /** The entries stored by type: every key but the two stripped ones whose
      value has a stored type. */
  function FieldsOf(args: Dict): map<string, Field> {
    map k | k in args && k != "metadataType" && k != "images" && FieldOf(args[k]).Some? :: FieldOf(args[k]).value
  }

  /** The date for one date key: the value as a `Double`, divided by 1000. */
  function DateOf(args: Dict, k: DateKey): Option<Float> {
    var t := SwiftDouble(Get(args, DateName(k)));
    if t.Some? then Some(Thousandth(t.value)) else None
  }

  function DatesOf(args: Dict): map<DateKey, Float> {
    map k | k in {BroadcastDate, ReleaseDate, CreationDate} && DateOf(args, k).Some? :: DateOf(args, k).value
  }

  /** What `fromMap` returns, independent of the dictionary's iteration
      order. */
  function Parse(args: Dict, urlOk: UrlCheck): (r: Option<Metadata>)
    ensures r.None? <==> SwiftInt(Get(args, "metadataType")).None?
    ensures r.Some? ==> r.value.metadataType == SwiftInt(Get(args, "metadataType")).value
    ensures r.Some? ==> "metadataType" !in r.value.fields && "images" !in r.value.fields
    ensures r.Some? ==> forall k :: k in r.value.fields <==>
                          k in args && k != "metadataType" && k != "images" && FieldOf(args[k]).Some?
    ensures r.Some? ==> forall k :: k in r.value.fields ==> k in args && r.value.fields[k] == FieldOf(args[k]).value
    ensures r.Some? ==> forall dk :: dk in r.value.dates <==> SwiftDouble(Get(args, DateName(dk))).Some?
    ensures r.Some? ==> forall dk :: dk in r.value.dates ==>
                          r.value.dates[dk] == Thousandth(SwiftDouble(Get(args, DateName(dk))).value)
    ensures r.Some? ==> r.value.images == ImagesOf(ImageDicts(args), urlOk)
  {
    var metadataType := SwiftInt(Get(args, "metadataType"));
    if metadataType.None? then None
    else Some(Metadata(metadataType.value, ImagesOf(ImageDicts(args), urlOk), FieldsOf(args), DatesOf(args)))
  }

  /** `GCKMediaMetadata.fromMap`. `order` is the order in which the copy of
      the dictionary, without the two stripped keys, is iterated. */
  method FromMap(args: Dict, order: seq<string>, urlOk: UrlCheck) returns (r: Option<Metadata>)
    requires forall k :: k in order <==> k in args && k != "metadataType" && k != "images"
    ensures r == Parse(args, urlOk)
  {
    var mutableDict := args;
    var metadataType := SwiftInt(Get(mutableDict, "metadataType"));
    if metadataType.None? {
      return None;
    }
    mutableDict := mutableDict - {"metadataType"};

    var images: seq<Image> := [];
    var imageDicts := SwiftDictionaries(Get(mutableDict, "images"));
    if imageDicts.Some? {
      images := AddImages(imageDicts.value, urlOk);
    }
    assert images == ImagesOf(ImageDicts(args), urlOk);
    mutableDict := mutableDict - {"images"};

    var fields, dates := StoreEntries(args, mutableDict, order);
    r := Some(Metadata(metadataType.value, images, fields, dates));
  }

  /** The entry loop of `fromMap` over the copy `dict` of the dictionary
      without the two stripped keys: each value is stored by its type, and
      a number under a date key also sets that date. */
  method StoreEntries(args: Dict, dict: Dict, order: seq<string>) returns (fields: map<string, Field>, dates: map<DateKey, Float>)
    requires dict == args - {"metadataType", "images"}
    requires forall k :: k in order <==> k in args && k != "metadataType" && k != "images"
    ensures fields == FieldsOf(args) && dates == DatesOf(args)
  {
    fields, dates := map[], map[];
    var i := 0;
    while i < |order|
      invariant 0 <= i <= |order|
      invariant Accounted(args, order[..i], fields, dates)
    {
      var key := order[i];
      assert key in order && key in dict;
      var value := dict[key];
      assert value == args[key];
      ghost var fields0, dates0 := fields, dates;
      if value.Str? {
        fields := fields[key := Text(value.s)];
      } else if SwiftInt(value).Some? {
        fields := fields[key := Whole(SwiftInt(value).value)];
      } else if SwiftDouble(value).Some? {
        fields := fields[key := Real(SwiftDouble(value).value)];
      }
      var timeInterval := SwiftDouble(value);
      if timeInterval.Some? {
        var dateKey := DateKeyOf(key);
        if dateKey.Some? {
          dates := dates[dateKey.value := Thousandth(timeInterval.value)];
        }
      }
      assert fields == if FieldOf(value).Some? then fields0[key := FieldOf(value).value] else fields0;
      assert dates == if SwiftDouble(value).Some? && DateKeyOf(key).Some?
                      then dates0[DateKeyOf(key).value := Thousandth(SwiftDouble(value).value)] else dates0;
      StoreStep(args, order, i, fields0, dates0);
      i := i + 1;
    }
    assert order[..i] == order;
    StoredEntries(args, order, fields, dates);
  }

  /** The image loop of `fromMap`: each image whose URL parses is added,
      in order. */
  method AddImages(images: seq<Dict>, urlOk: UrlCheck) returns (added: seq<Image>)
    ensures added == ImagesOf(images, urlOk)
  {
    added := [];
    var j := 0;
    while j < |images|
      invariant 0 <= j <= |images|
      invariant added == ImagesOf(images[..j], urlOk)
    {
      assert images[..j + 1][..j] == images[..j];
      var image := images[j];
      var url := SwiftString(Get(image, "url")).GetOr("");
      if urlOk(url) {
        added := added + [Image(url, SwiftInt(Get(image, "width")).GetOr(0), SwiftInt(Get(image, "height")).GetOr(0))];
      }
      j := j + 1;
    }
    assert images[..j] == images;
  }

  /** Visiting one more key keeps the loop's account of what is stored. */
  lemma StoreStep(args: Dict, order: seq<string>, i: nat, fields: map<string, Field>, dates: map<DateKey, Float>)
    requires i < |order| && order[i] in args
    requires forall k :: k in order ==> k in args
    requires Accounted(args, order[..i], fields, dates)
    ensures var key, value := order[i], args[order[i]];
            var fields' := if FieldOf(value).Some? then fields[key := FieldOf(value).value] else fields;
            var dates' := if SwiftDouble(value).Some? && DateKeyOf(key).Some?
                          then dates[DateKeyOf(key).value := Thousandth(SwiftDouble(value).value)] else dates;
            Accounted(args, order[..i + 1], fields', dates')
  {
    assert order[..i + 1] == order[..i] + [order[i]];
  }

  /** The loop's account after visiting `keys`: an entry is stored for each
      visited key whose value has a stored type, and a date for each date
      key visited whose value is a number. */
  ghost predicate Accounted(args: Dict, keys: seq<string>, fields: map<string, Field>, dates: map<DateKey, Float>) {
    && (forall k :: k in fields <==> k in keys && k in args && FieldOf(args[k]).Some?)
    && (forall k :: k in fields ==> k in args && fields[k] == FieldOf(args[k]).value)
    && (forall dk :: dk in dates <==> DateName(dk) in keys && SwiftDouble(Get(args, DateName(dk))).Some?)
    && (forall dk :: dk in dates ==> dates[dk] == Thousandth(SwiftDouble(Get(args, DateName(dk))).value))
  }

  lemma StoredFields(args: Dict, order: seq<string>, fields: map<string, Field>)
    requires forall k :: k in order <==> k in args && k != "metadataType" && k != "images"
    requires forall k :: k in fields <==> k in order && FieldOf(args[k]).Some?
    requires forall k :: k in fields ==> k in args && fields[k] == FieldOf(args[k]).value
    ensures fields == FieldsOf(args)
  {
  }

  /** Once every key has been visited, the entries and dates stored are
      those of the whole dictionary. */
  lemma StoredEntries(args: Dict, order: seq<string>, fields: map<string, Field>, dates: map<DateKey, Float>)
    requires forall k :: k in order <==> k in args && k != "metadataType" && k != "images"
    requires Accounted(args, order, fields, dates)
    ensures fields == FieldsOf(args) && dates == DatesOf(args)
  {
    StoredFields(args, order, fields);
    StoredDates(args, order, dates);
  }

  lemma StoredDates(args: Dict, order: seq<string>, dates: map<DateKey, Float>)
    requires forall k :: k in order <==> k in args && k != "metadataType" && k != "images"
    requires forall dk :: dk in dates <==> DateName(dk) in order && SwiftDouble(Get(args, DateName(dk))).Some?
    requires forall dk :: dk in dates ==> dates[dk] == Thousandth(SwiftDouble(Get(args, DateName(dk))).value)
    ensures dates == DatesOf(args)
  {
    forall dk ensures dk in dates <==> dk in DatesOf(args) {
      if SwiftDouble(Get(args, DateName(dk))).Some? {
        assert DateName(dk) in args;
      }
    }
  }

  /** Adding images distributes over concatenation: each element is kept
      or skipped on its own, in order. */
  lemma {:induction false} ImagesAppend(a: seq<Dict>, b: seq<Dict>, urlOk: UrlCheck)
    ensures ImagesOf(a + b, urlOk) == ImagesOf(a, urlOk) + ImagesOf(b, urlOk)
    decreases |b|
  {
    if b == [] {
      assert a + b == a;
    } else {
      var init := b[..|b| - 1];
      assert (a + b)[..|a + b| - 1] == a + init;
      assert (a + b)[|a + b| - 1] == b[|b| - 1];
      ImagesAppend(a, init, urlOk);
    }
  }

  /** When every URL parses, every image is kept, in order, with its
      width and height or 0. */
  lemma {:induction false} ImagesAllKept(ds: seq<Dict>, urlOk: UrlCheck)
    requires forall i :: 0 <= i < |ds| ==> ImageOf(ds[i], urlOk).Some?
    ensures |ImagesOf(ds, urlOk)| == |ds|
    ensures forall i :: 0 <= i < |ds| ==> ImagesOf(ds, urlOk)[i] == ImageOf(ds[i], urlOk).value
  {
    if ds != [] {
      var init := ds[..|ds| - 1];
      ImagesAllKept(init, urlOk);
      assert ImagesOf(ds, urlOk) == ImagesOf(init, urlOk) + [ImageOf(ds[|ds| - 1], urlOk).value];
    }
  }

  /** An integer sent for a date key is stored twice: as an integer entry
      under the host key, and, read as a `Double`, as a date. */
  lemma IntegerDateStoredTwice(args: Dict, urlOk: UrlCheck, n: Int32)
    requires Parse(args, urlOk).Some? && Get(args, "releaseDate") == Int(n)
    ensures Parse(args, urlOk).value.fields["releaseDate"] == Whole(n)
    ensures Parse(args, urlOk).value.dates[ReleaseDate] == Thousandth(OfInt(n))
  {
    assert "releaseDate" in args;
    assert DateName(ReleaseDate) == "releaseDate";
  }

  /** A double that is a whole number matches the `Int` case first, so it
      is stored as an integer, never as a double. */
  lemma WholeDoubleStoredAsInteger(args: Dict, urlOk: UrlCheck, key: string, b: bv64)
    requires Parse(args, urlOk).Some? && key != "metadataType" && key != "images"
    requires Get(args, key) == Double(Bits(b))
    requires IntegralValue(b).Some? && INT64_MIN <= IntegralValue(b).value <= INT64_MAX
    ensures Parse(args, urlOk).value.fields[key] == Whole(IntegralValue(b).value)
  {
    assert key in args;
  }

  // ---- toMap

  /** The SDK's metadata key constants that `toMap` reads, which are not
      part of this model. */
  datatype SdkKeys = SdkKeys(
    title: string, subtitle: string, artist: string, albumArtist: string, albumTitle: string,
    composer: string, discNumber: string, trackNumber: string, seasonNumber: string,
    episodeNumber: string, seriesTitle: string, studio: string, width: string, height: string,
    locationName: string, locationLatitude: string, locationLongitude: string)

  /** `string(forKey:)`: the string stored under `key`, if any. */
  function StringAt(md: Metadata, key: string): Option<string> {
    if key in md.fields && md.fields[key].Text? then Some(md.fields[key].s) else None
  }

  /** `integer(forKey:)`: 0 unless an integer is stored under `key`. */
  function IntegerAt(md: Metadata, key: string): Int64 {
    if key in md.fields && md.fields[key].Whole? then md.fields[key].n else 0
  }

  /** `double(forKey:)`: 0.0 unless a double is stored under `key`. */
  function DoubleAt(md: Metadata, key: string): Float {
    if key in md.fields && md.fields[key].Real? then md.fields[key].d else ZERO
  }

  /** `date(forKey:)?.timeIntervalSince1970`. */
  function DateAt(md: Metadata, k: DateKey): Option<Float> {
    if k in md.dates then Some(md.dates[k]) else None
  }

  /** `GCKImage.toMap`. */
  function ImageToMap(img: Image): Value {
    Map(map["height" := Integer(img.height), "width" := Integer(img.width), "url" := Str(img.url)])
  }

  function ImageMaps(images: seq<Image>): (r: seq<Value>)
    ensures |r| == |images| && forall i :: 0 <= i < |images| ==> r[i] == ImageToMap(images[i])
  {
    if images == [] then [] else [ImageToMap(images[0])] + ImageMaps(images[1..])
  }

  const DATE_KEYS: set<string> := {"creationDate", "releaseDate", "broadcastDate"}
  const TEXT_KEYS: set<string> := {
    "title", "subtitle", "artist", "albumArtist", "albumTitle", "composer",
    "serieTitle", "studio", "width", "height", "locationName"}
  const NUMBER_KEYS: set<string> := {
    "discNumber", "trackNumber", "seasonNumber", "episodeNumber", "locationLatitude", "locationLongitude"}

  /** Every key `toMap` writes. */
  const TO_MAP_KEYS: set<string> := {"type", "images"} + DATE_KEYS + TEXT_KEYS + NUMBER_KEYS

  lemma TextKeysApart()
    ensures ({"type", "images"} + DATE_KEYS) !! TEXT_KEYS && NUMBER_KEYS !! TEXT_KEYS
  {
    KeyGroupsDisjoint();
  }

  lemma KeyGroupsDisjoint()
    ensures "type" !in DATE_KEYS && "type" !in TEXT_KEYS && "type" !in NUMBER_KEYS
    ensures "images" !in DATE_KEYS && "images" !in TEXT_KEYS && "images" !in NUMBER_KEYS
    ensures DATE_KEYS !! TEXT_KEYS && DATE_KEYS !! NUMBER_KEYS && TEXT_KEYS !! NUMBER_KEYS
    ensures "metadataType" !in TO_MAP_KEYS
  {
  }

  /** The three dates, as seconds since 1970. The dictionary `toMap` builds
      holds optional values, so an unset date is kept as nil and reaches
      the host as null. */
  function DateEntries(md: Metadata): (d: Dict)
    ensures d.Keys == DATE_KEYS
    ensures d["creationDate"] == Null <==> CreationDate !in md.dates
    ensures d["releaseDate"] == Null <==> ReleaseDate !in md.dates
    ensures d["broadcastDate"] == Null <==> BroadcastDate !in md.dates
    ensures CreationDate in md.dates ==> d["creationDate"] == Double(md.dates[CreationDate])
    ensures ReleaseDate in md.dates ==> d["releaseDate"] == Double(md.dates[ReleaseDate])
    ensures BroadcastDate in md.dates ==> d["broadcastDate"] == Double(md.dates[BroadcastDate])
  {
    map[
      "creationDate" := NullableDouble(DateAt(md, CreationDate)),
      "releaseDate" := NullableDouble(DateAt(md, ReleaseDate)),
      "broadcastDate" := NullableDouble(DateAt(md, BroadcastDate))]
  }

  /** The SDK key each string entry of `toMap` is read from. */
  function TextSource(keys: SdkKeys, k: string): string {
    match k
    case "title" => keys.title
    case "subtitle" => keys.subtitle
    case "artist" => keys.artist
    case "albumArtist" => keys.albumArtist
    case "albumTitle" => keys.albumTitle
    case "composer" => keys.composer
    case "serieTitle" => keys.seriesTitle
    case "studio" => keys.studio
    case "width" => keys.width
    case "height" => keys.height
    case _ => keys.locationName
  }

  /** The SDK key each integer entry of `toMap` is read from. */
  function IntegerSource(keys: SdkKeys, k: string): string {
    match k
    case "discNumber" => keys.discNumber
    case "trackNumber" => keys.trackNumber
    case "seasonNumber" => keys.seasonNumber
    case _ => keys.episodeNumber
  }

  const INTEGER_KEYS: set<string> := {"discNumber", "trackNumber", "seasonNumber", "episodeNumber"}

  /** The strings read from the SDK's keys: each of the eleven string keys
      is always written, holding the string stored under its SDK key, or
      null (a kept nil) when none is. */
  function TextEntries(md: Metadata, keys: SdkKeys): (d: Dict)
    ensures d.Keys == TEXT_KEYS
    ensures forall k :: k in TEXT_KEYS ==> (d[k] == Null <==> StringAt(md, TextSource(keys, k)).None?)
    ensures forall k :: k in TEXT_KEYS && StringAt(md, TextSource(keys, k)).Some? ==>
              d[k] == Str(StringAt(md, TextSource(keys, k)).value)
  {
    map k | k in TEXT_KEYS :: NullableString(StringAt(md, TextSource(keys, k)))
  }

  /** The numbers read from the SDK's keys, always present: an integer
      stored under the key or 0, and a double stored under the key or 0.0. */
  function NumberEntries(md: Metadata, keys: SdkKeys): (d: Dict)
    ensures d.Keys == NUMBER_KEYS
    ensures forall k :: k in INTEGER_KEYS ==> d[k] == Integer(IntegerAt(md, IntegerSource(keys, k)))
    ensures d["locationLatitude"] == Double(DoubleAt(md, keys.locationLatitude))
    ensures d["locationLongitude"] == Double(DoubleAt(md, keys.locationLongitude))
  {
    map[
      "discNumber" := Integer(IntegerAt(md, keys.discNumber)),
      "trackNumber" := Integer(IntegerAt(md, keys.trackNumber)),
      "seasonNumber" := Integer(IntegerAt(md, keys.seasonNumber)),
      "episodeNumber" := Integer(IntegerAt(md, keys.episodeNumber)),
      "locationLatitude" := Double(DoubleAt(md, keys.locationLatitude)),
      "locationLongitude" := Double(DoubleAt(md, keys.locationLongitude))]
  }

  /** `GCKMediaMetadata.toMap`. Its dictionary holds optional values, so
      every one of the 22 keys is written: an unset date or string is kept
      as nil and reaches the host as null, and an unset number is 0. The
      groups of keys are disjoint, so the order of the assignments does
      not matter. */
  function ToMap(md: Metadata, keys: SdkKeys): (m: Dict)
    ensures m.Keys == TO_MAP_KEYS
    ensures m["type"] == Integer(md.metadataType)
    ensures m["images"] == List(ImageMaps(md.images))
    ensures m["creationDate"] == Null <==> CreationDate !in md.dates
    ensures m["releaseDate"] == Null <==> ReleaseDate !in md.dates
    ensures m["broadcastDate"] == Null <==> BroadcastDate !in md.dates
    ensures CreationDate in md.dates ==> m["creationDate"] == Double(md.dates[CreationDate])
    ensures ReleaseDate in md.dates ==> m["releaseDate"] == Double(md.dates[ReleaseDate])
    ensures BroadcastDate in md.dates ==> m["broadcastDate"] == Double(md.dates[BroadcastDate])
  {
    KeyGroupsDisjoint();
    (DateEntries(md) + TextEntries(md, keys) + NumberEntries(md, keys))
      ["type" := Integer(md.metadataType)]["images" := List(ImageMaps(md.images))]
  }

  /** Each of the eleven string keys of the serialised form holds the
      string stored under its SDK key, and is null exactly when none is. */
  lemma ToMapTexts(md: Metadata, keys: SdkKeys)
    ensures forall k :: k in TEXT_KEYS ==> (ToMap(md, keys)[k] == Null <==> StringAt(md, TextSource(keys, k)).None?)
    ensures forall k :: k in TEXT_KEYS && StringAt(md, TextSource(keys, k)).Some? ==>
              ToMap(md, keys)[k] == Str(StringAt(md, TextSource(keys, k)).value)
  {
    TextKeysApart();
    var dates, texts, numbers := DateEntries(md), TextEntries(md, keys), NumberEntries(md, keys);
    var t, i := Integer(md.metadataType), List(ImageMaps(md.images));
    assert ToMap(md, keys) == (dates + texts + numbers)["type" := t]["images" := i];
    MiddleOfUnion(dates, texts, numbers, TEXT_KEYS, t, i);
  }

  /** Keys that only the middle operand of a union holds, other than
      `type` and `images`, are read from it after those two are set. */
  lemma MiddleOfUnion(a: Dict, b: Dict, c: Dict, ks: set<string>, t: Value, i: Value)
    requires a.Keys !! ks && c.Keys !! ks && ks <= b.Keys && "type" !in ks && "images" !in ks
    ensures forall k :: k in ks ==> (a + b + c)["type" := t]["images" := i][k] == b[k]
  {
  }

  /** The six number keys of the serialised form carry the integer or
      double stored under their SDK keys, or 0 when none is. */
  lemma ToMapNumbers(md: Metadata, keys: SdkKeys)
    ensures forall k :: k in INTEGER_KEYS ==> ToMap(md, keys)[k] == Integer(IntegerAt(md, IntegerSource(keys, k)))
    ensures ToMap(md, keys)["locationLatitude"] == Double(DoubleAt(md, keys.locationLatitude))
    ensures ToMap(md, keys)["locationLongitude"] == Double(DoubleAt(md, keys.locationLongitude))
  {
    KeyGroupsDisjoint();
    var numbers := NumberEntries(md, keys);
    assert ToMap(md, keys) == (DateEntries(md) + TextEntries(md, keys) + numbers)
      ["type" := Integer(md.metadataType)]["images" := List(ImageMaps(md.images))];
  }

  /** The serialised form is not parser input: it carries the type under
      `type`, where the parser looks for `metadataType`, so parsing it
      gives nil. */
  lemma SerialisedDoesNotParse(md: Metadata, keys: SdkKeys, urlOk: UrlCheck)
    ensures Parse(ToMap(md, keys), urlOk).None?
  {
    assert "metadataType" !in TO_MAP_KEYS;
  }

  /** Dates are not a round trip either: a date the parser read as
      milliseconds comes back as the value it stored, the milliseconds
      divided by 1000. */
  lemma DatesComeBackDivided(args: Dict, urlOk: UrlCheck, keys: SdkKeys, md: Metadata, x: Float)
    requires Parse(args, urlOk) == Some(md) && SwiftDouble(Get(args, "creationDate")) == Some(x)
    ensures ToMap(md, keys)["creationDate"] == Double(Thousandth(x))
  {
    assert DateName(CreationDate) == "creationDate";
    assert md.dates[CreationDate] == Thousandth(x);
  }
}
