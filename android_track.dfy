/**
 * Android media tracks
 * (android/src/main/kotlin/com/felnanuke/google_cast/extensions/MediaTrackExtensions.kt).
 */
module AndroidTrack {
  import opened HostValues

  /** A `MediaTrack` as the builder leaves it. `subtype` is `None` when
      `setSubtype` was not called, so the SDK's own default applies. */
  datatype MediaTrack = MediaTrack(
    id: Int64,
    trackType: Int32,
    contentId: string,
    contentType: Option<string>,
    subtype: Option<Int32>,
    name: Option<string>,
    language: Option<string>,
    customData: Option<Dict>)

  /** `GoogleCastMediaTrackBuilder.fromMap`: id, type and content id are
      required; every cast that fails throws. */
  function FromMap(m: Dict): (r: Result<MediaTrack>)
    ensures r.Ok? <==>
              Get(m, "trackId").Int? && Get(m, "type").Int? && Get(m, "trackContentId").Str?
              && AsStringOrNull(Get(m, "trackContentType")).Ok? && AsIntOrNull(Get(m, "subtype")).Ok?
              && AsStringOrNull(Get(m, "name")).Ok? && AsStringOrNull(Get(m, "language")).Ok?
              && AsMapOrNull(Get(m, "customData")).Ok?
    ensures r.Ok? ==> r.value.id == Get(m, "trackId").i && r.value.trackType == Get(m, "type").i
                      && r.value.contentId == Get(m, "trackContentId").s
    ensures r.Ok? ==> (r.value.subtype.None? <==> Get(m, "subtype") == Null)
                      && (r.value.customData.None? <==> Get(m, "customData") == Null)
    ensures r.Ok? && Get(m, "subtype").Int? ==> r.value.subtype == Some(Get(m, "subtype").i)
    ensures r.Ok? && Get(m, "customData").Map? ==> r.value.customData == Some(Get(m, "customData").entries)
    ensures r.Ok? ==> NullableString(r.value.contentType) == Get(m, "trackContentType")
                      && NullableString(r.value.name) == Get(m, "name")
                      && NullableString(r.value.language) == Get(m, "language")
  {
    var trackId :- AsInt(Get(m, "trackId"));
    var trackType :- AsInt(Get(m, "type"));
    var contentId :- AsString(Get(m, "trackContentId"));
    var contentType :- AsStringOrNull(Get(m, "trackContentType"));
    var subtype :- AsIntOrNull(Get(m, "subtype"));
    var name :- AsStringOrNull(Get(m, "name"));
    var language :- AsStringOrNull(Get(m, "language"));
    var customData :- AsMapOrNull(Get(m, "customData"));
    Ok(MediaTrack(trackId, trackType, contentId, contentType, subtype, name, language, customData))
  }

  /** `listFromMap`: every element is used as a map and parsed, in order;
      the first failure throws. */
  function ListFromMap(items: seq<Value>): (r: Result<seq<MediaTrack>>)
    ensures r.Ok? <==> forall i :: 0 <= i < |items| ==> items[i].Map? && FromMap(items[i].entries).Ok?
    ensures r.Ok? ==> |r.value| == |items|
                      && forall i :: 0 <= i < |items| ==> r.value[i] == FromMap(items[i].entries).value
  {
    if items == [] then Ok([])
    else
      var head :- AsMap(items[0]);
      var track :- FromMap(head);
      var tail :- ListFromMap(items[1..]);
      Ok([track] + tail)
  }

  /** `MediaTrack.toMap()`, as the host sends the map back: the 64-bit id
      comes back as a 32-bit integer when it fits. `defaultSubtype` is what
      the SDK reports for a track whose subtype was never set. */
  function ToMap(t: MediaTrack, defaultSubtype: Int32): (m: Dict)
    ensures m.Keys == {"trackId", "type", "trackContentId", "trackContentType", "subtype", "name", "language"}
    ensures "customData" !in m
    ensures m["trackId"] == Integer(t.id) && m["type"] == Int(t.trackType)
    ensures m["subtype"] == Int(t.subtype.GetOr(defaultSubtype))
  {
    map["trackId" := Integer(t.id),
        "type" := Int(t.trackType),
        "trackContentId" := Str(t.contentId),
        "trackContentType" := NullableString(t.contentType),
        "subtype" := Int(t.subtype.GetOr(defaultSubtype)),
        "name" := NullableString(t.name),
        "language" := NullableString(t.language)]
  }

  /** Parsing what `toMap` wrote gives the track back, except the custom
      data `toMap` drops and the subtype, which is now explicit; a track id
      beyond 32 bits fails the `as Int` cast. */
  lemma RoundTrip(t: MediaTrack, defaultSubtype: Int32)
    ensures INT32_MIN <= t.id <= INT32_MAX ==>
              FromMap(ToMap(t, defaultSubtype))
                == Ok(t.(customData := None, subtype := Some(t.subtype.GetOr(defaultSubtype))))
    ensures !(INT32_MIN <= t.id <= INT32_MAX) ==> FromMap(ToMap(t, defaultSubtype)).Thrown?
  {
    var m := ToMap(t, defaultSubtype);
    assert Get(m, "trackId") == Integer(t.id);
    assert Get(m, "customData") == Null;
    if t.contentType.Some? {
      assert Get(m, "trackContentType") == Str(t.contentType.value);
    }
    if t.name.Some? {
      assert Get(m, "name") == Str(t.name.value);
    }
    if t.language.Some? {
      assert Get(m, "language") == Str(t.language.value);
    }
  }
}
