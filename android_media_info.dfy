/**
 * Android media information
 * (android/src/main/kotlin/com/felnanuke/google_cast/extensions/MediaInfoExtensions.kt).
 */
module AndroidMediaInfo {
  import opened HostValues
  import AndroidTrack
  import AndroidMetadata

  /** A `MediaInfo` as the builder leaves it; an optional field is `None`
      when its setter was not called. */
  datatype MediaInfo = MediaInfo(
    contentId: string,
    contentUrl: Option<string>,
    contentType: Option<string>,
    tracks: Option<seq<AndroidTrack.MediaTrack>>,
    metadata: Option<AndroidMetadata.Metadata>,
    customData: Option<Dict>)

  /** The metadata map the parser is given: an absent metadata entry reads
      as the empty map. */
  function MetadataArgs(m: Dict): Dict {
    if Get(m, "metadata").Map? then Get(m, "metadata").entries else map[]
  }

  /** Whether the codec's `HashMap` visits `creationDateTime` after
      `creationDate` in a metadata map. Its bucket order decides this from
      the map's size (in a table of 16 or 32 buckets `creationDateTime`
      comes last, in one of 64 to 512 buckets `creationDate` does),
      so the model takes it as a parameter. */
  type CreationOrder = Dict -> bool

  /** The creation key whose value ends up as the creation date. */
  function CreationKey(metadata: Dict, dateTimeLast: CreationOrder): (key: string)
    ensures key == "creationDate" || key == "creationDateTime"
    ensures key == "creationDateTime" <==> dateTimeLast(metadata)
  {
    if dateTimeLast(metadata) then "creationDateTime" else "creationDate"
  }

  /** `GoogleCastMediaInfo.fromMap`. The declared result is nullable, but
      every path that does not throw builds a value. The metadata is read
      with the creation date taken from the creation key visited last. */
  function FromMap(m: Dict, dateTimeLast: CreationOrder): (r: Result<Option<MediaInfo>>)
    ensures r != Ok(None)
    ensures !Get(m, "contentID").Str? ==> r.Thrown?
    ensures r.Ok? ==> Get(m, "contentID") == Str(r.value.value.contentId)
    ensures r.Ok? ==> NullableString(r.value.value.contentUrl) == Get(m, "contentURL")
                      && NullableString(r.value.value.contentType) == Get(m, "contentType")
    ensures r.Ok? ==> (r.value.value.tracks.None? <==> Get(m, "tracks") == Null || Get(m, "tracks") == List([]))
    ensures r.Ok? && r.value.value.tracks.Some? ==>
              Get(m, "tracks").List? && AndroidTrack.ListFromMap(Get(m, "tracks").elems) == Ok(r.value.value.tracks.value)
    ensures r.Ok? && (Get(m, "metadata") == Null || Get(m, "metadata") == Map(map[])) ==> r.value.value.metadata.None?
    ensures r.Ok? ==> (r.value.value.customData.None? <==> Get(m, "customData") == Null)
    ensures r.Ok? && Get(m, "customData").Map? ==> r.value.value.customData == Some(Get(m, "customData").entries)
  {
    var contentId :- AsString(Get(m, "contentID"));
    var contentUrl :- AsStringOrNull(Get(m, "contentURL"));
    var contentType :- AsStringOrNull(Get(m, "contentType"));
    var tracksData :- AsListOrNull(Get(m, "tracks"));
    var tracks :- AndroidTrack.ListFromMap(tracksData.GetOr([]));
    var metadataData :- AsMapOrNull(Get(m, "metadata"));
    var metadataArgs := metadataData.GetOr(map[]);
    var metadata :- AndroidMetadata.Parse(metadataArgs, CreationKey(metadataArgs, dateTimeLast));
    var customData :- AsMapOrNull(Get(m, "customData"));
    Ok(Some(MediaInfo(
      contentId,
      contentUrl,
      contentType,
      if |tracks| > 0 then Some(tracks) else None,
      metadata,
      customData)))
  }

  /** The metadata set on the media is what the metadata parser makes of the
      metadata entry, and a non-empty metadata map always yields some. */
  lemma MetadataFromEntry(m: Dict, dateTimeLast: CreationOrder)
    requires FromMap(m, dateTimeLast).Ok?
    ensures AndroidMetadata.Parse(MetadataArgs(m), CreationKey(MetadataArgs(m), dateTimeLast))
              == Ok(FromMap(m, dateTimeLast).value.value.metadata)
    ensures MetadataArgs(m) != map[] ==> FromMap(m, dateTimeLast).value.value.metadata.Some?
  {
  }

  /** When the parameter agrees with the order in which the metadata map is
      visited, the metadata set on the media is what the entry loop of
      `GoogleCastMetadataBuilder.fromMap` builds for that order. */
  lemma MetadataIsLoopResult(m: Dict, dateTimeLast: CreationOrder, order: seq<string>)
    requires FromMap(m, dateTimeLast).Ok?
    requires forall k :: k in MetadataArgs(m) <==> k in order
    requires dateTimeLast(MetadataArgs(m)) <==> AndroidMetadata.WinningCreationKey(order) == "creationDateTime"
    ensures AndroidMetadata.FromMapSpec(MetadataArgs(m), order) == Ok(FromMap(m, dateTimeLast).value.value.metadata)
  {
    MetadataFromEntry(m, dateTimeLast);
    AndroidMetadata.FromMapIsParse(MetadataArgs(m), order);
  }
}
