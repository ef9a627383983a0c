/**
 * iOS media information
 * (ios/flutter_chrome_cast/Sources/flutter_chrome_cast/Extensions/MediaInfoExtensions.swift).
 *
 * `fromMap` fails only on the content URL; every other entry is optional
 * and a value of the wrong type leaves its field unset. `toMap` writes the
 * stream type as its raw integer, which `fromMap` does not read back.
 */
module IosMediaInfo {
  import opened HostValues
  import IosTrack
  import IosMetadata

  /** `GCKMediaStreamType`: the four declared cases. */
  datatype StreamType = StreamNone | Buffered | Live | StreamUnknown

  /** The declared raw values. */
  function StreamTypeRaw(t: StreamType): Int64 {
    match t
    case StreamNone => 0
    case Buffered => 1
    case Live => 2
    case StreamUnknown => 99
  }

  datatype HlsSegmentFormat = Aac | Ac3 | Mp3 | Ts | TsAac
  datatype HlsVideoSegmentFormat = Mpeg2Ts | Fmp4

  /** A `GCKMediaInformation` as the builder leaves it; an optional field is
      `None` when the parser did not set it. */
  datatype MediaInfo = MediaInfo(
    contentId: Option<string>,
    contentUrl: string,
    streamType: StreamType,
    contentType: Option<string>,
    streamDuration: Option<Float>,
    startAbsoluteTime: Option<Float>,
    hlsSegmentFormat: Option<HlsSegmentFormat>,
    hlsVideoSegmentFormat: Option<HlsVideoSegmentFormat>,
    customData: Option<Value>,
    mediaTracks: Option<seq<IosTrack.MediaTrack>>,
    metadata: Option<IosMetadata.Metadata>)

  /** The stream-type table: three exact strings, and unknown for anything
      else, an absent entry and a value that is not a string included. */
  function StreamTypeOf(v: Value): (t: StreamType)
    ensures t == Buffered <==> v == Str("BUFFERED")
    ensures t == Live <==> v == Str("LIVE")
    ensures t == StreamNone <==> v == Str("NONE")
    ensures t == StreamUnknown <==> v != Str("BUFFERED") && v != Str("LIVE") && v != Str("NONE")
  {
    match SwiftString(v)
    case Some("BUFFERED") => Buffered
    case Some("LIVE") => Live
    case Some("NONE") => StreamNone
    case _ => StreamUnknown
  }

  /** The audio segment table; any other string leaves the format unset. */
  function HlsSegmentFormatOf(s: string): (f: Option<HlsSegmentFormat>)
    ensures f == Some(Aac) <==> s == "aac"
    ensures f == Some(Ac3) <==> s == "ac3"
    ensures f == Some(Mp3) <==> s == "mp3"
    ensures f == Some(Ts) <==> s == "ts"
    ensures f == Some(TsAac) <==> s == "tsAac"
  {
    match s
    case "aac" => Some(Aac)
    case "ac3" => Some(Ac3)
    case "mp3" => Some(Mp3)
    case "ts" => Some(Ts)
    case "tsAac" => Some(TsAac)
    case _ => None
  }

  /** The video segment table; any other string leaves the format unset. */
  function HlsVideoSegmentFormatOf(s: string): (f: Option<HlsVideoSegmentFormat>)
    ensures f == Some(Mpeg2Ts) <==> s == "mpeg2Ts"
    ensures f == Some(Fmp4) <==> s == "fmp4"
  {
    match s
    case "mpeg2Ts" => Some(Mpeg2Ts)
    case "fmp4" => Some(Fmp4)
    case _ => None
  }

  /** The duration: as a `TimeInterval` when it casts, otherwise the
      `doubleValue` of any NSNumber. */
  function DurationOf(v: Value): (d: Option<Float>)
    ensures d.Some? <==> v.Int? || v.Long? || v.Double? || v.Bool?
    ensures SwiftDouble(v).Some? ==> d == SwiftDouble(v)
    ensures v.Long? ==> d == Some(OfInt(v.l))
  {
    if SwiftDouble(v).Some? then SwiftDouble(v) else NumberDoubleValue(v)
  }

  /** The tracks, each parsed with defaults; the cast succeeds only when
      every element is a dictionary. */
  function TracksOf(ds: seq<Dict>): (ts: seq<IosTrack.MediaTrack>)
    ensures |ts| == |ds| && forall i :: 0 <= i < |ds| ==> ts[i] == IosTrack.FromMap(ds[i])
  {
    if ds == [] then [] else [IosTrack.FromMap(ds[0])] + TracksOf(ds[1..])
  }

  /** `GCKMediaInformation.fromMap`. `urlOk` stands for `URL(string:)`; the
      metadata parser gets the same one. */
  function FromMap(m: Dict, urlOk: UrlCheck): (r: Option<MediaInfo>)
    ensures r.None? <==> !Get(m, "contentURL").Str? || !urlOk(Get(m, "contentURL").s)
    ensures r.Some? ==> r.value.contentUrl == Get(m, "contentURL").s && r.value.contentId.None?
    ensures r.Some? ==> r.value.streamType == StreamTypeOf(Get(m, "streamType"))
                        && r.value.contentType == SwiftString(Get(m, "contentType"))
    ensures r.Some? ==> r.value.streamDuration == DurationOf(Get(m, "duration"))
    ensures r.Some? ==> (r.value.startAbsoluteTime.Some? <==> SwiftDouble(Get(m, "startAbsoluteTime")).Some?)
    ensures r.Some? && r.value.startAbsoluteTime.Some? ==>
              r.value.startAbsoluteTime.value == Thousandth(SwiftDouble(Get(m, "startAbsoluteTime")).value)
    ensures r.Some? && r.value.hlsSegmentFormat.Some? ==>
              Get(m, "hlsSegmentFormat").Str? && HlsSegmentFormatOf(Get(m, "hlsSegmentFormat").s) == r.value.hlsSegmentFormat
    ensures r.Some? && Get(m, "hlsSegmentFormat").Str? ==>
              r.value.hlsSegmentFormat == HlsSegmentFormatOf(Get(m, "hlsSegmentFormat").s)
    ensures r.Some? && r.value.hlsVideoSegmentFormat.Some? ==>
              Get(m, "hlsVideoSegmentFormat").Str?
              && HlsVideoSegmentFormatOf(Get(m, "hlsVideoSegmentFormat").s) == r.value.hlsVideoSegmentFormat
    ensures r.Some? ==> (r.value.customData.Some? <==> "customData" in m)
                        && ("customData" in m ==> r.value.customData.value == m["customData"])
    ensures r.Some? ==> (r.value.mediaTracks.Some? <==> SwiftDictionaries(Get(m, "tracks")).Some?)
    ensures r.Some? && r.value.mediaTracks.Some? ==>
              |r.value.mediaTracks.value| == |Get(m, "tracks").elems|
              && forall i :: 0 <= i < |Get(m, "tracks").elems| ==>
                   r.value.mediaTracks.value[i] == IosTrack.FromMap(Get(m, "tracks").elems[i].entries)
    ensures r.Some? && r.value.metadata.Some? ==>
              Get(m, "metadata").Map? && IosMetadata.Parse(Get(m, "metadata").entries, urlOk) == r.value.metadata
    ensures r.Some? && Get(m, "metadata").Map? ==> IosMetadata.Parse(Get(m, "metadata").entries, urlOk) == r.value.metadata
  {
    var streamType := StreamTypeOf(Get(m, "streamType"));
    var contentUrl := SwiftString(Get(m, "contentURL"));
    if contentUrl.None? || !urlOk(contentUrl.value) then None
    else
      var startAbsoluteTime := SwiftDouble(Get(m, "startAbsoluteTime"));
      var hls := SwiftString(Get(m, "hlsSegmentFormat"));
      var hlsVideo := SwiftString(Get(m, "hlsVideoSegmentFormat"));
      var tracks := SwiftDictionaries(Get(m, "tracks"));
      var metadata := SwiftDictionary(Get(m, "metadata"));
      Some(MediaInfo(
        None,
        contentUrl.value,
        streamType,
        SwiftString(Get(m, "contentType")),
        DurationOf(Get(m, "duration")),
        if startAbsoluteTime.Some? then Some(Thousandth(startAbsoluteTime.value)) else None,
        if hls.Some? then HlsSegmentFormatOf(hls.value) else None,
        if hlsVideo.Some? then HlsVideoSegmentFormatOf(hlsVideo.value) else None,
        if "customData" in m then Some(m["customData"]) else None,
        if tracks.Some? then Some(TracksOf(tracks.value)) else None,
        if metadata.Some? then IosMetadata.Parse(metadata.value, urlOk) else None))
  }

  /** The duration `toMap` reports: 0.0 in place of an infinite or NaN
      duration. */
  function ReportedDuration(d: Float): (r: Float)
    ensures IsInfiniteOrNaN(d) ==> r == ZERO
    ensures !IsInfiniteOrNaN(d) ==> r == d
    ensures !IsInfiniteOrNaN(r)
  {
    if IsInfiniteOrNaN(d) then ZERO else d
  }

  function TrackMaps(ts: seq<IosTrack.MediaTrack>): (r: seq<Value>)
    ensures |r| == |ts| && forall i :: 0 <= i < |ts| ==> r[i] == Map(IosTrack.ToMap(ts[i]))
  {
    if ts == [] then [] else [Map(IosTrack.ToMap(ts[0]))] + TrackMaps(ts[1..])
  }

  /** `GCKMediaInformation.toMap`. `defaultDuration` is the SDK's duration
      for media whose duration was never set, and `keys` the SDK's metadata
      key names. */
  function ToMap(info: MediaInfo, defaultDuration: Float, keys: IosMetadata.SdkKeys): (m: Dict)
    ensures "streamType" in m && m["streamType"] == Integer(StreamTypeRaw(info.streamType))
    ensures "contentURL" in m && m["contentURL"] == Str(info.contentUrl)
    ensures "duration" in m && m["duration"] == Double(ReportedDuration(info.streamDuration.GetOr(defaultDuration)))
    ensures "tracks" in m <==> info.mediaTracks.Some?
    ensures info.mediaTracks.Some? ==> m["tracks"] == List(TrackMaps(info.mediaTracks.value))
    ensures "metadata" in m <==> info.metadata.Some?
    ensures info.metadata.Some? ==> m["metadata"] == Map(IosMetadata.ToMap(info.metadata.value, keys))
    ensures "contentType" in m <==> info.contentType.Some?
    ensures info.contentType.Some? ==> m["contentType"] == Str(info.contentType.value)
    ensures "customData" in m <==> info.customData.Some?
  {
    OptionalKeysAreNotFixed();
    OptionalEntries(OptionalStr(info.contentId), OptionalStr(info.contentType), MetadataEntry(info.metadata, keys),
                    info.customData, TracksEntry(info.mediaTracks)) + map[
      "streamType" := Integer(StreamTypeRaw(info.streamType)),
      "contentURL" := Str(info.contentUrl),
      "duration" := Double(ReportedDuration(info.streamDuration.GetOr(defaultDuration)))]
  }

  /** No key `toMap` writes only when set is also one it always writes. */
  lemma OptionalKeysAreNotFixed()
    ensures {"contentID", "contentType", "metadata", "customData", "tracks"} !! FIXED_KEYS
  {
  }

  const FIXED_KEYS: set<string> := {"streamType", "contentURL", "duration"}

  /** The entries `toMap` writes only when the field is set: assigning nil
      to a Swift dictionary key leaves the key out. */
  function OptionalEntries(contentId: Option<Value>, contentType: Option<Value>, metadata: Option<Value>,
                           customData: Option<Value>, tracks: Option<Value>): (d: Dict)
    ensures d.Keys <= {"contentID", "contentType", "metadata", "customData", "tracks"}
    ensures "contentID" in d <==> contentId.Some?
    ensures "contentType" in d <==> contentType.Some?
    ensures contentType.Some? ==> d["contentType"] == contentType.value
    ensures "metadata" in d <==> metadata.Some?
    ensures metadata.Some? ==> d["metadata"] == metadata.value
    ensures "customData" in d <==> customData.Some?
    ensures "tracks" in d <==> tracks.Some?
    ensures tracks.Some? ==> d["tracks"] == tracks.value
  {
    Pair("contentID", contentId, "contentType", contentType)
      + Pair("metadata", metadata, "customData", customData) + Entry("tracks", tracks)
  }

  /** Two assignments of distinct keys on an empty dictionary. */
  function Pair(key1: string, v1: Option<Value>, key2: string, v2: Option<Value>): (d: Dict)
    requires key1 != key2
    ensures d.Keys <= {key1, key2}
    ensures key1 in d <==> v1.Some?
    ensures v1.Some? ==> d[key1] == v1.value
    ensures key2 in d <==> v2.Some?
    ensures v2.Some? ==> d[key2] == v2.value
  {
    Entry(key1, v1) + Entry(key2, v2)
  }

  /** `dict[key] = value` on an empty dictionary. */
  function Entry(key: string, v: Option<Value>): (d: Dict)
    ensures d.Keys <= {key}
    ensures key in d <==> v.Some?
    ensures v.Some? ==> d[key] == v.value
  {
    if v.Some? then map[key := v.value] else map[]
  }

  function MetadataEntry(md: Option<IosMetadata.Metadata>, keys: IosMetadata.SdkKeys): (v: Option<Value>)
    ensures v.Some? <==> md.Some?
    ensures md.Some? ==> v.value == Map(IosMetadata.ToMap(md.value, keys))
  {
    if md.Some? then Some(Map(IosMetadata.ToMap(md.value, keys))) else None
  }

  function TracksEntry(ts: Option<seq<IosTrack.MediaTrack>>): (v: Option<Value>)
    ensures v.Some? <==> ts.Some?
    ensures ts.Some? ==> v.value == List(TrackMaps(ts.value))
  {
    if ts.Some? then Some(List(TrackMaps(ts.value))) else None
  }

  /** Serialising and parsing again keeps the URL, the content type, the
      number of tracks and the reported duration, but not the rest: the
      stream type comes back unknown because it was written as an integer
      and is read as a string, the metadata is lost because its serialised
      form has no `metadataType`, and the content id is never parsed. */
  lemma SerialisedRoundTrip(info: MediaInfo, defaultDuration: Float, keys: IosMetadata.SdkKeys, urlOk: UrlCheck)
    requires urlOk(info.contentUrl)
    ensures FromMap(ToMap(info, defaultDuration, keys), urlOk).Some?
    ensures var r := FromMap(ToMap(info, defaultDuration, keys), urlOk).value;
            r.contentUrl == info.contentUrl && r.contentType == info.contentType
            && r.streamType == StreamUnknown && r.metadata.None? && r.contentId.None?
            && r.streamDuration == Some(ReportedDuration(info.streamDuration.GetOr(defaultDuration)))
            && (r.mediaTracks.Some? <==> info.mediaTracks.Some?)
            && (info.mediaTracks.Some? ==> |r.mediaTracks.value| == |info.mediaTracks.value|)
  {
    var m := ToMap(info, defaultDuration, keys);
    SerialisedMetadataDoesNotParse(info, defaultDuration, keys, urlOk);
    assert Get(m, "contentURL") == Str(info.contentUrl);
    assert SwiftString(Get(m, "streamType")).None?;
    if info.contentType.Some? {
      assert Get(m, "contentType") == Str(info.contentType.value);
    } else {
      assert Get(m, "contentType") == Null;
    }
    if info.mediaTracks.Some? {
      var maps := TrackMaps(info.mediaTracks.value);
      assert Get(m, "tracks") == List(maps);
      assert forall i :: 0 <= i < |maps| ==> maps[i].Map?;
    } else {
      assert Get(m, "tracks") == Null;
    }
  }

  /** The metadata entry of a serialised media information is absent or
      does not parse. */
  lemma SerialisedMetadataDoesNotParse(info: MediaInfo, defaultDuration: Float, keys: IosMetadata.SdkKeys, urlOk: UrlCheck)
    ensures var v := Get(ToMap(info, defaultDuration, keys), "metadata");
            v == Null || (v.Map? && IosMetadata.Parse(v.entries, urlOk).None?)
  {
    if info.metadata.Some? {
      IosMetadata.SerialisedDoesNotParse(info.metadata.value, keys, urlOk);
    }
  }
}
