/**
 * iOS media tracks (ios/Classes/Extensions/MediaTrack.swift).
 *
 * The parser never fails: every field has a default. The serialiser writes
 * its own key names, several of which differ from the ones the parser
 * reads.
 */
module IosTrack {
  import opened HostValues

  /** `GCKMediaTrackType`: an imported C enumeration, kept as its raw value;
      its `init(rawValue:)` accepts every integer. */
  const TRACK_TYPE_UNKNOWN: Int64 := 0
  /** `GCKMediaTextTrackSubtype.unknown`. */
  const TEXT_SUBTYPE_UNKNOWN: Int64 := 0

  /** A `GCKMediaTrack` as the initializer leaves it. */
  datatype MediaTrack = MediaTrack(
    identifier: Int64,
    contentIdentifier: Option<string>,
    contentType: string,
    trackType: Int64,
    textSubtype: Int64,
    name: Option<string>,
    languageCode: Option<string>,
    customData: Option<Value>)

  /** `GCKMediaTrack.fromMap`: every cast that fails falls back to its
      default, and the custom data is never set. */
  function FromMap(m: Dict): (t: MediaTrack)
    ensures t.identifier == SwiftInt(Get(m, "trackId")).GetOr(0)
    ensures SwiftInt(Get(m, "trackId")).None? ==> t.identifier == 0
    ensures t.contentIdentifier == SwiftString(Get(m, "trackContentId"))
    ensures t.contentType == SwiftString(Get(m, "trackContentType")).GetOr("")
    ensures SwiftInt(Get(m, "type")).None? ==> t.trackType == TRACK_TYPE_UNKNOWN
    ensures SwiftInt(Get(m, "type")).Some? ==> t.trackType == SwiftInt(Get(m, "type")).value
    ensures SwiftInt(Get(m, "subtype")).None? ==> t.textSubtype == TEXT_SUBTYPE_UNKNOWN
    ensures SwiftInt(Get(m, "subtype")).Some? ==> t.textSubtype == SwiftInt(Get(m, "subtype")).value
    ensures t.name == SwiftString(Get(m, "name")) && t.languageCode == SwiftString(Get(m, "language"))
    ensures t.customData.None?
  {
    var identifier := SwiftInt(Get(m, "trackId")).GetOr(0);
    var trackType := if SwiftInt(Get(m, "type")).Some? then SwiftInt(Get(m, "type")).value else TRACK_TYPE_UNKNOWN;
    var subtype := if SwiftInt(Get(m, "subtype")).Some? then SwiftInt(Get(m, "subtype")).value else TEXT_SUBTYPE_UNKNOWN;
    MediaTrack(
      identifier,
      SwiftString(Get(m, "trackContentId")),
      SwiftString(Get(m, "trackContentType")).GetOr(""),
      trackType,
      subtype,
      SwiftString(Get(m, "name")),
      SwiftString(Get(m, "language")),
      None)
  }

  /** `GCKMediaTrack.toMap`: identifier, content type and the two raw enum
      values always (`ToMapFixedKeys`); the optional fields only when set. */
  function ToMap(t: MediaTrack): (m: Dict)
    ensures ("name" in m <==> t.name.Some?) && ("language_code" in m <==> t.languageCode.Some?)
    ensures ("content_id" in m <==> t.contentIdentifier.Some?) && ("custom_data" in m <==> t.customData.Some?)
    ensures t.name.Some? ==> m["name"] == Str(t.name.value)
    ensures t.languageCode.Some? ==> m["language_code"] == Str(t.languageCode.value)
    ensures t.contentIdentifier.Some? ==> m["content_id"] == Str(t.contentIdentifier.value)
    ensures t.customData.Some? ==> m["custom_data"] == t.customData.value
  {
    KeysDistinct();
    var m := map["id" := Integer(t.identifier),
                  "content_type" := Str(t.contentType),
                  "type" := Integer(t.trackType)];
    var m := SwiftAssign(m, "language_code", OptionalStr(t.languageCode));
    var m := SwiftAssign(m, "name", OptionalStr(t.name));
    var m := m["subtype" := Integer(t.textSubtype)];
    var m := SwiftAssign(m, "content_id", OptionalStr(t.contentIdentifier));
    SwiftAssign(m, "custom_data", t.customData)
  }

  /** Identifier, content type, type and subtype are always written. */
  lemma ToMapFixedKeys(t: MediaTrack)
    ensures var m := ToMap(t);
            && {"id", "content_type", "type", "subtype"} <= m.Keys
            && m["id"] == Integer(t.identifier) && m["type"] == Integer(t.trackType)
            && m["subtype"] == Integer(t.textSubtype) && m["content_type"] == Str(t.contentType)
  {
    KeysDistinct();
    var m0 := map["id" := Integer(t.identifier), "content_type" := Str(t.contentType), "type" := Integer(t.trackType)];
    var m1 := SwiftAssign(m0, "language_code", OptionalStr(t.languageCode));
    AssignKeepsOther(m0, "language_code", OptionalStr(t.languageCode), "id");
    AssignKeepsOther(m0, "language_code", OptionalStr(t.languageCode), "type");
    AssignKeepsOther(m0, "language_code", OptionalStr(t.languageCode), "content_type");
    var m2 := SwiftAssign(m1, "name", OptionalStr(t.name));
    AssignKeepsOther(m1, "name", OptionalStr(t.name), "id");
    AssignKeepsOther(m1, "name", OptionalStr(t.name), "type");
    AssignKeepsOther(m1, "name", OptionalStr(t.name), "content_type");
    var m3 := m2["subtype" := Integer(t.textSubtype)];
    var m4 := SwiftAssign(m3, "content_id", OptionalStr(t.contentIdentifier));
    AssignKeepsOther(m3, "content_id", OptionalStr(t.contentIdentifier), "id");
    AssignKeepsOther(m3, "content_id", OptionalStr(t.contentIdentifier), "type");
    AssignKeepsOther(m3, "content_id", OptionalStr(t.contentIdentifier), "content_type");
    AssignKeepsOther(m3, "content_id", OptionalStr(t.contentIdentifier), "subtype");
    var m5 := SwiftAssign(m4, "custom_data", t.customData);
    AssignKeepsOther(m4, "custom_data", t.customData, "id");
    AssignKeepsOther(m4, "custom_data", t.customData, "type");
    AssignKeepsOther(m4, "custom_data", t.customData, "content_type");
    AssignKeepsOther(m4, "custom_data", t.customData, "subtype");
    assert ToMap(t) == m5;
  }

  /** `toMap` writes no key besides the eight it names. */
  lemma ToMapKeys(t: MediaTrack)
    ensures ToMap(t).Keys <= {"id", "content_type", "type", "subtype", "language_code", "name", "content_id", "custom_data"}
  {
  }

  /** The serialiser's key names are pairwise distinct. */
  lemma KeysDistinct()
    ensures "id" != "language_code" && "id" != "name" && "id" != "content_id" && "id" != "custom_data" && "id" != "subtype"
    ensures "type" != "language_code" && "type" != "name" && "type" != "content_id" && "type" != "custom_data" && "type" != "subtype"
    ensures "content_type" != "language_code" && "content_type" != "name" && "content_type" != "content_id" && "content_type" != "custom_data" && "content_type" != "subtype"
    ensures "subtype" != "content_id" && "subtype" != "custom_data" && "name" != "content_id" && "name" != "custom_data"
  {
  }

  /** The serialiser writes `id`, `content_type`, `content_id` and
      `language_code` where the parser reads `trackId`, `trackContentType`,
      `trackContentId` and `language`: parsing a serialised track keeps only
      its type, subtype and name and resets everything else to the
      defaults. */
  lemma NoKeyRoundTrip(t: MediaTrack)
    ensures FromMap(ToMap(t)) == MediaTrack(0, None, "", t.trackType, t.textSubtype, t.name, None, None)
  {
    var m := ToMap(t);
    ToMapFixedKeys(t);
    ToMapKeys(t);
    ParseSerialised(m, t);
  }

  /** What the parser reads from a dictionary that has none of its own
      identifier, content-type, content-id and language keys. */
  lemma ParseSerialised(m: Dict, t: MediaTrack)
    requires "trackId" !in m && "trackContentId" !in m && "trackContentType" !in m && "language" !in m
    requires "type" in m && m["type"] == Integer(t.trackType)
    requires "subtype" in m && m["subtype"] == Integer(t.textSubtype)
    requires "name" in m <==> t.name.Some?
    requires t.name.Some? ==> m["name"] == Str(t.name.value)
    ensures FromMap(m) == MediaTrack(0, None, "", t.trackType, t.textSubtype, t.name, None, None)
  {
    assert Get(m, "trackId") == Null && Get(m, "trackContentId") == Null;
    assert Get(m, "trackContentType") == Null && Get(m, "language") == Null;
    assert Get(m, "type") == Integer(t.trackType) && Get(m, "subtype") == Integer(t.textSubtype);
    if t.name.Some? {
      assert Get(m, "name") == Str(t.name.value);
    } else {
      assert Get(m, "name") == Null;
    }
  }
}
