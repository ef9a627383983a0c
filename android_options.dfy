/**
 * Android load and seek options
 * (android/src/main/kotlin/com/felnanuke/google_cast/extensions/MediaLoadOptionsExtensions.kt and
 * android/src/main/kotlin/com/felnanuke/google_cast/extensions/SeekOptionsExtensions.kt).
 *
 * Both parsers convert a position in whole seconds to milliseconds with a
 * 32-bit multiplication before widening to `Long`.
 */
module AndroidOptions {
  import opened HostValues

  /** A `MediaLoadOptions` as the builder leaves it. */
  datatype MediaLoadOptions = MediaLoadOptions(
    autoplay: bool,
    playPosition: Int64,
    activeTrackIds: Option<seq<LongValue>>,
    credentials: Option<string>,
    credentialsType: Option<string>,
    playbackRate: Float)

  /** `GoogleCastMediaLoadOptions.fromMap`: autoplay, position and rate are
      required; the track ids are set only when given; the credentials are
      set even when null. */
  function LoadOptionsFromMap(m: Dict): (r: Result<MediaLoadOptions>)
    ensures r.Ok? <==>
              Get(m, "autoPlay").Bool? && Get(m, "playPosition").Int? && Get(m, "playbackRate").Double?
              && AsListOrNull(Get(m, "activeTrackIds")).Ok?
              && (Get(m, "activeTrackIds").List? ==> NumbersToLongs(Get(m, "activeTrackIds").elems).Ok?)
              && AsStringOrNull(Get(m, "credentials")).Ok? && AsStringOrNull(Get(m, "credentialsType")).Ok?
    ensures r.Ok? ==> r.value.autoplay == Get(m, "autoPlay").b
                      && r.value.playPosition == IntSecondsToMillis(Get(m, "playPosition").i)
                      && r.value.playbackRate == Get(m, "playbackRate").d
    ensures r.Ok? ==> (r.value.activeTrackIds.None? <==> Get(m, "activeTrackIds") == Null)
    ensures r.Ok? && r.value.activeTrackIds.Some? ==>
              NumbersToLongs(Get(m, "activeTrackIds").elems) == Ok(r.value.activeTrackIds.value)
    ensures r.Ok? ==> NullableString(r.value.credentials) == Get(m, "credentials")
                      && NullableString(r.value.credentialsType) == Get(m, "credentialsType")
  {
    var autoPlay :- AsBoolean(Get(m, "autoPlay"));
    var playPosition :- AsInt(Get(m, "playPosition"));
    var activeTrackIdsData :- AsListOrNull(Get(m, "activeTrackIds"));
    var credentials :- AsStringOrNull(Get(m, "credentials"));
    var credentialsType :- AsStringOrNull(Get(m, "credentialsType"));
    var playbackRate :- AsDouble(Get(m, "playbackRate"));
    var activeTrackIds :- if activeTrackIdsData.Some? then
                            var ids :- NumbersToLongs(activeTrackIdsData.value); Ok(Some(ids))
                          else Ok(None);
    Ok(MediaLoadOptions(autoPlay, IntSecondsToMillis(playPosition), activeTrackIds, credentials, credentialsType, playbackRate))
  }

  /** A `MediaSeekOptions` as the builder leaves it; the relative flag is
      never set. */
  datatype MediaSeekOptions = MediaSeekOptions(position: Int64, resumeState: Int32, isSeekToInfinite: bool)

  /** `GoogleCastSeekOptionsBuilder.fromMap`: all three entries are required
      and have no default. */
  function SeekOptionsFromMap(m: Dict): (r: Result<MediaSeekOptions>)
    ensures r.Ok? <==> Get(m, "position").Int? && Get(m, "resumeState").Int? && Get(m, "seekToInfinity").Bool?
    ensures r.Ok? ==> r.value.position == IntSecondsToMillis(Get(m, "position").i)
                      && r.value.resumeState == Get(m, "resumeState").i
                      && r.value.isSeekToInfinite == Get(m, "seekToInfinity").b
  {
    var position :- AsInt(Get(m, "position"));
    var resumeState :- AsInt(Get(m, "resumeState"));
    var seekToInfinity :- AsBoolean(Get(m, "seekToInfinity"));
    Ok(MediaSeekOptions(IntSecondsToMillis(position), resumeState, seekToInfinity))
  }

  /** A position within 2147483 seconds either way reaches the SDK as the
      exact number of milliseconds; one second more and the seek target is
      negative. */
  lemma SeekPositionRange(m: Dict)
    requires SeekOptionsFromMap(m).Ok?
    ensures -2147483 <= Get(m, "position").i <= 2147483 ==>
              SeekOptionsFromMap(m).value.position == Get(m, "position").i * 1000
    ensures Get(m, "position") == Int(2147484) ==> SeekOptionsFromMap(m).value.position < 0
  {
    MillisWrapAround();
  }

  /** The same conversion makes a load at 2147484 seconds start before the
      beginning. */
  lemma LoadPositionWraps(m: Dict)
    requires LoadOptionsFromMap(m).Ok? && Get(m, "playPosition") == Int(2147484)
    ensures LoadOptionsFromMap(m).value.playPosition == -2147483296
  {
    MillisWrapAround();
  }
}
