/**
 * iOS seek and queue-load options
 * (ios/flutter_chrome_cast/Sources/flutter_chrome_cast/Extensions/SeekOptionsExtensions.swift and
 * ios/Classes/Extensions/QueuLoadOptions.swift).
 *
 * Neither parser fails on a missing or mistyped entry: each field falls
 * back to a default. The two enumerations are imported C enumerations whose
 * `init(rawValue:)` accepts every integer, so they are kept as raw values.
 */
module IosOptions {
  import opened HostValues

  /** `GCKMediaResumeState`. */
  const RESUME_STATE_UNCHANGED: Int64 := 0
  const RESUME_STATE_PLAY: Int64 := 1
  const RESUME_STATE_PAUSE: Int64 := 2

  /** `GCKMediaRepeatMode`. */
  const REPEAT_MODE_UNCHANGED: Int64 := 0
  const REPEAT_MODE_OFF: Int64 := 1

  /** A `GCKMediaSeekOptions` after `fromMap`; `interval` is `None` when the
      parser left the initializer's value in place. */
  datatype SeekOptions = SeekOptions(interval: Option<Float>, relative: bool, resumeState: Int64, seekToInfinite: bool)

  /** `GCKMediaSeekOptions.fromMap`: the position as an integer, else as a
      double; the flags false unless given as true; the resume state raw,
      or play when it is not an integer. */
  function SeekFromMap(args: Dict): (o: SeekOptions)
    ensures o.interval.None? <==> !(Get(args, "position").Int? || Get(args, "position").Long? || Get(args, "position").Double?)
    ensures SwiftInt(Get(args, "position")).Some? ==> o.interval == Some(OfInt(SwiftInt(Get(args, "position")).value))
    ensures SwiftInt(Get(args, "position")).None? ==> o.interval == SwiftDouble(Get(args, "position"))
    ensures o.relative <==> Get(args, "relative") == Bool(true)
    ensures o.seekToInfinite <==> Get(args, "seekToInfinity") == Bool(true)
    ensures SwiftInt(Get(args, "resumeState")).Some? ==> o.resumeState == SwiftInt(Get(args, "resumeState")).value
    ensures SwiftInt(Get(args, "resumeState")).None? ==> o.resumeState == RESUME_STATE_PLAY
  {
    var position := Get(args, "position");
    var interval :=
      if SwiftInt(position).Some? then Some(OfInt(SwiftInt(position).value))
      else SwiftDouble(position);
    var resumeState := Get(args, "resumeState");
    SeekOptions(
      interval,
      SwiftBool(Get(args, "relative")).GetOr(false),
      if SwiftInt(resumeState).Some? then SwiftInt(resumeState).value else RESUME_STATE_PLAY,
      SwiftBool(Get(args, "seekToInfinity")).GetOr(false))
  }

  /** A missing resume state resumes playback, while an explicit 0 leaves
      the playback state unchanged: absent and 0 differ. */
  lemma AbsentResumeStateIsPlay(args: Dict)
    ensures SeekFromMap(args - {"resumeState"}).resumeState == RESUME_STATE_PLAY
    ensures SeekFromMap(args["resumeState" := Int(0)]).resumeState == RESUME_STATE_UNCHANGED
  {
    assert Get(args - {"resumeState"}, "resumeState") == Null;
  }

  /** A whole-number double position is taken by the integer branch and
      becomes the conversion of that integer. */
  lemma WholeDoublePositionIsInteger(args: Dict)
    requires Get(args, "position") == Double(Bits(0x4008_0000_0000_0000))
    ensures SeekFromMap(args).interval == Some(OfInt(3))
  {
    WholeDoubleIsInt();
  }

  /** A `GCKMediaQueueLoadOptions` after `fromMap`. */
  datatype QueueLoadOptions = QueueLoadOptions(startIndex: nat, playPosition: Float, repeatMode: Int64, customData: Option<Dict>)

  /** `GCKMediaQueueLoadOptions.fromMap`: nil only for a nil dictionary;
      otherwise every entry defaults, the repeat mode to raw value 0. */
  function QueueLoadFromMap(args: Option<Dict>): (r: Option<QueueLoadOptions>)
    ensures r.None? <==> args.None?
    ensures r.Some? && SwiftUInt(Get(args.value, "startIndex")).Some? ==>
              r.value.startIndex == SwiftUInt(Get(args.value, "startIndex")).value
    ensures r.Some? && SwiftUInt(Get(args.value, "startIndex")).None? ==> r.value.startIndex == 0
    ensures r.Some? && SwiftDouble(Get(args.value, "playPosition")).Some? ==>
              r.value.playPosition == SwiftDouble(Get(args.value, "playPosition")).value
    ensures r.Some? && SwiftDouble(Get(args.value, "playPosition")).None? ==> r.value.playPosition == ZERO
    ensures r.Some? && SwiftInt(Get(args.value, "repeatMode")).Some? ==>
              r.value.repeatMode == SwiftInt(Get(args.value, "repeatMode")).value
    ensures r.Some? && SwiftInt(Get(args.value, "repeatMode")).None? ==> r.value.repeatMode == REPEAT_MODE_UNCHANGED
    ensures r.Some? ==> (r.value.customData.Some? <==> Get(args.value, "customData").Map?)
    ensures r.Some? && r.value.customData.Some? ==> r.value.customData.value == Get(args.value, "customData").entries
  {
    if args.None? then None
    else
      var d := args.value;
      Some(QueueLoadOptions(
        SwiftUInt(Get(d, "startIndex")).GetOr(0),
        SwiftDouble(Get(d, "playPosition")).GetOr(ZERO),
        SwiftInt(Get(d, "repeatMode")).GetOr(0),
        SwiftDictionary(Get(d, "customData"))))
  }

  /** A missing repeat mode is raw value 0, which is "unchanged" and not
      "off": the `.off` fallback is never taken. */
  lemma AbsentRepeatModeIsUnchanged(d: Dict)
    requires "repeatMode" !in d
    ensures QueueLoadFromMap(Some(d)).value.repeatMode == REPEAT_MODE_UNCHANGED != REPEAT_MODE_OFF
  {
    assert Get(d, "repeatMode") == Null;
  }

  /** A negative start index does not cast to an unsigned integer and
      starts the queue at its first item. */
  lemma NegativeStartIndexIsZero(d: Dict, i: Int32)
    requires i < 0 && Get(d, "startIndex") == Int(i)
    ensures QueueLoadFromMap(Some(d)).value.startIndex == 0
  {
  }

  /** A boolean start index bridges through `NSNumber`: `true` starts the
      queue at index 1 and `false` at index 0. */
  lemma BooleanStartIndex(d: Dict, b: bool)
    requires Get(d, "startIndex") == Bool(b)
    ensures QueueLoadFromMap(Some(d)).value.startIndex == if b then 1 else 0
  {
  }
}
