# flutter_google_cast: a Dafny model of the platform-side core

flutter_google_cast is a Flutter plugin that drives Google Cast receivers
through the native Cast SDKs on Android (Kotlin) and iOS (Swift). The host
side talks to the native side over method channels, exchanging dictionaries
of tagged values. This project models the native code that keeps state
between callbacks and the code that turns those dictionaries into SDK
records and back:

- **iOS queue mirror** (`queue_mirror.dfy`): the `RemoteMediaClient` class
  keeps `queueOrder` (ordered item ids) and `queueItems` (contents by id),
  patches them from the receiver's id-level callbacks, and emits the
  ordered view, which skips ids whose contents have not arrived.
- **Android device list** (`android_discovery.dfy`): the first-wins filter
  that drops a route whose device id or `name_model` signature was already
  seen, and `selectRoute`.
- **iOS device table** (`ios_discovery.dfy`): the `DiscoveryManager` class
  with its index-keyed table and the list sorted by index, descending.
- **Android session snapshot** (`android_session.dfy`): the priority-ordered
  connection state and the session map.
- **Parsers and serialisers**: Android tracks, media information, metadata,
  queue items, load and seek options (`android_*.dfy`); iOS media
  information, metadata, tracks, seek and queue-load options (`ios_*.dfy`).
- **Host values** (`host_values.dfy`): the tagged values the codec
  delivers, Kotlin's exact-type casts (a failed cast is `Thrown`), Swift's
  conditional casts with NSNumber bridging (`as? Int` accepts a whole-number
  double, `as? Double` an integer with an exact double), the 32-bit
  seconds-to-milliseconds conversion, and a symbolic floating-point value.

Every dictionary parser is a function on values. Where the source walks a
structure with a loop (the queue view, the device filter, the metadata
entry loops, the list parsers), the loop is a method proved equal to that
function. The lemmas then state what the source promises, or the
discrepancies it contains, about the function.

Two behaviours of the queue mirror are easy to misread. Inserting an id
that is already in the queue inserts it again, so the order can hold
duplicates (`InsertExamples`). A full id list fetches every id, including
ids whose contents are already stored (`DidReceiveQueueItemIds`).

## Model

| member | source | states |
|---|---|---|
| QueueMirror.Ordered | ios/Classes/RemoteMediaClienteMethodChannel.swift:75-84 | the ordered view has at most one item per id of the order |
| QueueMirror.Without | ios/Classes/RemoteMediaClienteMethodChannel.swift:353-356 | removal never lengthens the order |
| QueueMirror.FirstIndex | ios/Classes/RemoteMediaClienteMethodChannel.swift:370 | `firstIndex(of:)`: none exactly when the id is absent, otherwise a position holding the id with no earlier occurrence |
| QueueMirror.FirstIndexIs | ios/Classes/RemoteMediaClienteMethodChannel.swift:370 | a position holding the id with no earlier occurrence is the one `firstIndex(of:)` finds |
| QueueMirror.InsertedBefore | ios/Classes/RemoteMediaClienteMethodChannel.swift:369-378 | an insert adds exactly as many ids as it was given |
| QueueMirror.Stored | ios/Classes/RemoteMediaClienteMethodChannel.swift:336-339 | storing a batch of contents keys the table by the old ids plus the batch ids |
| QueueMirror.RemoteMediaClient.constructor | ios/Classes/RemoteMediaClienteMethodChannel.swift:67-71 | the mirror starts with an empty order and an empty table |
| QueueMirror.RemoteMediaClient.OrderedQueueItems | ios/Classes/RemoteMediaClienteMethodChannel.swift:75-84 | the loop computes the ordered view of the current order and table |
| QueueMirror.RemoteMediaClient.DidReceiveQueueItems | ios/Classes/RemoteMediaClienteMethodChannel.swift:336-342 | received contents are stored by id, the order is untouched, and the new ordered view is emitted |
| QueueMirror.RemoteMediaClient.DidRemoveQueueItems | ios/Classes/RemoteMediaClienteMethodChannel.swift:351-363 | removed ids leave both the order (every occurrence) and the table, and the new view is emitted |
| QueueMirror.RemoteMediaClient.DidUpdateQueueItems | ios/Classes/RemoteMediaClienteMethodChannel.swift:365-367 | an update changes no state and only asks for the contents of exactly those ids |
| QueueMirror.RemoteMediaClient.DidInsertQueueItems | ios/Classes/RemoteMediaClienteMethodChannel.swift:369-378 | the order becomes the insert before the anchor (append when the anchor is unknown), the table is unchanged, and exactly the inserted ids are fetched |
| QueueMirror.RemoteMediaClient.DidReceiveQueueItemIds | ios/Classes/RemoteMediaClienteMethodChannel.swift:380-383 | a full id list replaces the order, keeps the table and fetches exactly those ids |
| QueueMirror.RemoteMediaClient.OnSessionEnd | ios/Classes/RemoteMediaClienteMethodChannel.swift:398-402 | a session end empties both structures and emits the empty view |
| QueueMirror.RemoteMediaClient.DidUpdateMediaStatus | ios/Classes/RemoteMediaClienteMethodChannel.swift:330-332 | a finished idle reason ends the queue as a session end does; any other status leaves the mirror unchanged |
| QueueMirror.OrderedConcat | ios/Classes/RemoteMediaClienteMethodChannel.swift:75-84 | the view of a concatenated order is the concatenation of the views |
| QueueMirror.OrderedMembership | ios/Classes/RemoteMediaClienteMethodChannel.swift:75-84 | an item is in the view exactly when some id of the order has it as contents |
| QueueMirror.OrderedComplete | ios/Classes/RemoteMediaClienteMethodChannel.swift:75-84 | when every id has contents the view is the whole order looked up, position by position |
| QueueMirror.OrderedNothingFetched | ios/Classes/RemoteMediaClienteMethodChannel.swift:75-84 | ids whose contents have not arrived contribute nothing to the view |
| QueueMirror.SnapshotGapExample | ios/Classes/RemoteMediaClienteMethodChannel.swift:75-84 | a two-id order shows nothing before a fetch and only the fetched item after it |
| QueueMirror.WithoutMembership | ios/Classes/RemoteMediaClienteMethodChannel.swift:353-356 | an id survives removal exactly when it was in the order and not removed |
| QueueMirror.WithoutIsSubsequence | ios/Classes/RemoteMediaClienteMethodChannel.swift:353-356 | the ids that survive keep their relative order |
| QueueMirror.WithoutAbsent | ios/Classes/RemoteMediaClienteMethodChannel.swift:353-356 | removing ids none of which is present changes nothing |
| QueueMirror.RemovalIdempotent | ios/Classes/RemoteMediaClienteMethodChannel.swift:351-363 | removing the same ids twice leaves the state of one removal |
| QueueMirror.WithoutNoDuplicates | ios/Classes/RemoteMediaClienteMethodChannel.swift:353-356 | removal keeps an order without duplicates without duplicates |
| QueueMirror.InsertAnchored | ios/Classes/RemoteMediaClienteMethodChannel.swift:375 | with the anchor at its first position i, the ids are spliced in at i and the anchor follows them |
| QueueMirror.InsertUnanchored | ios/Classes/RemoteMediaClienteMethodChannel.swift:370-373 | with an unknown anchor the ids are appended |
| QueueMirror.InsertedMultiset | ios/Classes/RemoteMediaClienteMethodChannel.swift:369-378 | an insert loses nothing and deduplicates nothing: the new order holds the old ids plus the inserted ones |
| QueueMirror.InsertExamples | ios/Classes/RemoteMediaClienteMethodChannel.swift:369-378 | concrete inserts: before an anchor, with an unknown anchor, and of an id already present (kept twice) |
| QueueMirror.StoredLastWins | ios/Classes/RemoteMediaClienteMethodChannel.swift:337-339 | each received item is stored under its id, and the last of several with one id wins |
| QueueMirror.StoredElsewhereUnchanged | ios/Classes/RemoteMediaClienteMethodChannel.swift:337-339 | ids not in the batch keep their contents |
| AndroidDiscovery.DeviceToMap | android/src/main/kotlin/com/felnanuke/google_cast/extensions/CastDeviceExtensions.kt:46-54 | the five keys of the device map, the id as a nullable string |
| AndroidDiscovery.RouteDevices | android/src/main/kotlin/com/felnanuke/google_cast/DiscoveryManagerMethodChannel.kt:128-130 | the devices carried by routes, at most one per route |
| AndroidDiscovery.Dedup | android/src/main/kotlin/com/felnanuke/google_cast/DiscoveryManagerMethodChannel.kt:139-144 | the first-wins filter keeps at most as many devices as it is given |
| AndroidDiscovery.GetCastDevicesMap | android/src/main/kotlin/com/felnanuke/google_cast/DiscoveryManagerMethodChannel.kt:123-154 | the loop with its two seen-sets emits exactly the first-wins filter of the route devices |
| AndroidDiscovery.SelectRoute | android/src/main/kotlin/com/felnanuke/google_cast/DiscoveryManagerMethodChannel.kt:157-166 | none exactly when no route matches the id, otherwise a matching route; it is the first one |
| AndroidDiscovery.DedupUnique | android/src/main/kotlin/com/felnanuke/google_cast/DiscoveryManagerMethodChannel.kt:139-144 | every kept device has an id, and no two kept devices share an id or a name/model signature |
| AndroidDiscovery.DedupSubsequence | android/src/main/kotlin/com/felnanuke/google_cast/DiscoveryManagerMethodChannel.kt:128-150 | the kept devices appear in the input, in input order |
| AndroidDiscovery.DevicesFromRoutes | android/src/main/kotlin/com/felnanuke/google_cast/DiscoveryManagerMethodChannel.kt:123-154 | the emitted list is drawn from the route devices in route order and is no longer than the route list |
| AndroidDiscovery.DedupCovers | android/src/main/kotlin/com/felnanuke/google_cast/DiscoveryManagerMethodChannel.kt:139-148 | a device with an id is dropped only when a kept device already has its id or its signature |
| AndroidDiscovery.DedupPrefix | android/src/main/kotlin/com/felnanuke/google_cast/DiscoveryManagerMethodChannel.kt:128-150 | the devices kept from a prefix of the routes are a prefix of those kept from all of them |
| AndroidDiscovery.FirstDeviceWins | android/src/main/kotlin/com/felnanuke/google_cast/DiscoveryManagerMethodChannel.kt:139-144 | a first device with an id is always kept, first |
| AndroidDiscovery.DedupIdempotent | android/src/main/kotlin/com/felnanuke/google_cast/DiscoveryManagerMethodChannel.kt:139-144 | filtering the filtered list changes nothing |
| AndroidDiscovery.DedupOfUnique | android/src/main/kotlin/com/felnanuke/google_cast/DiscoveryManagerMethodChannel.kt:139-144 | a list with ids and with distinct ids and signatures passes unchanged |
| AndroidDiscovery.SignatureExamples | android/src/main/kotlin/com/felnanuke/google_cast/DiscoveryManagerMethodChannel.kt:134 | two receivers with one name and model collapse to one; a name containing `_` can collide; a null name renders as `null` |
| IosDiscovery.KeysDescending | ios/Classes/DiscoveryManagerMethodChannel.swift:61-63 | the sort yields one stored index per stored index, strictly descending |
| IosDiscovery.KeysDescendingCovers | ios/Classes/DiscoveryManagerMethodChannel.swift:61-63 | every stored index appears in the sorted sequence |
| IosDiscovery.Entry | ios/Classes/DiscoveryManagerMethodChannel.swift:65-68 | the entry for a device carries its index |
| IosDiscovery.EntryKeepsDescription | ios/Classes/DiscoveryManagerMethodChannel.swift:65-68 | every other key of the device dictionary is sent unchanged |
| IosDiscovery.EntriesOf | ios/Classes/DiscoveryManagerMethodChannel.swift:64-69 | one entry per index, in the order given |
| IosDiscovery.Snapshot | ios/Classes/DiscoveryManagerMethodChannel.swift:59-70 | one entry per stored device, indices strictly descending |
| IosDiscovery.SnapshotHasOnlyStored | ios/Classes/DiscoveryManagerMethodChannel.swift:59-70 | every entry sent is a stored device tagged with its own index |
| IosDiscovery.SnapshotHasEveryStored | ios/Classes/DiscoveryManagerMethodChannel.swift:59-70 | every stored device is sent, tagged with its index |
| IosDiscovery.IndexRoundTrip | ios/Classes/DiscoveryManagerMethodChannel.swift:67 | the index written into an entry reads back as that index |
| IosDiscovery.DiscoveryManager.constructor | ios/Classes/DiscoveryManagerMethodChannel.swift:27 | the table starts empty |
| IosDiscovery.DiscoveryManager.DidUpdate | ios/Classes/DiscoveryManagerMethodChannel.swift:47-49 | the entry at the index is overwritten and no other index changes |
| IosDiscovery.DiscoveryManager.DidInsert | ios/Classes/DiscoveryManagerMethodChannel.swift:51-53 | the same overwrite; later indices are not shifted |
| IosDiscovery.DiscoveryManager.DidRemove | ios/Classes/DiscoveryManagerMethodChannel.swift:55-57 | only the index is erased; an absent index changes nothing |
| IosDiscovery.DiscoveryManager.DidUpdateDeviceList | ios/Classes/DiscoveryManagerMethodChannel.swift:59-70 | the list sent is the descending snapshot of the table |
| IosDiscovery.InsertThenRemove | ios/Classes/DiscoveryManagerMethodChannel.swift:51-57 | an insert at a fresh index adds exactly one entry, and removing it restores the previous list |
| AndroidSession.ConnectState | android/src/main/kotlin/com/felnanuke/google_cast/extensions/SessionExtensions.kt:18-26 | the state is in 0..3, and each value holds exactly when its flag is the first one set (0 also when none is) |
| AndroidSession.ToMap | android/src/main/kotlin/com/felnanuke/google_cast/extensions/SessionExtensions.kt:7-16 | the six keys and their values: device map or null, id, state, mute, status, volume |
| AndroidSession.DisconnectedDominates | android/src/main/kotlin/com/felnanuke/google_cast/extensions/SessionExtensions.kt:19-20 | a disconnected session reports 0 whatever its other flags say |
| AndroidSession.StateOnlyFromFlags | android/src/main/kotlin/com/felnanuke/google_cast/extensions/SessionExtensions.kt:18-26 | the reported state depends on the four flags only |
| AndroidTrack.FromMap | android/src/main/kotlin/com/felnanuke/google_cast/extensions/MediaTrackExtensions.kt:11-34 | fails exactly when a required key is missing or mistyped; id, type and content id as given; subtype and custom data unset exactly when absent, otherwise the given `Int` and map; content type, name and language are the given strings, unset when absent |
| AndroidTrack.ListFromMap | android/src/main/kotlin/com/felnanuke/google_cast/extensions/MediaTrackExtensions.kt:36-41 | fails exactly when some element is not a map or does not parse; otherwise one track per element |
| AndroidTrack.ToMap | android/src/main/kotlin/com/felnanuke/google_cast/extensions/MediaTrackExtensions.kt:45-55 | the seven keys written, no custom data, the id as a 64-bit integer, an unset subtype as the SDK default |
| AndroidTrack.RoundTrip | android/src/main/kotlin/com/felnanuke/google_cast/extensions/MediaTrackExtensions.kt:11-55 | parsing the serialised track gives it back without custom data when the id fits 32 bits, and throws otherwise |
| AndroidMediaInfo.FromMap | android/src/main/kotlin/com/felnanuke/google_cast/extensions/MediaInfoExtensions.kt:26-52 | throws without a string content id; URL, type and tracks (unset when empty) as given; custom data unset exactly when absent, otherwise the given map; the metadata parser gets the creation key the host map visits last; never null |
| AndroidMediaInfo.MetadataFromEntry | android/src/main/kotlin/com/felnanuke/google_cast/extensions/MediaInfoExtensions.kt:33-34 | the metadata set is what the metadata parser makes of the entry, with the creation key the host map visits last, an absent entry read as an empty map |
| AndroidMediaInfo.MetadataIsLoopResult | android/src/main/kotlin/com/felnanuke/google_cast/extensions/MetadataExtensions.kt:11-65 | for any visiting order of the metadata entry that agrees with the host map on which creation key comes last, the metadata set is the one the entry loop builds |
| AndroidMetadata.DateKeyOf | android/src/main/kotlin/com/felnanuke/google_cast/extensions/MetadataExtensions.kt:20-40 | the four host date keys and the SDK date each lands on; both creation keys land on the creation date |
| AndroidMetadata.ImageFromMap | android/src/main/kotlin/com/felnanuke/google_cast/extensions/MetadataExtensions.kt:67-72 | the URL is required; a given `Int` width or height is used, and each defaults to 250 when absent |
| AndroidMetadata.ImagesFromMaps | android/src/main/kotlin/com/felnanuke/google_cast/extensions/MetadataExtensions.kt:55-59 | fails exactly when an element is not a map or does not parse; one image per element |
| AndroidMetadata.FromMapSpec | android/src/main/kotlin/com/felnanuke/google_cast/extensions/MetadataExtensions.kt:11-65 | no metadata exactly for an empty map |
| AndroidMetadata.FromMap | android/src/main/kotlin/com/felnanuke/google_cast/extensions/MetadataExtensions.kt:11-65 | the loop over the entries in a given visiting order returns `FromMapSpec` for that order |
| AndroidMetadata.ToMap | android/src/main/kotlin/com/felnanuke/google_cast/extensions/MetadataExtensions.kt:78-84 | the serialised metadata is always empty |
| AndroidMetadata.LastSource | android/src/main/kotlin/com/felnanuke/google_cast/extensions/MetadataExtensions.kt:29-40 | the host key that fills an SDK date is a visited key landing on it, the last such key |
| AndroidMetadata.PutAllOk | android/src/main/kotlin/com/felnanuke/google_cast/extensions/MetadataExtensions.kt:26-28 | the entry loop fails exactly when a visited date key does not hold a `Long` |
| AndroidMetadata.PutAllFields | android/src/main/kotlin/com/felnanuke/google_cast/extensions/MetadataExtensions.kt:43-52 | the loop keeps type and images and adds the string, `Int` and `Double` entries of the non-date keys |
| AndroidMetadata.PutAllDates | android/src/main/kotlin/com/felnanuke/google_cast/extensions/MetadataExtensions.kt:29-40 | each SDK date holds the value of the last visited host key landing on it |
| AndroidMetadata.DatesOf | android/src/main/kotlin/com/felnanuke/google_cast/extensions/MetadataExtensions.kt:26-40 | each SDK date is present exactly when one of its host keys is, with that value |
| AndroidMetadata.Parse | android/src/main/kotlin/com/felnanuke/google_cast/extensions/MetadataExtensions.kt:11-65 | none for an empty map; throws exactly on a bad type, a bad date or a bad image list; otherwise the type, entries, dates and images |
| AndroidMetadata.WinningCreationKey | android/src/main/kotlin/com/felnanuke/google_cast/extensions/MetadataExtensions.kt:34-39 | the creation key that wins is one of the two creation keys |
| AndroidMetadata.FromMapIsParse | android/src/main/kotlin/com/felnanuke/google_cast/extensions/MetadataExtensions.kt:11-65 | the loop result is the order-free description with the creation key the order makes win |
| AndroidMetadata.LoopOkIffDatesOk | android/src/main/kotlin/com/felnanuke/google_cast/extensions/MetadataExtensions.kt:26-28 | over all keys, the loop succeeds exactly when every date key holds a `Long` |
| AndroidMetadata.BadDateThrows | android/src/main/kotlin/com/felnanuke/google_cast/extensions/MetadataExtensions.kt:28 | a date key holding anything but a `Long` makes the loop throw |
| AndroidMetadata.LoopDates | android/src/main/kotlin/com/felnanuke/google_cast/extensions/MetadataExtensions.kt:19-54 | the dates the loop stores are the order-free dates with the winning creation key |
| AndroidMetadata.LastSourceIs | android/src/main/kotlin/com/felnanuke/google_cast/extensions/MetadataExtensions.kt:29-33 | a date with a single host key takes its value from that key when it is visited |
| AndroidMetadata.CreationDateDependsOnOrder | android/src/main/kotlin/com/felnanuke/google_cast/extensions/MetadataExtensions.kt:34-39 | with both creation keys present, the visiting order decides which value the creation date gets |
| AndroidMetadata.SmallDateThrows | android/src/main/kotlin/com/felnanuke/google_cast/extensions/MetadataExtensions.kt:28 | a date sent as a 32-bit integer makes the parser throw |
| AndroidQueueItem.FromMap | android/src/main/kotlin/com/felnanuke/google_cast/extensions/QueueItemsExtensions.kt:9-37 | throws without a media map; media, autoplay (default true), track ids, item id and preload time as given; playback duration is unset exactly when absent, otherwise the given `Int` converted to a double; custom data unset exactly when absent, otherwise the given map; never null |
| AndroidQueueItem.ParseItem | android/src/main/kotlin/com/felnanuke/google_cast/extensions/QueueItemsExtensions.kt:43 | an element parses only when it is a map, and never to null |
| AndroidQueueItem.Collect | android/src/main/kotlin/com/felnanuke/google_cast/extensions/QueueItemsExtensions.kt:40-48 | the collected list is no longer than the input |
| AndroidQueueItem.ListFromMapSpec | android/src/main/kotlin/com/felnanuke/google_cast/extensions/QueueItemsExtensions.kt:40-48 | the collected list is no longer than the input |
| AndroidQueueItem.ListFromMap | android/src/main/kotlin/com/felnanuke/google_cast/extensions/QueueItemsExtensions.kt:40-48 | the loop returns `ListFromMapSpec`, element by element |
| AndroidQueueItem.ListThrowsIff | android/src/main/kotlin/com/felnanuke/google_cast/extensions/QueueItemsExtensions.kt:40-48 | the list throws exactly when some element does not parse |
| AndroidQueueItem.ListKeepsEveryItem | android/src/main/kotlin/com/felnanuke/google_cast/extensions/QueueItemsExtensions.kt:43-45 | a list that does not throw keeps every element, in order: the null check never drops one |
| AndroidQueueItem.StartTimeOverridesPreload | android/src/main/kotlin/com/felnanuke/google_cast/extensions/QueueItemsExtensions.kt:25-28 | `startTime` wins over `preloadTime` when both are given |
| AndroidOptions.LoadOptionsFromMap | android/src/main/kotlin/com/felnanuke/google_cast/extensions/MediaLoadOptionsExtensions.kt:32-59 | fails exactly on a missing or mistyped required entry; autoplay, position in milliseconds, track ids, credentials and rate as given |
| AndroidOptions.SeekOptionsFromMap | android/src/main/kotlin/com/felnanuke/google_cast/extensions/SeekOptionsExtensions.kt:7-16 | fails exactly when one of the three entries is missing or mistyped; position in milliseconds, resume state and flag as given |
| AndroidOptions.SeekPositionRange | android/src/main/kotlin/com/felnanuke/google_cast/extensions/SeekOptionsExtensions.kt:12 | positions within 2147483 seconds convert exactly; 2147484 seconds becomes a negative target |
| AndroidOptions.LoadPositionWraps | android/src/main/kotlin/com/felnanuke/google_cast/extensions/MediaLoadOptionsExtensions.kt:45 | a load at 2147484 seconds starts at -2147483296 milliseconds |
| HostValues.NumbersToLongs | android/src/main/kotlin/com/felnanuke/google_cast/extensions/QueueItemsExtensions.kt:10-11 | fails exactly when an element is not a number; otherwise one `Long` per element, in order |
| HostValues.IntSecondsToMillis | android/src/main/kotlin/com/felnanuke/google_cast/extensions/SeekOptionsExtensions.kt:12 | the product is taken in 32 bits: congruent to seconds times 1000, within 32 bits, and exact within 2147483 seconds |
| HostValues.MillisWrapAround | android/src/main/kotlin/com/felnanuke/google_cast/extensions/SeekOptionsExtensions.kt:12 | the last exact value and the first two wrapped ones |
| HostValues.SwiftInt | ios/Classes/Extensions/MediaTrack.swift:15 | `as? Int` accepts every integer and only numbers |
| HostValues.SwiftUInt | ios/Classes/Extensions/QueuLoadOptions.swift:17 | `as? UInt` accepts exactly the non-negative integers and the booleans, which bridge to 1 and 0, and nothing but numbers and booleans |
| HostValues.SwiftDouble | ios/Classes/Extensions/QueuLoadOptions.swift:18 | `as? Double` accepts every double, every 32-bit integer, and a 64-bit integer exactly when it has an exact double |
| HostValues.NumberDoubleValue | ios/flutter_chrome_cast/Sources/flutter_chrome_cast/Extensions/MediaInfoExtensions.swift:35-36 | `as? NSNumber` accepts exactly the numbers and the booleans |
| HostValues.SwiftDictionaries | ios/flutter_chrome_cast/Sources/flutter_chrome_cast/Extensions/MediaInfoExtensions.swift:72 | the array cast succeeds exactly when every element is a dictionary, keeping them in order |
| HostValues.WholeDoubleIsInt | ios/flutter_chrome_cast/Sources/flutter_chrome_cast/Extensions/MediaMetatadaExtensions.swift:98 | 3.0 casts to the integer 3 |
| HostValues.FractionIsNotInt | ios/flutter_chrome_cast/Sources/flutter_chrome_cast/Extensions/MediaMetatadaExtensions.swift:98 | 3.5 does not cast to an integer |
| HostValues.InfinityIsNotInt | ios/flutter_chrome_cast/Sources/flutter_chrome_cast/Extensions/MediaMetatadaExtensions.swift:98 | infinity does not cast to an integer |
| HostValues.IntToDoubleBridging | ios/flutter_chrome_cast/Sources/flutter_chrome_cast/Extensions/MediaMetatadaExtensions.swift:100 | 3 and 2^54 cast to doubles; 2^53 + 1 does not |
| IosTrack.FromMap | ios/Classes/Extensions/MediaTrack.swift:13-50 | every field falls back to its default (id 0, empty content type, unknown type and subtype); custom data is never set |
| IosTrack.ToMap | ios/Classes/Extensions/MediaTrack.swift:52-63 | name, language, content id and custom data are written exactly when set, each with the track's value |
| IosTrack.ToMapFixedKeys | ios/Classes/Extensions/MediaTrack.swift:52-63 | id, content type, type and subtype are always written, with the track's values |
| IosTrack.ToMapKeys | ios/Classes/Extensions/MediaTrack.swift:52-63 | no key besides the eight assigned is written |
| IosTrack.NoKeyRoundTrip | ios/Classes/Extensions/MediaTrack.swift:13-63 | parsing a serialised track keeps only type, subtype and name, because four key names differ |
| IosMetadata.DateKeyOf | ios/flutter_chrome_cast/Sources/flutter_chrome_cast/Extensions/MediaMetatadaExtensions.swift:108-117 | exactly the three date key names select an SDK date |
| IosMetadata.FieldOf | ios/flutter_chrome_cast/Sources/flutter_chrome_cast/Extensions/MediaMetatadaExtensions.swift:95-104 | a string first, else an integer, else a double; anything else is not stored |
| IosMetadata.ImageOf | ios/flutter_chrome_cast/Sources/flutter_chrome_cast/Extensions/MediaMetatadaExtensions.swift:82-85 | an image is added exactly when its URL string parses, with width and height defaulting to 0 |
| IosMetadata.ImagesOf | ios/flutter_chrome_cast/Sources/flutter_chrome_cast/Extensions/MediaMetatadaExtensions.swift:79-88 | at most one image per dictionary |
| IosMetadata.Parse | ios/flutter_chrome_cast/Sources/flutter_chrome_cast/Extensions/MediaMetatadaExtensions.swift:67-126 | nil exactly without an integer type; otherwise the type, every other typed entry but `images`, the three dates divided by 1000, and the images |
| IosMetadata.FromMap | ios/flutter_chrome_cast/Sources/flutter_chrome_cast/Extensions/MediaMetatadaExtensions.swift:67-126 | the loop over the stripped copy, in any iteration order, returns the order-free description |
| IosMetadata.StoreEntries | ios/flutter_chrome_cast/Sources/flutter_chrome_cast/Extensions/MediaMetatadaExtensions.swift:93-119 | the entry loop, in any iteration order, stores exactly the typed entries and the dates of the order-free description |
| IosMetadata.AddImages | ios/flutter_chrome_cast/Sources/flutter_chrome_cast/Extensions/MediaMetatadaExtensions.swift:79-88 | the image loop adds exactly the images whose URLs parse, in order |
| IosMetadata.ImagesAppend | ios/flutter_chrome_cast/Sources/flutter_chrome_cast/Extensions/MediaMetatadaExtensions.swift:80-87 | adding images distributes over concatenation |
| IosMetadata.ImagesAllKept | ios/flutter_chrome_cast/Sources/flutter_chrome_cast/Extensions/MediaMetatadaExtensions.swift:79-88 | when every URL parses, every image is kept, in order |
| IosMetadata.IntegerDateStoredTwice | ios/flutter_chrome_cast/Sources/flutter_chrome_cast/Extensions/MediaMetatadaExtensions.swift:94-118 | an integer date is stored both as an integer entry and as a date |
| IosMetadata.WholeDoubleStoredAsInteger | ios/flutter_chrome_cast/Sources/flutter_chrome_cast/Extensions/MediaMetatadaExtensions.swift:95-101 | a whole-number double is stored as an integer |
| IosMetadata.ImageMaps | ios/flutter_chrome_cast/Sources/flutter_chrome_cast/Extensions/CastImageExtensions.swift:13-20 | one image dictionary per image, in order |
| IosMetadata.DateEntries | ios/flutter_chrome_cast/Sources/flutter_chrome_cast/Extensions/MediaMetatadaExtensions.swift:42-44 | the three date keys are always written: each holds its date's value, and is null exactly when the date is unset |
| IosMetadata.TextEntries | ios/flutter_chrome_cast/Sources/flutter_chrome_cast/Extensions/MediaMetatadaExtensions.swift:45-59 | the eleven string keys are always written: each holds the string stored under the SDK key it reads, and is null exactly when none is |
| IosMetadata.NumberEntries | ios/flutter_chrome_cast/Sources/flutter_chrome_cast/Extensions/MediaMetatadaExtensions.swift:51-61 | the six number keys are always written: each integer key with the integer stored under its SDK key (0 when none), latitude and longitude with the stored doubles (0 when none) |
| IosMetadata.ToMap | ios/flutter_chrome_cast/Sources/flutter_chrome_cast/Extensions/MediaMetatadaExtensions.swift:14-64 | exactly the 22 keys are written; type and images with their values; each date with its value, and null exactly when unset |
| IosMetadata.ToMapTexts | ios/flutter_chrome_cast/Sources/flutter_chrome_cast/Extensions/MediaMetatadaExtensions.swift:25-59 | in the serialised map, each string key holds the string stored under its SDK key, and is null exactly when none is |
| IosMetadata.ToMapNumbers | ios/flutter_chrome_cast/Sources/flutter_chrome_cast/Extensions/MediaMetatadaExtensions.swift:31-61 | in the serialised map, each integer key holds the integer under its SDK key and latitude and longitude hold the stored doubles |
| IosMetadata.SerialisedDoesNotParse | ios/flutter_chrome_cast/Sources/flutter_chrome_cast/Extensions/MediaMetatadaExtensions.swift:16-74 | the serialised form has no `metadataType`, so parsing it gives nil |
| IosMetadata.DatesComeBackDivided | ios/flutter_chrome_cast/Sources/flutter_chrome_cast/Extensions/MediaMetatadaExtensions.swift:42-114 | a creation date read as milliseconds is written back divided by 1000 |
| IosMediaInfo.StreamTypeOf | ios/flutter_chrome_cast/Sources/flutter_chrome_cast/Extensions/MediaInfoExtensions.swift:13-24 | each of three exact strings selects its type; anything else is unknown |
| IosMediaInfo.HlsSegmentFormatOf | ios/flutter_chrome_cast/Sources/flutter_chrome_cast/Extensions/MediaInfoExtensions.swift:42-57 | each of five exact strings selects its format; any other string none |
| IosMediaInfo.HlsVideoSegmentFormatOf | ios/flutter_chrome_cast/Sources/flutter_chrome_cast/Extensions/MediaInfoExtensions.swift:59-68 | each of two exact strings selects its format; any other string none |
| IosMediaInfo.DurationOf | ios/flutter_chrome_cast/Sources/flutter_chrome_cast/Extensions/MediaInfoExtensions.swift:33-37 | a duration is set exactly for a number or a boolean, the `TimeInterval` cast first |
| IosMediaInfo.TracksOf | ios/flutter_chrome_cast/Sources/flutter_chrome_cast/Extensions/MediaInfoExtensions.swift:72-77 | one track per dictionary, each parsed with defaults |
| IosMediaInfo.FromMap | ios/flutter_chrome_cast/Sources/flutter_chrome_cast/Extensions/MediaInfoExtensions.swift:12-87 | nil exactly without a parsable URL string; stream type, content type, duration, start time divided by 1000, formats, custom data, tracks and metadata as read |
| IosMediaInfo.ReportedDuration | ios/flutter_chrome_cast/Sources/flutter_chrome_cast/Extensions/MediaInfoExtensions.swift:95-99 | an infinite or NaN duration is reported as 0.0; the result is finite |
| IosMediaInfo.TrackMaps | ios/flutter_chrome_cast/Sources/flutter_chrome_cast/Extensions/MediaInfoExtensions.swift:103-109 | one track dictionary per track, in order |
| IosMediaInfo.ToMap | ios/flutter_chrome_cast/Sources/flutter_chrome_cast/Extensions/MediaInfoExtensions.swift:89-112 | stream type, URL and duration always; content type, metadata, custom data and tracks exactly when set |
| IosMediaInfo.OptionalEntries | ios/flutter_chrome_cast/Sources/flutter_chrome_cast/Extensions/MediaInfoExtensions.swift:91-109 | a nil assignment leaves its key out |
| IosMediaInfo.MetadataEntry | ios/flutter_chrome_cast/Sources/flutter_chrome_cast/Extensions/MediaInfoExtensions.swift:100 | the metadata dictionary exactly when metadata is set |
| IosMediaInfo.TracksEntry | ios/flutter_chrome_cast/Sources/flutter_chrome_cast/Extensions/MediaInfoExtensions.swift:103-109 | the track list exactly when tracks are set |
| IosMediaInfo.SerialisedRoundTrip | ios/flutter_chrome_cast/Sources/flutter_chrome_cast/Extensions/MediaInfoExtensions.swift:12-112 | parsing a serialised media information keeps URL, content type, duration and track count, but loses stream type, metadata and content id |
| IosMediaInfo.SerialisedMetadataDoesNotParse | ios/flutter_chrome_cast/Sources/flutter_chrome_cast/Extensions/MediaInfoExtensions.swift:100 | the serialised metadata entry is absent or does not parse |
| IosOptions.SeekFromMap | ios/flutter_chrome_cast/Sources/flutter_chrome_cast/Extensions/SeekOptionsExtensions.swift:12-27 | position as an integer, else as a double, else unset; flags false unless true; resume state raw, else play |
| IosOptions.AbsentResumeStateIsPlay | ios/flutter_chrome_cast/Sources/flutter_chrome_cast/Extensions/SeekOptionsExtensions.swift:20-24 | a missing resume state plays, an explicit 0 leaves the state unchanged |
| IosOptions.WholeDoublePositionIsInteger | ios/flutter_chrome_cast/Sources/flutter_chrome_cast/Extensions/SeekOptionsExtensions.swift:14-18 | a whole-number double position takes the integer branch |
| IosOptions.QueueLoadFromMap | ios/Classes/Extensions/QueuLoadOptions.swift:12-31 | nil exactly for a nil dictionary; start index, play position, repeat mode and custom data, each with its default |
| IosOptions.AbsentRepeatModeIsUnchanged | ios/Classes/Extensions/QueuLoadOptions.swift:19 | a missing repeat mode is raw 0, "unchanged" and not "off" |
| IosOptions.NegativeStartIndexIsZero | ios/Classes/Extensions/QueuLoadOptions.swift:17 | a negative start index falls back to 0 |
| IosOptions.BooleanStartIndex | ios/Classes/Extensions/QueuLoadOptions.swift:17 | a boolean start index bridges: `true` starts at index 1, `false` at 0 |

## Left out

- Method channels, `invokeMethod`, JSON encoding with Gson, logging, timers and SDK calls such as `queueFetchItems` are not modelled. A callback returns what it would send or fetch, as a value.
- Floating point is symbolic. A double is its IEEE bits, the conversion of an integer, or a value divided by 1000. Only the infinity/NaN test and the integral-value test decode the bits. A computed value (a conversion or a quotient) is never taken as integral by a later cast.
- HostValues.SwiftBool: does not model NSNumber-to-`Bool` bridging, so a number sent where a boolean is read falls back to the default.
- HostValues.SwiftInt: does not model an `NSNumber` holding a boolean casting to `Int`.
- HostValues.SwiftDouble: does not model an `NSNumber` holding a boolean bridging to 1.0 or 0.0 through `as? Double`; such a value reads as not a number.
- HostValues.NumbersToLongs: the truncation of a double by `Number.toLong()` is kept symbolic.
- AndroidMetadata.FromMap: the iteration order of the Kotlin `HashMap` is a parameter, so the result when both creation keys are present is stated per order.
- IosMetadata.FromMap: the iteration order of the Swift dictionary is a parameter.
- AndroidMediaInfo.FromMap: which creation key the host `HashMap` visits last is a parameter (`CreationOrder`), because it depends on the map's bucket layout (with 16 or 32 buckets `creationDateTime` comes last, with 64 to 512 buckets `creationDate` does), which the model does not compute.
- AndroidMediaInfo.FromMap: metadata is stated only through `MetadataFromEntry`.
- SDK values this code does not compute are parameters. These are the default subtype of an Android track, the duration of iOS media without one, and the iOS metadata key constants (`SdkKeys`).
- The SDK's typed getters (`string(forKey:)`, `integer(forKey:)`, `double(forKey:)`) return only an entry stored with the matching setter.
- Date objects are modelled as the seconds they hold; the precision of `Date` is not modelled.
- `URL(string:)` is a parameter, and only the empty string is known to be rejected. `absoluteString` is taken to return the string the URL was made from.
- IosTrack.FromMap: the `GCKMediaTrack` initializer is taken to succeed, as the force unwrap assumes.
- Android `putString`, `putInt` and `putDate` on keys the SDK reserves for another type are not modelled. Neither is an iOS user key equal to an SDK date key.
- The imported C enumerations are kept as raw integers. Their `init(rawValue:)` accepts every value, so the `??` fallbacks are never taken.
- `UInt` indices above the 64-bit signed range the codec can carry are not modelled.
- IosMediaInfo.ToMap: the value written under `contentID` and `customData` is not stated.
- `RemoteMediaClientMethodChannel.kt`, including its seek at line 314, which widens before multiplying, is not part of this model.
- Device discovery start and stop, session listeners, and the rest of the method-channel handlers are not part of this model.
- The force-cast copies of the iOS parsers under `ios/Classes/Extensions` (metadata, seek options, media information) are not part of this model. The defaulting versions are modelled instead.
