# Zoekt index-options resolution and search API converters, in Dafny

This project models two parts of Zoekt.

The first part is the Sourcegraph client of `zoekt-sourcegraph-indexserver`
(`cmd/zoekt-sourcegraph-indexserver/sg.go`). The client keeps a
configuration fingerprint per transport: a string for REST and a
fingerprint message for gRPC. It also keeps the deadline at which both
fingerprints are cleared.

- `List` may reset the fingerprints. It then returns the ids to index
  and an iterate operation.
- The iterate operation asks the control plane for index options batch by
  batch, always with the fingerprint that was stored when the pass began.
  It hands every usable item to the consumer. Only the first batch's
  answer may move the stored fingerprint, and any failed batch rolls it
  back.
- `ForceIterateIndexOptions` asks for every batch without a fingerprint.
  A failed batch reports its error once for each of its ids. In an
  answered batch, an item without an error goes to the success callback,
  and an item with an error goes to the error callback only when it
  carries a repository id.

The interface comment of `ForceIterateIndexOptions` (sg.go:69-73)
promises a success or an error callback for each repository. The code
does not keep that promise in two cases, and `ForceCallbackGaps` shows
both: an answered item with an error and repository id 0 (the fake's
"not found" items are such items), and a requested id the answer leaves
out. Both get no callback at all. The model follows the code and keeps
its `RepoID > 0` guard, since 0 names no repository the error could be
reported for.

The model also covers the conversions of index options and index-status
requests to and from protobuf, and the pure parts of the local fake
control plane (`GetIndexOptions` and `fakeID`).

The second part is the converters between Zoekt's in-memory search API
values and their protobuf messages (`api_proto.go`). For each converter
pair the model proves that reading back what was written gives the value
again, or states what changes (a flush reason with no name, an unknown
list field, which is written as UNKNOWN and reads back as `Repos`, a nil
sub-repository, the clone URL of index options, the two findings below). The opposite direction, from a
message to a value and back, is stated only for locations, ranges,
symbols, flush reasons, list options, branches and index-status
requests.

Files:

- `go_ints.dfy`: Go's fixed-width integers and the casts between them,
  plus opaque floats, durations and times.
- `wrappers.dfy`: `Option` and `Result`.
- `collections.dfy`: flattening, distinctness, and `Enumerate`.
  `Enumerate` is some duplicate-free listing of a set. It stands for
  Go's unspecified map iteration order, so every property proved through
  it holds for every order.
- `batching.dfy`: the in-order split of ids into batches.
- `config.dfy`: `IndexOptions`, `indexOptionsItem` and the index-status
  request, with their protobuf forms and converters.
- `resolver.dfy`: one pass of the iterate operation and one pass of the
  forced iteration. Both are written once, generic over the fingerprint
  type. Each is a loop proved against specification functions:
  - `Responses`: the transport's answers;
  - `Delivered`: what the consumer receives;
  - `Committed`: the fingerprint left stored;
  - `ForceEvents`: the callbacks fired.
- `client.dfy`: the `Client` class with its three fingerprint fields,
  `List`, the `ListResult` class with `IterateIndexOptions`, the REST and
  gRPC transports as oracles, and the client options.
- `fake.dfy`: the fake's `GetIndexOptions`, which fills an array in
  place, and `FakeID`.
- `api_types.dfy`: the search API types (module `Zoekt`) and their
  protobuf messages (module `ZoektV1`).
- `api_proto.dfy`: the converters.

Where the source calls out to something, the model takes the outcome as a
parameter:

- the clock readings (`now`, `later`);
- the random jitter;
- the outcome of `listRepoIDs`;
- the REST and gRPC servers, as functions from a fingerprint and a
  request to a response or an error;
- `getCloneURL`, as a function of the repository name;
- the fake's directory walk, as the list of repositories it visits;
- the CRC-32 checksum in `fakeID`.

## Model

| member | source | states |
|---|---|---|
| GoInts.Int32FromUint32 | cmd/zoekt-sourcegraph-indexserver/sg.go:506 | `int32(u)` keeps the 32 bits: congruent modulo 2^32, and non-negative exactly when `u < 2^31` |
| GoInts.Uint32FromInt32 | cmd/zoekt-sourcegraph-indexserver/sg.go:465 | `uint32(i)` keeps the 32 bits and is undone by `int32` |
| GoInts.Uint32BitCastRoundTrip | cmd/zoekt-sourcegraph-indexserver/sg.go:465-506 | the repository id survives `uint32 -> int32 -> uint32` |
| GoInts.Uint16FromUint32 | api_proto.go:424 | `uint16(u)` keeps the low 16 bits and is the identity below 2^16 |
| GoInts.Uint8FromInt32 | cmd/zoekt-sourcegraph-indexserver/sg.go:461 | `uint8(n)` keeps the low 8 bits and is the identity on 0..255 |
| GoInts.Wrap64 | cmd/zoekt-sourcegraph-indexserver/sg.go:282 | `int64` arithmetic wraps modulo 2^64 and is exact when the result fits |
| GoInts.TruncDiv | cmd/zoekt-sourcegraph-indexserver/sg.go:282 | Go's division by a positive divisor truncates toward zero: for a non-negative dividend `q·d <= a < q·d + d`, for a negative one `q·d - d < a <= q·d` |
| Batching.EffectiveBatchSize | cmd/zoekt-sourcegraph-indexserver/sg.go:273-276 | a configured batch size of 0 means 10 000; any other is used as is |
| Batching.Batched | cmd/zoekt-sourcegraph-indexserver/sg.go:368 | the batches concatenate back to the ids in order; none is empty or larger than the size; all but the last are full |
| Batching.BatchCount | cmd/zoekt-sourcegraph-indexserver/sg.go:368 | there are exactly ceil(n / size) batches |
| Batching.BatchingExample | cmd/zoekt-sourcegraph-indexserver/sg.go:273-276 | 25 000 ids with the default size split as 10 000, 10 000 and 5 000, in order |
| Collections.FlattenAppend | cmd/zoekt-sourcegraph-indexserver/sg.go:368 | flattening distributes over appending one more batch |
| Collections.Enumerate | api_proto.go:448-451 | a listing of a set's elements: the right length, no repeats, and exactly the set's members |
| Sourcegraph.ApplyOptions | cmd/zoekt-sourcegraph-indexserver/sg.go:138-140 | options apply in order; a setting no option names keeps its default |
| Sourcegraph.ApplyOption | cmd/zoekt-sourcegraph-indexserver/sg.go:89-100 | `WithBatchSize` sets only the batch size and `WithShouldUseGRPC` only the transport choice |
| Sourcegraph.ApplyOptionsLastWins | cmd/zoekt-sourcegraph-indexserver/sg.go:89-100 | an option applied after the others overrides them: the last one wins |
| Sourcegraph.Client.constructor | cmd/zoekt-sourcegraph-indexserver/sg.go:109-144 | batch size 0 and REST unless an option says otherwise; both fingerprints empty and the reset deadline at the zero time |
| Sourcegraph.ResetBase | cmd/zoekt-sourcegraph-indexserver/sg.go:282-285 | the interval before jitter is at least five minutes; without overflow it is `max(5min, n·1min/500)` |
| Sourcegraph.ResetIntervalFits | cmd/zoekt-sourcegraph-indexserver/sg.go:286 | with the jitter drawn below base/4, `next = base + jitter` fits in a Duration |
| Sourcegraph.ResetIntervalExceedsProportionalBound | cmd/zoekt-sourcegraph-indexserver/sg.go:280-286 | with no repository, the interval can exceed 5min + 1.25·(n·1min/500) |
| Sourcegraph.Client.List | cmd/zoekt-sourcegraph-indexserver/sg.go:267-402 | a failed `listRepoIDs` returns the wrapped error and changes nothing. Past the deadline both fingerprints are cleared and the deadline becomes `later + base + jitter`; otherwise nothing changes. The result holds the ids and the effective batch size |
| Sourcegraph.ListResult.IterateIndexOptions | cmd/zoekt-sourcegraph-indexserver/sg.go:303-394 | the consumer receives `Delivered` of the answers to every batch asked with the starting fingerprint. The transport's fingerprint becomes `Committed` of those answers. The other transport's fingerprint and the deadline are unchanged |
| Sourcegraph.Client.ForceIterateIndexOptions | cmd/zoekt-sourcegraph-indexserver/sg.go:404-439 | every batch is asked with "" (REST) or nil (gRPC), and the callbacks are `ForceEvents` of the answers. It has no frame, so no fingerprint and no deadline can change |
| Sourcegraph.WithCloneURL | cmd/zoekt-sourcegraph-indexserver/sg.go:547 | the item gets the clone URL for its name and is otherwise unchanged |
| Sourcegraph.FetchREST | cmd/zoekt-sourcegraph-indexserver/sg.go:557-611 | the REST answer fails exactly when the exchange fails; otherwise each item gets its clone URL, in order, with the response's fingerprint |
| Sourcegraph.RequestIDs | cmd/zoekt-sourcegraph-indexserver/sg.go:527-530 | each requested id is cast to `int32` and casts back to itself |
| Sourcegraph.FetchGRPC | cmd/zoekt-sourcegraph-indexserver/sg.go:526-553 | the gRPC answer fails exactly when the call fails; otherwise each updated option is converted and given its clone URL, with the response's fingerprint |
| Resolver.Responses | cmd/zoekt-sourcegraph-indexserver/sg.go:304-310 | every batch is asked with the same fingerprint, in order |
| Resolver.Requests | cmd/zoekt-sourcegraph-indexserver/sg.go:304-310 | the transport calls of a pass: each batch with the fingerprint captured at its start |
| Resolver.Usable | cmd/zoekt-sourcegraph-indexserver/sg.go:386-393 | items with an error are dropped, so there are never more options than items |
| Resolver.UsableExactly | cmd/zoekt-sourcegraph-indexserver/sg.go:386-393 | the consumer gets the options of every item without an error, and only options carried by such an item |
| Resolver.Contribution | cmd/zoekt-sourcegraph-indexserver/sg.go:373-393 | a failed batch gives the consumer nothing; an answered one gives at most one option per item (which ones is `UsableExactly`) |
| Resolver.DeliveredExactly | cmd/zoekt-sourcegraph-indexserver/sg.go:368-394 | over a whole pass (`Delivered`) the consumer gets everything each batch contributes, and nothing no batch contributes |
| Resolver.Committed | cmd/zoekt-sourcegraph-indexserver/sg.go:307-322 | the stored fingerprint after a pass: the start when there was no batch or any batch failed, and the first batch's next fingerprint when every batch was answered |
| Resolver.DeliverItems | cmd/zoekt-sourcegraph-indexserver/sg.go:386-393 | the item loop calls the consumer with exactly `Usable(items)`, in order |
| Resolver.ResolvePass | cmd/zoekt-sourcegraph-indexserver/sg.go:303-394 | every request carries the starting fingerprint. The consumer gets `Delivered` of the answers and the stored fingerprint ends as `Committed` of them, through the `first` flag and the rollback |
| Resolver.PassStep | cmd/zoekt-sourcegraph-indexserver/sg.go:307-322 | one more batch: its items are appended. A failure restores the start; the first success commits its fingerprint; later successes keep what is stored |
| Resolver.DeliveredAppend | cmd/zoekt-sourcegraph-indexserver/sg.go:368-394 | what two runs of batches deliver is what each delivers, in batch order |
| Resolver.BatchIsolation | cmd/zoekt-sourcegraph-indexserver/sg.go:368-394 | a batch's items appear between those of the batches before and after it |
| Resolver.FailedBatchIsolated | cmd/zoekt-sourcegraph-indexserver/sg.go:373-379 | a failed batch delivers nothing and does not stop the later batches |
| Resolver.ListScenario | cmd/zoekt-sourcegraph-indexserver/sg.go:303-394 | ids 1, 2, 3 in batches of two, with id 2 answered with an error: the consumer sees the options of 1 and 3, and the first batch's fingerprint is kept |
| Resolver.ItemEvents | cmd/zoekt-sourcegraph-indexserver/sg.go:430-437 | success for an item without an error; an error for a known repository with one; nothing for an unknown repository with one |
| Resolver.ItemsEvents | cmd/zoekt-sourcegraph-indexserver/sg.go:430-437 | an answered batch fires at most one callback per item |
| Resolver.ItemsEventsExactly | cmd/zoekt-sourcegraph-indexserver/sg.go:430-437 | success for every item without an error, an error for every known repository with one, and every callback fired is the one of some item |
| Resolver.BatchEvents | cmd/zoekt-sourcegraph-indexserver/sg.go:423-429 | a failed batch reports its error once for each of its ids, in order |
| Resolver.ReportBatchError | cmd/zoekt-sourcegraph-indexserver/sg.go:424-428 | the loop over a failed batch's ids calls `onError(id, err)` for each, in order |
| Resolver.RouteItems | cmd/zoekt-sourcegraph-indexserver/sg.go:430-437 | the loop over an answered batch fires exactly `ItemsEvents(items)` |
| Resolver.RouteBatch | cmd/zoekt-sourcegraph-indexserver/sg.go:423-437 | one batch's callbacks are `BatchEvents` of its answer |
| Resolver.ForcePass | cmd/zoekt-sourcegraph-indexserver/sg.go:422-438 | every batch is asked with the empty fingerprint, and the callbacks are those of every batch in order |
| Resolver.ForceEventsExactly | cmd/zoekt-sourcegraph-indexserver/sg.go:422-438 | the callbacks of a forced pass (`ForceEvents`) are exactly those of its batches: every batch's callbacks occur, and nothing else |
| Resolver.ForceCallbackGaps | cmd/zoekt-sourcegraph-indexserver/sg.go:430-437 | the interface comment at sg.go:69-73 promises one callback per repository, yet an answered item with an error and id 0 fires nothing, and neither does an answer that leaves the requested id out |
| Resolver.ForceStep | cmd/zoekt-sourcegraph-indexserver/sg.go:422-438 | one more batch appends exactly its own callbacks |
| Config.BranchFromProto | cmd/zoekt-sourcegraph-indexserver/sg.go:451-454 | name and version are copied |
| Config.BranchesFromProto | cmd/zoekt-sourcegraph-indexserver/sg.go:449-455 | one branch per message, in order |
| Config.BranchToProto | cmd/zoekt-sourcegraph-indexserver/sg.go:488-494 | a branch survives the round trip through protobuf |
| Config.BranchesToProto | cmd/zoekt-sourcegraph-indexserver/sg.go:488-494 | the branch list survives the round trip, in order |
| Config.BranchesProtoRoundTrip | cmd/zoekt-sourcegraph-indexserver/sg.go:449-455 | a protobuf branch list survives the opposite round trip |
| Config.LanguageMapFromProto | cmd/zoekt-sourcegraph-indexserver/sg.go:458-462 | the map's languages are exactly those of the mappings |
| Config.Mappings | cmd/zoekt-sourcegraph-indexserver/sg.go:496-503 | one mapping per listed language, with the parser number widened |
| Config.LanguageMapRoundTrip | cmd/zoekt-sourcegraph-indexserver/sg.go:458-503 | reading back the mappings of any listing of the languages rebuilds that part of the map |
| Config.ItemFromProto | cmd/zoekt-sourcegraph-indexserver/sg.go:448-485 | the clone URL is left empty; the id is the bit cast of the protobuf id; name and error are copied; the branches are copied in order; the map's languages are exactly those of the mappings |
| Config.ItemToProto | cmd/zoekt-sourcegraph-indexserver/sg.go:487-524 | the id casts back, there is one mapping per language, and the error is carried |
| Config.ItemRoundTrip | cmd/zoekt-sourcegraph-indexserver/sg.go:448-524 | `FromProto(ToProto(item))` is the item with an empty clone URL, whatever order the language map is listed in |
| Config.StatusFromProto | cmd/zoekt-sourcegraph-indexserver/sg.go:725-740 | id and index time are copied, with one branch per message branch |
| Config.StatusToProto | cmd/zoekt-sourcegraph-indexserver/sg.go:699-715 | one repository's status survives the round trip |
| Config.StatusRequestFromProto | cmd/zoekt-sourcegraph-indexserver/sg.go:721-746 | a nil request has no repositories; otherwise one status per repository |
| Config.StatusRequestToProto | cmd/zoekt-sourcegraph-indexserver/sg.go:696-719 | the request survives the round trip, with the same number of repositories |
| Config.StatusRequestProtoRoundTrip | cmd/zoekt-sourcegraph-indexserver/sg.go:696-746 | a protobuf request survives the opposite round trip |
| Fake.ItemOf | cmd/zoekt-sourcegraph-indexserver/sg.go:917-921 | a failed read leaves only the error; a successful one leaves only the options |
| Fake.LastIndex | cmd/zoekt-sourcegraph-indexserver/sg.go:906-909 | every requested id maps to a position holding it, and to none before its last one |
| Fake.IndexPositions | cmd/zoekt-sourcegraph-indexserver/sg.go:906-909 | the loop builds exactly `LastIndex(repos)` |
| Fake.LastVisitFor | cmd/zoekt-sourcegraph-indexserver/sg.go:912-922 | the visit found is one of the walk's and is aimed at that slot; when none is found, no visit aims at it |
| Fake.LastVisitForIsLast | cmd/zoekt-sourcegraph-indexserver/sg.go:912-922 | the visit found is the last one aimed at that slot: no later visit aims there |
| Fake.Fill | cmd/zoekt-sourcegraph-indexserver/sg.go:912-922 | one slot per position; a slot no visit aims at is untouched, and any other holds what some visit read |
| Fake.FillSlot | cmd/zoekt-sourcegraph-indexserver/sg.go:912-922 | after the walk a slot holds what the last visit aimed at it read, or is untouched |
| Fake.ApplyVisits | cmd/zoekt-sourcegraph-indexserver/sg.go:912-922 | the in-place writes leave the array equal to `Fill` of the visits |
| Fake.MarkNotFound | cmd/zoekt-sourcegraph-indexserver/sg.go:929-933 | a slot with neither an error nor an id gets "not found"; any other slot is unchanged |
| Fake.MarkMissing | cmd/zoekt-sourcegraph-indexserver/sg.go:929-933 | the in-place loop marks every slot with `MarkNotFound` |
| Fake.FakeItems | cmd/zoekt-sourcegraph-indexserver/sg.go:905-936 | one item per requested position, and every item has an error or an id |
| Fake.GetIndexOptions | cmd/zoekt-sourcegraph-indexserver/sg.go:905-936 | a failed walk gives its error; otherwise the array ends as `FakeItems(repos, visits)` |
| Fake.DuplicateKeepsOnlyLast | cmd/zoekt-sourcegraph-indexserver/sg.go:906-909 | an earlier position of a repeated id is never filled, so it reports "not found" |
| Fake.LastPositionFilled | cmd/zoekt-sourcegraph-indexserver/sg.go:905-936 | the last position of an id holds what that id's last visit read, or "not found" if it was never visited |
| Fake.FakeID | cmd/zoekt-sourcegraph-indexserver/sg.go:1075-1078 | the id lies in [1, 2^31-1] for every checksum, so it is positive as an `int32` |
| ApiProto.DurationToProto | api_proto.go:311 | reading the message back gives the duration |
| ApiProto.AsDuration | api_proto.go:289 | a nil duration reads as zero |
| ApiProto.TimestampToProto | api_proto.go:469 | reading the message back gives the time |
| ApiProto.AsTime | api_proto.go:428 | a nil timestamp reads as the Unix epoch |
| ApiProto.LocationFromProto | api_proto.go:144-150 | a nil location reads as zero |
| ApiProto.LocationToProto | api_proto.go:152-158 | `LocationFromProto` is a left inverse |
| ApiProto.LocationProtoRoundTrip | api_proto.go:144-158 | a location message survives the opposite round trip |
| ApiProto.RangeFromProto | api_proto.go:130-135 | a nil range reads as two zero locations |
| ApiProto.RangeToProto | api_proto.go:137-142 | both end points are set, and `RangeFromProto` is a left inverse |
| ApiProto.RangeNilEndpointNormalised | api_proto.go:130-142 | a message with a nil end point does not survive: it comes back with an explicit zero location |
| ApiProto.SymbolFromProto | api_proto.go:200-211 | nil exactly for a nil message |
| ApiProto.SymbolToProto | api_proto.go:213-224 | nil exactly for nil; `SymbolFromProto` is a left inverse |
| ApiProto.SymbolProtoRoundTrip | api_proto.go:200-224 | a symbol message, nil or not, survives the opposite round trip |
| ApiProto.LineFragmentMatchFromProto | api_proto.go:226-233 | the symbol is nil exactly when the message's is |
| ApiProto.LineFragmentMatchToProto | api_proto.go:235-242 | the fragment survives the round trip |
| ApiProto.LineMatchFromProto | api_proto.go:160-178 | one fragment per message fragment, converted in order |
| ApiProto.LineMatchToProto | api_proto.go:180-198 | the line match survives the round trip, fragments in order |
| ApiProto.ChunkMatchFromProto | api_proto.go:86-106 | one range and one symbol per message entry |
| ApiProto.ChunkMatchToProto | api_proto.go:108-128 | the chunk match survives the round trip |
| ApiProto.FileMatchFromProto | api_proto.go:26-54 | one line match and one chunk match per message entry |
| ApiProto.FileMatchToProto | api_proto.go:56-84 | the file match survives the round trip |
| ApiProto.FlushReasonFromProto | api_proto.go:244-255 | the result is 0 or a named reason; it is 0 exactly when the protobuf value is not one of the three named ones |
| ApiProto.FlushReasonToProto | api_proto.go:257-268 | UNKNOWN exactly for an unnamed reason; reading back gives the reason if it is 0 or named, and 0 otherwise |
| ApiProto.GenerateFlushReason | api_proto.go:271-282 | the generator produces only 0 and the three named reasons |
| ApiProto.FlushReasonRoundTrip | api_proto.go:244-282 | every generated reason survives the round trip |
| ApiProto.FlushReasonProtoRoundTrip | api_proto.go:244-268 | a protobuf reason survives the opposite round trip exactly when it is one of the four defined values |
| ApiProto.StatsFromProto | api_proto.go:284-304 | nil statistics read as zero durations and a zero flush reason |
| ApiProto.StatsToProto | api_proto.go:306-326 | the statistics survive the round trip, except that an unnamed flush reason becomes 0 |
| ApiProto.ProgressFromProto | api_proto.go:328-333 | nil progress reads as zero |
| ApiProto.ProgressToProto | api_proto.go:335-340 | the progress survives the round trip |
| ApiProto.SearchResultFromProto | api_proto.go:342-359 | nil exactly for nil; one file per message file |
| ApiProto.SearchResultToProto | api_proto.go:361-378 | nil exactly for nil; one message file per file |
| ApiProto.SearchResultRoundTrip | api_proto.go:342-378 | a result whose flush reason is named survives the round trip |
| ApiProto.RepositoryBranchFromProto | api_proto.go:380-386 | name and version are copied |
| ApiProto.RepositoryBranchToProto | api_proto.go:388-393 | `RepositoryBranchFromProto` is a left inverse |
| ApiProto.BranchesFromProto | api_proto.go:396-399 | one branch per message, in order |
| ApiProto.BranchesToProto | api_proto.go:438-441 | the branch list survives the round trip, in order |
| ApiProto.RepositoryFromProto | api_proto.go:395-431 | a nil message gives the zero repository. The tombstone set is the set of listed files. The sub-repositories have the message's keys |
| ApiProto.RepositoryToProto | api_proto.go:433-472 | nil exactly for nil. The sub-repositories keep their keys. The tombstones are listed once each, exactly the set's members |
| ApiProto.TombstonesRoundTrip | api_proto.go:407-410 | the tombstone list read back as a set is the original set |
| ApiProto.RepositoryRoundTrip | api_proto.go:395-472 | a repository with no nil sub-repository survives the round trip, at any nesting depth |
| ApiProto.SubReposRoundTrip | api_proto.go:401-405 | sub-repositories converted to protobuf read back unchanged |
| ApiProto.SubRepoToProto | api_proto.go:443-446 | the protobuf form holds each sub-repository in protobuf form |
| ApiProto.SubRepoFromProto | api_proto.go:401-405 | reading a message reads each of its sub-repositories |
| ApiProto.NilSubRepoBecomesEmpty | api_proto.go:401-405 | a nil sub-repository comes back as the zero repository, so the round trip fails |
| ApiProto.RepositoryRankTruncated | api_proto.go:424 | a protobuf rank of 65536 reads as 0 |
| ApiProto.IndexMetadataFromProto | api_proto.go:474-490 | the language map keeps its languages; nil metadata has the Unix epoch as index time |
| ApiProto.IndexMetadataToProto | api_proto.go:492-512 | nil exactly for nil; the metadata survives the round trip |
| ApiProto.RepoStatsFromProto | api_proto.go:514-525 | nil statistics read as zero |
| ApiProto.RepoStatsToProto | api_proto.go:527-538 | the statistics survive the round trip |
| ApiProto.RepoListEntryFromProto | api_proto.go:540-550 | nil exactly for nil |
| ApiProto.RepoListEntryToProto | api_proto.go:552-562 | nil exactly for nil |
| ApiProto.RepoListEntryRoundTrip | api_proto.go:540-562 | an entry whose repository has no nil sub-repository survives the round trip |
| ApiProto.MinimalRepoListEntryFromProto | api_proto.go:564-574 | a nil entry reads as no symbols and no branches |
| ApiProto.MinimalRepoListEntryToProto | api_proto.go:576-585 | the entry survives the round trip |
| ApiProto.MinimalMapFromProto | api_proto.go:593-602 | the map keeps its keys |
| ApiProto.MinimalMapToProto | api_proto.go:619-627 | the map survives the round trip |
| ApiProto.RepoListFromProto | api_proto.go:587-611 | a nil list is empty; otherwise one entry per message entry, and both maps keep their keys |
| ApiProto.RepoListToProto | api_proto.go:613-636 | as written: the `Repos` list is empty, and reading back gives the list with no entries and everything else intact |
| ApiProto.RepoListToProtoDropsRepos | api_proto.go:630 | a list with one entry does not survive the round trip |
| ApiProto.RepoListToProtoIntended | api_proto.go:614-617 | with the converted entries emitted: one message entry per entry, in order |
| ApiProto.RepoListIntendedRoundTrip | api_proto.go:587-636 | with the entries emitted, a list whose entries have no nil sub-repository survives the round trip |
| ApiProto.ListOptionsFromProto | api_proto.go:658-675 | nil exactly for nil; the field is always a known one, and `Minimal` is copied |
| ApiProto.ListOptionsToProto | api_proto.go:638-656 | nil exactly for nil; a known field survives the round trip; an unknown one becomes UNKNOWN and reads back as `Repos` |
| ApiProto.ListOptionsProtoRoundTrip | api_proto.go:638-675 | a protobuf option survives the opposite round trip exactly when its field is one of the three named ones |
| ApiProto.SearchOptionsFromProto | api_proto.go:677-698 | as written: nil exactly for nil, and `DebugScore` always reads as false |
| ApiProto.SearchOptionsFromProtoIntended | api_proto.go:677-698 | reading `DebugScore` back, it agrees with the message; otherwise it agrees with the reader as written |
| ApiProto.SearchOptionsToProto | api_proto.go:700-722 | nil exactly for nil and `DebugScore` is written. The reader as written returns the options with `DebugScore` false; the intended reader returns them unchanged |
| ApiProto.SearchOptionsDebugScoreLost | api_proto.go:719 | options with `DebugScore` set do not survive the round trip |

## Left out

- HTTP plumbing is not modelled: the request building, the retry policy, status-code handling, JSON decoding and URL resolution in `getCloneURL`. The REST server is an oracle from a fingerprint and ids to items plus a fingerprint, or an error, and `getCloneURL` is a function parameter.
- The gRPC stubs and the no-op gRPC client are not modelled. The gRPC server is an oracle of the same kind. The `WithGRPCClient` option only installs that oracle, so it is not a `ClientOption`.
- Tracing and metrics are left out: they only observe.
- `time.Now` and `rand.Int63n` are parameters. `List` takes two clock readings, one for the deadline check and one for the new deadline, plus the drawn jitter. Time addition is plain nanosecond addition, without Go's saturation at the ends of the time range.
- `listRepoIDs` (REST and gRPC) is given as its outcome, `listed`.
- The updated fingerprint is written to the client's field once, at the end of a pass. The source writes it from the batch closure after each batch. Only a call to `List` on the same client in the middle of a pass could observe the difference, and the source says the iterate operation must not run concurrently with the client and its result must not be used concurrently with later calls to `List` (sg.go:55, 65-66). The model's consumer is a recorded sequence of deliveries, so it makes no such call.
- `batched` is not part of this model. `Batching.Batched` is an in-order split into chunks of at most the batch size, which is what its two call sites need.
- A negative `BatchSize` cannot be configured, because `WithBatchSize` takes a `nat`. In the source a negative size reaches `batched`, which is not part of this model.
- Go's unspecified map iteration order (language maps, tombstone sets) is `Enumerate`: every property is proved for every listing.
- The distinction between nil and empty slices and maps is not kept.
- Nil elements are modelled as `None` only in these places: the symbol lists of chunk matches (value and message), the `Repos` lists of `RepoList` and of `ListResponse`, the sub-repository maps (value and message), and the `ReposMap` and `Minimal` maps of `ListResponse`. Nil elements of the other repeated message fields (branches, ranges, line and chunk matches, fragments, files, `updatedOptions`) are not modelled.
- A nil entry of `RepoList.Minimal` would make `(*MinimalRepoListEntry).ToProto` panic when it reads `m.Branches` (api_proto.go:576-577). The model's `Minimal` holds values, not pointers, so that case cannot be expressed. `RepoList.ReposMap` holds values in the source too.
- Sourcegraph.FetchGRPC: a nil entry of `updatedOptions` makes `indexOptionsItem.FromProto` panic when it reads `len(x.Branches)` (sg.go:449). The model's `updatedOptions` holds messages, never nil, so the panic cannot be expressed and `ItemFromProto` takes a message.
- The message-to-value-to-message round trip is not stated for file, chunk and line matches, statistics, search results, repositories, index metadata, repository list entries and repository lists. There a nil sub-message reads as a zero value and would be written back as a non-nil zero message.
- The numeric values of the enums come from outside the modelled files: Zoekt's `FlushReason` flags 1, 2 and 4, `RepoListField` 0, 1 and 2, and the protobuf enums `FlushReason` 0 to 3 and `ListOptions.RepoListField` 0 to 3. The model assumes these values. The lemmas that say which values are named, such as "0 exactly when unnamed" for flush reasons and "the field is always a known one" for list options, depend on them.
- `float64` values (scores, priorities) are opaque bit patterns that are only copied. Durations and timestamps are opaque, and a nil one reads as zero or as the Unix epoch.
- `IndexOptions` is not declared in `sg.go`, so its fields come from their uses in the conversions.
- The fake's filesystem and git work are given as their outcome: `visitRepos`, `getIndexOptions`, `getBranches`, and `id` reading `SG_ID`. The walk is given as the list of visits with each repository's id and read outcome, or the error that stopped it.
- The fake's `List`, `ForceIterateIndexOptions`, `GetDocumentRanks` and `floats64` are left out, as are `GetDocumentRanks`, `RepoPathRanks` and `UpdateIndexStatus` of the real client: they are file or network I/O and float arithmetic.
- The CRC-32 checksum in `fakeID` is a parameter; only the reduction `% (2^31 - 1) + 1` is modelled.
- Concurrent use is not modelled; the client documents single-threaded use.
- The transport oracles are deterministic within a pass: asking the same batch twice would give the same answer.
- Sourcegraph.ResetBase: the closed-form `max(5min, n·1min/500)` is stated only when `n·1min` fits in an `int64`. Beyond that the body wraps explicitly, and only the five-minute floor is stated.

## Findings

| source | as written | input that shows it | evidently intended | confidence | as-written member | corrected member |
|---|---|---|---|---|---|---|
| api_proto.go:613-636 | `RepoList.ToProto` converts every entry of `Repos` into a local slice (614-617), then emits an empty `Repos` list (630) | a `RepoList` with one entry in `Repos`: it reads back with no entries | the converted entries are emitted, so the list survives the round trip | not executed | ApiProto.RepoListToProto, ApiProto.RepoListToProtoDropsRepos | ApiProto.RepoListToProtoIntended, ApiProto.RepoListIntendedRoundTrip |
| api_proto.go:677-722 | `SearchOptions.ToProto` writes `DebugScore` (719), but `SearchOptionsFromProto` never reads it (677-698) | options with `DebugScore` true: they read back with `DebugScore` false | the reader copies `DebugScore` back, so the options survive the round trip | not executed | ApiProto.SearchOptionsFromProto, ApiProto.SearchOptionsDebugScoreLost | ApiProto.SearchOptionsFromProtoIntended, ApiProto.SearchOptionsToProto |
