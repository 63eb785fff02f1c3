/**
 * The in-memory search API values of package zoekt that the protobuf
 * converters translate. Only the fields the converters read or write are
 * kept; floating point numbers, durations and instants are opaque.
 */
module Zoekt {
  import opened GoInts
  import opened Wrappers

  type Bytes = seq<Uint8>

  datatype Location = Location(byteOffset: Uint32, lineNumber: Uint32, column: Uint32)

  datatype Range = Range(start: Location, end: Location)

  datatype Symbol = Symbol(sym: string, kind: string, parent: string, parentKind: string)

  datatype LineFragmentMatch = LineFragmentMatch(
    lineOffset: GoInt,
    offset: Uint32,
    matchLength: GoInt,
    symbolInfo: Option<Symbol>)

  datatype LineMatch = LineMatch(
    line: Bytes,
    lineStart: GoInt,
    lineEnd: GoInt,
    lineNumber: GoInt,
    before: Bytes,
    after: Bytes,
    fileName: bool,
    score: Float64,
    debugScore: string,
    lineFragments: seq<LineFragmentMatch>)

  datatype ChunkMatch = ChunkMatch(
    content: Bytes,
    contentStart: Location,
    fileName: bool,
    ranges: seq<Range>,
    symbolInfo: seq<Option<Symbol>>,
    score: Float64,
    debugScore: string)

  datatype FileMatch = FileMatch(
    score: Float64,
    debug: string,
    fileName: string,
    repository: string,
    branches: seq<string>,
    lineMatches: seq<LineMatch>,
    chunkMatches: seq<ChunkMatch>,
    repositoryID: Uint32,
    repositoryPriority: Float64,
    content: Bytes,
    checksum: Bytes,
    language: string,
    subRepositoryName: string,
    subRepositoryPath: string,
    version: string)

  /** Why a streamed search result was flushed; the named reasons are bit flags. */
  type FlushReason = Uint8

  const FlushReasonTimerExpired: FlushReason := 1
  const FlushReasonFinalFlush: FlushReason := 2
  const FlushReasonMaxSize: FlushReason := 4

  datatype Stats = Stats(
    contentBytesLoaded: Int64,
    indexBytesLoaded: Int64,
    crashes: GoInt,
    duration: Duration,
    fileCount: GoInt,
    shardFilesConsidered: GoInt,
    filesConsidered: GoInt,
    filesLoaded: GoInt,
    filesSkipped: GoInt,
    shardsScanned: GoInt,
    shardsSkipped: GoInt,
    shardsSkippedFilter: GoInt,
    matchCount: GoInt,
    ngramMatches: GoInt,
    wait: Duration,
    regexpsConsidered: GoInt,
    flushReason: FlushReason)

  datatype Progress = Progress(priority: Float64, maxPendingPriority: Float64)

  datatype SearchResult = SearchResult(
    stats: Stats,
    progress: Progress,
    files: seq<FileMatch>,
    repoURLs: map<string, string>,
    lineFragments: map<string, string>)

  datatype RepositoryBranch = RepositoryBranch(name: string, version: string)

  /** `SubRepoMap` holds pointers, so an entry may be nil (`None`). */
  datatype Repository = Repository(
    id: Uint32,
    name: string,
    url: string,
    source: string,
    branches: seq<RepositoryBranch>,
    subRepoMap: map<string, Option<Repository>>,
    commitURLTemplate: string,
    fileURLTemplate: string,
    lineFragmentTemplate: string,
    priority: Float64,
    rawConfig: map<string, string>,
    rank: Uint16,
    indexOptions: string,
    hasSymbols: bool,
    tombstone: bool,
    latestCommitDate: Time,
    fileTombstones: set<string>)

  datatype IndexMetadata = IndexMetadata(
    indexFormatVersion: GoInt,
    indexFeatureVersion: GoInt,
    indexMinReaderVersion: GoInt,
    indexTime: Time,
    plainASCII: bool,
    languageMap: map<string, Uint16>,
    zoektVersion: string,
    id: string)

  datatype RepoStats = RepoStats(
    repos: GoInt,
    shards: GoInt,
    documents: GoInt,
    indexBytes: Int64,
    contentBytes: Int64,
    newLinesCount: Uint64,
    defaultBranchNewLinesCount: Uint64,
    otherBranchesNewLinesCount: Uint64)

  datatype RepoListEntry = RepoListEntry(repository: Repository, indexMetadata: IndexMetadata, stats: RepoStats)

  datatype MinimalRepoListEntry = MinimalRepoListEntry(hasSymbols: bool, branches: seq<RepositoryBranch>)

  /** `Repos` holds pointers (`None` is nil); the entries of `Minimal` are taken to be non-nil. */
  datatype RepoList = RepoList(
    repos: seq<Option<RepoListEntry>>,
    reposMap: map<Uint32, MinimalRepoListEntry>,
    crashes: GoInt,
    stats: RepoStats,
    minimal: map<Uint32, MinimalRepoListEntry>)

  /** Which field of a `RepoList` a `List` call should fill. */
  type RepoListField = GoInt

  const RepoListFieldRepos: RepoListField := 0
  const RepoListFieldMinimal: RepoListField := 1
  const RepoListFieldReposMap: RepoListField := 2

  datatype ListOptions = ListOptions(field: RepoListField, minimal: bool)

  datatype SearchOptions = SearchOptions(
    estimateDocCount: bool,
    whole: bool,
    shardMaxMatchCount: GoInt,
    totalMaxMatchCount: GoInt,
    shardRepoMaxMatchCount: GoInt,
    maxWallTime: Duration,
    flushWallTime: Duration,
    maxDocDisplayCount: GoInt,
    numContextLines: GoInt,
    chunkMatches: bool,
    useDocumentRanks: bool,
    documentRanksWeight: Float64,
    trace: bool,
    debugScore: bool,
    spanContext: map<string, string>)
}

/**
 * The protobuf messages of the search API (package grpc/v1). A field that
 * holds another message is a pointer and may be nil (`None`); the `Default`
 * constants are the zero messages that Go's getters read through a nil
 * pointer.
 */
module ZoektV1 {
  import opened GoInts
  import opened Wrappers

  type Bytes = seq<Uint8>

  /** `durationpb.Duration`, kept opaque. */
  datatype DurationMsg = DurationMsg(nanos: Duration)

  /** `timestamppb.Timestamp`, kept opaque. */
  datatype TimestampMsg = TimestampMsg(time: Time)

  datatype Location = Location(byteOffset: Uint32, lineNumber: Uint32, column: Uint32)
  const DefaultLocation: Location := Location(0, 0, 0)

  datatype Range = Range(start: Option<Location>, end: Option<Location>)
  const DefaultRange: Range := Range(None, None)

  datatype SymbolInfo = SymbolInfo(sym: string, kind: string, parent: string, parentKind: string)

  datatype LineFragmentMatch = LineFragmentMatch(
    lineOffset: Int64,
    offset: Uint32,
    matchLength: Int64,
    symbolInfo: Option<SymbolInfo>)

  datatype LineMatch = LineMatch(
    line: Bytes,
    lineStart: Int64,
    lineEnd: Int64,
    lineNumber: Int64,
    before: Bytes,
    after: Bytes,
    fileName: bool,
    score: Float64,
    debugScore: string,
    lineFragments: seq<LineFragmentMatch>)

  datatype ChunkMatch = ChunkMatch(
    content: Bytes,
    contentStart: Option<Location>,
    fileName: bool,
    ranges: seq<Range>,
    symbolInfo: seq<Option<SymbolInfo>>,
    score: Float64,
    debugScore: string)

  datatype FileMatch = FileMatch(
    score: Float64,
    debug: string,
    fileName: string,
    repository: string,
    branches: seq<string>,
    lineMatches: seq<LineMatch>,
    chunkMatches: seq<ChunkMatch>,
    repositoryId: Uint32,
    repositoryPriority: Float64,
    content: Bytes,
    checksum: Bytes,
    language: string,
    subRepositoryName: string,
    subRepositoryPath: string,
    version: string)

  /** The protobuf enum `FlushReason` (an `int32` that may hold unnamed values). */
  type FlushReason = Int32

  const FlushReasonUnknown: FlushReason := 0
  const FlushReasonTimerExpired: FlushReason := 1
  const FlushReasonFinalFlush: FlushReason := 2
  const FlushReasonMaxSize: FlushReason := 3

  datatype Stats = Stats(
    contentBytesLoaded: Int64,
    indexBytesLoaded: Int64,
    crashes: Int64,
    duration: Option<DurationMsg>,
    fileCount: Int64,
    shardFilesConsidered: Int64,
    filesConsidered: Int64,
    filesLoaded: Int64,
    filesSkipped: Int64,
    shardsScanned: Int64,
    shardsSkipped: Int64,
    shardsSkippedFilter: Int64,
    matchCount: Int64,
    ngramMatches: Int64,
    wait: Option<DurationMsg>,
    regexpsConsidered: Int64,
    flushReason: FlushReason)
  const DefaultStats: Stats := Stats(0, 0, 0, None, 0, 0, 0, 0, 0, 0, 0, 0, 0, 0, None, 0, 0)

  datatype Progress = Progress(priority: Float64, maxPendingPriority: Float64)
  const DefaultProgress: Progress := Progress(Float64(0), Float64(0))

  datatype SearchResponse = SearchResponse(
    stats: Option<Stats>,
    progress: Option<Progress>,
    files: seq<FileMatch>,
    repoUrls: map<string, string>,
    lineFragments: map<string, string>)

  datatype RepositoryBranch = RepositoryBranch(name: string, version: string)

  datatype Repository = Repository(
    id: Uint32,
    name: string,
    url: string,
    source: string,
    branches: seq<RepositoryBranch>,
    subRepoMap: map<string, Option<Repository>>,
    commitUrlTemplate: string,
    fileUrlTemplate: string,
    lineFragmentTemplate: string,
    priority: Float64,
    rawConfig: map<string, string>,
    rank: Uint32,
    indexOptions: string,
    hasSymbols: bool,
    tombstone: bool,
    latestCommitDate: Option<TimestampMsg>,
    fileTombstones: seq<string>)
  const DefaultRepository: Repository :=
    Repository(0, "", "", "", [], map[], "", "", "", Float64(0), map[], 0, "", false, false, None, [])

  datatype IndexMetadata = IndexMetadata(
    indexFormatVersion: Int64,
    indexFeatureVersion: Int64,
    indexMinReaderVersion: Int64,
    indexTime: Option<TimestampMsg>,
    plainAscii: bool,
    languageMap: map<string, Uint32>,
    zoektVersion: string,
    id: string)
  const DefaultIndexMetadata: IndexMetadata := IndexMetadata(0, 0, 0, None, false, map[], "", "")

  datatype RepoStats = RepoStats(
    repos: Int64,
    shards: Int64,
    documents: Int64,
    indexBytes: Int64,
    contentBytes: Int64,
    newLinesCount: Uint64,
    defaultBranchNewLinesCount: Uint64,
    otherBranchesNewLinesCount: Uint64)
  const DefaultRepoStats: RepoStats := RepoStats(0, 0, 0, 0, 0, 0, 0, 0)

  datatype RepoListEntry = RepoListEntry(
    repository: Option<Repository>,
    indexMetadata: Option<IndexMetadata>,
    stats: Option<RepoStats>)

  datatype MinimalRepoListEntry = MinimalRepoListEntry(hasSymbols: bool, branches: seq<RepositoryBranch>)
  const DefaultMinimalRepoListEntry: MinimalRepoListEntry := MinimalRepoListEntry(false, [])

  datatype ListResponse = ListResponse(
    repos: seq<Option<RepoListEntry>>,
    reposMap: map<Uint32, Option<MinimalRepoListEntry>>,
    crashes: Int64,
    stats: Option<RepoStats>,
    minimal: map<Uint32, Option<MinimalRepoListEntry>>)

  /** The protobuf enum `ListOptions.RepoListField`. */
  type RepoListField = Int32

  const RepoListFieldUnknown: RepoListField := 0
  const RepoListFieldRepos: RepoListField := 1
  const RepoListFieldMinimal: RepoListField := 2
  const RepoListFieldReposMap: RepoListField := 3

  datatype ListOptions = ListOptions(field: RepoListField, minimal: bool)

  datatype SearchOptions = SearchOptions(
    estimateDocCount: bool,
    whole: bool,
    shardMaxMatchCount: Int64,
    totalMaxMatchCount: Int64,
    shardRepoMaxMatchCount: Int64,
    maxWallTime: Option<DurationMsg>,
    flushWallTime: Option<DurationMsg>,
    maxDocDisplayCount: Int64,
    numContextLines: Int64,
    chunkMatches: bool,
    useDocumentRanks: bool,
    documentRanksWeight: Float64,
    trace: bool,
    debugScore: bool,
    spanContext: map<string, string>)
}
