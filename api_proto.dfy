/**
 * The converters between the in-memory search API values (module Zoekt)
 * and their protobuf messages (module ZoektV1). Each `XToProto` states in
 * its contract which `XFromProto` undoes it and what, if anything, is lost
 * on the way.
 */
module ApiProto {
  import opened GoInts
  import opened Wrappers
  import opened Collections
  import Z = Zoekt
  import V1 = ZoektV1

  // Durations and timestamps are opaque: `durationpb.New`/`AsDuration` and
  // `timestamppb.New`/`AsTime` copy the value, and a nil message reads as
  // zero (for a duration) or as the Unix epoch (for a timestamp).

  function DurationToProto(d: Duration): (p: V1.DurationMsg)
    ensures AsDuration(Some(p)) == d
  {
    V1.DurationMsg(d)
  }

  /** `AsDuration` on a possibly nil message: nil reads as zero. */
  function AsDuration(p: Option<V1.DurationMsg>): (d: Duration)
    ensures p.None? ==> d == 0
  {
    match p
    case None => 0
    case Some(m) => m.nanos
  }

  function TimestampToProto(t: Time): (p: V1.TimestampMsg)
    ensures AsTime(Some(p)) == t
  {
    V1.TimestampMsg(t)
  }

  /** `AsTime` on a possibly nil message: nil reads as the Unix epoch. */
  function AsTime(p: Option<V1.TimestampMsg>): (t: Time)
    ensures p.None? ==> t == UnixEpoch
  {
    match p
    case None => UnixEpoch
    case Some(m) => m.time
  }

  // ---------------------------------------------------------------- Location, Range

  function LocationFromProto(p: Option<V1.Location>): (l: Z.Location)
    ensures p == None ==> l == Z.Location(0, 0, 0)
  {
    var m := p.GetOr(V1.DefaultLocation);
    Z.Location(m.byteOffset, m.lineNumber, m.column)
  }

  function LocationToProto(l: Z.Location): (p: V1.Location)
    ensures LocationFromProto(Some(p)) == l
  {
    V1.Location(l.byteOffset, l.lineNumber, l.column)
  }

  /** The other direction is exact too: a location message loses nothing. */
  lemma {:induction false} LocationProtoRoundTrip(p: V1.Location)
    ensures LocationToProto(LocationFromProto(Some(p))) == p
  {
  }

  function RangeFromProto(p: Option<V1.Range>): (r: Z.Range)
    ensures p == None ==> r == Z.Range(Z.Location(0, 0, 0), Z.Location(0, 0, 0))
  {
    var m := p.GetOr(V1.DefaultRange);
    Z.Range(LocationFromProto(m.start), LocationFromProto(m.end))
  }

  function RangeToProto(r: Z.Range): (p: V1.Range)
    ensures p.start.Some? && p.end.Some?
    ensures RangeFromProto(Some(p)) == r
  {
    V1.Range(Some(LocationToProto(r.start)), Some(LocationToProto(r.end)))
  }

  /** A range message with a nil end point comes back with an explicit zero location instead. */
  lemma {:induction false} RangeNilEndpointNormalised(p: V1.Range)
    requires p.start == None
    ensures RangeToProto(RangeFromProto(Some(p))) != p
    ensures RangeToProto(RangeFromProto(Some(p))).start == Some(V1.DefaultLocation)
  {
  }

  // ---------------------------------------------------------------- Symbol, fragments, line matches

  function SymbolFromProto(p: Option<V1.SymbolInfo>): (s: Option<Z.Symbol>)
    ensures s.None? <==> p.None?
  {
    match p
    case None => None
    case Some(m) => Some(Z.Symbol(m.sym, m.kind, m.parent, m.parentKind))
  }

  function SymbolToProto(s: Option<Z.Symbol>): (p: Option<V1.SymbolInfo>)
    ensures p.None? <==> s.None?
    ensures SymbolFromProto(p) == s
  {
    match s
    case None => None
    case Some(x) => Some(V1.SymbolInfo(x.sym, x.kind, x.parent, x.parentKind))
  }

  lemma {:induction false} SymbolProtoRoundTrip(p: Option<V1.SymbolInfo>)
    ensures SymbolToProto(SymbolFromProto(p)) == p
  {
  }

  function LineFragmentMatchFromProto(p: V1.LineFragmentMatch): (f: Z.LineFragmentMatch)
    ensures f.symbolInfo.None? <==> p.symbolInfo.None?
  {
    Z.LineFragmentMatch(p.lineOffset, p.offset, p.matchLength, SymbolFromProto(p.symbolInfo))
  }

  function LineFragmentMatchToProto(f: Z.LineFragmentMatch): (p: V1.LineFragmentMatch)
    ensures LineFragmentMatchFromProto(p) == f
  {
    V1.LineFragmentMatch(f.lineOffset, f.offset, f.matchLength, SymbolToProto(f.symbolInfo))
  }

  function LineMatchFromProto(p: V1.LineMatch): (m: Z.LineMatch)
    ensures |m.lineFragments| == |p.lineFragments|
    ensures forall i :: 0 <= i < |p.lineFragments| ==>
      m.lineFragments[i] == LineFragmentMatchFromProto(p.lineFragments[i])
  {
    Z.LineMatch(
      p.line, p.lineStart, p.lineEnd, p.lineNumber, p.before, p.after, p.fileName, p.score, p.debugScore,
      seq(|p.lineFragments|, i requires 0 <= i < |p.lineFragments| => LineFragmentMatchFromProto(p.lineFragments[i])))
  }

  function LineMatchToProto(m: Z.LineMatch): (p: V1.LineMatch)
    ensures |p.lineFragments| == |m.lineFragments|
    ensures LineMatchFromProto(p) == m
  {
    V1.LineMatch(
      m.line, m.lineStart, m.lineEnd, m.lineNumber, m.before, m.after, m.fileName, m.score, m.debugScore,
      seq(|m.lineFragments|, i requires 0 <= i < |m.lineFragments| => LineFragmentMatchToProto(m.lineFragments[i])))
  }

  // ---------------------------------------------------------------- chunk and file matches

  function ChunkMatchFromProto(p: V1.ChunkMatch): (c: Z.ChunkMatch)
    ensures |c.ranges| == |p.ranges| && |c.symbolInfo| == |p.symbolInfo|
  {
    Z.ChunkMatch(
      p.content,
      LocationFromProto(p.contentStart),
      p.fileName,
      seq(|p.ranges|, i requires 0 <= i < |p.ranges| => RangeFromProto(Some(p.ranges[i]))),
      seq(|p.symbolInfo|, i requires 0 <= i < |p.symbolInfo| => SymbolFromProto(p.symbolInfo[i])),
      p.score,
      p.debugScore)
  }

  function ChunkMatchToProto(c: Z.ChunkMatch): (p: V1.ChunkMatch)
    ensures ChunkMatchFromProto(p) == c
  {
    V1.ChunkMatch(
      c.content,
      Some(LocationToProto(c.contentStart)),
      c.fileName,
      seq(|c.ranges|, i requires 0 <= i < |c.ranges| => RangeToProto(c.ranges[i])),
      seq(|c.symbolInfo|, i requires 0 <= i < |c.symbolInfo| => SymbolToProto(c.symbolInfo[i])),
      c.score,
      c.debugScore)
  }

  function FileMatchFromProto(p: V1.FileMatch): (f: Z.FileMatch)
    ensures |f.lineMatches| == |p.lineMatches| && |f.chunkMatches| == |p.chunkMatches|
  {
    Z.FileMatch(
      p.score, p.debug, p.fileName, p.repository, p.branches,
      seq(|p.lineMatches|, i requires 0 <= i < |p.lineMatches| => LineMatchFromProto(p.lineMatches[i])),
      seq(|p.chunkMatches|, i requires 0 <= i < |p.chunkMatches| => ChunkMatchFromProto(p.chunkMatches[i])),
      p.repositoryId, p.repositoryPriority, p.content, p.checksum, p.language,
      p.subRepositoryName, p.subRepositoryPath, p.version)
  }

  function FileMatchToProto(f: Z.FileMatch): (p: V1.FileMatch)
    ensures FileMatchFromProto(p) == f
  {
    V1.FileMatch(
      f.score, f.debug, f.fileName, f.repository, f.branches,
      seq(|f.lineMatches|, i requires 0 <= i < |f.lineMatches| => LineMatchToProto(f.lineMatches[i])),
      seq(|f.chunkMatches|, i requires 0 <= i < |f.chunkMatches| => ChunkMatchToProto(f.chunkMatches[i])),
      f.repositoryID, f.repositoryPriority, f.content, f.checksum, f.language,
      f.subRepositoryName, f.subRepositoryPath, f.version)
  }

  // ---------------------------------------------------------------- flush reasons and statistics

  /** The Go flush reasons that have a protobuf name, plus the zero reason. */
  predicate IsGeneratedFlushReason(fr: Z.FlushReason) {
    fr == 0 || fr == Z.FlushReasonTimerExpired || fr == Z.FlushReasonFinalFlush || fr == Z.FlushReasonMaxSize
  }

  function FlushReasonFromProto(p: V1.FlushReason): (r: Z.FlushReason)
    ensures IsGeneratedFlushReason(r)
    ensures r == 0 <==> !(V1.FlushReasonTimerExpired <= p <= V1.FlushReasonMaxSize)
  {
    if p == V1.FlushReasonTimerExpired then Z.FlushReasonTimerExpired
    else if p == V1.FlushReasonFinalFlush then Z.FlushReasonFinalFlush
    else if p == V1.FlushReasonMaxSize then Z.FlushReasonMaxSize
    else 0
  }

  function FlushReasonToProto(fr: Z.FlushReason): (p: V1.FlushReason)
    ensures V1.FlushReasonUnknown <= p <= V1.FlushReasonMaxSize
    ensures p == V1.FlushReasonUnknown <==> fr !in {Z.FlushReasonTimerExpired, Z.FlushReasonFinalFlush, Z.FlushReasonMaxSize}
    ensures FlushReasonFromProto(p) == if IsGeneratedFlushReason(fr) then fr else 0
  {
    if fr == Z.FlushReasonTimerExpired then V1.FlushReasonTimerExpired
    else if fr == Z.FlushReasonFinalFlush then V1.FlushReasonFinalFlush
    else if fr == Z.FlushReasonMaxSize then V1.FlushReasonMaxSize
    else V1.FlushReasonUnknown
  }

  /** `FlushReason.Generate`: the quickcheck generator, given the non-negative `rand.Int()` it draws. */
  function GenerateFlushReason(n: nat): (fr: Z.FlushReason)
    ensures IsGeneratedFlushReason(fr)
  {
    match n % 4
    case 1 => Z.FlushReasonMaxSize
    case 2 => Z.FlushReasonFinalFlush
    case 3 => Z.FlushReasonTimerExpired
    case _ => 0
  }

  /** Every reason the generator produces survives the round trip. */
  lemma {:induction false} FlushReasonRoundTrip(n: nat)
    ensures FlushReasonFromProto(FlushReasonToProto(GenerateFlushReason(n))) == GenerateFlushReason(n)
  {
  }

  /** A protobuf reason survives the opposite round trip exactly when it is one of the four named values. */
  lemma {:induction false} FlushReasonProtoRoundTrip(p: V1.FlushReason)
    ensures FlushReasonToProto(FlushReasonFromProto(p)) == p <==> V1.FlushReasonUnknown <= p <= V1.FlushReasonMaxSize
  {
  }

  function StatsFromProto(p: Option<V1.Stats>): (s: Z.Stats)
    ensures p == None ==> s.duration == 0 && s.wait == 0 && s.flushReason == 0
  {
    var m := p.GetOr(V1.DefaultStats);
    Z.Stats(
      m.contentBytesLoaded, m.indexBytesLoaded, m.crashes, AsDuration(m.duration), m.fileCount,
      m.shardFilesConsidered, m.filesConsidered, m.filesLoaded, m.filesSkipped, m.shardsScanned,
      m.shardsSkipped, m.shardsSkippedFilter, m.matchCount, m.ngramMatches, AsDuration(m.wait),
      m.regexpsConsidered, FlushReasonFromProto(m.flushReason))
  }

  function StatsToProto(s: Z.Stats): (p: V1.Stats)
    ensures StatsFromProto(Some(p)) == s.(flushReason := if IsGeneratedFlushReason(s.flushReason) then s.flushReason else 0)
  {
    V1.Stats(
      s.contentBytesLoaded, s.indexBytesLoaded, s.crashes, Some(DurationToProto(s.duration)), s.fileCount,
      s.shardFilesConsidered, s.filesConsidered, s.filesLoaded, s.filesSkipped, s.shardsScanned,
      s.shardsSkipped, s.shardsSkippedFilter, s.matchCount, s.ngramMatches, Some(DurationToProto(s.wait)),
      s.regexpsConsidered, FlushReasonToProto(s.flushReason))
  }

  function ProgressFromProto(p: Option<V1.Progress>): (r: Z.Progress)
    ensures p == None ==> r == Z.Progress(Float64(0), Float64(0))
  {
    var m := p.GetOr(V1.DefaultProgress);
    Z.Progress(m.priority, m.maxPendingPriority)
  }

  function ProgressToProto(r: Z.Progress): (p: V1.Progress)
    ensures ProgressFromProto(Some(p)) == r
  {
    V1.Progress(r.priority, r.maxPendingPriority)
  }

  function SearchResultFromProto(p: Option<V1.SearchResponse>): (r: Option<Z.SearchResult>)
    ensures r.None? <==> p.None?
    ensures p.Some? ==> |r.value.files| == |p.value.files|
  {
    match p
    case None => None
    case Some(m) =>
      Some(Z.SearchResult(
        StatsFromProto(m.stats),
        ProgressFromProto(m.progress),
        seq(|m.files|, i requires 0 <= i < |m.files| => FileMatchFromProto(m.files[i])),
        m.repoUrls,
        m.lineFragments))
  }

  function SearchResultToProto(sr: Option<Z.SearchResult>): (p: Option<V1.SearchResponse>)
    ensures p.None? <==> sr.None?
    ensures sr.Some? ==> |p.value.files| == |sr.value.files|
  {
    match sr
    case None => None
    case Some(r) =>
      Some(V1.SearchResponse(
        Some(StatsToProto(r.stats)),
        Some(ProgressToProto(r.progress)),
        seq(|r.files|, i requires 0 <= i < |r.files| => FileMatchToProto(r.files[i])),
        r.repoURLs,
        r.lineFragments))
  }

  /** The search result round trip, given a flush reason the protobuf form can name. */
  lemma {:induction false} SearchResultRoundTrip(r: Z.SearchResult)
    requires IsGeneratedFlushReason(r.stats.flushReason)
    ensures SearchResultFromProto(SearchResultToProto(Some(r))) == Some(r)
  {
    var p := SearchResultToProto(Some(r)).value;
    assert SearchResultFromProto(Some(p)).value.files == r.files;
  }

  // ---------------------------------------------------------------- repositories

  function RepositoryBranchFromProto(p: V1.RepositoryBranch): (b: Z.RepositoryBranch)
    ensures b.name == p.name && b.version == p.version
  {
    Z.RepositoryBranch(p.name, p.version)
  }

  function RepositoryBranchToProto(b: Z.RepositoryBranch): (p: V1.RepositoryBranch)
    ensures RepositoryBranchFromProto(p) == b
  {
    V1.RepositoryBranch(b.name, b.version)
  }

  function BranchesFromProto(ps: seq<V1.RepositoryBranch>): (bs: seq<Z.RepositoryBranch>)
    ensures |bs| == |ps|
    ensures forall i :: 0 <= i < |ps| ==> bs[i] == RepositoryBranchFromProto(ps[i])
  {
    seq(|ps|, i requires 0 <= i < |ps| => RepositoryBranchFromProto(ps[i]))
  }

  function BranchesToProto(bs: seq<Z.RepositoryBranch>): (ps: seq<V1.RepositoryBranch>)
    ensures BranchesFromProto(ps) == bs
  {
    seq(|bs|, i requires 0 <= i < |bs| => RepositoryBranchToProto(bs[i]))
  }

  /** What `RepositoryFromProto(nil)` yields: zero fields, except the commit date reads as the Unix epoch. */
  const NilRepository: Z.Repository :=
    Z.Repository(0, "", "", "", [], map[], "", "", "", Float64(0), map[], 0, "", false, false, UnixEpoch, {})

  function RepositoryFromProto(p: Option<V1.Repository>): (r: Z.Repository)
    ensures p == None ==> r == NilRepository
    ensures p.Some? ==> r.fileTombstones == set f | f in p.value.fileTombstones
    ensures p.Some? ==> r.subRepoMap.Keys == p.value.subRepoMap.Keys
    decreases p
  {
    match p
    case None => NilRepository
    case Some(m) =>
      Z.Repository(
        m.id, m.name, m.url, m.source,
        BranchesFromProto(m.branches),
        map k | k in m.subRepoMap :: Some(RepositoryFromProto(m.subRepoMap[k])),
        m.commitUrlTemplate, m.fileUrlTemplate, m.lineFragmentTemplate, m.priority, m.rawConfig,
        Uint16FromUint32(m.rank),
        m.indexOptions, m.hasSymbols, m.tombstone,
        AsTime(m.latestCommitDate),
        set f | f in m.fileTombstones)
  }

  /** No sub-repository entry, at any depth, is a nil pointer. */
  ghost predicate NoNilSubRepos(r: Z.Repository)
    decreases r
  {
    forall k :: k in r.subRepoMap ==> r.subRepoMap[k].Some? && NoNilSubRepos(r.subRepoMap[k].value)
  }

  /**
   * `(*Repository).ToProto`. The tombstone set is listed in Go's map
   * iteration order, which is unspecified: `Enumerate` stands for it.
   */
  ghost function RepositoryToProto(r: Option<Z.Repository>): (p: Option<V1.Repository>)
    ensures p.None? <==> r.None?
    ensures r.Some? ==> p.value.subRepoMap.Keys == r.value.subRepoMap.Keys
    ensures r.Some? ==> Distinct(p.value.fileTombstones)
    ensures r.Some? ==> (forall f :: f in p.value.fileTombstones <==> f in r.value.fileTombstones)
    decreases r
  {
    match r
    case None => None
    case Some(x) =>
      Some(V1.Repository(
        x.id, x.name, x.url, x.source,
        BranchesToProto(x.branches),
        map k | k in x.subRepoMap :: RepositoryToProto(x.subRepoMap[k]),
        x.commitURLTemplate, x.fileURLTemplate, x.lineFragmentTemplate, x.priority, x.rawConfig,
        x.rank,
        x.indexOptions, x.hasSymbols, x.tombstone,
        Some(TimestampToProto(x.latestCommitDate)),
        Enumerate(x.fileTombstones)))
  }

  /** The tombstone list, read back as a set, is the set it was listed from. */
  lemma {:induction false} TombstonesRoundTrip(s: set<string>)
    ensures (set f | f in Enumerate(s)) == s
  {
  }

  /**
   * A repository with no nil sub-repository comes back from the protobuf
   * form unchanged, however deeply its sub-repositories nest.
   */
  lemma {:induction false} RepositoryRoundTrip(x: Z.Repository)
    requires NoNilSubRepos(x)
    ensures RepositoryFromProto(RepositoryToProto(Some(x))) == x
    decreases x, 1
  {
    var p := RepositoryToProto(Some(x)).value;
    forall k | k in x.subRepoMap
      ensures p.subRepoMap[k] == RepositoryToProto(x.subRepoMap[k])
    {
      SubRepoToProto(x, k);
    }
    SubReposRoundTrip(x, p);
    TombstonesRoundTrip(x.fileTombstones);
  }

  /** A message whose sub-repositories are those of `x` in protobuf form reads back with the sub-repositories of `x`. */
  lemma {:induction false} SubReposRoundTrip(x: Z.Repository, p: V1.Repository)
    requires NoNilSubRepos(x)
    requires p.subRepoMap.Keys == x.subRepoMap.Keys
    requires forall k :: k in x.subRepoMap ==> p.subRepoMap[k] == RepositoryToProto(x.subRepoMap[k])
    ensures RepositoryFromProto(Some(p)).subRepoMap == x.subRepoMap
    decreases x, 0
  {
    var m := RepositoryFromProto(Some(p)).subRepoMap;
    forall k | k in x.subRepoMap
      ensures m[k] == x.subRepoMap[k]
    {
      SubRepoFromProto(p, k);
      RepositoryRoundTrip(x.subRepoMap[k].value);
    }
  }

  /** The protobuf form of a repository holds each sub-repository in protobuf form. */
  lemma {:induction false} SubRepoToProto(x: Z.Repository, k: string)
    requires k in x.subRepoMap
    ensures k in RepositoryToProto(Some(x)).value.subRepoMap
    ensures RepositoryToProto(Some(x)).value.subRepoMap[k] == RepositoryToProto(x.subRepoMap[k])
  {
  }

  /** Reading a repository message reads each of its sub-repositories. */
  lemma {:induction false} SubRepoFromProto(m: V1.Repository, k: string)
    requires k in m.subRepoMap
    ensures RepositoryFromProto(Some(m)).subRepoMap[k] == Some(RepositoryFromProto(m.subRepoMap[k]))
  {
  }

  /** A nil sub-repository comes back as a pointer to the zero repository, not as nil. */
  lemma {:induction false} NilSubRepoBecomesEmpty(x: Z.Repository, k: string)
    requires k in x.subRepoMap && x.subRepoMap[k] == None
    ensures RepositoryFromProto(RepositoryToProto(Some(x))).subRepoMap[k] == Some(NilRepository)
    ensures RepositoryFromProto(RepositoryToProto(Some(x))) != x
  {
    var p := RepositoryToProto(Some(x)).value;
    assert p.subRepoMap[k] == None;
    var r := RepositoryFromProto(Some(p));
    assert r.subRepoMap[k] == Some(NilRepository);
  }

  /** A protobuf rank above 65535 is truncated to its low 16 bits. */
  lemma {:induction false} RepositoryRankTruncated(m: V1.Repository)
    requires m.rank == 0x1_0000
    ensures RepositoryFromProto(Some(m)).rank == 0
  {
  }

  // ---------------------------------------------------------------- metadata, statistics, list entries

  function IndexMetadataFromProto(p: Option<V1.IndexMetadata>): (m: Z.IndexMetadata)
    ensures m.languageMap.Keys == p.GetOr(V1.DefaultIndexMetadata).languageMap.Keys
    ensures p == None ==> m.indexTime == UnixEpoch
  {
    var x := p.GetOr(V1.DefaultIndexMetadata);
    Z.IndexMetadata(
      x.indexFormatVersion, x.indexFeatureVersion, x.indexMinReaderVersion,
      AsTime(x.indexTime),
      x.plainAscii,
      map l | l in x.languageMap :: Uint16FromUint32(x.languageMap[l]),
      x.zoektVersion, x.id)
  }

  function IndexMetadataToProto(m: Option<Z.IndexMetadata>): (p: Option<V1.IndexMetadata>)
    ensures p.None? <==> m.None?
    ensures m.Some? ==> IndexMetadataFromProto(p) == m.value
  {
    match m
    case None => None
    case Some(x) =>
      Some(V1.IndexMetadata(
        x.indexFormatVersion, x.indexFeatureVersion, x.indexMinReaderVersion,
        Some(TimestampToProto(x.indexTime)),
        x.plainASCII,
        map l | l in x.languageMap :: x.languageMap[l] as Uint32,
        x.zoektVersion, x.id))
  }

  function RepoStatsFromProto(p: Option<V1.RepoStats>): (s: Z.RepoStats)
    ensures p == None ==> s == Z.RepoStats(0, 0, 0, 0, 0, 0, 0, 0)
  {
    var m := p.GetOr(V1.DefaultRepoStats);
    Z.RepoStats(
      m.repos, m.shards, m.documents, m.indexBytes, m.contentBytes,
      m.newLinesCount, m.defaultBranchNewLinesCount, m.otherBranchesNewLinesCount)
  }

  function RepoStatsToProto(s: Z.RepoStats): (p: V1.RepoStats)
    ensures RepoStatsFromProto(Some(p)) == s
  {
    V1.RepoStats(
      s.repos, s.shards, s.documents, s.indexBytes, s.contentBytes,
      s.newLinesCount, s.defaultBranchNewLinesCount, s.otherBranchesNewLinesCount)
  }

  function RepoListEntryFromProto(p: Option<V1.RepoListEntry>): (e: Option<Z.RepoListEntry>)
    ensures e.None? <==> p.None?
  {
    match p
    case None => None
    case Some(m) =>
      Some(Z.RepoListEntry(
        RepositoryFromProto(m.repository),
        IndexMetadataFromProto(m.indexMetadata),
        RepoStatsFromProto(m.stats)))
  }

  ghost function RepoListEntryToProto(e: Option<Z.RepoListEntry>): (p: Option<V1.RepoListEntry>)
    ensures p.None? <==> e.None?
  {
    match e
    case None => None
    case Some(x) =>
      Some(V1.RepoListEntry(
        RepositoryToProto(Some(x.repository)),
        IndexMetadataToProto(Some(x.indexMetadata)),
        Some(RepoStatsToProto(x.stats))))
  }

  lemma {:induction false} RepoListEntryRoundTrip(e: Option<Z.RepoListEntry>)
    requires e.Some? ==> NoNilSubRepos(e.value.repository)
    ensures RepoListEntryFromProto(RepoListEntryToProto(e)) == e
  {
    if e.Some? {
      RepositoryRoundTrip(e.value.repository);
    }
  }

  function MinimalRepoListEntryFromProto(p: Option<V1.MinimalRepoListEntry>): (e: Z.MinimalRepoListEntry)
    ensures p == None ==> e == Z.MinimalRepoListEntry(false, [])
  {
    var m := p.GetOr(V1.DefaultMinimalRepoListEntry);
    Z.MinimalRepoListEntry(m.hasSymbols, BranchesFromProto(m.branches))
  }

  function MinimalRepoListEntryToProto(e: Z.MinimalRepoListEntry): (p: V1.MinimalRepoListEntry)
    ensures MinimalRepoListEntryFromProto(Some(p)) == e
  {
    V1.MinimalRepoListEntry(e.hasSymbols, BranchesToProto(e.branches))
  }

  // ---------------------------------------------------------------- repository lists

  function MinimalMapFromProto(m: map<Uint32, Option<V1.MinimalRepoListEntry>>): (r: map<Uint32, Z.MinimalRepoListEntry>)
    ensures r.Keys == m.Keys
  {
    map id | id in m :: MinimalRepoListEntryFromProto(m[id])
  }

  function MinimalMapToProto(m: map<Uint32, Z.MinimalRepoListEntry>): (r: map<Uint32, Option<V1.MinimalRepoListEntry>>)
    ensures MinimalMapFromProto(r) == m
  {
    map id | id in m :: Some(MinimalRepoListEntryToProto(m[id]))
  }

  function RepoListFromProto(p: Option<V1.ListResponse>): (r: Z.RepoList)
    ensures p.Some? ==> |r.repos| == |p.value.repos|
    ensures p.Some? ==> r.reposMap.Keys == p.value.reposMap.Keys && r.minimal.Keys == p.value.minimal.Keys
    ensures p == None ==> r.repos == [] && r.reposMap == map[] && r.minimal == map[]
  {
    var m := p.GetOr(V1.ListResponse([], map[], 0, None, map[]));
    Z.RepoList(
      seq(|m.repos|, i requires 0 <= i < |m.repos| => RepoListEntryFromProto(m.repos[i])),
      MinimalMapFromProto(m.reposMap),
      m.crashes,
      RepoStatsFromProto(m.stats),
      MinimalMapFromProto(m.minimal))
  }

  /**
   * `(*RepoList).ToProto` as written: it converts every entry of `Repos`
   * but then emits an empty `Repos` list.
   */
  function RepoListToProto(r: Z.RepoList): (p: V1.ListResponse)
    ensures p.repos == []
    ensures RepoListFromProto(Some(p)) == r.(repos := [])
  {
    V1.ListResponse([], MinimalMapToProto(r.reposMap), r.crashes, Some(RepoStatsToProto(r.stats)), MinimalMapToProto(r.minimal))
  }

  /** The round trip loses every repository entry: a list holding one entry comes back with none. */
  lemma {:induction false} RepoListToProtoDropsRepos(r: Z.RepoList)
    requires |r.repos| == 1
    ensures RepoListFromProto(Some(RepoListToProto(r))) != r
    ensures RepoListFromProto(Some(RepoListToProto(r))).repos == []
  {
  }

  /** The entries of a repository list, none of whose repositories has a nil sub-repository. */
  ghost predicate NoNilSubReposInEntries(es: seq<Option<Z.RepoListEntry>>) {
    forall i :: 0 <= i < |es| && es[i].Some? ==> NoNilSubRepos(es[i].value.repository)
  }

  /** `(*RepoList).ToProto` with the converted entries emitted, as the conversion loop evidently intends. */
  ghost function RepoListToProtoIntended(r: Z.RepoList): (p: V1.ListResponse)
    ensures |p.repos| == |r.repos|
    ensures forall i :: 0 <= i < |r.repos| ==> p.repos[i] == RepoListEntryToProto(r.repos[i])
  {
    var repos := seq(|r.repos|, i requires 0 <= i < |r.repos| => RepoListEntryToProto(r.repos[i]));
    V1.ListResponse(repos, MinimalMapToProto(r.reposMap), r.crashes, Some(RepoStatsToProto(r.stats)), MinimalMapToProto(r.minimal))
  }

  /** With the entries emitted, a repository list comes back unchanged. */
  lemma {:induction false} RepoListIntendedRoundTrip(r: Z.RepoList)
    requires NoNilSubReposInEntries(r.repos)
    ensures RepoListFromProto(Some(RepoListToProtoIntended(r))) == r
  {
    var p := RepoListToProtoIntended(r);
    forall i | 0 <= i < |r.repos|
      ensures RepoListEntryFromProto(p.repos[i]) == r.repos[i]
    {
      RepoListEntryRoundTrip(r.repos[i]);
    }
    assert RepoListFromProto(Some(p)).repos == r.repos;
  }

  // ---------------------------------------------------------------- list options

  /** The Go list fields that have a protobuf name. */
  predicate IsKnownListField(f: Z.RepoListField) {
    f == Z.RepoListFieldRepos || f == Z.RepoListFieldMinimal || f == Z.RepoListFieldReposMap
  }

  function ListOptionsFromProto(p: Option<V1.ListOptions>): (l: Option<Z.ListOptions>)
    ensures l.None? <==> p.None?
    ensures l.Some? ==> IsKnownListField(l.value.field) && l.value.minimal == p.value.minimal
  {
    match p
    case None => None
    case Some(m) =>
      var field :=
        if m.field == V1.RepoListFieldRepos then Z.RepoListFieldRepos
        else if m.field == V1.RepoListFieldMinimal then Z.RepoListFieldMinimal
        else if m.field == V1.RepoListFieldReposMap then Z.RepoListFieldReposMap
        else 0;
      Some(Z.ListOptions(field, m.minimal))
  }

  function ListOptionsToProto(l: Option<Z.ListOptions>): (p: Option<V1.ListOptions>)
    ensures p.None? <==> l.None?
    ensures l.Some? && IsKnownListField(l.value.field) ==> ListOptionsFromProto(p) == l
    ensures l.Some? && !IsKnownListField(l.value.field) ==>
      p.value.field == V1.RepoListFieldUnknown && ListOptionsFromProto(p) == Some(l.value.(field := Z.RepoListFieldRepos))
  {
    match l
    case None => None
    case Some(x) =>
      var field :=
        if x.field == Z.RepoListFieldRepos then V1.RepoListFieldRepos
        else if x.field == Z.RepoListFieldMinimal then V1.RepoListFieldMinimal
        else if x.field == Z.RepoListFieldReposMap then V1.RepoListFieldReposMap
        else 0;
      Some(V1.ListOptions(field, x.minimal))
  }

  /** A protobuf list option survives the opposite round trip exactly when its field is one of the three named ones. */
  lemma {:induction false} ListOptionsProtoRoundTrip(m: V1.ListOptions)
    ensures ListOptionsToProto(ListOptionsFromProto(Some(m))) == Some(m) <==>
      V1.RepoListFieldRepos <= m.field <= V1.RepoListFieldReposMap
  {
  }

  // ---------------------------------------------------------------- search options

  /** `SearchOptionsFromProto` as written: it never reads `DebugScore`. */
  function SearchOptionsFromProto(p: Option<V1.SearchOptions>): (s: Option<Z.SearchOptions>)
    ensures s.None? <==> p.None?
    ensures s.Some? ==> !s.value.debugScore
  {
    match p
    case None => None
    case Some(m) =>
      Some(Z.SearchOptions(
        m.estimateDocCount, m.whole, m.shardMaxMatchCount, m.totalMaxMatchCount, m.shardRepoMaxMatchCount,
        AsDuration(m.maxWallTime), AsDuration(m.flushWallTime), m.maxDocDisplayCount, m.numContextLines,
        m.chunkMatches, m.useDocumentRanks, m.documentRanksWeight, m.trace,
        false,
        m.spanContext))
  }

  /** `SearchOptionsFromProto` reading `DebugScore` back, as the writer in `ToProto` evidently intends. */
  function SearchOptionsFromProtoIntended(p: Option<V1.SearchOptions>): (s: Option<Z.SearchOptions>)
    ensures s.None? <==> p.None?
    ensures s.Some? ==> s.value.debugScore == p.value.debugScore
    ensures s.Some? ==> SearchOptionsFromProto(p) == Some(s.value.(debugScore := false))
  {
    match p
    case None => None
    case Some(m) =>
      Some(Z.SearchOptions(
        m.estimateDocCount, m.whole, m.shardMaxMatchCount, m.totalMaxMatchCount, m.shardRepoMaxMatchCount,
        AsDuration(m.maxWallTime), AsDuration(m.flushWallTime), m.maxDocDisplayCount, m.numContextLines,
        m.chunkMatches, m.useDocumentRanks, m.documentRanksWeight, m.trace,
        m.debugScore,
        m.spanContext))
  }

  function SearchOptionsToProto(s: Option<Z.SearchOptions>): (p: Option<V1.SearchOptions>)
    ensures p.None? <==> s.None?
    ensures s.Some? ==> p.value.debugScore == s.value.debugScore
    ensures s.Some? ==> SearchOptionsFromProto(p) == Some(s.value.(debugScore := false))
    ensures SearchOptionsFromProtoIntended(p) == s
  {
    match s
    case None => None
    case Some(x) =>
      Some(V1.SearchOptions(
        x.estimateDocCount, x.whole, x.shardMaxMatchCount, x.totalMaxMatchCount, x.shardRepoMaxMatchCount,
        Some(DurationToProto(x.maxWallTime)), Some(DurationToProto(x.flushWallTime)),
        x.maxDocDisplayCount, x.numContextLines,
        x.chunkMatches, x.useDocumentRanks, x.documentRanksWeight, x.trace,
        x.debugScore,
        x.spanContext))
  }

  /** The round trip as written resets `DebugScore`: options asking for debug scores come back without. */
  lemma {:induction false} SearchOptionsDebugScoreLost(s: Z.SearchOptions)
    requires s.debugScore
    ensures SearchOptionsFromProto(SearchOptionsToProto(Some(s))) != Some(s)
  {
  }
}
