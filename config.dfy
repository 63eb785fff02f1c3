/**
 * The index options the indexserver receives for each repository, in
 * memory and in their protobuf form, and the index-status report it sends
 * back (cmd/zoekt-sourcegraph-indexserver/sg.go).
 */
module Config {
  import opened GoInts
  import opened Wrappers
  import opened Collections
  import Z = Zoekt

  /** The options for indexing one repository. */
  datatype IndexOptions = IndexOptions(
    repoID: Uint32,
    largeFiles: seq<string>,
    symbols: bool,
    branches: seq<Z.RepositoryBranch>,
    name: string,
    cloneURL: string,
    priority: Float64,
    documentRanksVersion: string,
    public: bool,
    fork: bool,
    archived: bool,
    languageMap: map<string, Uint8>)

  /** `indexOptionsItem`: the options, or the error the control plane reported for that repository. */
  datatype IndexOptionsItem = IndexOptionsItem(options: IndexOptions, error: string)

  /** The options Go's zero value describes. */
  const ZeroIndexOptions: IndexOptions :=
    IndexOptions(0, [], false, [], "", "", Float64(0), "", false, false, false, map[])

  // ---------------------------------------------------------------- protobuf form

  /** An opaque configuration fingerprint message; only its identity matters here. */
  datatype Fingerprint = Fingerprint(token: string)

  datatype ZoektRepositoryBranch = ZoektRepositoryBranch(name: string, version: string)

  /** A `CTagsParserType` enum value, keyed by language. */
  datatype LanguageMapping = LanguageMapping(language: string, ctags: Int32)

  datatype ZoektIndexOptions = ZoektIndexOptions(
    repoId: Int32,
    largeFiles: seq<string>,
    symbols: bool,
    branches: seq<ZoektRepositoryBranch>,
    name: string,
    priority: Float64,
    documentRanksVersion: string,
    public: bool,
    fork: bool,
    archived: bool,
    error: string,
    languageMap: seq<LanguageMapping>)

  function BranchFromProto(b: ZoektRepositoryBranch): (r: Z.RepositoryBranch)
    ensures r.name == b.name && r.version == b.version
  {
    Z.RepositoryBranch(b.name, b.version)
  }

  function BranchToProto(b: Z.RepositoryBranch): (r: ZoektRepositoryBranch)
    ensures BranchFromProto(r) == b
  {
    ZoektRepositoryBranch(b.name, b.version)
  }

  function BranchesFromProto(bs: seq<ZoektRepositoryBranch>): (r: seq<Z.RepositoryBranch>)
    ensures |r| == |bs|
    ensures forall i :: 0 <= i < |bs| ==> r[i] == BranchFromProto(bs[i])
  {
    seq(|bs|, i requires 0 <= i < |bs| => BranchFromProto(bs[i]))
  }

  function BranchesToProto(bs: seq<Z.RepositoryBranch>): (r: seq<ZoektRepositoryBranch>)
    ensures |r| == |bs|
    ensures BranchesFromProto(r) == bs
  {
    seq(|bs|, i requires 0 <= i < |bs| => BranchToProto(bs[i]))
  }

  /** Every branch message converts back to itself: the branch list round-trips both ways. */
  lemma {:induction false} BranchesProtoRoundTrip(bs: seq<ZoektRepositoryBranch>)
    ensures BranchesToProto(BranchesFromProto(bs)) == bs
  {
  }

  /**
   * The language map built from the repeated mappings, one entry at a time:
   * a later mapping for the same language overwrites an earlier one, and the
   * parser number is truncated to a byte.
   */
  function LanguageMapFromProto(ms: seq<LanguageMapping>): (r: map<string, Uint8>)
    ensures r.Keys == set i | 0 <= i < |ms| :: ms[i].language
  {
    if ms == [] then map[]
    else
      var last := ms[|ms| - 1];
      LanguageMapFromProto(ms[..|ms| - 1])[last.language := Uint8FromInt32(last.ctags)]
  }

  /** The mappings for the given languages of `m`, in the order given. */
  function Mappings(m: map<string, Uint8>, languages: seq<string>): (r: seq<LanguageMapping>)
    requires forall i :: 0 <= i < |languages| ==> languages[i] in m
    ensures |r| == |languages|
    ensures forall i :: 0 <= i < |languages| ==> r[i].language == languages[i] && r[i].ctags == m[languages[i]] as Int32
  {
    seq(|languages|, i requires 0 <= i < |languages| => LanguageMapping(languages[i], m[languages[i]] as Int32))
  }

  /** Reading back the mappings of any listing of its languages rebuilds that part of the map. */
  lemma {:induction false} LanguageMapRoundTrip(m: map<string, Uint8>, languages: seq<string>)
    requires forall i :: 0 <= i < |languages| ==> languages[i] in m
    ensures LanguageMapFromProto(Mappings(m, languages)) == map l | l in languages :: m[l]
  {
    if languages != [] {
      var n := |languages| - 1;
      var init := languages[..n];
      assert Mappings(m, languages)[..n] == Mappings(m, init);
      LanguageMapRoundTrip(m, init);
      assert forall l :: l in languages <==> l in init || l == languages[n];
    }
  }

  /**
   * `indexOptionsItem.FromProto`; the clone URL is left empty for the caller
   * to fill in. The message is never nil here: the source reads its branch
   * list directly and would panic on a nil one.
   */
  function ItemFromProto(x: ZoektIndexOptions): (item: IndexOptionsItem)
    ensures item.options.cloneURL == ""
    ensures Int32FromUint32(item.options.repoID) == x.repoId
    ensures item.options.name == x.name && item.error == x.error
    ensures |item.options.branches| == |x.branches|
    ensures forall i :: 0 <= i < |x.branches| ==>
      item.options.branches[i].name == x.branches[i].name && item.options.branches[i].version == x.branches[i].version
    ensures item.options.languageMap.Keys == set i | 0 <= i < |x.languageMap| :: x.languageMap[i].language
  {
    IndexOptionsItem(
      IndexOptions(
        Uint32FromInt32(x.repoId),
        x.largeFiles,
        x.symbols,
        BranchesFromProto(x.branches),
        x.name,
        "",
        x.priority,
        x.documentRanksVersion,
        x.public,
        x.fork,
        x.archived,
        LanguageMapFromProto(x.languageMap)),
      x.error)
  }

  /**
   * `indexOptionsItem.ToProto`. The language map is listed in Go's map
   * iteration order, which is unspecified: `Enumerate` stands for it.
   */
  ghost function ItemToProto(o: IndexOptionsItem): (p: ZoektIndexOptions)
    ensures Uint32FromInt32(p.repoId) == o.options.repoID
    ensures |p.languageMap| == |o.options.languageMap|
    ensures p.error == o.error
  {
    var languages := Enumerate(o.options.languageMap.Keys);
    ZoektIndexOptions(
      Int32FromUint32(o.options.repoID),
      o.options.largeFiles,
      o.options.symbols,
      BranchesToProto(o.options.branches),
      o.options.name,
      o.options.priority,
      o.options.documentRanksVersion,
      o.options.public,
      o.options.fork,
      o.options.archived,
      o.error,
      Mappings(o.options.languageMap, languages))
  }

  /** Everything but the clone URL survives the round trip through the protobuf form. */
  lemma {:induction false} ItemRoundTrip(o: IndexOptionsItem)
    ensures ItemFromProto(ItemToProto(o)) == o.(options := o.options.(cloneURL := ""))
  {
    var languages := Enumerate(o.options.languageMap.Keys);
    LanguageMapRoundTrip(o.options.languageMap, languages);
    Uint32BitCastRoundTrip(o.options.repoID);
    assert (map l | l in languages :: o.options.languageMap[l]) == o.options.languageMap;
  }

  // ---------------------------------------------------------------- index status

  datatype IndexStatus = IndexStatus(repoID: Uint32, branches: seq<Z.RepositoryBranch>, indexTimeUnix: Int64)

  datatype UpdateIndexStatusRequest = UpdateIndexStatusRequest(repositories: seq<IndexStatus>)

  datatype StatusRepositoryMsg = StatusRepositoryMsg(repoId: Uint32, branches: seq<ZoektRepositoryBranch>, indexTimeUnix: Int64)

  datatype UpdateIndexStatusRequestMsg = UpdateIndexStatusRequestMsg(repositories: seq<StatusRepositoryMsg>)

  function StatusFromProto(r: StatusRepositoryMsg): (s: IndexStatus)
    ensures s.repoID == r.repoId && s.indexTimeUnix == r.indexTimeUnix && |s.branches| == |r.branches|
  {
    IndexStatus(r.repoId, BranchesFromProto(r.branches), r.indexTimeUnix)
  }

  function StatusToProto(s: IndexStatus): (r: StatusRepositoryMsg)
    ensures StatusFromProto(r) == s
  {
    StatusRepositoryMsg(s.repoID, BranchesToProto(s.branches), s.indexTimeUnix)
  }

  /** `updateIndexStatusRequest.FromProto`; a nil request reads as one with no repositories. */
  function StatusRequestFromProto(x: Option<UpdateIndexStatusRequestMsg>): (u: UpdateIndexStatusRequest)
    ensures x == None ==> u.repositories == []
    ensures x.Some? ==> |u.repositories| == |x.value.repositories|
  {
    match x
    case None => UpdateIndexStatusRequest([])
    case Some(m) =>
      UpdateIndexStatusRequest(
        seq(|m.repositories|, i requires 0 <= i < |m.repositories| => StatusFromProto(m.repositories[i])))
  }

  function StatusRequestToProto(u: UpdateIndexStatusRequest): (x: UpdateIndexStatusRequestMsg)
    ensures |x.repositories| == |u.repositories|
    ensures StatusRequestFromProto(Some(x)) == u
  {
    UpdateIndexStatusRequestMsg(
      seq(|u.repositories|, i requires 0 <= i < |u.repositories| => StatusToProto(u.repositories[i])))
  }

  /** The status request loses nothing in the other direction either. */
  lemma {:induction false} StatusRequestProtoRoundTrip(x: UpdateIndexStatusRequestMsg)
    ensures StatusRequestToProto(StatusRequestFromProto(Some(x))) == x
  {
    var u := StatusRequestFromProto(Some(x));
    forall i | 0 <= i < |x.repositories|
      ensures StatusToProto(u.repositories[i]) == x.repositories[i]
    {
      BranchesProtoRoundTrip(x.repositories[i].branches);
    }
  }
}
