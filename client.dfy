/**
 * `sourcegraphClient`: its configuration, its three fingerprint fields, and
 * the operations that read and write them (`List`, the iterate closure it
 * returns, and `ForceIterateIndexOptions`), in
 * cmd/zoekt-sourcegraph-indexserver/sg.go.
 */
module Sourcegraph {
  import opened GoInts
  import opened Wrappers
  import opened Batching
  import opened Config
  import opened Resolver

  // ---------------------------------------------------------------- the two transports

  /**
   * The REST endpoint: given the fingerprint header (empty for none) and
   * the requested ids, the items decoded from the response body with the
   * fingerprint header of the response, or the error of the exchange.
   */
  type RestServer = (string, seq<Uint32>) -> Result<(seq<IndexOptionsItem>, string)>

  datatype SearchConfigurationResponse =
    SearchConfigurationResponse(updatedOptions: seq<ZoektIndexOptions>, fingerprint: Option<Fingerprint>)

  /** The gRPC endpoint: the request's ids and fingerprint message, answered or failed. */
  type GrpcServer = (Option<Fingerprint>, seq<Int32>) -> Result<SearchConfigurationResponse>

  /** The item with its clone URL filled in from its name. */
  function WithCloneURL(item: IndexOptionsItem, cloneURL: string -> string): (r: IndexOptionsItem)
    ensures r.options.cloneURL == cloneURL(item.options.name)
    ensures r.(options := r.options.(cloneURL := item.options.cloneURL)) == item
  {
    item.(options := item.options.(cloneURL := cloneURL(item.options.name)))
  }

  /** `getIndexOptionsREST`: the decoded items, each given the clone URL for its name. */
  function FetchREST(server: RestServer, cloneURL: string -> string, fp: string, ids: seq<Uint32>): (r: Response<string>)
    ensures r.Failed? <==> server(fp, ids).Failure?
    ensures r.Fetched? ==>
      var (items, next) := server(fp, ids).value;
      r.next == next && |r.items| == |items| &&
      forall i :: 0 <= i < |items| ==> r.items[i] == WithCloneURL(items[i], cloneURL)
  {
    match server(fp, ids)
    case Failure(err) => Failed(err)
    case Success((items, next)) =>
      Fetched(seq(|items|, i requires 0 <= i < |items| => WithCloneURL(items[i], cloneURL)), next)
  }

  /** The ids of a gRPC request: each `uint32` id cast to `int32`. */
  function RequestIDs(ids: seq<Uint32>): (r: seq<Int32>)
    ensures |r| == |ids|
    ensures forall i :: 0 <= i < |ids| ==> Uint32FromInt32(r[i]) == ids[i]
  {
    seq(|ids|, i requires 0 <= i < |ids| => Int32FromUint32(ids[i]))
  }

  /** `getIndexOptionsGRPC`: each updated option converted from protobuf and given its clone URL. */
  function FetchGRPC(server: GrpcServer, cloneURL: string -> string, fp: Option<Fingerprint>, ids: seq<Uint32>): (r: Response<Option<Fingerprint>>)
    ensures r.Failed? <==> server(fp, RequestIDs(ids)).Failure?
    ensures r.Fetched? ==>
      var response := server(fp, RequestIDs(ids)).value;
      r.next == response.fingerprint && |r.items| == |response.updatedOptions| &&
      forall i :: 0 <= i < |r.items| ==> r.items[i] == WithCloneURL(ItemFromProto(response.updatedOptions[i]), cloneURL)
  {
    match server(fp, RequestIDs(ids))
    case Failure(err) => Failed(err)
    case Success(response) =>
      var xs := response.updatedOptions;
      Fetched(seq(|xs|, i requires 0 <= i < |xs| => WithCloneURL(ItemFromProto(xs[i]), cloneURL)), response.fingerprint)
  }

  function RestFetch(server: RestServer, cloneURL: string -> string): (string, seq<Uint32>) -> Response<string> {
    (fp, ids) => FetchREST(server, cloneURL, fp, ids)
  }

  function GrpcFetch(server: GrpcServer, cloneURL: string -> string): (Option<Fingerprint>, seq<Uint32>) -> Response<Option<Fingerprint>> {
    (fp, ids) => FetchGRPC(server, cloneURL, fp, ids)
  }

  // ---------------------------------------------------------------- construction

  /** The client options `newSourcegraphClient` accepts (the gRPC client handle is not modelled). */
  datatype ClientOption = WithBatchSize(batchSize: nat) | WithShouldUseGRPC(useGRPC: bool)

  datatype Settings = Settings(batchSize: nat, useGRPC: bool)

  /** The settings before any option is applied: batch size 0 (meaning the default) and REST. */
  const DefaultSettings: Settings := Settings(0, false)

  /** One option sets its own setting and leaves the other as it was. */
  function ApplyOption(o: ClientOption, s: Settings): (r: Settings)
    ensures o.WithBatchSize? ==> r.batchSize == o.batchSize && r.useGRPC == s.useGRPC
    ensures o.WithShouldUseGRPC? ==> r.useGRPC == o.useGRPC && r.batchSize == s.batchSize
  {
    match o
    case WithBatchSize(n) => s.(batchSize := n)
    case WithShouldUseGRPC(b) => s.(useGRPC := b)
  }

  /** The options applied in order to `s`. */
  function ApplyOptions(opts: seq<ClientOption>, s: Settings): (r: Settings)
    ensures opts == [] ==> r == s
    ensures (forall i :: 0 <= i < |opts| ==> !opts[i].WithBatchSize?) ==> r.batchSize == s.batchSize
    ensures (forall i :: 0 <= i < |opts| ==> !opts[i].WithShouldUseGRPC?) ==> r.useGRPC == s.useGRPC
  {
    if opts == [] then s else ApplyOptions(opts[1..], ApplyOption(opts[0], s))
  }

  /** Applying one more option after the others: the options are applied in order, so the last one wins. */
  lemma {:induction false} ApplyOptionsLastWins(opts: seq<ClientOption>, o: ClientOption, s: Settings)
    ensures ApplyOptions(opts + [o], s) == ApplyOption(o, ApplyOptions(opts, s))
    decreases |opts|
  {
    if opts != [] {
      assert (opts + [o])[1..] == opts[1..] + [o];
      ApplyOptionsLastWins(opts[1..], o, ApplyOption(opts[0], s));
    } else {
      assert [o][1..] == [];
    }
  }

  // ---------------------------------------------------------------- the reset deadline

  const Minute: int := 60_000_000_000

  /** The shortest time between two fingerprint resets. */
  const MinResetInterval: int := 5 * Minute

  /**
   * The reset interval before jitter: a minute per 500 indexed repositories
   * (computed in `int64` nanoseconds, then divided with truncation), but
   * never less than five minutes.
   */
  function ResetBase(n: nat): (base: Duration)
    ensures base >= MinResetInterval
    ensures n * Minute < 0x8000_0000_0000_0000 ==>
      base == if n * Minute / 500 < MinResetInterval then MinResetInterval else n * Minute / 500
  {
    var next := TruncDiv(Wrap64(n * Minute), 500);
    if next < MinResetInterval then MinResetInterval else next
  }

  /**
   * The jitter is drawn below a quarter of the base, so the interval lies
   * between the base and five quarters of it, and it fits in a `Duration`.
   */
  lemma {:induction false} ResetIntervalFits(n: nat, jitter: int)
    requires 0 <= jitter < ResetBase(n) / 4
    ensures ResetBase(n) + jitter < 0x8000_0000_0000_0000
  {
  }

  /**
   * Below 500 indexed repositories the interval is not bounded by
   * 5min + 1.25·(n·1min/500): with no repository the five-minute floor
   * still receives up to a quarter of itself as jitter.
   */
  lemma {:induction false} ResetIntervalExceedsProportionalBound()
    ensures 0 <= Minute < ResetBase(0) / 4
    ensures ResetBase(0) + Minute > MinResetInterval + 5 * (0 * Minute / 500) / 4
  {
  }

  // ---------------------------------------------------------------- the client

  class Client {
    /** The name advertised when listing repositories. */
    const hostname: string
    /** How many repository configurations to request at once; 0 means the default. */
    const batchSize: nat
    const useGRPC: bool

    /** The last fingerprint returned over REST ("" for none). */
    var configFingerprint: string
    /** The last fingerprint returned over gRPC. */
    var configFingerprintProto: Option<Fingerprint>
    /** When both fingerprints are next cleared. */
    var configFingerprintReset: Time

    /** `newSourcegraphClient`: the defaults, then each option in order. */
    constructor (hostname: string, opts: seq<ClientOption>)
      ensures this.hostname == hostname
      ensures batchSize == ApplyOptions(opts, DefaultSettings).batchSize
      ensures useGRPC == ApplyOptions(opts, DefaultSettings).useGRPC
      ensures configFingerprint == "" && configFingerprintProto == None
      ensures configFingerprintReset == Time(ZeroTimeNanos)
    {
      this.hostname := hostname;
      var settings := ApplyOptions(opts, DefaultSettings);
      batchSize := settings.batchSize;
      useGRPC := settings.useGRPC;
      configFingerprint := "";
      configFingerprintProto := None;
      configFingerprintReset := Time(ZeroTimeNanos);
    }

    /**
     * `List`. `listed` is the outcome of `listRepoIDs`, `now` and `later`
     * the two readings of the clock, and `jitter` the draw of
     * `rand.Int63n(base / 4)`.
     */
    method List(indexed: seq<Uint32>, listed: Result<seq<Uint32>>, now: Time, later: Time, jitter: int)
      returns (r: Result<ListResult>)
      requires now.unixNanos <= later.unixNanos
      requires now.unixNanos > configFingerprintReset.unixNanos ==> 0 <= jitter < ResetBase(|indexed|) / 4
      modifies this
      ensures listed.Failure? ==> r == Failure("listRepoIDs: " + listed.error) && unchanged(this)
      ensures listed.Success? ==>
        r.Success? && fresh(r.value) && r.value.client == this &&
        r.value.ids == listed.value && r.value.batchSize == EffectiveBatchSize(batchSize)
      ensures listed.Success? && now.unixNanos > old(configFingerprintReset.unixNanos) ==>
        configFingerprint == "" && configFingerprintProto == None &&
        configFingerprintReset == Time(later.unixNanos + ResetBase(|indexed|) + jitter)
      ensures listed.Success? && now.unixNanos <= old(configFingerprintReset.unixNanos) ==> unchanged(this)
    {
      if listed.Failure? {
        return Failure("listRepoIDs: " + listed.error);
      }
      var size := EffectiveBatchSize(batchSize);
      if now.unixNanos > configFingerprintReset.unixNanos {
        var next := ResetBase(|indexed|);
        next := next + jitter;
        configFingerprintReset := Time(later.unixNanos + next);
        configFingerprintProto := None;
        configFingerprint := "";
      }
      var result := new ListResult(listed.value, this, size);
      r := Success(result);
    }

    /**
     * `ForceIterateIndexOptions`: every batch is asked with no fingerprint
     * and every answer goes to a callback. It has no `modifies` clause: the
     * fingerprint fields and the reset deadline cannot change.
     */
    method ForceIterateIndexOptions(rest: RestServer, grpc: GrpcServer, cloneURL: string -> string, repos: seq<Uint32>)
      returns (events: seq<ForceEvent>)
      ensures !useGRPC ==>
        var batches := Batched(repos, EffectiveBatchSize(batchSize));
        events == ForceEvents(batches, Responses("", batches, RestFetch(rest, cloneURL)))
      ensures useGRPC ==>
        var batches := Batched(repos, EffectiveBatchSize(batchSize));
        events == ForceEvents(batches, Responses(None, batches, GrpcFetch(grpc, cloneURL)))
    {
      var batches := Batched(repos, EffectiveBatchSize(batchSize));
      if useGRPC {
        var _, out := ForcePass(None, batches, GrpcFetch(grpc, cloneURL));
        events := out;
      } else {
        var _, out := ForcePass("", batches, RestFetch(rest, cloneURL));
        events := out;
      }
    }
  }

  /** `SourcegraphListResult`: the ids to index and the iterate closure, which shares the client's fingerprint fields. */
  class ListResult {
    const ids: seq<Uint32>
    const client: Client
    const batchSize: PositiveSize

    constructor (ids: seq<Uint32>, client: Client, batchSize: PositiveSize)
      ensures this.ids == ids && this.client == client && this.batchSize == batchSize
    {
      this.ids := ids;
      this.client := client;
      this.batchSize := batchSize;
    }

    /**
     * `IterateIndexOptions`: one pass over the batches with the fingerprint
     * stored when the pass begins; `delivered` lists the consumer's calls.
     * Only the fingerprint of the transport in use can change.
     */
    method IterateIndexOptions(rest: RestServer, grpc: GrpcServer, cloneURL: string -> string)
      returns (delivered: seq<IndexOptions>)
      modifies client
      ensures client.configFingerprintReset == old(client.configFingerprintReset)
      ensures !client.useGRPC ==>
        var rs := Responses(old(client.configFingerprint), Batched(ids, batchSize), RestFetch(rest, cloneURL));
        delivered == Delivered(rs) &&
        client.configFingerprint == Committed(old(client.configFingerprint), rs) &&
        client.configFingerprintProto == old(client.configFingerprintProto)
      ensures client.useGRPC ==>
        var rs := Responses(old(client.configFingerprintProto), Batched(ids, batchSize), GrpcFetch(grpc, cloneURL));
        delivered == Delivered(rs) &&
        client.configFingerprintProto == Committed(old(client.configFingerprintProto), rs) &&
        client.configFingerprint == old(client.configFingerprint)
    {
      var batches := Batched(ids, batchSize);
      if client.useGRPC {
        var stored, _, out := ResolvePass(client.configFingerprintProto, batches, GrpcFetch(grpc, cloneURL));
        client.configFingerprintProto := stored;
        delivered := out;
      } else {
        var stored, _, out := ResolvePass(client.configFingerprint, batches, RestFetch(rest, cloneURL));
        client.configFingerprint := stored;
        delivered := out;
      }
    }
  }
}
