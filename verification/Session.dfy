/**
 One protocol session between the core and a backend: the message automaton, the pairing of
 headers with raw frames, the assembly of artifacts from chunks, and the manifest that closes an
 emission.
 */
module Session {
  import opened Wrappers
  import opened FrameCodec
  import opened Chunks

  const PROTOCOL_MAJOR: nat := 1
  const PROTOCOL_MINOR: nat := 0
  const ARTIFACT_ENCODING: string := "neutrino.finalized-projection/1"
  const MAX_PATH: nat := 4096

  datatype Direction = CoreToBackend | BackendToCore

  datatype Phase = Init | AwaitingCapabilities | Ready | Emitting | Cancelling | Closed | Failed

  datatype PendingRaw = NoRaw | Projection | Artifact | Skipped

  datatype MessageType =
    | HelloMsg | CapabilitiesMsg | EmitMsg | ArtifactChunkMsg | ArtifactBytesMsg | ManifestMsg
    | CancelMsg | CancelledMsg | ErrorMsg | GoodbyeMsg | ProjectionBytesMsg

  datatype Hello = Hello(protocolMajor: nat, protocolMinorMax: nat)

  datatype Capabilities = Capabilities(
    protocolMajor: nat,
    protocolMinorSelected: nat,
    targetProfileIdentity: string,
    projectionSchemaMin: nat,
    projectionSchemaMax: nat)

  datatype Emit = Emit(
    requestId: nat,
    artifactEncoding: string,
    artifactByteLen: nat,
    artifactDigest: string,
    targetProfileIdentity: string,
    maxArtifacts: nat,
    maxTotalBytes: nat)

  datatype ChunkHeader = ChunkHeader(requestId: nat, path: string, sequence: U32, final: bool, byteLen: nat)

  datatype ManifestArtifact = ManifestArtifact(path: string, sha256: string, byteLen: nat)

  datatype Manifest = Manifest(requestId: nat, artifacts: seq<ManifestArtifact>, receiptDigest: string)

  datatype PeerError = PeerError(requestId: nat, code: string)

  datatype AcceptedEmit = AcceptedEmit(request: Emit, projection: Bytes)

  /** Artifacts by path; the source lists them in path order, which the map determines. */
  datatype CompletedEmission = CompletedEmission(
    requestId: nat,
    artifacts: map<string, CompletedArtifact>,
    receiptDigest: string)

  /** The codes of a refused frame. */
  datatype Fault =
    | Protocol | FrameTooLarge | Version | ArtifactDecode | ArtifactDigest | ProfileMismatch
    | ProjectionSchema | OutputLimit | BadPath

  /** Payload decoders, the digest and the projection decoder, which are not part of this model. */
  datatype Codec = Codec(
    hello: Bytes -> Option<Hello>,
    capabilities: Bytes -> Option<Capabilities>,
    emit: Bytes -> Option<Emit>,
    chunk: Bytes -> Option<ChunkHeader>,
    manifest: Bytes -> Option<Manifest>,
    control: Bytes -> Option<nat>,
    error: Bytes -> Option<PeerError>,
    isObject: Bytes -> bool,
    digest: Bytes -> string,
    projectionSchema: Bytes -> Option<nat>)

  function TypeOf(n: U16): Option<MessageType> {
    if n == 1 then Some(HelloMsg)
    else if n == 2 then Some(CapabilitiesMsg)
    else if n == 3 then Some(EmitMsg)
    else if n == 4 then Some(ArtifactChunkMsg)
    else if n == 5 then Some(ArtifactBytesMsg)
    else if n == 6 then Some(ManifestMsg)
    else if n == 7 then Some(CancelMsg)
    else if n == 8 then Some(CancelledMsg)
    else if n == 9 then Some(ErrorMsg)
    else if n == 10 then Some(GoodbyeMsg)
    else if n == 11 then Some(ProjectionBytesMsg)
    else None
  }

  predicate IsRaw(t: MessageType) {
    t == ArtifactBytesMsg || t == ProjectionBytesMsg
  }

  predicate IsHexDigit(c: char) {
    '0' <= c <= '9' || 'a' <= c <= 'f' || 'A' <= c <= 'F'
  }

  predicate ValidDigest(d: string) {
    |d| == 71 && d[..7] == "sha256:" && forall i :: 7 <= i < |d| ==> IsHexDigit(d[i])
  }

  function SegmentEnd(path: string): (n: nat)
    ensures n <= |path|
  {
    if path == [] || path[0] == '/' then 0 else 1 + SegmentEnd(path[1..])
  }

  predicate GoodSegments(path: string)
    decreases |path|
  {
    path != [] ==>
      var n := SegmentEnd(path);
      && path[..n] != "" && path[..n] != "." && path[..n] != ".."
      && (n < |path| ==> GoodSegments(path[n + 1..]))
  }

  predicate HasEmptySegment(path: string) {
    exists i :: 0 <= i < |path| - 1 && path[i] == '/' && path[i + 1] == '/'
  }

  predicate ValidPath(path: string) {
    && path != "" && |path| <= MAX_PATH && path[0] != '/' && '\0' !in path
    && path[|path| - 1] != '/' && !HasEmptySegment(path)
    && GoodSegments(path)
  }

  /**
   What an emission must have been: the manifest names exactly the assembled artifacts, with their
   lengths and digests.
   */
  ghost predicate ManifestMatches(m: Manifest, artifacts: map<string, CompletedArtifact>) {
    && (forall i, j :: 0 <= i < j < |m.artifacts| ==> m.artifacts[i].path != m.artifacts[j].path)
    && (forall i :: 0 <= i < |m.artifacts| ==> EntryMatches(m.artifacts[i], artifacts))
    && |m.artifacts| == |artifacts|
  }

  predicate EntryMatches(entry: ManifestArtifact, artifacts: map<string, CompletedArtifact>) {
    && ValidPath(entry.path) && entry.path in artifacts
    && ValidDigest(entry.sha256) && entry.sha256 == artifacts[entry.path].sha256
    && entry.byteLen == |artifacts[entry.path].bytes|
  }

  /** An entry that is misspelled, repeated or altered spoils its manifest. */
  lemma EntryCounts(m: Manifest, artifacts: map<string, CompletedArtifact>, i: nat)
    requires i < |m.artifacts|
    ensures EntryMatches(m.artifacts[i], artifacts) ==> ValidPath(m.artifacts[i].path)
    ensures ManifestMatches(m, artifacts) ==>
      && EntryMatches(m.artifacts[i], artifacts)
      && forall j :: 0 <= j < i ==> m.artifacts[j].path != m.artifacts[i].path
  {
    hide ValidPath, ValidDigest;
  }

  /** The paths of the first `n` entries. */
  ghost function PathsBefore(m: Manifest, n: nat): set<string>
    requires n <= |m.artifacts|
  {
    set j | 0 <= j < n :: m.artifacts[j].path
  }

  lemma NoPaths(m: Manifest)
    ensures PathsBefore(m, 0) == {}
  {
  }

  lemma PathsGrow(m: Manifest, n: nat)
    requires n < |m.artifacts|
    ensures PathsBefore(m, n + 1) == PathsBefore(m, n) + {m.artifacts[n].path}
    ensures m.artifacts[n].path in PathsBefore(m, n) <==>
      exists j :: 0 <= j < n && m.artifacts[j].path == m.artifacts[n].path
  {
  }

  lemma AllCounted(m: Manifest, artifacts: map<string, CompletedArtifact>)
    requires forall j, k :: 0 <= j < k < |m.artifacts| ==> m.artifacts[j].path != m.artifacts[k].path
    requires forall j :: 0 <= j < |m.artifacts| ==> EntryMatches(m.artifacts[j], artifacts)
    ensures ManifestMatches(m, artifacts) <==> |m.artifacts| == |artifacts|
  {
    hide EntryMatches;
  }

  /** The ghost record of one completed emission: its request, its manifest and its runs. */
  datatype Delivery = Delivery(request: Emit, manifest: Manifest, done: seq<Run>)

  /** A completed emission delivers its runs, within the limits of its request, as its manifest lists them. */
  ghost predicate Delivered(e: CompletedEmission, d: Delivery, digest: Bytes -> string) {
    && Assembles(d.done, e.artifacts, digest)
    && ManifestMatches(d.manifest, e.artifacts)
    && e.requestId == d.request.requestId == d.manifest.requestId
    && e.receiptDigest == d.manifest.receiptDigest && ValidDigest(e.receiptDigest)
    && |e.artifacts| <= d.request.maxArtifacts
    && TotalBytes(Transcript(d.done)) <= d.request.maxTotalBytes
  }

  /** A manifest that matches names every artifact, once. */
  lemma ManifestNamesAll(m: Manifest, artifacts: map<string, CompletedArtifact>, path: string)
    requires ManifestMatches(m, artifacts) && path in artifacts
    ensures exists i :: 0 <= i < |m.artifacts| && m.artifacts[i].path == path
  {
    var named := PathsBefore(m, |m.artifacts|);
    NamedCount(m, |m.artifacts|);
    assert named <= artifacts.Keys;
    assert artifacts.Keys == artifacts.Keys - {path} + {path};
    if path !in named {
      SubsetIsSmaller(named, artifacts.Keys - {path});
    }
  }

  /**
   What a completed emission hands over: for every path of its manifest, and for no other, the
   bytes of all chunks accepted for that path, in order of arrival, of the announced length.
   */
  lemma DeliveredExactly(e: CompletedEmission, d: Delivery, digest: Bytes -> string, path: string)
    requires Delivered(e, d, digest)
    ensures path in e.artifacts <==> exists i :: 0 <= i < |d.manifest.artifacts| && d.manifest.artifacts[i].path == path
    ensures path in e.artifacts ==> e.artifacts[path].bytes == BytesFor(Transcript(d.done), path)
    ensures forall i :: 0 <= i < |d.manifest.artifacts| ==>
      d.manifest.artifacts[i].byteLen == |BytesFor(Transcript(d.done), d.manifest.artifacts[i].path)|
  {
    hide ValidPath, ValidDigest, Transcript, Concat, BytesFor;
    if path in e.artifacts {
      ManifestNamesAll(d.manifest, e.artifacts, path);
    }
    forall p | p in e.artifacts ensures e.artifacts[p].bytes == BytesFor(Transcript(d.done), p) {
      var i :| 0 <= i < |d.done| && d.done[i].path == p;
      CompletedBytes(d.done, i);
    }
    forall i | 0 <= i < |d.manifest.artifacts|
      ensures d.manifest.artifacts[i].byteLen == |BytesFor(Transcript(d.done), d.manifest.artifacts[i].path)|
    {
      assert EntryMatches(d.manifest.artifacts[i], e.artifacts);
    }
  }

  lemma SubsetIsSmaller<T>(a: set<T>, b: set<T>)
    requires a <= b
    ensures |a| <= |b|
  {
    assert b == a + (b - a);
  }

  lemma {:induction false} NamedCount(m: Manifest, n: nat)
    requires n <= |m.artifacts| && forall i, j :: 0 <= i < j < n ==> m.artifacts[i].path != m.artifacts[j].path
    ensures |PathsBefore(m, n)| == n
  {
    hide PathsBefore;
    NoPaths(m);
    if n > 0 {
      NamedCount(m, n - 1);
      PathsGrow(m, n - 1);
    }
  }

  /** What the session keeps of the current request: its header, the open chunk run and the artifacts so far. */
  datatype Request = Request(
    emit: Emit,
    chunk: ChunkHeader,
    path: string,
    nextSequence: U32,
    bytes: Bytes,
    totalBytes: nat,
    artifacts: map<string, CompletedArtifact>)

  /**
   The accepted chunks of the current request: completed runs, the pieces of the open one, and all
   of them in order.
   */
  datatype Record = Record(done: seq<Run>, current: seq<Bytes>, chunks: seq<Chunk>)

  const NO_EMIT: Emit := Emit(0, "", 0, "", "", 0, 0)
  const NO_CHUNK: ChunkHeader := ChunkHeader(0, "", 0, false, 0)
  const NO_REQUEST: Request := Request(NO_EMIT, NO_CHUNK, "", 0, [], 0, map[])
  const NO_RECORD: Record := Record([], [], [])

  /** What is kept for a request is what its accepted chunks assemble to, within the request's limits. */
  ghost predicate Assembled(r: Record, q: Request, digest: Bytes -> string) {
    && r.chunks == Transcript(r.done) + ChunksOf(q.path, r.current, false)
    && Assembles(r.done, q.artifacts, digest)
    && NoRunOf(r.done, q.path) && NoRunOf(r.done, "")
    && q.bytes == Concat(r.current)
    && q.nextSequence == |r.current| % SEQUENCE_WRAP
    && (q.path == "" ==> r.current == [])
    && q.totalBytes == TotalBytes(r.chunks)
    && q.totalBytes <= q.emit.maxTotalBytes && |q.artifacts| <= q.emit.maxArtifacts
  }

  lemma NothingAssembled(emit: Emit, chunk: ChunkHeader, digest: Bytes -> string)
    ensures Assembled(NO_RECORD, NO_REQUEST.(emit := emit, chunk := chunk), digest)
  {
  }

  /** A header for `path` may come next: it continues the open run, or opens the first run of its path. */
  ghost predicate MayFollow(r: Record, q: Request, h: ChunkHeader) {
    && h.requestId == q.emit.requestId && ValidPath(h.path) && NoRunOf(r.done, h.path)
    && (q.path == "" || h.path == q.path)
    && h.sequence == |r.current| % SEQUENCE_WRAP
  }

  lemma OpensRun(r: Record, q: Request, digest: Bytes -> string, h: ChunkHeader)
    requires Assembled(r, q, digest) && MayFollow(r, q, h)
    ensures Assembled(r, q.(chunk := h, path := h.path), digest)
  {
  }

  /** The checks on a chunk header against what the session keeps. */
  function HeaderFault(q: Request, h: ChunkHeader): Option<Fault> {
    if h.requestId != q.emit.requestId then Some(Protocol)
    else if !ValidPath(h.path) then Some(BadPath)
    else if h.path in q.artifacts then Some(Protocol)
    else if q.path == "" then (if h.sequence != 0 then Some(Protocol) else None)
    else if h.path != q.path then Some(Protocol)
    else if h.sequence != q.nextSequence then Some(Protocol)
    else None
  }

  lemma HeaderFaultMeans(r: Record, q: Request, digest: Bytes -> string, h: ChunkHeader)
    requires Assembled(r, q, digest)
    ensures HeaderFault(q, h).None? <==> MayFollow(r, q, h)
  {
    AssembledPaths(r.done, q.artifacts, digest, h.path);
    hide Assembles, ValidPath, Transcript, ChunksOf;
  }

  /** The checks on the bytes of a chunk: announced length, output size, number of artifacts. */
  function BytesFault(q: Request, payload: Bytes): Option<Fault> {
    if |payload| != q.chunk.byteLen then Some(Protocol)
    else if |payload| > q.emit.maxTotalBytes || q.totalBytes > q.emit.maxTotalBytes - |payload| then Some(OutputLimit)
    else if q.chunk.final && |q.artifacts| >= q.emit.maxArtifacts then Some(OutputLimit)
    else None
  }

  /** The bytes join the open run; after the final chunk the run is an artifact. */
  function TakeBytes(q: Request, payload: Bytes, digest: Bytes -> string): Request {
    var bytes := q.bytes + payload;
    var longer := q.(totalBytes := q.totalBytes + |payload|);
    if q.chunk.final then
      longer.(artifacts := q.artifacts[q.path := CompletedArtifact(q.path, bytes, digest(bytes))],
              path := "", bytes := [], nextSequence := 0)
    else longer.(bytes := bytes, nextSequence := (q.nextSequence + 1) % SEQUENCE_WRAP)
  }

  ghost function RecordBytes(r: Record, q: Request, payload: Bytes): Record {
    var chunks := r.chunks + [Chunk(q.path, q.nextSequence, q.chunk.final, payload)];
    if q.chunk.final then Record(r.done + [Run(q.path, r.current + [payload])], [], chunks)
    else Record(r.done, r.current + [payload], chunks)
  }

  lemma TakesPart(r: Record, q: Request, digest: Bytes -> string, payload: Bytes)
    requires Assembled(r, q, digest) && q.path != "" && !q.chunk.final && BytesFault(q, payload).None?
    ensures Assembled(RecordBytes(r, q, payload), TakeBytes(q, payload, digest), digest)
  {
    hide Assembles, Concat, Transcript, ChunksOf, TotalBytes, NoRunOf;
    HistoryGrows(r.done, q.path, r.current, payload, false);
    NextNumber(|r.current|);
  }

  lemma ClosesRun(r: Record, q: Request, digest: Bytes -> string, payload: Bytes)
    requires Assembled(r, q, digest) && q.path != "" && q.chunk.final && BytesFault(q, payload).None?
    ensures Assembled(RecordBytes(r, q, payload), TakeBytes(q, payload, digest), digest)
  {
    hide Assembles, Concat, Transcript, ChunksOf, TotalBytes, NoRunOf;
    var run := Run(q.path, r.current + [payload]);
    NoParts();
    NoRunAdded(r.done, run);
    AssembledPaths(r.done, q.artifacts, digest, q.path);
    HistoryGrows(r.done, q.path, r.current, payload, true);
    AssemblesOneMore(r.done, q.artifacts, digest, run);
    var all := Transcript(r.done + [run]);
    assert all + [] == all;
    OneMoreKey(q.artifacts, q.path, CompletedArtifact(q.path, q.bytes + payload, digest(q.bytes + payload)));
  }

  lemma NoRunAdded(done: seq<Run>, run: Run)
    requires NoRunOf(done, "") && run.path != ""
    ensures NoRunOf(done + [run], "")
  {
  }

  lemma NoParts()
    ensures Concat([]) == [] && ChunksOf("", [], false) == []
  {
  }

  ghost predicate DeliveriesOk(completed: seq<CompletedEmission>, deliveries: seq<Delivery>, digest: Bytes -> string) {
    && |deliveries| == |completed|
    && forall i :: 0 <= i < |completed| ==> Delivered(completed[i], deliveries[i], digest)
  }

  lemma NextInRun(r: Record, q: Request, digest: Bytes -> string, h: ChunkHeader)
    requires Assembled(r, q, digest) && MayFollow(r, q, h)
    ensures h.sequence == q.nextSequence && h.path != ""
  {
  }

  lemma IsDelivered(r: Record, q: Request, digest: Bytes -> string, m: Manifest)
    requires Assembled(r, q, digest) && q.path == "" && ManifestMatches(m, q.artifacts)
    requires m.requestId == q.emit.requestId && ValidDigest(m.receiptDigest)
    ensures Delivered(CompletedEmission(m.requestId, q.artifacts, m.receiptDigest), Delivery(q.emit, m, r.done), digest)
  {
    hide Assembles, ManifestMatches, ValidDigest, TotalBytes, Transcript;
    NoParts();
    assert Transcript(r.done) + [] == Transcript(r.done);
  }

  // ---------------------------------------------------------------- what the accepted frames say

  /** One accepted frame, and the side it came from. */
  datatype Event = Event(direction: Direction, frame: Frame)

  /** One completed emission as the frames tell it: its request, its manifest, the chunks in between. */
  datatype Shipment = Shipment(request: Emit, manifest: Manifest, chunks: seq<Chunk>)

  /** What the accepted frames amount to, with no check repeated. */
  datatype View = View(pending: PendingRaw, emit: Emit, header: ChunkHeader, chunks: seq<Chunk>,
                       shipments: seq<Shipment>)

  const NOTHING_SEEN: View := View(NoRaw, NO_EMIT, NO_CHUNK, [], [])

  /** The raw frame that a header announced; the bytes of an artifact make one chunk with its header. */
  function AfterRaw(v: View, payload: Bytes): View {
    if v.pending == Artifact then
      v.(pending := NoRaw, chunks := v.chunks + [Chunk(v.header.path, v.header.sequence, v.header.final, payload)])
    else v.(pending := NoRaw)
  }

  /** A manifest ships the chunks seen since the last request ended; a cancelled or failed request drops them. */
  function AfterControl(codec: Codec, v: View, t: MessageType, payload: Bytes): View {
    match t
    case EmitMsg =>
      if codec.emit(payload).Some? then v.(pending := Projection, emit := codec.emit(payload).value) else v
    case ArtifactChunkMsg =>
      if codec.chunk(payload).Some? then v.(pending := Artifact, header := codec.chunk(payload).value) else v
    case ManifestMsg =>
      if codec.manifest(payload).Some? then
        v.(chunks := [], shipments := v.shipments + [Shipment(v.emit, codec.manifest(payload).value, v.chunks)])
      else v
    case CancelledMsg => v.(chunks := [])
    case ErrorMsg => v.(chunks := [])
    case _ => v
  }

  function After(codec: Codec, v: View, frame: Frame): View {
    if v.pending != NoRaw then AfterRaw(v, frame.payload)
    else if TypeOf(frame.messageType).Some? then AfterControl(codec, v, TypeOf(frame.messageType).value, frame.payload)
    else if HasTrailingRaw(frame) then v.(pending := Skipped)
    else v
  }

  function Seen(codec: Codec, history: seq<Event>): View {
    if history == [] then NOTHING_SEEN
    else After(codec, Seen(codec, history[..|history| - 1]), history[|history| - 1].frame)
  }

  lemma OneMoreEvent(codec: Codec, history: seq<Event>, e: Event)
    ensures Seen(codec, history + [e]) == After(codec, Seen(codec, history), e.frame)
    ensures Seen(codec, []) == NOTHING_SEEN
  {
    hide After;
    assert (history + [e])[..|history|] == history;
  }

  /** The deliveries not yet handed over are the latest shipments. */
  ghost predicate Shipped(deliveries: seq<Delivery>, taken: nat, shipments: seq<Shipment>) {
    && |shipments| == taken + |deliveries|
    && forall i :: 0 <= i < |deliveries| ==> shipments[taken + i] == ShipmentOf(deliveries[i])
  }

  function ShipmentOf(d: Delivery): Shipment {
    Shipment(d.request, d.manifest, Transcript(d.done))
  }

  /** The emission holds, for each path of its shipment's manifest and no other, the bytes of that path's chunks. */
  ghost predicate Ships(e: CompletedEmission, s: Shipment) {
    && e.requestId == s.request.requestId == s.manifest.requestId && e.receiptDigest == s.manifest.receiptDigest
    && (forall p :: p in e.artifacts
          <==> exists i :: 0 <= i < |s.manifest.artifacts| && s.manifest.artifacts[i].path == p)
    && (forall p :: p in e.artifacts ==> e.artifacts[p].bytes == BytesFor(s.chunks, p))
    && (forall i :: 0 <= i < |s.manifest.artifacts| ==>
          s.manifest.artifacts[i].byteLen == |BytesFor(s.chunks, s.manifest.artifacts[i].path)|)
    && |e.artifacts| <= s.request.maxArtifacts && TotalBytes(s.chunks) <= s.request.maxTotalBytes
  }

  lemma DeliveredShips(e: CompletedEmission, d: Delivery, digest: Bytes -> string)
    requires Delivered(e, d, digest)
    ensures Ships(e, ShipmentOf(d))
  {
    hide ManifestMatches, Assembles, ValidDigest, Transcript, BytesFor, TotalBytes;
    forall p
      ensures p in e.artifacts <==> exists i :: 0 <= i < |d.manifest.artifacts| && d.manifest.artifacts[i].path == p
      ensures p in e.artifacts ==> e.artifacts[p].bytes == BytesFor(Transcript(d.done), p)
    {
      DeliveredExactly(e, d, digest, p);
    }
    DeliveredExactly(e, d, digest, "");
  }

  lemma ShipsOneMore(deliveries: seq<Delivery>, taken: nat, shipments: seq<Shipment>, d: Delivery)
    requires Shipped(deliveries, taken, shipments)
    ensures Shipped(deliveries + [d], taken, shipments + [ShipmentOf(d)])
  {
    hide ShipmentOf;
  }

  lemma ShipsRest(deliveries: seq<Delivery>, taken: nat, shipments: seq<Shipment>)
    requires Shipped(deliveries, taken, shipments) && deliveries != []
    ensures Shipped(deliveries[1..], taken + 1, shipments)
    ensures taken < |shipments| && shipments[taken] == ShipmentOf(deliveries[0])
  {
    hide ShipmentOf;
    assert shipments[taken + 0] == ShipmentOf(deliveries[0]);
    forall i | 0 <= i < |deliveries[1..]| ensures shipments[taken + 1 + i] == ShipmentOf(deliveries[1..][i]) {
      assert shipments[taken + (i + 1)] == ShipmentOf(deliveries[i + 1]);
    }
  }

  /** With no run open, the chunks recorded are those of the completed runs. */
  lemma ClosedRecord(r: Record, q: Request, digest: Bytes -> string)
    requires Assembled(r, q, digest) && q.path == ""
    ensures r.chunks == Transcript(r.done)
  {
    hide Assembles, Transcript, TotalBytes;
    NoParts();
    assert Transcript(r.done) + [] == Transcript(r.done);
  }

  class Session {
    const codec: Codec
    var phase: Phase
    var pending: PendingRaw
    var pendingDirection: Direction
    var hello: Hello
    var capabilities: Capabilities
    var request: Request
    var accepted: seq<AcceptedEmit>
    var completed: seq<CompletedEmission>
    var peerErrors: seq<PeerError>
    ghost var record: Record
    ghost var deliveries: seq<Delivery>
    ghost var history: seq<Event>
    ghost var taken: nat

    /** What holds between any two frames of any session. */
    ghost predicate Valid()
      reads this
    {
      Settled() && Tracks(Seen(codec, history))
    }

    ghost predicate Settled()
      reads this
    {
      DeliveriesOk(completed, deliveries, codec.digest) && (phase != Failed ==> RequestOk() && PendingOk())
    }

    /** The session stands where its accepted frames put it. */
    ghost predicate Tracks(v: View)
      reads this
    {
      Shipped(deliveries, taken, v.shipments) && (phase != Failed ==> Follows(v))
    }

    /** The awaited raw frame, the open header, the open request and the accepted chunks are those of the frames. */
    ghost predicate Follows(v: View)
      reads this
    {
      && v.pending == pending && v.chunks == record.chunks
      && (pending == Artifact ==> v.header == request.chunk)
      && (pending == Projection || phase == Emitting || phase == Cancelling ==> v.emit == request.emit)
    }

    /** During a request what arrived is assembled; between requests nothing is left of the last one. */
    ghost predicate RequestOk()
      reads this
    {
      && Assembled(record, request, codec.digest)
      && (phase != Emitting && phase != Cancelling ==>
            record == NO_RECORD && request.path == "" && request.artifacts == map[])
    }

    ghost predicate PendingOk()
      reads this
    {
      match pending
      case NoRaw => true
      case Projection => phase == Ready && pendingDirection == CoreToBackend
      case Artifact =>
        && phase == Emitting && pendingDirection == BackendToCore
        && request.path != "" && request.chunk.path == request.path && request.chunk.sequence == request.nextSequence
      case Skipped => phase != Closed
    }

    // -------------------------------------------------------------- which frames may come next

    ghost predicate HelloMayCome(direction: Direction, payload: Bytes)
      reads this
    {
      && phase == Init && direction == CoreToBackend
      && codec.hello(payload).Some? && codec.hello(payload).value.protocolMajor == PROTOCOL_MAJOR
    }

    ghost predicate CapabilitiesMayCome(direction: Direction, payload: Bytes)
      reads this
    {
      && phase == AwaitingCapabilities && direction == BackendToCore && codec.capabilities(payload).Some?
      && var c := codec.capabilities(payload).value;
         && c.protocolMajor == PROTOCOL_MAJOR && c.protocolMinorSelected <= hello.protocolMinorMax
         && c.protocolMinorSelected <= PROTOCOL_MINOR && c.projectionSchemaMin <= c.projectionSchemaMax
    }

    ghost predicate EmitMayCome(direction: Direction, payload: Bytes)
      reads this
    {
      && phase == Ready && direction == CoreToBackend && codec.emit(payload).Some?
      && var m := codec.emit(payload).value;
         && m.requestId != 0 && m.artifactEncoding == ARTIFACT_ENCODING && ValidDigest(m.artifactDigest)
         && m.targetProfileIdentity == capabilities.targetProfileIdentity
    }

    ghost predicate ProjectionMayCome(payload: Bytes)
      reads this
    {
      && |payload| == request.emit.artifactByteLen
      && ValidDigest(request.emit.artifactDigest) && request.emit.artifactDigest == codec.digest(payload)
      && codec.projectionSchema(payload).Some?
      && capabilities.projectionSchemaMin <= codec.projectionSchema(payload).value <= capabilities.projectionSchemaMax
    }

    ghost predicate HeaderMayCome(direction: Direction, payload: Bytes)
      reads this
    {
      && phase == Emitting && direction == BackendToCore && codec.chunk(payload).Some?
      && MayFollow(record, request, codec.chunk(payload).value)
    }

    ghost predicate BytesMayCome(payload: Bytes)
      reads this
    {
      && |payload| == request.chunk.byteLen
      && request.totalBytes + |payload| <= request.emit.maxTotalBytes
      && (request.chunk.final ==> |request.artifacts| < request.emit.maxArtifacts)
    }

    ghost predicate ManifestMayCome(direction: Direction, payload: Bytes)
      reads this
    {
      && phase == Emitting && direction == BackendToCore && request.path == "" && codec.manifest(payload).Some?
      && var m := codec.manifest(payload).value;
         && m.requestId == request.emit.requestId && ValidDigest(m.receiptDigest)
         && ManifestMatches(m, request.artifacts)
    }

    ghost predicate CancelMayCome(direction: Direction, payload: Bytes)
      reads this
    {
      phase == Emitting && direction == CoreToBackend && codec.control(payload) == Some(request.emit.requestId)
    }

    ghost predicate CancelledMayCome(direction: Direction, payload: Bytes)
      reads this
    {
      phase == Cancelling && direction == BackendToCore && codec.control(payload) == Some(request.emit.requestId)
    }

    ghost predicate ErrorMayCome(direction: Direction, payload: Bytes)
      reads this
    {
      && direction == BackendToCore && codec.error(payload).Some?
      && var m := codec.error(payload).value;
         || (phase == AwaitingCapabilities && m.requestId == 0)
         || (phase == Emitting && m.requestId == request.emit.requestId)
    }

    ghost predicate GoodbyeMayCome(direction: Direction, payload: Bytes)
      reads this
    {
      phase == Ready && direction == CoreToBackend && codec.isObject(payload)
    }

    /** The raw frame that was announced, from the side that announced it. */
    ghost predicate RawMayCome(direction: Direction, frame: Frame)
      reads this
    {
      && direction == pendingDirection && !HasTrailingRaw(frame)
      && match pending
         case NoRaw => false
         case Projection => TypeOf(frame.messageType) == Some(ProjectionBytesMsg) && ProjectionMayCome(frame.payload)
         case Artifact => TypeOf(frame.messageType) == Some(ArtifactBytesMsg) && BytesMayCome(frame.payload)
         case Skipped => TypeOf(frame.messageType).None? || IsRaw(TypeOf(frame.messageType).value)
    }

    /** A control message in its phase; raw bytes follow exactly an Emit or a chunk header. */
    ghost predicate ControlMayCome(direction: Direction, t: MessageType, frame: Frame)
      reads this
    {
      && (HasTrailingRaw(frame) <==> t == EmitMsg || t == ArtifactChunkMsg)
      && match t
         case HelloMsg => HelloMayCome(direction, frame.payload)
         case CapabilitiesMsg => CapabilitiesMayCome(direction, frame.payload)
         case EmitMsg => EmitMayCome(direction, frame.payload)
         case ArtifactChunkMsg => HeaderMayCome(direction, frame.payload)
         case ManifestMsg => ManifestMayCome(direction, frame.payload)
         case CancelMsg => CancelMayCome(direction, frame.payload)
         case CancelledMsg => CancelledMayCome(direction, frame.payload)
         case ErrorMsg => ErrorMayCome(direction, frame.payload)
         case GoodbyeMsg => GoodbyeMayCome(direction, frame.payload)
         case ArtifactBytesMsg => false
         case ProjectionBytesMsg => false
    }

    /** The whole automaton: an unknown frame is skipped unless it must be understood. */
    ghost predicate MayCome(direction: Direction, frame: Frame)
      reads this
    {
      && phase != Failed && phase != Closed && CheckFrame(frame).None?
      && (pending != NoRaw ==> RawMayCome(direction, frame))
      && (pending == NoRaw ==>
            match TypeOf(frame.messageType)
            case None => !MustUnderstand(frame)
            case Some(t) => !IsRaw(t) && ControlMayCome(direction, t, frame))
    }

    constructor (codec: Codec)
      ensures Valid() && this.codec == codec && phase == Init && pending == NoRaw && completed == [] && accepted == []
      ensures history == [] && taken == 0
    {
      this.codec := codec;
      phase, pending, pendingDirection := Init, NoRaw, CoreToBackend;
      hello, capabilities := Hello(0, 0), Capabilities(0, 0, "", 0, 0);
      request, record := NO_REQUEST, NO_RECORD;
      accepted, completed, peerErrors, deliveries := [], [], [], [];
      history, taken := [], 0;
      new;
      OneMoreEvent(codec, [], Event(CoreToBackend, Frame(0, 0, [])));
      NothingAssembled(NO_EMIT, NO_CHUNK, codec.digest);
    }

    method ResetRequest()
      modifies `pending, `request, `record
      ensures pending == NoRaw && request == NO_REQUEST && record == NO_RECORD
      ensures Assembled(record, request, codec.digest)
    {
      pending, request, record := NoRaw, NO_REQUEST, NO_RECORD;
      NothingAssembled(NO_EMIT, NO_CHUNK, codec.digest);
    }

    // -------------------------------------------------------------- the handshake

    method OnHello(direction: Direction, payload: Bytes) returns (fault: Option<Fault>)
      modifies `phase, `hello
      ensures fault.None? <==> old(HelloMayCome(direction, payload))
      ensures fault.None? ==> phase == AwaitingCapabilities && hello == codec.hello(payload).value
    {
      if phase != Init || direction != CoreToBackend {
        return Some(Protocol);
      }
      var m := codec.hello(payload);
      if m.None? {
        return Some(Protocol);
      }
      if m.value.protocolMajor != PROTOCOL_MAJOR {
        return Some(Version);
      }
      hello, phase := m.value, AwaitingCapabilities;
      return None;
    }

    method OnCapabilities(direction: Direction, payload: Bytes) returns (fault: Option<Fault>)
      modifies `phase, `capabilities
      ensures fault.None? <==> old(CapabilitiesMayCome(direction, payload))
      ensures fault.None? ==> phase == Ready && capabilities == codec.capabilities(payload).value
    {
      if phase != AwaitingCapabilities || direction != BackendToCore {
        return Some(Protocol);
      }
      var m := codec.capabilities(payload);
      if m.None? {
        return Some(Protocol);
      }
      var c := m.value;
      if c.protocolMajor != PROTOCOL_MAJOR || c.protocolMinorSelected > hello.protocolMinorMax
          || c.protocolMinorSelected > PROTOCOL_MINOR {
        return Some(Version);
      }
      if c.projectionSchemaMin > c.projectionSchemaMax {
        return Some(Version);
      }
      capabilities, phase := c, Ready;
      return None;
    }

    // -------------------------------------------------------------- opening a request

    method OnEmit(direction: Direction, payload: Bytes) returns (fault: Option<Fault>)
      requires phase == Ready ==> RequestOk()
      modifies `request, `pending, `pendingDirection
      ensures fault.None? <==> old(EmitMayCome(direction, payload))
      ensures fault.None? ==>
          request.emit == codec.emit(payload).value && pending == Projection && RequestOk() && PendingOk()
    {
      hide ValidDigest, Assembles;
      if phase != Ready || direction != CoreToBackend {
        return Some(Protocol);
      }
      var m := codec.emit(payload);
      if m.None? || m.value.requestId == 0 {
        return Some(Protocol);
      }
      if m.value.artifactEncoding != ARTIFACT_ENCODING {
        return Some(ArtifactDecode);
      }
      if !ValidDigest(m.value.artifactDigest) {
        return Some(ArtifactDigest);
      }
      if m.value.targetProfileIdentity != capabilities.targetProfileIdentity {
        return Some(ProfileMismatch);
      }
      request := request.(emit := m.value);
      pending, pendingDirection := Projection, direction;
      return None;
    }

    /** The raw frame of an Emit: the projection, checked against the header, starts the emission. */
    method OnProjection(payload: Bytes) returns (fault: Option<Fault>)
      requires phase == Ready && RequestOk()
      modifies `phase, `pending, `accepted
      ensures fault.None? <==> old(ProjectionMayCome(payload))
      ensures fault.None? ==>
        phase == Emitting && pending == NoRaw && RequestOk()
          && accepted == old(accepted) + [AcceptedEmit(request.emit, payload)]
    {
      hide ValidDigest, Assembled;
      if |payload| != request.emit.artifactByteLen {
        return Some(ArtifactDigest);
      }
      if !ValidDigest(request.emit.artifactDigest) || request.emit.artifactDigest != codec.digest(payload) {
        return Some(ArtifactDigest);
      }
      var schema := codec.projectionSchema(payload);
      if schema.None? {
        return Some(ArtifactDecode);
      }
      if schema.value < capabilities.projectionSchemaMin || schema.value > capabilities.projectionSchemaMax {
        return Some(Fault.ProjectionSchema);
      }
      accepted := accepted + [AcceptedEmit(request.emit, payload)];
      pending, phase := NoRaw, Emitting;
      return None;
    }

    // -------------------------------------------------------------- artifacts

    /** A chunk header is next in its own run, or opens the first run of its path. */
    method OnChunkHeader(direction: Direction, payload: Bytes) returns (fault: Option<Fault>)
      requires phase == Emitting ==> RequestOk()
      modifies `request, `pending, `pendingDirection
      ensures fault.None? <==> old(HeaderMayCome(direction, payload))
      ensures fault.None? ==>
        request.chunk == codec.chunk(payload).value && pending == Artifact && RequestOk() && PendingOk()
      ensures request.emit == old(request).emit
    {
      hide Assembled, MayFollow, HeaderFault;
      if phase != Emitting || direction != BackendToCore {
        return Some(Protocol);
      }
      var m := codec.chunk(payload);
      if m.None? {
        return Some(Protocol);
      }
      HeaderFaultMeans(record, request, codec.digest, m.value);
      fault := HeaderFault(request, m.value);
      if fault.None? {
        OpensRun(record, request, codec.digest, m.value);
        NextInRun(record, request, codec.digest, m.value);
        request := request.(chunk := m.value, path := m.value.path);
        pending, pendingDirection := Artifact, direction;
      }
    }

    /** The raw frame of a chunk: its bytes join the run, and the final one completes the artifact. */
    method OnChunkBytes(payload: Bytes) returns (fault: Option<Fault>)
      requires pending == Artifact && phase == Emitting && RequestOk() && PendingOk()
      modifies `request, `record, `pending
      ensures fault.None? <==> old(BytesMayCome(payload))
      ensures fault.None? ==> pending == NoRaw && RequestOk()
      ensures fault.None? ==>
        var h := old(request).chunk;
        record.chunks == old(record).chunks + [Chunk(h.path, h.sequence, h.final, payload)]
      ensures request.emit == old(request).emit
    {
      hide Assembled;
      fault := BytesFault(request, payload);
      if fault.None? {
        if request.chunk.final {
          ClosesRun(record, request, codec.digest, payload);
        } else {
          TakesPart(record, request, codec.digest, payload);
        }
        record := RecordBytes(record, request, payload);
        request := TakeBytes(request, payload, codec.digest);
        pending := NoRaw;
      }
    }

    // -------------------------------------------------------------- closing a request

    method OnManifest(direction: Direction, payload: Bytes) returns (fault: Option<Fault>)
      requires DeliveriesOk(completed, deliveries, codec.digest) && RequestOk() && pending == NoRaw
      modifies `phase, `pending, `request, `record, `completed, `deliveries
      ensures fault.None? <==> old(ManifestMayCome(direction, payload))
      ensures fault.None? ==> phase == Ready && pending == NoRaw && RequestOk() && record == NO_RECORD
      ensures fault.None? ==> DeliveriesOk(completed, deliveries, codec.digest)
      ensures fault.None? ==>
        var m := codec.manifest(payload).value;
        && completed == old(completed) + [CompletedEmission(m.requestId, old(request).artifacts, m.receiptDigest)]
        && deliveries == old(deliveries) + [Delivery(old(request).emit, m, old(record).done)]
        && Transcript(old(record).done) == old(record).chunks
      ensures fault.Some? ==> completed == old(completed) && deliveries == old(deliveries)
    {
      hide Assembled, ManifestMatches, ValidDigest, Delivered;
      if phase != Emitting || direction != BackendToCore || request.path != "" {
        return Some(Protocol);
      }
      var m := codec.manifest(payload);
      if m.None? || m.value.requestId != request.emit.requestId {
        return Some(Protocol);
      }
      if !ValidDigest(m.value.receiptDigest) {
        return Some(ArtifactDigest);
      }
      fault := MatchManifest(m.value);
      if fault.Some? {
        return;
      }
      var e := CompletedEmission(m.value.requestId, request.artifacts, m.value.receiptDigest);
      IsDelivered(record, request, codec.digest, m.value);
      ClosedRecord(record, request, codec.digest);
      completed := completed + [e];
      deliveries := deliveries + [Delivery(request.emit, m.value, record.done)];
      ResetRequest();
      phase := Ready;
    }

    /** One manifest entry against the assembled artifact of its path. */
    method MatchEntry(entry: ManifestArtifact) returns (fault: Option<Fault>)
      ensures ValidPath(entry.path) ==> (fault.None? <==> EntryMatches(entry, request.artifacts))
    {
      hide ValidPath, ValidDigest;
      if entry.path !in request.artifacts {
        return Some(Protocol);
      }
      if !ValidDigest(entry.sha256) || entry.sha256 != request.artifacts[entry.path].sha256 {
        return Some(ArtifactDigest);
      }
      if entry.byteLen != |request.artifacts[entry.path].bytes| {
        return Some(Protocol);
      }
      return None;
    }

    /** The manifest entry by entry, then its size: a duplicate, missing, altered or extra path is a fault. */
    method MatchManifest(m: Manifest) returns (fault: Option<Fault>)
      ensures fault.None? <==> ManifestMatches(m, request.artifacts)
    {
      hide ValidPath, EntryMatches, ManifestMatches, PathsBefore;
      var paths: set<string> := {};
      NoPaths(m);
      for i := 0 to |m.artifacts|
        invariant paths == PathsBefore(m, i) && |paths| == i
        invariant forall j, k :: 0 <= j < k < i ==> m.artifacts[j].path != m.artifacts[k].path
        invariant forall j :: 0 <= j < i ==> EntryMatches(m.artifacts[j], request.artifacts)
      {
        var entry := m.artifacts[i];
        EntryCounts(m, request.artifacts, i);
        PathsGrow(m, i);
        if !ValidPath(entry.path) {
          return Some(BadPath);
        }
        if entry.path in paths {
          return Some(Protocol);
        }
        paths := paths + {entry.path};
        fault := MatchEntry(entry);
        if fault.Some? {
          return;
        }
      }
      AllCounted(m, request.artifacts);
      if |paths| != |request.artifacts| {
        return Some(Protocol);
      }
      return None;
    }

    method OnCancel(direction: Direction, payload: Bytes) returns (fault: Option<Fault>)
      modifies `phase
      ensures fault.None? <==> old(CancelMayCome(direction, payload))
      ensures fault.None? ==> phase == Cancelling
    {
      if phase != Emitting || direction != CoreToBackend || codec.control(payload).None? {
        return Some(Protocol);
      }
      if codec.control(payload).value != request.emit.requestId {
        return Some(Protocol);
      }
      phase := Cancelling;
      return None;
    }

    method OnCancelled(direction: Direction, payload: Bytes) returns (fault: Option<Fault>)
      modifies `phase, `pending, `request, `record
      ensures fault.None? <==> old(CancelledMayCome(direction, payload))
      ensures fault.None? ==> phase == Ready && pending == NoRaw && RequestOk() && record == NO_RECORD
    {
      hide Assembled;
      if phase != Cancelling || direction != BackendToCore || codec.control(payload).None? {
        return Some(Protocol);
      }
      if codec.control(payload).value != request.emit.requestId {
        return Some(Protocol);
      }
      ResetRequest();
      phase := Ready;
      return None;
    }

    /** A peer error fails the handshake, or ends the current emission; it is recorded either way. */
    method OnError(direction: Direction, payload: Bytes) returns (fault: Option<Fault>)
      requires pending == NoRaw
      modifies `phase, `pending, `request, `record, `peerErrors
      ensures fault.None? <==> old(ErrorMayCome(direction, payload))
      ensures fault.None? ==> peerErrors == old(peerErrors) + [codec.error(payload).value]
      ensures fault.None? ==> phase == (if old(phase) == AwaitingCapabilities then Failed else Ready)
      ensures fault.None? ==> pending == NoRaw && (phase == Ready ==> RequestOk() && record == NO_RECORD)
    {
      hide Assembled;
      if direction != BackendToCore || codec.error(payload).None? {
        return Some(Protocol);
      }
      var m := codec.error(payload).value;
      if phase == AwaitingCapabilities {
        if m.requestId != 0 {
          return Some(Protocol);
        }
        peerErrors, phase := peerErrors + [m], Failed;
        return None;
      }
      if phase != Emitting || m.requestId != request.emit.requestId {
        return Some(Protocol);
      }
      peerErrors := peerErrors + [m];
      ResetRequest();
      phase := Ready;
      return None;
    }

    method OnGoodbye(direction: Direction, payload: Bytes) returns (fault: Option<Fault>)
      modifies `phase
      ensures fault.None? <==> old(GoodbyeMayCome(direction, payload))
      ensures fault.None? ==> phase == Closed
    {
      if phase != Ready || direction != CoreToBackend || !codec.isObject(payload) {
        return Some(Protocol);
      }
      phase := Closed;
      return None;
    }

    // -------------------------------------------------------------- one frame

    /** The frame after a header that announced one; `v` is what the frames before it say. */
    method ConsumePendingRaw(ghost v: View, direction: Direction, frame: Frame) returns (fault: Option<Fault>)
      requires Settled() && Tracks(v) && phase != Failed && phase != Closed && pending != NoRaw
      modifies `phase, `pending, `accepted, `request, `record
      ensures fault.None? <==> old(RawMayCome(direction, frame))
      ensures fault.None? ==> Settled() && Tracks(AfterRaw(v, frame.payload)) && pending == NoRaw && phase != Failed
      ensures fault.None? && old(pending) == Projection ==> phase == Emitting
      ensures old(pending) == Skipped ==> phase == old(phase) && request == old(request) && record == old(record)
    {
      hide DeliveriesOk, Assembled, ValidDigest, Shipped, ProjectionMayCome, BytesMayCome;
      if direction != pendingDirection || HasTrailingRaw(frame) {
        return Some(Protocol);
      }
      if pending == Skipped {
        if TypeOf(frame.messageType).Some? && !IsRaw(TypeOf(frame.messageType).value) {
          return Some(Protocol);
        }
        pending := NoRaw;
        return None;
      }
      var expected := if pending == Projection then ProjectionBytesMsg else ArtifactBytesMsg;
      if TypeOf(frame.messageType) != Some(expected) {
        return Some(Protocol);
      }
      if pending == Projection {
        fault := OnProjection(frame.payload);
      } else {
        fault := OnChunkBytes(frame.payload);
      }
    }

    /** A manifest ships what was recorded since the emission began. */
    method ConsumeManifest(ghost v: View, direction: Direction, payload: Bytes) returns (fault: Option<Fault>)
      requires Settled() && Tracks(v) && phase != Failed && pending == NoRaw
      modifies `phase, `pending, `request, `record, `completed, `deliveries
      ensures fault.None? <==> old(ManifestMayCome(direction, payload))
      ensures fault.None? ==> Settled() && Tracks(AfterControl(codec, v, ManifestMsg, payload)) && pending == NoRaw
      ensures fault.None? ==> |completed| == |old(completed)| + 1 && old(completed) <= completed
      ensures fault.Some? ==> completed == old(completed) && deliveries == old(deliveries)
    {
      hide DeliveriesOk, Assembled, ValidDigest, Shipped, ManifestMatches, Transcript;
      fault := OnManifest(direction, payload);
      if fault.None? {
        ShipsOneMore(old(deliveries), taken, v.shipments, deliveries[|deliveries| - 1]);
      }
    }

    /** A control message: raw bytes follow exactly an Emit or a chunk header. */
    method ConsumeKnown(ghost v: View, direction: Direction, t: MessageType, frame: Frame)
      returns (fault: Option<Fault>)
      requires Settled() && Tracks(v) && phase != Failed && phase != Closed && pending == NoRaw && !IsRaw(t)
      modifies `phase, `pending, `pendingDirection, `hello, `capabilities, `request, `completed, `peerErrors, `record,
          `deliveries
      ensures fault.None? <==> old(ControlMayCome(direction, t, frame))
      ensures fault.None? ==> Settled() && Tracks(AfterControl(codec, v, t, frame.payload))
      ensures fault.None? ==> (pending != NoRaw <==> HasTrailingRaw(frame))
      ensures fault.Some? ==> completed == old(completed) && deliveries == old(deliveries)
      ensures completed == old(completed)
           || (fault.None? && t == ManifestMsg && |completed| == |old(completed)| + 1 && old(completed) <= completed)
    {
      hide DeliveriesOk, Assembled, ValidDigest, ManifestMatches, MayFollow, Shipped, ManifestMayCome;
      if HasTrailingRaw(frame) != (t == EmitMsg || t == ArtifactChunkMsg) {
        return Some(Protocol);
      }
      match t
      case HelloMsg => fault := OnHello(direction, frame.payload);
      case CapabilitiesMsg => fault := OnCapabilities(direction, frame.payload);
      case EmitMsg => fault := OnEmit(direction, frame.payload);
      case ArtifactChunkMsg => fault := OnChunkHeader(direction, frame.payload);
      case ManifestMsg => fault := ConsumeManifest(v, direction, frame.payload);
      case CancelMsg => fault := OnCancel(direction, frame.payload);
      case CancelledMsg => fault := OnCancelled(direction, frame.payload);
      case ErrorMsg => fault := OnError(direction, frame.payload);
      case GoodbyeMsg => fault := OnGoodbye(direction, frame.payload);
      case _ => fault := Some(Protocol);
    }

    /** Enter an accepted frame into the history. */
    ghost method Note(v: View, direction: Direction, frame: Frame)
      requires v == Seen(codec, history) && Settled() && Tracks(After(codec, v, frame))
      modifies `history
      ensures Valid() && history == old(history) + [Event(direction, frame)]
    {
      hide After, Seen, DeliveriesOk, Shipped, Assembled;
      OneMoreEvent(codec, history, Event(direction, frame));
      history := history + [Event(direction, frame)];
    }

    /**
     One frame from either side. An accepted frame joins the history, of which requests, chunks and
     completed emissions are a function; a refused frame fails the session for good.
     */
    method Consume(direction: Direction, frame: Frame) returns (fault: Option<Fault>)
      requires Valid()
      modifies this
      ensures Valid() && taken == old(taken)
      ensures fault.None? <==> old(MayCome(direction, frame))
      ensures history == old(history) + if fault.None? then [Event(direction, frame)] else []
      ensures fault.Some? ==> phase == Failed
      ensures old(completed) <= completed && |completed| <= |old(completed)| + 1
      ensures |completed| == |old(completed)| + 1 ==>
          TypeOf(frame.messageType) == Some(ManifestMsg) && old(pending) == NoRaw
    {
      hide DeliveriesOk, Assembled, Shipped, Seen, AfterRaw, AfterControl, RawMayCome, ControlMayCome, TypeOf,
           CheckFrame, MustUnderstand, HasTrailingRaw;
      ghost var v := Seen(codec, history);
      if phase == Failed {
        return Some(Protocol);
      }
      if phase == Closed {
        phase := Failed;
        return Some(Protocol);
      }
      if CheckFrame(frame).Some? {
        phase := Failed;
        return Some(if CheckFrame(frame).value == FrameLimit then FrameTooLarge else Protocol);
      }
      if pending != NoRaw {
        fault := ConsumePendingRaw(v, direction, frame);
        if fault.Some? {
          phase := Failed;
        } else {
          Note(v, direction, frame);
        }
        return;
      }
      var t := TypeOf(frame.messageType);
      if t.None? {
        if MustUnderstand(frame) {
          phase := Failed;
          return Some(Protocol);
        }
        if HasTrailingRaw(frame) {
          pending, pendingDirection := Skipped, direction;
        }
        Note(v, direction, frame);
        return None;
      }
      if IsRaw(t.value) {
        phase := Failed;
        return Some(Protocol);
      }
      fault := ConsumeKnown(v, direction, t.value, frame);
      if fault.Some? {
        phase := Failed;
      } else {
        Note(v, direction, frame);
      }
    }

    /**
     In any session the chunks accepted for the open request are numbered from 0 path by path, one
     path is not interrupted by another, and together they stay within the request's limit.
     */
    lemma ChunksAreOrdered(i: nat, j: nat, k: nat)
      requires Valid() && phase != Failed
      requires i <= j <= k < |Seen(codec, history).chunks|
      ensures var chunks := Seen(codec, history).chunks;
        && chunks[k].sequence == CountFor(chunks[..k], chunks[k].path) % SEQUENCE_WRAP
        && (chunks[i].path == chunks[k].path ==> chunks[j].path == chunks[i].path)
        && TotalBytes(chunks) <= request.emit.maxTotalBytes
    {
      hide Seen, Transcript, ChunksOf, CountFor, TotalBytes, Shipped, DeliveriesOk, PendingOk;
      NumberedFromZero(record.done, request.path, record.current, k);
      if record.chunks[i].path == record.chunks[k].path {
        RunsAreUninterrupted(record.done, request.path, record.current, i, j, k);
      }
    }

    /** The end of the stream is in order only after Goodbye. */
    method Finish() returns (fault: Option<Fault>)
      requires Valid()
      modifies `phase
      ensures Valid()
      ensures fault.None? <==> old(phase) == Closed
      ensures fault.Some? ==> phase == Failed
    {
      if phase == Closed {
        return None;
      }
      phase := Failed;
      return Some(Protocol);
    }

    /** The oldest completed emission, handed over once. */
    method TakeCompletedEmission() returns (e: Option<CompletedEmission>)
      requires Valid()
      modifies `completed, `deliveries, `taken
      ensures Valid()
      ensures e.None? <==> old(completed) == []
      ensures e.None? ==> completed == [] && taken == old(taken)
      ensures e.Some? ==> old(completed) == [e.value] + completed && taken == old(taken) + 1
      ensures e.Some? ==>
        var shipments := Seen(codec, history).shipments;
        old(taken) < |shipments| && Ships(e.value, shipments[old(taken)])
    {
      hide Delivered, Assembled, Shipped, Seen, Ships, ShipmentOf;
      if completed == [] {
        return None;
      }
      DeliveredShips(completed[0], deliveries[0], codec.digest);
      ShipsRest(deliveries, taken, Seen(codec, history).shipments);
      e := Some(completed[0]);
      completed, deliveries, taken := completed[1..], deliveries[1..], taken + 1;
    }
  }
}
