/**
 The chunks a session accepted for one request, and what they assemble to: one uninterrupted,
 numbered run of chunks for each artifact.
 */
module Chunks {
  import opened FrameCodec

  const SEQUENCE_WRAP: nat := 0x1_0000_0000

  /** An accepted chunk header with its raw bytes. */
  datatype Chunk = Chunk(path: string, sequence: U32, final: bool, bytes: Bytes)

  /** The pieces of one artifact, in order of arrival. */
  datatype Run = Run(path: string, parts: seq<Bytes>)

  datatype CompletedArtifact = CompletedArtifact(path: string, bytes: Bytes, sha256: string)

  function Concat(parts: seq<Bytes>): Bytes {
    if parts == [] then [] else Concat(parts[..|parts| - 1]) + parts[|parts| - 1]
  }

  /** The chunks of one run; `closed` says whether its last chunk was marked final. */
  function ChunksOf(path: string, parts: seq<Bytes>, closed: bool): seq<Chunk> {
    if parts == [] then []
    else
      var n := |parts| - 1;
      ChunksOf(path, parts[..n], false) + [Chunk(path, n % SEQUENCE_WRAP, closed, parts[n])]
  }

  /** The chunks of completed runs, one run after the other. */
  function Transcript(done: seq<Run>): seq<Chunk> {
    if done == [] then []
    else
      var last := done[|done| - 1];
      Transcript(done[..|done| - 1]) + ChunksOf(last.path, last.parts, true)
  }

  ghost predicate DistinctPaths(done: seq<Run>) {
    forall i, j :: 0 <= i < j < |done| ==> done[i].path != done[j].path
  }

  ghost predicate NoRunOf(done: seq<Run>, path: string) {
    forall i :: 0 <= i < |done| ==> done[i].path != path
  }

  /** The artifact of a run is the concatenation of its parts, under its digest. */
  ghost predicate RunAssembled(run: Run, artifacts: map<string, CompletedArtifact>, digest: Bytes -> string) {
    var bytes := Concat(run.parts);
    run.path in artifacts && artifacts[run.path] == CompletedArtifact(run.path, bytes, digest(bytes))
  }

  /** Every run is assembled, and there are no other artifacts. */
  ghost predicate Assembles(done: seq<Run>, artifacts: map<string, CompletedArtifact>, digest: Bytes -> string) {
    && DistinctPaths(done)
    && (forall i :: 0 <= i < |done| ==> RunAssembled(done[i], artifacts, digest))
    && (forall p :: p in artifacts ==> exists i :: 0 <= i < |done| && done[i].path == p)
    && |artifacts| == |done|
  }

  lemma AssemblesOneMore(done: seq<Run>, artifacts: map<string, CompletedArtifact>, digest: Bytes -> string, run: Run)
    requires Assembles(done, artifacts, digest) && run.path !in artifacts
    ensures var bytes := Concat(run.parts);
      Assembles(done + [run], artifacts[run.path := CompletedArtifact(run.path, bytes, digest(bytes))], digest)
  {
    var bytes := Concat(run.parts);
    var next := artifacts[run.path := CompletedArtifact(run.path, bytes, digest(bytes))];
    OneMoreKey(artifacts, run.path, next[run.path]);
    EveryPathRuns(done, artifacts, run, next.Keys);
    assert forall i :: 0 <= i < |done| ==> RunAssembled(done[i], artifacts, digest);
    RunsStay(done, artifacts, digest, run.path, next[run.path]);
    assert RunAssembled(run, next, digest);
    AllAssembled(done, run, next, digest);
  }

  lemma AllAssembled(done: seq<Run>, run: Run, artifacts: map<string, CompletedArtifact>, digest: Bytes -> string)
    requires DistinctPaths(done) && RunAssembled(run, artifacts, digest) && |artifacts| == |done| + 1
    requires forall i :: 0 <= i < |done| ==> RunAssembled(done[i], artifacts, digest) && done[i].path != run.path
    requires forall p :: p in artifacts ==> exists i :: 0 <= i < |done + [run]| && (done + [run])[i].path == p
    ensures Assembles(done + [run], artifacts, digest)
  {
    hide RunAssembled;
    var runs := done + [run];
    assert runs[|done|] == run && forall i :: 0 <= i < |done| ==> runs[i] == done[i];
  }

  lemma RunsStay(done: seq<Run>, artifacts: map<string, CompletedArtifact>, digest: Bytes -> string, path: string,
                 a: CompletedArtifact)
    requires path !in artifacts && forall i :: 0 <= i < |done| ==> RunAssembled(done[i], artifacts, digest)
    ensures forall i :: 0 <= i < |done| ==> RunAssembled(done[i], artifacts[path := a], digest) && done[i].path != path
  {
    hide Concat;
    forall i | 0 <= i < |done| ensures RunAssembled(done[i], artifacts[path := a], digest) && done[i].path != path {
      assert RunAssembled(done[i], artifacts, digest);
    }
  }

  lemma OneMoreKey(m: map<string, CompletedArtifact>, k: string, v: CompletedArtifact)
    requires k !in m
    ensures |m[k := v]| == |m| + 1 && m[k := v].Keys == m.Keys + {k}
  {
    assert m[k := v].Keys == m.Keys + {k};
    assert |m[k := v]| == |m[k := v].Keys| && |m| == |m.Keys|;
  }

  lemma EveryPathRuns(done: seq<Run>, artifacts: map<string, CompletedArtifact>, run: Run, paths: set<string>)
    requires forall p :: p in artifacts ==> exists i :: 0 <= i < |done| && done[i].path == p
    requires paths == artifacts.Keys + {run.path}
    ensures forall p :: p in paths ==> exists i :: 0 <= i < |done + [run]| && (done + [run])[i].path == p
  {
    forall p | p in paths ensures exists i :: 0 <= i < |done + [run]| && (done + [run])[i].path == p {
      if p == run.path {
        assert (done + [run])[|done|].path == p;
      } else {
        var i :| 0 <= i < |done| && done[i].path == p;
        assert (done + [run])[i].path == p;
      }
    }
  }

  lemma AssembledPaths(done: seq<Run>, artifacts: map<string, CompletedArtifact>, digest: Bytes -> string, path: string)
    requires Assembles(done, artifacts, digest)
    ensures path !in artifacts <==> NoRunOf(done, path)
  {
    hide Concat;
    forall i | 0 <= i < |done| ensures done[i].path in artifacts {
      assert RunAssembled(done[i], artifacts, digest);
    }
  }

  lemma OneMorePart(path: string, parts: seq<Bytes>, part: Bytes, closed: bool)
    ensures ChunksOf(path, parts + [part], closed)
         == ChunksOf(path, parts, false) + [Chunk(path, |parts| % SEQUENCE_WRAP, closed, part)]
    ensures Concat(parts + [part]) == Concat(parts) + part
  {
    assert (parts + [part])[..|parts|] == parts;
  }

  lemma OneMoreRun(done: seq<Run>, run: Run)
    ensures Transcript(done + [run]) == Transcript(done) + ChunksOf(run.path, run.parts, true)
  {
    assert (done + [run])[..|done|] == done;
  }

  // ---------------------------------------------------------------- what a transcript looks like

  /** The bytes of all chunks for `path`, in order. */
  function BytesFor(chunks: seq<Chunk>, path: string): Bytes {
    if chunks == [] then []
    else
      var last := chunks[|chunks| - 1];
      BytesFor(chunks[..|chunks| - 1], path) + if last.path == path then last.bytes else []
  }

  function CountFor(chunks: seq<Chunk>, path: string): nat {
    if chunks == [] then 0
    else CountFor(chunks[..|chunks| - 1], path) + if chunks[|chunks| - 1].path == path then 1 else 0
  }

  function TotalBytes(chunks: seq<Chunk>): nat {
    if chunks == [] then 0 else TotalBytes(chunks[..|chunks| - 1]) + |chunks[|chunks| - 1].bytes|
  }

  lemma {:induction false} ForAppend(a: seq<Chunk>, b: seq<Chunk>, path: string)
    ensures BytesFor(a + b, path) == BytesFor(a, path) + BytesFor(b, path)
    ensures CountFor(a + b, path) == CountFor(a, path) + CountFor(b, path)
    ensures TotalBytes(a + b) == TotalBytes(a) + TotalBytes(b)
    decreases |b|
  {
    if b == [] {
      assert a + b == a;
    } else {
      var n := |b| - 1;
      assert (a + b)[..|a + b| - 1] == a + b[..n];
      ForAppend(a, b[..n], path);
    }
  }

  /** One more chunk at the end of the open run, which it may close. */
  lemma HistoryGrows(done: seq<Run>, path: string, current: seq<Bytes>, payload: Bytes, closed: bool)
    ensures var chunks := Transcript(done) + ChunksOf(path, current, false);
      var chunk := Chunk(path, |current| % SEQUENCE_WRAP, closed, payload);
      && Transcript(done) + ChunksOf(path, current + [payload], closed) == chunks + [chunk]
      && TotalBytes(chunks + [chunk]) == TotalBytes(chunks) + |payload|
    ensures closed ==>
        Transcript(done + [Run(path, current + [payload])])
        == Transcript(done) + ChunksOf(path, current + [payload], closed)
    ensures Concat(current + [payload]) == Concat(current) + payload
  {
    OneMorePart(path, current, payload, closed);
    OneMoreRun(done, Run(path, current + [payload]));
    hide Transcript, ChunksOf, Concat;
    var chunks := Transcript(done) + ChunksOf(path, current, false);
    var chunk := Chunk(path, |current| % SEQUENCE_WRAP, closed, payload);
    assert Transcript(done) + (ChunksOf(path, current, false) + [chunk]) == chunks + [chunk];
    assert (chunks + [chunk])[..|chunks|] == chunks;
  }

  lemma NextNumber(n: nat)
    ensures (n % SEQUENCE_WRAP + 1) % SEQUENCE_WRAP == (n + 1) % SEQUENCE_WRAP
  {
  }

  lemma {:induction false} RunChunks(path: string, parts: seq<Bytes>, closed: bool, other: string)
    ensures |ChunksOf(path, parts, closed)| == |parts|
    ensures forall i :: 0 <= i < |parts| ==>
      ChunksOf(path, parts, closed)[i] == Chunk(path, i % SEQUENCE_WRAP, closed && i == |parts| - 1, parts[i])
    ensures BytesFor(ChunksOf(path, parts, closed), path) == Concat(parts)
    ensures other != path ==>
      BytesFor(ChunksOf(path, parts, closed), other) == [] && CountFor(ChunksOf(path, parts, closed), other) == 0
    ensures CountFor(ChunksOf(path, parts, closed), path) == |parts|
    ensures TotalBytes(ChunksOf(path, parts, closed)) == |Concat(parts)|
    decreases |parts|
  {
    if parts != [] {
      var n := |parts| - 1;
      RunChunks(path, parts[..n], false, other);
      var all := ChunksOf(path, parts, closed);
      assert all[..n] == ChunksOf(path, parts[..n], false);
    }
  }

  lemma {:induction false} NothingElsewhere(done: seq<Run>, path: string)
    requires NoRunOf(done, path)
    ensures BytesFor(Transcript(done), path) == [] && CountFor(Transcript(done), path) == 0
  {
    if done != [] {
      var last := done[|done| - 1];
      NothingElsewhere(done[..|done| - 1], path);
      RunChunks(last.path, last.parts, true, path);
      ForAppend(Transcript(done[..|done| - 1]), ChunksOf(last.path, last.parts, true), path);
    }
  }

  /** The bytes of an artifact are the bytes of its chunks, in order of arrival, and nothing else. */
  lemma {:induction false} ArtifactIsItsChunks(done: seq<Run>, path: string, current: seq<Bytes>, i: nat)
    requires DistinctPaths(done) && NoRunOf(done, path) && i < |done|
    ensures BytesFor(Transcript(done) + ChunksOf(path, current, false), done[i].path) == Concat(done[i].parts)
  {
    var open := ChunksOf(path, current, false);
    RunChunks(path, current, false, done[i].path);
    ForAppend(Transcript(done), open, done[i].path);
    CompletedBytes(done, i);
  }

  lemma {:induction false} CompletedBytes(done: seq<Run>, i: nat)
    requires DistinctPaths(done) && i < |done|
    ensures BytesFor(Transcript(done), done[i].path) == Concat(done[i].parts)
  {
    var n := |done| - 1;
    var last, rest := done[n], done[..n];
    RunChunks(last.path, last.parts, true, done[i].path);
    ForAppend(Transcript(rest), ChunksOf(last.path, last.parts, true), done[i].path);
    if i == n {
      NothingElsewhere(rest, last.path);
    } else {
      CompletedBytes(rest, i);
      assert done[i].path != last.path;
    }
  }

  /** Chunk numbers count the chunks of the same path that came before, modulo 2^32. */
  lemma {:induction false} NumberedFromZero(done: seq<Run>, path: string, current: seq<Bytes>, k: nat)
    requires DistinctPaths(done) && NoRunOf(done, path)
    requires k < |Transcript(done) + ChunksOf(path, current, false)|
    ensures var chunks := Transcript(done) + ChunksOf(path, current, false);
      chunks[k].sequence == CountFor(chunks[..k], chunks[k].path) % SEQUENCE_WRAP
    decreases |done|
  {
    var before := Transcript(done);
    var chunks := before + ChunksOf(path, current, false);
    hide *;
    LastRun(done);
    if k >= |before| {
      NumberedInRun(done, path, current, false, k);
    } else {
      var n := |done| - 1;
      var last, rest := done[n], done[..n];
      assert chunks[..k] == before[..k] && chunks[k] == before[k];
      if k >= |Transcript(rest)| {
        NumberedInRun(rest, last.path, last.parts, true, k);
      } else {
        assert before[..k] == Transcript(rest)[..k];
        NumberedFromZero(rest, last.path, [], k);
      }
    }
  }

  /** Within the last run the number is the position, since no earlier chunk has its path. */
  lemma NumberedInRun(done: seq<Run>, path: string, parts: seq<Bytes>, closed: bool, k: nat)
    requires NoRunOf(done, path)
    requires |Transcript(done)| <= k < |Transcript(done) + ChunksOf(path, parts, closed)|
    ensures var chunks := Transcript(done) + ChunksOf(path, parts, closed);
      chunks[k].sequence == CountFor(chunks[..k], chunks[k].path) % SEQUENCE_WRAP
  {
    hide *;
    InOpenRun(Transcript(done), path, parts, closed, k - |Transcript(done)|);
    NothingElsewhere(done, path);
  }

  /** The transcript ends with its last run, whose path no other run has. */
  lemma LastRun(done: seq<Run>)
    requires DistinctPaths(done)
    ensures Transcript([]) == []
    ensures done != [] ==>
      var n := |done| - 1;
      && Transcript(done) == Transcript(done[..n]) + ChunksOf(done[n].path, done[n].parts, true)
      && NoRunOf(done[..n], done[n].path) && DistinctPaths(done[..n])
      && Transcript(done[..n]) + ChunksOf(done[n].path, [], false) == Transcript(done[..n])
  {
  }

  lemma InOpenRun(before: seq<Chunk>, path: string, parts: seq<Bytes>, closed: bool, i: nat)
    requires i < |ChunksOf(path, parts, closed)|
    ensures var chunks := before + ChunksOf(path, parts, closed);
      && chunks[|before| + i].path == path
      && chunks[|before| + i].sequence == i % SEQUENCE_WRAP
      && CountFor(chunks[..|before| + i], path) == CountFor(before, path) + i
  {
    RunChunks(path, parts, closed, path);
    var run := ChunksOf(path, parts, closed);
    PrefixOfRun(path, parts, closed, i);
    RunChunks(path, parts[..i], false, path);
    assert (before + run)[..|before| + i] == before + run[..i];
    ForAppend(before, run[..i], path);
  }

  lemma PrefixOfRun(path: string, parts: seq<Bytes>, closed: bool, i: nat)
    requires i < |ChunksOf(path, parts, closed)|
    ensures i < |parts| && ChunksOf(path, parts, closed)[..i] == ChunksOf(path, parts[..i], false)
  {
    RunChunks(path, parts, closed, path);
    RunChunks(path, parts[..i], false, path);
  }

  /** The chunks of one path are never interrupted by those of another. */
  lemma {:induction false} RunsAreUninterrupted(done: seq<Run>, path: string, current: seq<Bytes>, i: nat, j: nat,
                                                k: nat)
    requires DistinctPaths(done) && NoRunOf(done, path)
    requires i <= j <= k < |Transcript(done) + ChunksOf(path, current, false)|
    requires var chunks := Transcript(done) + ChunksOf(path, current, false); chunks[i].path == chunks[k].path
    ensures var chunks := Transcript(done) + ChunksOf(path, current, false); chunks[j].path == chunks[i].path
    decreases |done|
  {
    var before, open := Transcript(done), ChunksOf(path, current, false);
    var chunks := before + open;
    LastRun(done);
    hide *;
    if i < |before| {
      PathsOfTranscript(done, i);
    }
    if k >= |before| {
      NotOf(done, path);
      InRun(before, path, current, false, k);
      if i >= |before| {
        InRun(before, path, current, false, i);
        InRun(before, path, current, false, j);
      }
    } else {
      var n := |done| - 1;
      var last, rest := done[n], done[..n];
      assert chunks[i] == before[i] && chunks[j] == before[j] && chunks[k] == before[k];
      if k >= |Transcript(rest)| {
        if i < |Transcript(rest)| {
          PathsOfTranscript(rest, i);
        }
        NotOf(rest, last.path);
        InRun(Transcript(rest), last.path, last.parts, true, k);
        if i >= |Transcript(rest)| {
          InRun(Transcript(rest), last.path, last.parts, true, i);
          InRun(Transcript(rest), last.path, last.parts, true, j);
        }
      } else {
        RunsAreUninterrupted(rest, last.path, [], i, j, k);
      }
    }
  }

  lemma NotOf(done: seq<Run>, path: string)
    requires NoRunOf(done, path)
    ensures !exists r :: 0 <= r < |done| && done[r].path == path
  {
  }

  /** Every chunk of a run carries the path of the run. */
  lemma InRun(before: seq<Chunk>, path: string, parts: seq<Bytes>, closed: bool, k: nat)
    requires |before| <= k < |before + ChunksOf(path, parts, closed)|
    ensures (before + ChunksOf(path, parts, closed))[k].path == path
  {
    RunChunks(path, parts, closed, path);
  }

  lemma {:induction false} PathsOfTranscript(done: seq<Run>, i: nat)
    requires i < |Transcript(done)|
    ensures exists r :: 0 <= r < |done| && done[r].path == Transcript(done)[i].path
  {
    var n := |done| - 1;
    var last, rest := done[n], done[..n];
    RunChunks(last.path, last.parts, true, last.path);
    if i < |Transcript(rest)| {
      PathsOfTranscript(rest, i);
      var r :| 0 <= r < n && rest[r].path == Transcript(rest)[i].path;
      assert done[r].path == Transcript(done)[i].path;
    } else {
      assert done[n].path == Transcript(done)[i].path;
    }
  }
}
