/**
 * uploader.go: the upload-session path, the chunk plan of uploadChunks
 * (how many chunks, which byte range each covers, the headers of its PUT),
 * the job queue and the byte counter, and the mapping of a folder's files
 * to remote paths. The file is its content; the session reply and the set
 * of chunk indices whose PUT fails are inputs.
 */
module Uploader {
  import opened Wrappers
  import opened Text

  /** Bytes per chunk: 10 MiB. */
  const ChunkSize: nat := 10485760

  const GraphDrive: string := "https://graph.microsoft.com/v1.0/me/drive"

  // ---------------------------------------------------------------- paths

  /** escapePath: every space becomes %20. */
  function EscapePath(path: string): (r: string)
    ensures ' ' !in r
    ensures |r| >= |path|
  {
    if |path| == 0 then ""
    else (if path[0] == ' ' then "%20" else [path[0]]) + EscapePath(path[1..])
  }

  lemma {:induction false} EscapePathAppend(a: string, b: string)
    ensures EscapePath(a + b) == EscapePath(a) + EscapePath(b)
  {
    if |a| == 0 {
      assert a + b == b;
    } else {
      assert (a + b)[1..] == a[1..] + b;
      EscapePathAppend(a[1..], b);
    }
  }

  /**
   * escapePath changes nothing but spaces: a space becomes "%20", any other
   * character stays where it is.
   */
  lemma EscapePathOnlySpaces(a: string, c: char, b: string)
    ensures EscapePath(a + [c] + b) == EscapePath(a) + (if c == ' ' then "%20" else [c]) + EscapePath(b)
  {
    EscapePathAppend(a + [c], b);
    EscapePathAppend(a, [c]);
    assert [c][1..] == [];
  }

  /** A path without spaces is left exactly as it is. */
  lemma {:induction false} EscapePathIdentity(s: string)
    requires ' ' !in s
    ensures EscapePath(s) == s
  {
    if |s| > 0 {
      assert s[0] in s;
      assert forall c :: c in s[1..] ==> c in s;
      EscapePathIdentity(s[1..]);
    }
  }

  /**
   * A '%' is kept as it is, so "50% off" becomes "50%%20off": a '%' that is
   * not followed by two hex digits, which a URL parser rejects.
   */
  lemma EscapePathKeepsPercent(a: string, b: string)
    ensures EscapePath(a + "% " + b) == EscapePath(a) + "%%20" + EscapePath(b)
  {
    EscapePathAppend(a + "% ", b);
    EscapePathAppend(a, "% ");
    assert "% "[1..] == " " && " "[1..] == "";
  }

  /** The drive path of the upload session: one slash, then the remote with all its leading slashes removed. */
  function SessionPath(remote: string): (p: string)
    ensures |p| >= 1 && p[0] == '/' && (|p| == 1 || p[1] != '/')
    ensures exists k :: 0 <= k <= |remote| && (forall i :: 0 <= i < k ==> remote[i] == '/') && p == "/" + remote[k..]
  {
    var t := TrimLeftChar(remote, '/');
    assert t == remote[|remote| - |t|..];
    "/" + t
  }

  /** Normalising an already normalised path changes nothing. */
  lemma SessionPathIdempotent(remote: string)
    ensures SessionPath(SessionPath(remote)) == SessionPath(remote)
  {
    var t := TrimLeftChar(remote, '/');
    TrimLeftCharOneMore(t, '/');
    TrimLeftCharNothingToTrim(t, '/');
  }

  /** Any number of leading slashes in the remote name the same session path. */
  lemma SessionPathIgnoresLeadingSlash(remote: string)
    ensures SessionPath("/" + remote) == SessionPath(remote)
  {
    TrimLeftCharOneMore(remote, '/');
  }

  /** The createUploadSession URL for a remote path. */
  function SessionEndpoint(remote: string): string {
    GraphDrive + "/root:" + EscapePath(SessionPath(remote)) + ":/createUploadSession"
  }

  /** The session URL holds one absolute drive path between "root:" and ":/createUploadSession", with no space left in it. */
  lemma SessionEndpointShape(remote: string)
    ensures HasPrefix(SessionEndpoint(remote), GraphDrive + "/root:/")
    ensures HasSuffix(SessionEndpoint(remote), ":/createUploadSession")
    ensures ' ' !in SessionEndpoint(remote)
  {
    var head, tail := GraphDrive + "/root:", ":/createUploadSession";
    assert forall i :: 0 <= i < |head| ==> head[i] != ' ';
    assert forall i :: 0 <= i < |tail| ==> tail[i] != ' ';
  }

  // ----------------------------------------------------------- chunk plan

  /** ceil(fileSize / ChunkSize), computed as uploader.go does. */
  function TotalChunks(fileSize: nat): (n: nat)
    ensures n * ChunkSize >= fileSize
    ensures n > 0 ==> (n - 1) * ChunkSize < fileSize
    ensures n == 0 <==> fileSize == 0
  {
    (fileSize + ChunkSize - 1) / ChunkSize
  }

  /** Chunk `index` covers the bytes start..end, both inclusive. */
  datatype Chunk = Chunk(index: nat, start: nat, end: nat)

  function Len(c: Chunk): int {
    c.end - c.start + 1
  }

  lemma MulMono(a: nat, b: nat)
    requires a <= b
    ensures a * ChunkSize <= b * ChunkSize
  {
  }

  /** The byte range of chunk idx. */
  function ChunkAt(idx: nat, fileSize: nat): (c: Chunk)
    requires idx < TotalChunks(fileSize)
    ensures c.index == idx && c.start == idx * ChunkSize
    ensures c.start <= c.end < fileSize
    ensures 1 <= Len(c) <= ChunkSize
    ensures c.end == fileSize - 1 || Len(c) == ChunkSize
    ensures idx + 1 < TotalChunks(fileSize) ==> c.end + 1 == (idx + 1) * ChunkSize
    ensures idx + 1 == TotalChunks(fileSize) ==> c.end == fileSize - 1
  {
    var n := TotalChunks(fileSize);
    MulMono(idx, n - 1);
    MulMono(if idx + 1 < n then idx + 1 else idx, n - 1);
    var startByte := idx * ChunkSize;
    var endByte := if startByte + ChunkSize - 1 >= fileSize then fileSize - 1 else startByte + ChunkSize - 1;
    Chunk(idx, startByte, endByte)
  }

  function Chunks(fileSize: nat): (cs: seq<Chunk>)
    ensures |cs| == TotalChunks(fileSize)
    ensures forall i :: 0 <= i < |cs| ==> cs[i] == ChunkAt(i, fileSize)
  {
    seq(TotalChunks(fileSize), i requires 0 <= i < TotalChunks(fileSize) => ChunkAt(i, fileSize))
  }

  function SumLens(cs: seq<Chunk>): int {
    if |cs| == 0 then 0 else SumLens(cs[..|cs| - 1]) + Len(cs[|cs| - 1])
  }

  /** Bytes covered by the first k chunks. */
  function Covered(k: nat, fileSize: nat): nat
    requires k <= TotalChunks(fileSize)
  {
    if k == 0 then 0 else ChunkAt(k - 1, fileSize).end + 1
  }

  lemma CoveredStep(k: nat, fileSize: nat)
    requires k < TotalChunks(fileSize)
    ensures Covered(k + 1, fileSize) == Covered(k, fileSize) + Len(ChunkAt(k, fileSize))
    ensures ChunkAt(k, fileSize).start == Covered(k, fileSize)
  {
  }

  lemma {:induction false} SumLensPrefix(k: nat, fileSize: nat)
    requires k <= TotalChunks(fileSize)
    ensures SumLens(Chunks(fileSize)[..k]) == Covered(k, fileSize)
  {
    if k > 0 {
      var cs := Chunks(fileSize);
      assert cs[..k][..k - 1] == cs[..k - 1];
      SumLensPrefix(k - 1, fileSize);
      CoveredStep(k - 1, fileSize);
    }
  }

  /**
   * The chunks partition the file: the first starts at 0, each starts right
   * after the previous one ends, the last ends at the last byte, and their
   * sizes add up to the file size. The last one is fileSize mod ChunkSize
   * bytes long, or a full chunk when that is 0.
   */
  lemma ChunksPartition(fileSize: nat)
    ensures var n := TotalChunks(fileSize);
      && (n > 0 ==> ChunkAt(0, fileSize).start == 0 && ChunkAt(n - 1, fileSize).end == fileSize - 1)
      && (forall i :: 0 <= i < n - 1 ==> ChunkAt(i + 1, fileSize).start == ChunkAt(i, fileSize).end + 1)
      && (n > 0 ==> Len(ChunkAt(n - 1, fileSize)) == if fileSize % ChunkSize == 0 then ChunkSize else fileSize % ChunkSize)
      && SumLens(Chunks(fileSize)) == fileSize
  {
    var n := TotalChunks(fileSize);
    SumLensPrefix(n, fileSize);
    assert Chunks(fileSize)[..n] == Chunks(fileSize);
    if n > 0 {
      LastChunkLen(fileSize);
    }
  }

  lemma LastChunkLen(fileSize: nat)
    requires fileSize > 0
    ensures Len(ChunkAt(TotalChunks(fileSize) - 1, fileSize)) == if fileSize % ChunkSize == 0 then ChunkSize else fileSize % ChunkSize
  {
    var n := TotalChunks(fileSize);
    var q, m := fileSize / ChunkSize, fileSize % ChunkSize;
    assert fileSize == q * ChunkSize + m;
    if m == 0 {
      assert fileSize + ChunkSize - 1 == q * ChunkSize + (ChunkSize - 1);
      assert n == q;
    } else {
      assert fileSize + ChunkSize - 1 == (q + 1) * ChunkSize + (m - 1);
      assert n == q + 1;
    }
  }

  /** A 25 MiB file goes up as 10, 10 and 5 MiB. */
  lemma TwentyFiveMiBScenario()
    ensures TotalChunks(25 * 1024 * 1024) == 3
    ensures Chunks(25 * 1024 * 1024) ==
      [Chunk(0, 0, 10485759), Chunk(1, 10485760, 20971519), Chunk(2, 20971520, 26214399)]
  {
  }

  // -------------------------------------------------------------- headers

  /** Content-Range: bytes {start}-{end}/{fileSize}. */
  function ContentRange(c: Chunk, fileSize: nat): string {
    "bytes " + RangeFields(c.start, c.end, fileSize)
  }

  /** {start}-{end}/{total}, the part after "bytes ". */
  function RangeFields(start: nat, end: nat, total: nat): string {
    Dec(start) + "-" + Dec(end) + "/" + Dec(total)
  }

  /** Content-Length: the chunk's byte count. */
  function ContentLength(c: Chunk): string
    requires c.start <= c.end
  {
    Dec(c.end - c.start + 1)
  }

  /** Reads a Content-Range value back into (start, end, total). */
  function ParseContentRange(s: string): Option<(nat, nat, nat)> {
    if HasPrefix(s, "bytes ") then ParseRangeFields(s[6..]) else None
  }

  /** Splits "{start}-{end}/{total}" at the first '-' and the first '/' after it. */
  function ParseRangeFields(rest: string): Option<(nat, nat, nat)> {
    match SplitAt(rest, '-')
    case None => None
    case Some((first, tail)) =>
      match SplitAt(tail, '/')
      case None => None
      case Some((second, third)) =>
        match (ParseDec(first), ParseDec(second), ParseDec(third))
        case (Some(a), Some(b), Some(t)) => Some((a, b, t))
        case _ => None
  }

  lemma ParseDigitFields(a: string, b: string, t: string)
    requires |a| > 0 && |b| > 0 && |t| > 0 && AllDigits(a) && AllDigits(b) && AllDigits(t)
    ensures ParseRangeFields(a + "-" + b + "/" + t) == Some((DigitsValue(a), DigitsValue(b), DigitsValue(t)))
  {
    var tail := b + ['/'] + t;
    assert a + "-" + b + "/" + t == a + ['-'] + tail;
    SplitAtAfterDigits(a, '-', tail);
    SplitAtAfterDigits(b, '/', t);
  }

  /** The headers of a chunk PUT carry exactly its range, the file size and the byte count. */
  lemma HeadersRoundTrip(c: Chunk, fileSize: nat)
    requires c.start <= c.end
    ensures ParseContentRange(ContentRange(c, fileSize)) == Some((c.start, c.end, fileSize))
    ensures ParseDec(ContentLength(c)) == Some(Len(c))
  {
    RangeRoundTrip(c.start, c.end, fileSize);
    ParseDecOfDec(c.end - c.start + 1);
  }

  lemma RangeRoundTrip(start: nat, end: nat, total: nat)
    ensures ParseContentRange("bytes " + RangeFields(start, end, total)) == Some((start, end, total))
  {
    PrefixRest("bytes ", RangeFields(start, end, total));
    ParseDigitFields(Dec(start), Dec(end), Dec(total));
    DigitsValueOfDec(start);
    DigitsValueOfDec(end);
    DigitsValueOfDec(total);
  }

  // ------------------------------------------------- workers and counter

  /**
   * One chunk PUT to the session URL: the range and file size its headers
   * declare, and the bytes it carries.
   */
  datatype ChunkPut = ChunkPut(url: string, range: Chunk, fileSize: nat, body: seq<bv8>)

  /** The PUT a worker sends for chunk idx: the headers for its range and the bytes read at its offset. */
  function PutFor(idx: nat, content: seq<bv8>, uploadUrl: string): ChunkPut
    requires idx < TotalChunks(|content|)
  {
    var c := ChunkAt(idx, |content|);
    ChunkPut(uploadUrl, c, |content|, content[c.start..c.end + 1])
  }

  /**
   * The headers of chunk idx's PUT read back as its own range and the file
   * size, and its Content-Length is the number of bytes it carries.
   */
  lemma PutForHeaders(idx: nat, content: seq<bv8>, uploadUrl: string)
    requires idx < TotalChunks(|content|)
    ensures var p := PutFor(idx, content, uploadUrl);
      && p.range == ChunkAt(idx, |content|) && p.fileSize == |content|
      && ParseDec(ContentLength(p.range)) == Some(|p.body|)
      && ParseContentRange(ContentRange(p.range, p.fileSize)) == Some((p.range.start, p.range.end, |content|))
  {
    var c := ChunkAt(idx, |content|);
    HeadersRoundTrip(c, |content|);
    assert |PutFor(idx, content, uploadUrl).body| == Len(c);
  }

  function Indices(n: nat): (s: seq<nat>)
    ensures |s| == n && forall i :: 0 <= i < n ==> s[i] == i
  {
    seq(n, i => i)
  }

  /** What the counter gains when the job idx is handled: its size, unless its request failed. */
  function Gain(idx: nat, fileSize: nat, failed: set<nat>): nat {
    if idx < TotalChunks(fileSize) && idx !in failed then Len(ChunkAt(idx, fileSize)) else 0
  }

  /** The counter after the jobs in `order` were handled, starting from 0. */
  function AddedBytes(order: seq<nat>, fileSize: nat, failed: set<nat>): nat {
    if |order| == 0 then 0
    else AddedBytes(order[..|order| - 1], fileSize, failed) + Gain(order[|order| - 1], fileSize, failed)
  }

  /** The failed chunk indices, in the order they were logged. */
  function Logged(order: seq<nat>, failed: set<nat>): seq<nat> {
    if |order| == 0 then []
    else Logged(order[..|order| - 1], failed) + (if order[|order| - 1] in failed then [order[|order| - 1]] else [])
  }

  /** The final counter of an upload of fileSize bytes. */
  function UploadedBytes(fileSize: nat, failed: set<nat>): nat {
    AddedBytes(Indices(TotalChunks(fileSize)), fileSize, failed)
  }

  /**
   * uploadChunks: enqueue every chunk index, close the queue, and let the
   * workers handle each job; the pool is modelled as one worker taking jobs
   * in queue order (any other order gives the same counter, see
   * CounterOrderIndependent). A failed PUT is logged and skipped; the call
   * itself never fails.
   */
  method UploadChunks(content: seq<bv8>, uploadUrl: string, failed: set<nat>)
    returns (uploaded: nat, puts: seq<ChunkPut>, failures: seq<nat>)
    ensures puts == PlannedPuts(TotalChunks(|content|), content, uploadUrl)
    ensures failures == Logged(Indices(TotalChunks(|content|)), failed)
    ensures uploaded == UploadedBytes(|content|, failed)
  {
    var fileSize := |content|;
    var totalChunks := TotalChunks(fileSize);
    var jobs: seq<nat> := [];
    var i := 0;
    while i < totalChunks
      invariant 0 <= i <= totalChunks
      invariant jobs == Indices(i)
    {
      jobs := jobs + [i];
      i := i + 1;
    }
    // the queue is closed here: the workers see exactly these jobs
    uploaded, puts, failures := 0, [], [];
    var received := 0;
    while received < |jobs|
      invariant 0 <= received <= |jobs| == totalChunks
      invariant uploaded == Handled(received, content, uploadUrl, failed).0
      invariant puts == Handled(received, content, uploadUrl, failed).1
      invariant failures == Handled(received, content, uploadUrl, failed).2
    {
      var idx := jobs[received];
      assert idx == received;
      var put, size, sent := HandleJob(idx, content, uploadUrl, failed);
      HandledStep(received, content, uploadUrl, failed);
      puts := puts + [put];
      if !sent {
        failures := failures + [idx];
      } else {
        uploaded := uploaded + size;
      }
      received := received + 1;
    }
  }

  /** The counter, the PUTs and the log after the first k jobs of the queue. */
  function Handled(k: nat, content: seq<bv8>, uploadUrl: string, failed: set<nat>): (nat, seq<ChunkPut>, seq<nat>)
    requires k <= TotalChunks(|content|)
  {
    (AddedBytes(Indices(k), |content|, failed), PlannedPuts(k, content, uploadUrl), Logged(Indices(k), failed))
  }

  lemma HandledStep(k: nat, content: seq<bv8>, uploadUrl: string, failed: set<nat>)
    requires k < TotalChunks(|content|)
    ensures var before, after := Handled(k, content, uploadUrl, failed), Handled(k + 1, content, uploadUrl, failed);
      && after.0 == before.0 + Gain(k, |content|, failed)
      && after.1 == before.1 + [PutFor(k, content, uploadUrl)]
      && after.2 == before.2 + (if k in failed then [k] else [])
  {
    assert Indices(k + 1)[..k] == Indices(k);
    PlannedPutsSnoc(k, content, uploadUrl);
  }

  /** One job of a worker: read chunk idx, PUT it with its headers, and report its size and whether the PUT went through. */
  method HandleJob(idx: nat, content: seq<bv8>, uploadUrl: string, failed: set<nat>)
    returns (put: ChunkPut, size: nat, sent: bool)
    requires idx < TotalChunks(|content|)
    ensures put == PutFor(idx, content, uploadUrl)
    ensures sent <==> idx !in failed
    ensures size == Len(ChunkAt(idx, |content|))
  {
    var fileSize := |content|;
    var startByte := idx * ChunkSize;
    var endByte := startByte + ChunkSize - 1;
    if endByte >= fileSize {
      endByte := fileSize - 1;
    }
    size := endByte - startByte + 1;
    var c := Chunk(idx, startByte, endByte);
    put := ChunkPut(uploadUrl, c, fileSize, content[startByte..endByte + 1]);
    sent := idx !in failed;
  }

  /** The PUTs for the first k chunks, in index order. */
  function PlannedPuts(k: nat, content: seq<bv8>, uploadUrl: string): (ps: seq<ChunkPut>)
    requires k <= TotalChunks(|content|)
    ensures |ps| == k && forall i :: 0 <= i < k ==> ps[i] == PutFor(i, content, uploadUrl)
  {
    seq(k, i requires 0 <= i < k => PutFor(i, content, uploadUrl))
  }

  /** Handling one more job appends that job's PUT. */
  lemma PlannedPutsSnoc(k: nat, content: seq<bv8>, uploadUrl: string)
    requires k < TotalChunks(|content|)
    ensures PlannedPuts(k + 1, content, uploadUrl) == PlannedPuts(k, content, uploadUrl) + [PutFor(k, content, uploadUrl)]
  {
    var a, b := PlannedPuts(k + 1, content, uploadUrl), PlannedPuts(k, content, uploadUrl) + [PutFor(k, content, uploadUrl)];
    assert forall i :: 0 <= i < k + 1 ==> a[i] == b[i];
  }

  lemma {:induction false} AddedBytesAppend(a: seq<nat>, b: seq<nat>, fileSize: nat, failed: set<nat>)
    ensures AddedBytes(a + b, fileSize, failed) == AddedBytes(a, fileSize, failed) + AddedBytes(b, fileSize, failed)
  {
    if |b| == 0 {
      assert a + b == a;
    } else {
      assert (a + b)[..|a + b| - 1] == a + b[..|b| - 1];
      AddedBytesAppend(a, b[..|b| - 1], fileSize, failed);
    }
  }

  /** The counter is a sum: handling the same jobs in any order gives the same total. */
  lemma {:induction false} AddedBytesPermutation(a: seq<nat>, b: seq<nat>, fileSize: nat, failed: set<nat>)
    requires multiset(a) == multiset(b)
    ensures AddedBytes(a, fileSize, failed) == AddedBytes(b, fileSize, failed)
  {
    if |a| > 0 {
      var x := a[|a| - 1];
      var a' := a[..|a| - 1];
      assert a == a' + [x];
      assert x in multiset(a);
      var j :| 0 <= j < |b| && b[j] == x;
      var b' := b[..j] + b[j + 1..];
      assert b == b[..j] + [x] + b[j + 1..];
      assert multiset(b) == multiset(b[..j]) + multiset{x} + multiset(b[j + 1..]);
      assert multiset(a) == multiset(a') + multiset{x};
      assert multiset(b') == multiset(b[..j]) + multiset(b[j + 1..]);
      assert multiset(a') == multiset(a) - multiset{x};
      assert multiset(b') == multiset(b) - multiset{x};
      AddedBytesPermutation(a', b', fileSize, failed);
      AddedBytesAppend(b[..j] + [x], b[j + 1..], fileSize, failed);
      AddedBytesAppend(b[..j], [x], fileSize, failed);
      AddedBytesAppend(b[..j], b[j + 1..], fileSize, failed);
      assert [x][..0] == [];
    } else {
      assert |multiset(b)| == 0;
    }
  }

  lemma {:induction false} PrefixAccounting(k: nat, fileSize: nat, failed: set<nat>)
    requires k <= TotalChunks(fileSize)
    ensures AddedBytes(Indices(k), fileSize, failed) <= Covered(k, fileSize)
    ensures AddedBytes(Indices(k), fileSize, failed) == Covered(k, fileSize) <==> forall i :: 0 <= i < k ==> i !in failed
  {
    if k > 0 {
      assert Indices(k)[..k - 1] == Indices(k - 1);
      PrefixAccounting(k - 1, fileSize, failed);
      CoveredStep(k - 1, fileSize);
    }
  }

  /**
   * However the workers interleave, the final counter is the same: the sizes
   * of the chunks whose PUT did not fail. It never exceeds the file size and
   * reaches it exactly when no chunk failed.
   */
  lemma CounterOrderIndependent(fileSize: nat, failed: set<nat>, order: seq<nat>)
    requires multiset(order) == multiset(Indices(TotalChunks(fileSize)))
    ensures AddedBytes(order, fileSize, failed) == UploadedBytes(fileSize, failed)
    ensures AddedBytes(order, fileSize, failed) <= fileSize
    ensures AddedBytes(order, fileSize, failed) == fileSize <==>
      forall i :: 0 <= i < TotalChunks(fileSize) ==> i !in failed
  {
    AddedBytesPermutation(order, Indices(TotalChunks(fileSize)), fileSize, failed);
    PrefixAccounting(TotalChunks(fileSize), fileSize, failed);
    ChunksPartition(fileSize);
    SumLensPrefix(TotalChunks(fileSize), fileSize);
  }

  /** The bodies of the PUTs, in index order. */
  function Reassemble(puts: seq<ChunkPut>): seq<bv8> {
    if |puts| == 0 then [] else Reassemble(puts[..|puts| - 1]) + puts[|puts| - 1].body
  }

  /** Laid end to end in index order, the chunk bodies are the file. */
  lemma ChunkBodiesReassemble(content: seq<bv8>, uploadUrl: string)
    ensures Reassemble(PlannedPuts(TotalChunks(|content|), content, uploadUrl)) == content
  {
    ReassemblePrefix(content, uploadUrl, TotalChunks(|content|));
    ChunksPartition(|content|);
  }

  lemma {:induction false} ReassemblePrefix(content: seq<bv8>, uploadUrl: string, k: nat)
    requires k <= TotalChunks(|content|)
    ensures Reassemble(PlannedPuts(k, content, uploadUrl)) == content[..Covered(k, |content|)]
  {
    if k > 0 {
      ReassemblePrefix(content, uploadUrl, k - 1);
      ReassembleSnoc(content, uploadUrl, k);
      PutBody(content, uploadUrl, k - 1);
      SplitPrefix(content, Covered(k - 1, |content|), Covered(k, |content|));
    }
  }

  lemma SplitPrefix(s: seq<bv8>, i: nat, j: nat)
    requires i <= j <= |s|
    ensures s[..j] == s[..i] + s[i..j]
  {
  }

  lemma ReassembleSnoc(content: seq<bv8>, uploadUrl: string, k: nat)
    requires 0 < k <= TotalChunks(|content|)
    ensures Reassemble(PlannedPuts(k, content, uploadUrl)) ==
      Reassemble(PlannedPuts(k - 1, content, uploadUrl)) + PutFor(k - 1, content, uploadUrl).body
  {
    PlannedPutsSnoc(k - 1, content, uploadUrl);
    var all := PlannedPuts(k, content, uploadUrl);
    assert all[..k - 1] == PlannedPuts(k - 1, content, uploadUrl);
  }

  /** The body of chunk k's PUT is the file's bytes from where the previous chunks end to where it ends. */
  lemma PutBody(content: seq<bv8>, uploadUrl: string, k: nat)
    requires k < TotalChunks(|content|)
    ensures Covered(k, |content|) <= Covered(k + 1, |content|) <= |content|
    ensures PutFor(k, content, uploadUrl).body == content[Covered(k, |content|)..Covered(k + 1, |content|)]
  {
    CoveredStep(k, |content|);
  }

  // ------------------------------------------------------- files, folders

  /** What the session request produced: a transport failure, or the decoded uploadUrl ("" when absent). */
  datatype SessionReply = SessionRequestFailed | SessionCreated(uploadUrl: string)

  datatype UploadError = OpenFailed | SessionTransport | NoUploadSession

  /** The createUploadSession POST: endpoint, bearer, and the conflict behaviour it asks for. */
  datatype SessionRequest = SessionRequest(endpoint: string, bearer: string, conflictBehavior: string)

  datatype UploadReport = UploadReport(uploadUrl: string, uploaded: nat, puts: seq<ChunkPut>, failures: seq<nat>)

  /** What a started upload reports: the counter, the PUTs in queue order and the logged failures. */
  function Report(content: seq<bv8>, uploadUrl: string, failed: set<nat>): UploadReport {
    var n := TotalChunks(|content|);
    UploadReport(uploadUrl, UploadedBytes(|content|, failed), PlannedPuts(n, content, uploadUrl), Logged(Indices(n), failed))
  }

  /** Whether uploadFile gets as far as uploading chunks. */
  predicate UploadStarts(content: Option<seq<bv8>>, reply: SessionReply) {
    content.Some? && reply.SessionCreated? && reply.uploadUrl != ""
  }

  /** The error uploadFile returns before any chunk goes up: none exactly when the upload starts. */
  function UploadFailure(content: Option<seq<bv8>>, reply: SessionReply): (e: Option<UploadError>)
    ensures e.None? <==> UploadStarts(content, reply)
    ensures content.None? ==> e == Some(OpenFailed)
  {
    if content.None? then Some(OpenFailed)
    else if reply.SessionRequestFailed? then Some(SessionTransport)
    else if reply.uploadUrl == "" then Some(NoUploadSession)
    else None
  }

  /**
   * uploadFile: `content` is None when the local file cannot be opened. A
   * session is requested for the normalised remote path; without an
   * uploadUrl in the reply the upload fails, otherwise the chunks go up and
   * the call succeeds whatever happened to individual chunks.
   */
  method UploadFile(remote: string, content: Option<seq<bv8>>, token: string, reply: SessionReply, failed: set<nat>)
    returns (requests: seq<SessionRequest>, r: Result<UploadReport, UploadError>)
    ensures content.None? ==> requests == [] && r == Err(OpenFailed)
    ensures content.Some? ==> requests == [SessionRequest(SessionEndpoint(remote), token, "replace")]
    ensures r.Ok? <==> UploadStarts(content, reply)
    ensures content.Some? && reply.SessionRequestFailed? ==> r == Err(SessionTransport)
    ensures content.Some? && reply.SessionCreated? && reply.uploadUrl == "" ==> r == Err(NoUploadSession)
    ensures r.Ok? ==> r.value == Report(content.value, reply.uploadUrl, failed)
    ensures r.Err? ==> UploadFailure(content, reply) == Some(r.error)
  {
    if content.None? {
      return [], Err(OpenFailed);
    }
    requests := [SessionRequest(SessionEndpoint(remote), token, "replace")];
    match reply
    case SessionRequestFailed =>
      r := Err(SessionTransport);
    case SessionCreated(uploadUrl) =>
      if uploadUrl == "" {
        r := Err(NoUploadSession);
      } else {
        var uploaded, puts, failures := UploadChunks(content.value, uploadUrl, failed);
        r := Ok(UploadReport(uploadUrl, uploaded, puts, failures));
      }
  }

  /** A regular file found by the directory walk, by its path relative to the local root. */
  datatype LocalFile = LocalFile(relPath: string, content: Option<seq<bv8>>, session: SessionReply, failed: set<nat>)

  /** The remote path of a walked file: its relative path joined onto the remote prefix. */
  function RemotePath(remote: string, relPath: string): (p: string)
    ensures remote != "" && relPath != "" ==> HasPrefix(p, remote) && HasSuffix(p, relPath)
    ensures remote == "" ==> p == relPath
  {
    JoinPath(remote, relPath)
  }

  /** Index of the first walked file whose upload does not start, or the number of files when all start. */
  function FirstFailure(files: seq<LocalFile>): (k: nat)
    ensures k <= |files|
    ensures k < |files| ==> !UploadStarts(files[k].content, files[k].session)
    ensures forall i :: 0 <= i < k ==> UploadStarts(files[i].content, files[i].session)
  {
    if |files| == 0 then 0
    else if !UploadStarts(files[0].content, files[0].session) then 0
    else 1 + FirstFailure(files[1..])
  }

  /** The remote path of each walked file, in walk order. */
  function Targets(remote: string, files: seq<LocalFile>): (ts: seq<string>)
    ensures |ts| == |files|
  {
    if |files| == 0 then [] else Targets(remote, files[..|files| - 1]) + [RemotePath(remote, files[|files| - 1].relPath)]
  }

  /** The session request each file that could be opened sends, in walk order. */
  function Requests(remote: string, files: seq<LocalFile>, token: string): seq<SessionRequest> {
    if |files| == 0 then []
    else
      var f := files[|files| - 1];
      Requests(remote, files[..|files| - 1], token) +
      (if f.content.None? then [] else [SessionRequest(SessionEndpoint(RemotePath(remote, f.relPath)), token, "replace")])
  }

  /** The report of each file whose upload starts, in walk order. */
  function Reports(files: seq<LocalFile>): seq<UploadReport> {
    if |files| == 0 then []
    else
      var f := files[|files| - 1];
      Reports(files[..|files| - 1]) +
      (if UploadStarts(f.content, f.session) then [Report(f.content.value, f.session.uploadUrl, f.failed)] else [])
  }

  /** File i of the walk is tried at its own remote path. */
  lemma {:induction false} TargetsAt(remote: string, files: seq<LocalFile>, i: nat)
    requires i < |files|
    ensures Targets(remote, files)[i] == RemotePath(remote, files[i].relPath)
  {
    if i < |files| - 1 {
      TargetsAt(remote, files[..|files| - 1], i);
    }
  }

  /** When every file opens, the requests are one per file, each for that file's remote path, with the folder's token. */
  lemma {:induction false} RequestsAt(remote: string, files: seq<LocalFile>, token: string, i: nat)
    requires forall j :: 0 <= j < |files| ==> files[j].content.Some?
    requires i < |files|
    ensures |Requests(remote, files, token)| == |files|
    ensures Requests(remote, files, token)[i] == SessionRequest(SessionEndpoint(Targets(remote, files)[i]), token, "replace")
  {
    var prefix := files[..|files| - 1];
    if i < |files| - 1 {
      RequestsAt(remote, prefix, token, i);
    } else if |prefix| > 0 {
      RequestsAt(remote, prefix, token, 0);
    }
    TargetsAt(remote, files, i);
  }

  /** When every upload starts, the reports are one per file, each what UploadFile reports for it. */
  lemma {:induction false} ReportsAt(files: seq<LocalFile>, i: nat)
    requires forall j :: 0 <= j < |files| ==> UploadStarts(files[j].content, files[j].session)
    requires i < |files|
    ensures |Reports(files)| == |files|
    ensures UploadStarts(files[i].content, files[i].session) &&
      Reports(files)[i] == Report(files[i].content.value, files[i].session.uploadUrl, files[i].failed)
  {
    var prefix := files[..|files| - 1];
    if i < |files| - 1 {
      ReportsAt(prefix, i);
    } else if |prefix| > 0 {
      ReportsAt(prefix, 0);
    }
  }

  /** One more walked file adds its target, its session request if it opens, and its report if it starts. */
  lemma FolderStep(remote: string, files: seq<LocalFile>, token: string, i: nat)
    requires i < |files|
    ensures var f := files[i];
      && Targets(remote, files[..i + 1]) == Targets(remote, files[..i]) + [RemotePath(remote, f.relPath)]
      && Requests(remote, files[..i + 1], token) == Requests(remote, files[..i], token) +
        (if f.content.None? then [] else [SessionRequest(SessionEndpoint(RemotePath(remote, f.relPath)), token, "replace")])
      && Reports(files[..i + 1]) == Reports(files[..i]) +
        (if UploadStarts(f.content, f.session) then [Report(f.content.value, f.session.uploadUrl, f.failed)] else [])
  {
    assert files[..i + 1][..i] == files[..i];
  }

  /**
   * uploadFolder: every regular file in walk order is uploaded to its remote
   * path; the first file whose upload does not start stops the walk with
   * that file's own error. `requests` are the session requests sent and
   * `reports` what each started upload reports.
   */
  method UploadFolder(remote: string, files: seq<LocalFile>, token: string)
    returns (targets: seq<string>, requests: seq<SessionRequest>, reports: seq<UploadReport>, err: Option<UploadError>)
    ensures var k := FirstFailure(files);
      && |targets| == (if k < |files| then k + 1 else |files|)
      && err == (if k < |files| then UploadFailure(files[k].content, files[k].session) else None)
    ensures targets == Targets(remote, files[..|targets|])
    ensures requests == Requests(remote, files[..|targets|], token)
    ensures reports == Reports(files[..|targets|])
  {
    targets, requests, reports := [], [], [];
    var i := 0;
    while i < |files|
      invariant 0 <= i <= FirstFailure(files)
      invariant targets == Targets(remote, files[..i])
      invariant requests == Requests(remote, files[..i], token)
      invariant reports == Reports(files[..i])
    {
      FolderStep(remote, files, token, i);
      var f := files[i];
      var target := RemotePath(remote, f.relPath);
      targets := targets + [target];
      var sent, r := UploadFile(target, f.content, token, f.session, f.failed);
      assert sent == if f.content.None? then [] else [SessionRequest(SessionEndpoint(target), token, "replace")];
      requests := requests + sent;
      if r.Err? {
        assert FirstFailure(files) == i;
        return targets, requests, reports, Some(r.error);
      }
      assert r.value == Report(f.content.value, f.session.uploadUrl, f.failed);
      reports := reports + [r.value];
      i := i + 1;
    }
    assert files[..i] == files;
    err := None;
  }
}
