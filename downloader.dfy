/**
 * downloader.go: the item endpoint of fetchDriveItem, the size fold of
 * calcTotalSize, the read loop of downloadFileWithProgress, the depth-first
 * walk of downloadRecursive and the destination resolution of
 * StartDownload. The local filesystem is a set of directories, a set of
 * regular files and the log of files written; the network answers are
 * inputs: decoded metadata replies and, per download URL, a stream of
 * read buffers ending in EOF or an error.
 */
module Downloader {
  import opened Wrappers
  import opened Text
  import opened Listing

  // ------------------------------------------------------------ endpoints

  /** The metadata URL: by drive path when the remote starts with '/', by item id otherwise. */
  function ItemEndpoint(remote: string): (url: string)
    ensures HasPrefix(remote, "/") ==>
      url == GraphDrive + "/root:" + remote + (if HasSuffix(remote, "/") then "" else ":")
    ensures !HasPrefix(remote, "/") ==> url == GraphDrive + "/items/" + remote
  {
    if HasPrefix(remote, "/") then
      GraphDrive + "/root:" + remote + (if HasSuffix(remote, "/") then "" else ":")
    else GraphDrive + "/items/" + remote
  }

  /** Different remotes never address the same endpoint. */
  lemma ItemEndpointInjective(a: string, b: string)
    requires ItemEndpoint(a) == ItemEndpoint(b)
    ensures a == b
  {
    var u := ItemEndpoint(a);
    if HasPrefix(a, "/") && HasPrefix(b, "/") {
      var sa := if HasSuffix(a, "/") then "" else ":";
      var sb := if HasSuffix(b, "/") then "" else ":";
      assert u == GraphDrive + "/root:" + a + sa;
      assert u == GraphDrive + "/root:" + b + sb;
      assert u[|u| - 1] == (if sa == "" then a[|a| - 1] else ':');
      assert u[|u| - 1] == (if sb == "" then b[|b| - 1] else ':');
      assert sa == sb;
      assert u[|GraphDrive| + 6..|u| - |sa|] == a;
      assert u[|GraphDrive| + 6..|u| - |sb|] == b;
    } else if !HasPrefix(a, "/") && !HasPrefix(b, "/") {
      assert u[|GraphDrive| + 7..] == a;
      assert u[|GraphDrive| + 7..] == b;
    } else {
      EndpointFormMarker(a);
      EndpointFormMarker(b);
    }
  }

  /** The character after the drive prefix tells the path form ('r' of /root:) from the id form ('i' of /items/). */
  lemma EndpointFormMarker(remote: string)
    ensures ItemEndpoint(remote)[|GraphDrive| + 1] == (if HasPrefix(remote, "/") then 'r' else 'i')
  {
  }

  /** The children URL: the item endpoint plus /children in path form, the returned item's id in id form. */
  function ChildrenEndpoint(remote: string, item: DriveItem): (url: string)
    ensures HasPrefix(remote, "/") ==> url == ItemEndpoint(remote) + "/children"
    ensures !HasPrefix(remote, "/") ==> url == GraphDrive + "/items/" + item.id + "/children"
  {
    if HasPrefix(remote, "/") then ItemEndpoint(remote) + "/children"
    else GraphDrive + "/items/" + item.id + "/children"
  }

  /**
   * A path-form remote that ends in '/' keeps that slash before "/children":
   * "/docs/" lists ".../root:/docs//children" and "/" lists ".../root://children".
   */
  lemma ChildrenOfTrailingSlash(remote: string, item: DriveItem)
    requires HasPrefix(remote, "/") && HasSuffix(remote, "/")
    ensures ChildrenEndpoint(remote, item) == GraphDrive + "/root:" + remote + "/children"
    ensures ChildrenEndpoint("/", item) == GraphDrive + "/root://children"
  {
    assert GraphDrive + "/root:" + remote + "" == GraphDrive + "/root:" + remote;
    assert HasPrefix("/", "/") && HasSuffix("/", "/");
    assert GraphDrive + "/root:" + "/" + "" + "/children" == GraphDrive + "/root://children";
  }

  /** A decoded reply: a transport failure, a body that does not decode, or the decoded value. */
  datatype Fetched<T> = NetFailed | DecodeFailed | Decoded(value: T)

  datatype FetchError = FetchTransport | FetchDecode

  /**
   * fetchDriveItem: the metadata request, and for a folder one children
   * request whose items become the folder's children. Nothing deeper is
   * fetched.
   */
  function FetchDriveItem(remote: string, token: string, meta: Fetched<DriveItem>, listing: Fetched<seq<DriveItem>>)
    : (r: (seq<Request>, Result<DriveItem, FetchError>))
    ensures |r.0| >= 1 && r.0[0] == Request(ItemEndpoint(remote), token)
    ensures |r.0| <= 2
    ensures |r.0| == 2 <==> meta.Decoded? && meta.value.folder.Some?
    ensures |r.0| == 2 ==> r.0[1] == Request(ChildrenEndpoint(remote, meta.value), token)
    ensures r.1.Ok? <==> meta.Decoded? && (meta.value.folder.Some? ==> listing.Decoded?)
    ensures r.1.Ok? && meta.value.folder.Some? ==> r.1.value == meta.value.(children := listing.value)
    ensures r.1.Ok? && meta.value.folder.None? ==> r.1.value == meta.value
  {
    var first := [Request(ItemEndpoint(remote), token)];
    match meta
    case NetFailed => (first, Err(FetchTransport))
    case DecodeFailed => (first, Err(FetchDecode))
    case Decoded(item) =>
      if item.folder.None? then (first, Ok(item))
      else
        var sent := first + [Request(ChildrenEndpoint(remote, item), token)];
        match listing
        case NetFailed => (sent, Err(FetchTransport))
        case DecodeFailed => (sent, Err(FetchDecode))
        case Decoded(children) => (sent, Ok(item.(children := children)))
  }

  // ------------------------------------------------------------ sizes

  /** calcTotalSize: a file's size, otherwise the sizes of the children added up in listing order. */
  function TotalSize(item: DriveItem): (total: int)
    ensures item.file.Some? ==> total == item.size
    ensures item.file.None? && item.children == [] ==> total == 0
    decreases item, 1, 0
  {
    if item.file.Some? then item.size else ChildrenSize(item, |item.children|)
  }

  /** The total over the first k children. */
  function ChildrenSize(item: DriveItem, k: nat): int
    requires k <= |item.children|
    decreases item, 0, k
  {
    if k == 0 then 0 else ChildrenSize(item, k - 1) + TotalSize(item.children[k - 1])
  }

  /** The file nodes reachable through non-file nodes, depth first. */
  function FileNodes(item: DriveItem): (fs: seq<DriveItem>)
    ensures forall i :: 0 <= i < |fs| ==> fs[i].file.Some?
    decreases item, 1, 0
  {
    if item.file.Some? then [item] else ChildrenFileNodes(item, |item.children|)
  }

  function ChildrenFileNodes(item: DriveItem, k: nat): (fs: seq<DriveItem>)
    requires k <= |item.children|
    ensures forall i :: 0 <= i < |fs| ==> fs[i].file.Some?
    decreases item, 0, k
  {
    if k == 0 then [] else ChildrenFileNodes(item, k - 1) + FileNodes(item.children[k - 1])
  }

  function SumSizes(items: seq<DriveItem>): int {
    if |items| == 0 then 0 else SumSizes(items[..|items| - 1]) + items[|items| - 1].size
  }

  lemma {:induction false} SumSizesAppend(a: seq<DriveItem>, b: seq<DriveItem>)
    ensures SumSizes(a + b) == SumSizes(a) + SumSizes(b)
  {
    if |b| == 0 {
      assert a + b == a;
    } else {
      assert (a + b)[..|a + b| - 1] == a + b[..|b| - 1];
      SumSizesAppend(a, b[..|b| - 1]);
    }
  }

  /** The total size is the sum of the sizes of the reachable file nodes. */
  lemma {:induction false} TotalSizeIsSumOfFiles(item: DriveItem)
    ensures TotalSize(item) == SumSizes(FileNodes(item))
    decreases item, 1, 0
  {
    if item.file.None? {
      ChildrenSizeIsSumOfFiles(item, |item.children|);
    } else {
      assert [item][..0] == [];
    }
  }

  lemma {:induction false} ChildrenSizeIsSumOfFiles(item: DriveItem, k: nat)
    requires k <= |item.children|
    ensures ChildrenSize(item, k) == SumSizes(ChildrenFileNodes(item, k))
    decreases item, 0, k
  {
    if k > 0 {
      ChildrenSizeIsSumOfFiles(item, k - 1);
      TotalSizeIsSumOfFiles(item.children[k - 1]);
      SumSizesAppend(ChildrenFileNodes(item, k - 1), FileNodes(item.children[k - 1]));
    }
  }

  // ------------------------------------------------------- local disk

  /** A file the download created, with everything written to it. */
  datatype WrittenFile = WrittenFile(path: string, content: seq<bv8>)

  /** The local filesystem as seen by the download, and the shared byte counter. */
  datatype Disk = Disk(dirs: set<string>, files: set<string>, written: seq<WrittenFile>, downloaded: int)

  /** os.MkdirAll(p), whose error downloader.go ignores: nothing happens when p is a regular file. */
  function MakeDir(d: Disk, p: string): (d': Disk)
    ensures p !in d.files ==> p in d'.dirs
    ensures d'.files == d.files && d'.written == d.written && d'.downloaded == d.downloaded
    ensures d'.dirs == d.dirs + (if p in d.files then {} else {p})
  {
    if p in d.files then d else d.(dirs := d.dirs + {p})
  }

  // ------------------------------------------------------- file streams

  /** How a response body ends: at EOF or with a read error. */
  datatype BodyEnd = AtEof | Broken(reason: string)

  /**
   * The answer to one download URL: the GET fails, or the body yields
   * `reads` (each with no error) and then a last read that returns `last`
   * together with EOF or an error.
   */
  datatype Stream = GetFailed(reason: string) | Body(bufs: seq<seq<bv8>>, last: seq<bv8>, end: BodyEnd)

  function StreamFor(net: map<string, Stream>, url: string): Stream {
    if url in net then net[url] else GetFailed("no route")
  }

  function Flatten(bufs: seq<seq<bv8>>): seq<bv8> {
    if |bufs| == 0 then [] else Flatten(bufs[..|bufs| - 1]) + bufs[|bufs| - 1]
  }

  /** Every byte the body yields, in order. */
  function BodyBytes(s: Stream): seq<bv8> {
    if s.Body? then Flatten(s.bufs) + s.last else []
  }

  datatype DownloadError = GetError(reason: string) | CreateError(path: string) | ReadError(reason: string)

  /** os.Create fails when the path is a directory or its parent is a regular file. */
  predicate CreateFails(d: Disk, p: string) {
    p in d.dirs || Dir(p) in d.files
  }

  /**
   * downloadFileWithProgress: the parent directory is made, the GET is
   * issued, the file created, and every buffer read is written and counted
   * until EOF; a read error ends the download with that error, after the
   * bytes of that last read were written and counted.
   */
  function FetchFile(d: Disk, localPath: string, s: Stream): (r: (Disk, Option<DownloadError>))
    ensures var d1 := MakeDir(d, Dir(localPath));
      && r.0.dirs == d1.dirs
      && (s.GetFailed? ==> r == (d1, Some(GetError(s.reason))))
      && (s.Body? && CreateFails(d1, localPath) ==> r == (d1, Some(CreateError(localPath))))
      && (s.Body? && !CreateFails(d1, localPath) ==>
            && r.0.written == d.written + [WrittenFile(localPath, BodyBytes(s))]
            && r.0.files == d.files + {localPath}
            && r.0.downloaded == d.downloaded + |BodyBytes(s)|
            && (r.1.None? <==> s.end.AtEof?)
            && (s.end.Broken? ==> r.1 == Some(ReadError(s.end.reason))))
  {
    var d1 := MakeDir(d, Dir(localPath));
    match s
    case GetFailed(e) => (d1, Some(GetError(e)))
    case Body(bufs, last, end) =>
      if CreateFails(d1, localPath) then (d1, Some(CreateError(localPath)))
      else
        var data := BodyBytes(s);
        var d2 := d1.(files := d1.files + {localPath},
                      written := d1.written + [WrittenFile(localPath, data)],
                      downloaded := d1.downloaded + |data|);
        (d2, if end.AtEof? then None else Some(ReadError(end.reason)))
  }

  // ------------------------------------------------------- the walk

  /** Where a file node is written: under localPath when that is a directory or ends with the separator, else at localPath. */
  function FileTarget(d: Disk, localPath: string, name: string): string {
    if localPath in d.dirs || HasSuffix(localPath, "/") then JoinPath(localPath, name) else localPath
  }

  /** The directory a folder node is created as. */
  function FolderTarget(localPath: string, name: string): string {
    if name != "" then JoinPath(localPath, name) else localPath
  }

  /** downloadRecursive: a file is fetched; a folder is created and its children walked in order until one fails. */
  function Walk(item: DriveItem, localPath: string, d: Disk, net: map<string, Stream>): (Disk, Option<DownloadError>)
    decreases item, 1, 0
  {
    if item.file.Some? then
      FetchFile(d, FileTarget(d, localPath, item.name), StreamFor(net, item.downloadUrl))
    else if item.folder.Some? then
      var folder := FolderTarget(localPath, item.name);
      WalkChildren(item, |item.children|, folder, MakeDir(d, folder), net)
    else (d, None)
  }

  /** The walk over the first k children of item, each placed in `folder`, stopping at the first error. */
  function WalkChildren(item: DriveItem, k: nat, folder: string, d: Disk, net: map<string, Stream>): (Disk, Option<DownloadError>)
    requires k <= |item.children|
    decreases item, 0, k
  {
    if k == 0 then (d, None)
    else
      var prev := WalkChildren(item, k - 1, folder, d, net);
      if prev.1.Some? then prev else Walk(item.children[k - 1], folder, prev.0, net)
  }

  /** The bytes of a list of written files. */
  function WrittenBytes(ws: seq<WrittenFile>): int {
    if |ws| == 0 then 0 else WrittenBytes(ws[..|ws| - 1]) + |ws[|ws| - 1].content|
  }

  lemma {:induction false} WrittenBytesAppend(a: seq<WrittenFile>, b: seq<WrittenFile>)
    ensures WrittenBytes(a + b) == WrittenBytes(a) + WrittenBytes(b)
  {
    if |b| == 0 {
      assert a + b == a;
    } else {
      assert (a + b)[..|a + b| - 1] == a + b[..|b| - 1];
      WrittenBytesAppend(a, b[..|b| - 1]);
    }
  }

  /** What a step keeps: files already written stay, directories stay, and the counter grows by exactly the bytes written since. */
  predicate AppendsOnly(d: Disk, d': Disk) {
    && |d.written| <= |d'.written|
    && d'.written[..|d.written|] == d.written
    && d.dirs <= d'.dirs
    && d'.downloaded == d.downloaded + WrittenBytes(d'.written[|d.written|..])
  }

  lemma AppendsOnlyTrans(d1: Disk, d2: Disk, d3: Disk)
    requires AppendsOnly(d1, d2) && AppendsOnly(d2, d3)
    ensures AppendsOnly(d1, d3)
  {
    var n1, n2 := |d1.written|, |d2.written|;
    assert d3.written[..n1] == d3.written[..n2][..n1];
    assert d3.written[n1..] == d2.written[n1..] + d3.written[n2..];
    WrittenBytesAppend(d2.written[n1..], d3.written[n2..]);
  }

  lemma FetchFileAppendsOnly(d: Disk, localPath: string, s: Stream)
    ensures AppendsOnly(d, FetchFile(d, localPath, s).0)
  {
    var d' := FetchFile(d, localPath, s).0;
    assert d'.written[..|d.written|] == d.written;
    if |d'.written| > |d.written| {
      assert d'.written[|d.written|..] == [WrittenFile(localPath, BodyBytes(s))];
      assert [WrittenFile(localPath, BodyBytes(s))][..0] == [];
    } else {
      assert d'.written[|d.written|..] == [];
    }
  }

  lemma AppendsOnlyRefl(d: Disk)
    ensures AppendsOnly(d, d)
  {
    assert d.written[|d.written|..] == [];
  }

  lemma MakeDirAppendsOnly(d: Disk, p: string)
    ensures AppendsOnly(d, MakeDir(d, p))
  {
    AppendsOnlyRefl(d);
  }

  /**
   * The walk only adds: already-written files and existing directories
   * remain, and the counter grows by exactly the bytes of the files it
   * wrote.
   */
  lemma {:induction false} WalkAppendsOnly(item: DriveItem, localPath: string, d: Disk, net: map<string, Stream>)
    ensures AppendsOnly(d, Walk(item, localPath, d, net).0)
    decreases item, 1, 0
  {
    if item.file.Some? {
      FetchFileAppendsOnly(d, FileTarget(d, localPath, item.name), StreamFor(net, item.downloadUrl));
    } else if item.folder.Some? {
      var folder := FolderTarget(localPath, item.name);
      MakeDirAppendsOnly(d, folder);
      WalkChildrenAppendsOnly(item, |item.children|, folder, MakeDir(d, folder), net);
      AppendsOnlyTrans(d, MakeDir(d, folder), Walk(item, localPath, d, net).0);
    } else {
      AppendsOnlyRefl(d);
    }
  }

  lemma {:induction false} WalkChildrenAppendsOnly(item: DriveItem, k: nat, folder: string, d: Disk, net: map<string, Stream>)
    requires k <= |item.children|
    ensures AppendsOnly(d, WalkChildren(item, k, folder, d, net).0)
    decreases item, 0, k
  {
    if k == 0 {
      AppendsOnlyRefl(d);
    } else {
      WalkChildrenAppendsOnly(item, k - 1, folder, d, net);
      var prev := WalkChildren(item, k - 1, folder, d, net);
      if prev.1.None? {
        var next := Walk(item.children[k - 1], folder, prev.0, net);
        assert WalkChildren(item, k, folder, d, net) == next;
        WalkAppendsOnly(item.children[k - 1], folder, prev.0, net);
        AppendsOnlyTrans(d, prev.0, next.0);
      }
    }
  }

  /** The first error wins: once a child fails, the later children are not visited. */
  lemma {:induction false} FirstErrorStopsWalk(item: DriveItem, j: nat, k: nat, folder: string, d: Disk, net: map<string, Stream>)
    requires j <= k <= |item.children|
    requires WalkChildren(item, j, folder, d, net).1.Some?
    ensures WalkChildren(item, k, folder, d, net) == WalkChildren(item, j, folder, d, net)
    decreases k
  {
    if k > j {
      FirstErrorStopsWalk(item, j, k - 1, folder, d, net);
    }
  }

  /**
   * A file node is written to localPath/name exactly when localPath is an
   * existing directory or ends with the separator, and to localPath itself
   * otherwise.
   */
  lemma FilePlacement(item: DriveItem, localPath: string, d: Disk, net: map<string, Stream>)
    requires item.file.Some? && item.name != "" && localPath != ""
    requires StreamFor(net, item.downloadUrl).Body?
    requires !CreateFails(MakeDir(d, Dir(FileTarget(d, localPath, item.name))), FileTarget(d, localPath, item.name))
    ensures var w := Walk(item, localPath, d, net).0.written;
      |w| == |d.written| + 1
      && (w[|w| - 1].path == JoinPath(localPath, item.name) <==> localPath in d.dirs || HasSuffix(localPath, "/"))
      && (w[|w| - 1].path == localPath <==> !(localPath in d.dirs || HasSuffix(localPath, "/")))
  {
    var target := FileTarget(d, localPath, item.name);
    assert JoinPath(localPath, item.name) != localPath by {
      assert |JoinPath(localPath, item.name)| > |localPath|;
    }
  }

  /**
   * A folder node is created as localPath/name, or as localPath itself when
   * its name is empty, and that directory is still there once its children
   * have been walked.
   */
  lemma FolderPlacement(item: DriveItem, localPath: string, d: Disk, net: map<string, Stream>)
    requires item.file.None? && item.folder.Some?
    requires FolderTarget(localPath, item.name) !in d.files
    ensures item.name != "" ==> JoinPath(localPath, item.name) in Walk(item, localPath, d, net).0.dirs
    ensures item.name == "" ==> localPath in Walk(item, localPath, d, net).0.dirs
  {
    var folder := FolderTarget(localPath, item.name);
    WalkChildrenAppendsOnly(item, |item.children|, folder, MakeDir(d, folder), net);
  }

  /** Every reachable file's stream yields exactly the file's size. */
  predicate Delivers(item: DriveItem, net: map<string, Stream>)
    decreases item, 1, 0
  {
    if item.file.Some? then |BodyBytes(StreamFor(net, item.downloadUrl))| == item.size
    else if item.folder.Some? then ChildrenDeliver(item, |item.children|, net)
    else item.children == []
  }

  predicate ChildrenDeliver(item: DriveItem, k: nat, net: map<string, Stream>)
    requires k <= |item.children|
    decreases item, 0, k
  {
    k == 0 || (ChildrenDeliver(item, k - 1, net) && Delivers(item.children[k - 1], net))
  }

  /**
   * When the walk completes and every stream yields its file's size, the
   * counter grows by exactly calcTotalSize of the tree: the progress total
   * is reached.
   */
  lemma {:induction false} WalkMovesTotalSize(item: DriveItem, localPath: string, d: Disk, net: map<string, Stream>)
    requires Delivers(item, net)
    requires Walk(item, localPath, d, net).1.None?
    ensures Walk(item, localPath, d, net).0.downloaded == d.downloaded + TotalSize(item)
    decreases item, 1, 0
  {
    if item.file.None? && item.folder.Some? {
      var folder := FolderTarget(localPath, item.name);
      WalkChildrenMovesTotalSize(item, |item.children|, folder, MakeDir(d, folder), net);
    }
  }

  lemma {:induction false} WalkChildrenMovesTotalSize(item: DriveItem, k: nat, folder: string, d: Disk, net: map<string, Stream>)
    requires k <= |item.children|
    requires ChildrenDeliver(item, k, net)
    requires WalkChildren(item, k, folder, d, net).1.None?
    ensures WalkChildren(item, k, folder, d, net).0.downloaded == d.downloaded + ChildrenSize(item, k)
    decreases item, 0, k
  {
    if k > 0 {
      var prev := WalkChildren(item, k - 1, folder, d, net);
      WalkChildrenMovesTotalSize(item, k - 1, folder, d, net);
      WalkMovesTotalSize(item.children[k - 1], folder, prev.0, net);
    }
  }

  // ------------------------------------------------------- StartDownload

  /**
   * The destination StartDownload walks into, and the directories it makes
   * first: an existing directory receives a folder under the folder's own
   * name; a missing path is made as the folder itself, or as the file's
   * parent directory; any other path is used as it is.
   */
  function Resolve(d: Disk, localPath: string, item: DriveItem): (r: (string, Disk))
    ensures localPath in d.dirs && item.folder.Some? ==> r == (JoinPath(localPath, item.name), d)
    ensures localPath !in d.dirs && localPath !in d.files ==>
      r == (localPath, MakeDir(d, if item.folder.Some? then localPath else Dir(localPath)))
    ensures (localPath in d.dirs && item.folder.None?) || (localPath !in d.dirs && localPath in d.files) ==>
      r == (localPath, d)
  {
    if localPath in d.dirs && item.folder.Some? then (JoinPath(localPath, item.name), d)
    else if localPath !in d.dirs && localPath !in d.files then
      (localPath, MakeDir(d, if item.folder.Some? then localPath else Dir(localPath)))
    else (localPath, d)
  }

  datatype StartFailure = FetchFailed(cause: FetchError) | DownloadFailed(err: DownloadError)

  /** A finished download: where it went and the total the progress line counts towards. */
  datatype Completed = Completed(destination: string, total: int)

  /**
   * StartDownload: "." means the working directory; the item is fetched,
   * the destination resolved, and the tree walked with a counter that
   * starts at zero.
   */
  function StartDownloadSpec(d: Disk, remote: string, localPath: string, cwd: string, token: string,
                             meta: Fetched<DriveItem>, listing: Fetched<seq<DriveItem>>, net: map<string, Stream>)
    : (Disk, seq<Request>, Result<Completed, StartFailure>)
  {
    var path := if localPath == "." then cwd else localPath;
    var fetched := FetchDriveItem(remote, token, meta, listing);
    if fetched.1.Err? then (d, fetched.0, Err(FetchFailed(fetched.1.error)))
    else
      var item := fetched.1.value;
      var resolved := Resolve(d, path, item);
      var walked := Walk(item, resolved.0, resolved.1.(downloaded := 0), net);
      (walked.0, fetched.0,
       if walked.1.Some? then Err(DownloadFailed(walked.1.value)) else Ok(Completed(resolved.0, TotalSize(item))))
  }

  /**
   * A completed download whose streams yield the listed sizes ends with the
   * counter equal to the total: the progress line reaches 100%.
   */
  lemma CompletedDownloadReachesTotal(d: Disk, remote: string, localPath: string, cwd: string, token: string,
                                      meta: Fetched<DriveItem>, listing: Fetched<seq<DriveItem>>, net: map<string, Stream>)
    requires meta.Decoded?
    requires var r := StartDownloadSpec(d, remote, localPath, cwd, token, meta, listing, net);
      r.2.Ok? && Delivers(FetchDriveItem(remote, token, meta, listing).1.value, net)
    ensures var r := StartDownloadSpec(d, remote, localPath, cwd, token, meta, listing, net);
      r.0.downloaded == r.2.value.total
  {
    var item := FetchDriveItem(remote, token, meta, listing).1.value;
    var path := if localPath == "." then cwd else localPath;
    var resolved := Resolve(d, path, item);
    WalkMovesTotalSize(item, resolved.0, resolved.1.(downloaded := 0), net);
  }

  /**
   * Downloading a named folder into an existing directory creates the
   * folder's name twice: StartDownload joins the name onto the destination
   * and downloadRecursive joins it again.
   */
  lemma FolderIntoExistingDirIsNestedTwice(d: Disk, dest: string, item: DriveItem, net: map<string, Stream>)
    requires dest in d.dirs && item.folder.Some? && item.file.None? && item.name != ""
    requires JoinPath(JoinPath(dest, item.name), item.name) !in d.files
    ensures var resolved := Resolve(d, dest, item);
      && resolved.0 == JoinPath(dest, item.name)
      && JoinPath(JoinPath(dest, item.name), item.name) in Walk(item, resolved.0, resolved.1, net).0.dirs
  {
    var folder := JoinPath(JoinPath(dest, item.name), item.name);
    WalkChildrenAppendsOnly(item, |item.children|, folder, MakeDir(d, folder), net);
  }

  // ------------------------------------------------------- the engine

  /** The local disk and the progress counter, updated in place by the download. */
  class Download {
    var dirs: set<string>
    var files: set<string>
    var written: seq<WrittenFile>
    var downloaded: int

    function State(): Disk
      reads this
    {
      Disk(dirs, files, written, downloaded)
    }

    constructor(existingDirs: set<string>, existingFiles: set<string>)
      ensures State() == Disk(existingDirs, existingFiles, [], 0)
    {
      dirs := existingDirs;
      files := existingFiles;
      written := [];
      downloaded := 0;
    }

    /** os.MkdirAll with its error ignored. */
    method MkdirAll(p: string)
      modifies this
      ensures State() == MakeDir(old(State()), p)
    {
      if p !in files {
        dirs := dirs + {p};
      }
    }

    /** One read of the body: the i-th buffer with no error, or the last buffer with EOF or the read error. */
    static function ReadAt(s: Stream, i: nat): (seq<bv8>, Option<BodyEnd>)
      requires s.Body? && i <= |s.bufs|
    {
      if i < |s.bufs| then (s.bufs[i], None) else (s.last, Some(s.end))
    }

    method DownloadFileWithProgress(url: string, localPath: string, net: map<string, Stream>)
      returns (err: Option<DownloadError>)
      modifies this
      ensures (State(), err) == FetchFile(old(State()), localPath, StreamFor(net, url))
    {
      MkdirAll(Dir(localPath));
      var resp := StreamFor(net, url);
      if resp.GetFailed? {
        return Some(GetError(resp.reason));
      }
      if localPath in dirs || Dir(localPath) in files {
        return Some(CreateError(localPath));
      }
      files := files + {localPath};
      ghost var before := written;
      ghost var base := downloaded;
      written := written + [WrittenFile(localPath, [])];
      var i := 0;
      while true
        invariant 0 <= i <= |resp.bufs|
        invariant written == before + [WrittenFile(localPath, Flatten(resp.bufs[..i]))]
        invariant downloaded == base + |Flatten(resp.bufs[..i])|
        invariant dirs == old(MakeDir(State(), Dir(localPath))).dirs && files == old(files) + {localPath}
        decreases |resp.bufs| - i
      {
        var (buf, status) := ReadAt(resp, i);
        ghost var sofar := Flatten(resp.bufs[..i]);
        assert written[..|written| - 1] == before;
        if |buf| == 0 {
          assert sofar + buf == sofar;
        }
        if |buf| > 0 {
          written := written[..|written| - 1] + [WrittenFile(localPath, written[|written| - 1].content + buf)];
          downloaded := downloaded + |buf|;
        }
        assert written == before + [WrittenFile(localPath, sofar + buf)];
        assert downloaded == base + |sofar + buf|;
        if status.Some? {
          assert resp.bufs[..i] == resp.bufs;
          assert sofar + buf == BodyBytes(resp);
          if status.value.AtEof? {
            return None;
          }
          return Some(ReadError(status.value.reason));
        }
        assert resp.bufs[..i + 1][..i] == resp.bufs[..i];
        i := i + 1;
      }
    }

    method DownloadRecursive(item: DriveItem, localPath: string, net: map<string, Stream>)
      returns (err: Option<DownloadError>)
      modifies this
      ensures (State(), err) == Walk(item, localPath, old(State()), net)
      decreases item
    {
      if item.file.Some? {
        var target := localPath;
        if localPath in dirs || HasSuffix(localPath, "/") {
          target := JoinPath(localPath, item.name);
        }
        err := DownloadFileWithProgress(item.downloadUrl, target, net);
        return;
      }
      if item.folder.Some? {
        var localFolder := localPath;
        if item.name != "" {
          localFolder := JoinPath(localPath, item.name);
        }
        MkdirAll(localFolder);
        ghost var start := State();
        var i := 0;
        while i < |item.children|
          invariant 0 <= i <= |item.children|
          invariant (State(), None) == WalkChildren(item, i, localFolder, start, net)
        {
          var e := DownloadRecursive(item.children[i], localFolder, net);
          if e.Some? {
            FirstErrorStopsWalk(item, i + 1, |item.children|, localFolder, start, net);
            return e;
          }
          i := i + 1;
        }
      }
      return None;
    }

    method StartDownload(remote: string, localPath: string, cwd: string, token: string,
                         meta: Fetched<DriveItem>, listing: Fetched<seq<DriveItem>>, net: map<string, Stream>)
      returns (requests: seq<Request>, result: Result<Completed, StartFailure>)
      modifies this
      ensures (State(), requests, result) == StartDownloadSpec(old(State()), remote, localPath, cwd, token, meta, listing, net)
    {
      var path := localPath;
      if path == "." {
        path := cwd;
      }
      var fetched := FetchDriveItem(remote, token, meta, listing);
      requests := fetched.0;
      if fetched.1.Err? {
        return requests, Err(FetchFailed(fetched.1.error));
      }
      var item := fetched.1.value;
      if path in dirs && item.folder.Some? {
        path := JoinPath(path, item.name);
      } else if path !in dirs && path !in files {
        if item.folder.Some? {
          MkdirAll(path);
        } else {
          MkdirAll(Dir(path));
        }
      }
      var total := TotalSize(item);
      downloaded := 0;
      var e := DownloadRecursive(item, path, net);
      if e.Some? {
        return requests, Err(DownloadFailed(e.value));
      }
      return requests, Ok(Completed(path, total));
    }
  }
}
