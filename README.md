# onedrivecli-go transfer core, modelled in Dafny

This project models the core of a OneDrive command-line client in Dafny:

- **Uploads** (`Uploader`, uploader.go):
  - the upload-session URL, with its leading-slash normalisation and space escaping;
  - the chunk plan: how many 10 MiB chunks there are, the byte range of each chunk, and the `Content-Range`/`Content-Length` headers of its PUT;
  - the job queue and the byte counter of the worker pool;
  - the mapping of a walked folder's files to remote paths.
- **Downloads** (`Downloader`, downloader.go):
  - the metadata and children endpoints of `fetchDriveItem`;
  - the size fold of `calcTotalSize`;
  - the read loop of `downloadFileWithProgress`, the depth-first walk of `downloadRecursive` and the destination resolution of `StartDownload`.

  These run in place on a `Download` object. It holds the local disk (the existing directories and regular files, plus the files written) and the progress counter.
- **The interactive explorer** (`Explore`, explorer.go): the navigation loop over the current drive path, and the file menu that asks for links.
- **The token logic** (`Token`, token.go): the expiry decision, the refresh form, and the record that is saved and returned after a refresh.
- **Folder listing** (`Listing`, ls.go):
  - the `DriveItem` record;
  - the children-listing endpoint;
  - the rule that retries once on a 401 and fails on a final status of 300 or more.

Supporting modules:

- `Wrappers`: the `Option` and `Result` types.
- `Text`: the Go string and path helpers the core calls, and decimal rendering and parsing.
- `PathEscaping`: `url.PathEscape` in path-segment mode.

The outside world enters the model as parameters. Each reply is a decoded value:

- the status and body of each HTTP exchange;
- the stored token and the clock reading;
- the chunk indices whose PUT fails with a transport error (the status of a chunk's reply is never read, uploader.go:121-129);
- the bytes a download stream yields;
- the choices typed at the console.

Methods are proved equal to specification functions, and the properties are proved about those functions:

| method | specification function |
|---|---|
| `UploadChunks` | `PlannedPuts`, `Logged`, `UploadedBytes` |
| `HandleJob` | `PutFor`, `ChunkAt` |
| `UploadFile` | `Report`, `UploadFailure` |
| `UploadFolder` | `FirstFailure`, `Targets`, `Requests`, `Reports` |
| `Download.DownloadFileWithProgress` | `FetchFile` |
| `Download.DownloadRecursive` | `Walk` |
| `Download.StartDownload` | `StartDownloadSpec` |
| `Explorer` | `Replay` |
| `Pass` | `Turn` |
| `GoBack` | `Up` |
| `FileOptions` | `FileMenu` |

Some behaviours of the code that the model keeps as they are:

- **One level of children.**
  - `fetchDriveItem` (downloader.go:40-63) asks for one level of children only, and nothing later fetches deeper. Files inside sub-folders of the downloaded folder are therefore never fetched.
  - `FetchDriveItem` therefore sends at most two requests whatever the depth of the tree. `TotalSize` and `Walk` see only the children that listing returned.
- **The 401 retry can repeat the bearer.**
  - The 401 retry (ls.go:48-52) calls `GetAccessToken` again, and that call refreshes only when the clock says the token has expired.
  - So a 401 on a token that has not yet expired is retried with the same bearer (`Listing.RetryKeepsUnexpiredBearer`).
- **Items with neither facet.**
  - `calcTotalSize` counts the children of an item that has neither a file nor a folder facet.
  - `downloadRecursive` skips such an item.
  - `Downloader.WalkMovesTotalSize` therefore holds only for trees in which such items have no children (`Delivers`).
- **Double nesting of a folder.**
  - Downloading a named folder into an existing directory joins the folder's name twice.
  - `StartDownload` joins it at downloader.go:155, and `downloadRecursive` joins it again at downloader.go:125.
  - The files land in `dest/name/name` (`Downloader.FolderIntoExistingDirIsNestedTwice`).

## Model

| member | source | states |
|---|---|---|
| PathEscaping.PathEscape | ls.go:34 | every character of the escaped path is an unreserved path-segment character or part of a %XX escape |
| PathEscaping.PathEscapeIdentity | ls.go:34 | a path made only of characters that need no escaping is left unchanged |
| PathEscaping.PathEscapeIsOneSegment | ls.go:33-34 | the escaped path contains no '/' and no space, so it fits between "root:/" and ":/children" as one segment |
| Token.SaveToken | token.go:33-41 | the saved record copies access token, refresh token, lifetime, type and scope from the response and is stamped with the current time; its expiry instant is now + expiresIn - 30 |
| Token.RefreshForm | token.go:69-72 | the refresh form has exactly the fields grant_type=refresh_token, client_id=the application's id, refresh_token=the previous refresh token |
| Token.RefreshAccessToken | token.go:67-101 | a refresh succeeds iff the endpoint replied with a non-empty access token; a transport failure or an empty token is an error and saves nothing; on success the returned and the saved record are the same SaveToken record |
| Token.GetAccessToken | token.go:51-65 | a missing token file is an error; a refresh happens, exactly once, iff now > obtainedAt + expiresIn - 30; without a refresh the stored access token is returned unchanged and nothing is saved; after a refresh the new access token is returned iff it is non-empty |
| Token.ExpiresAt | token.go:58 | the instant a stored token stops being used: obtained-at plus its lifetime, less a 30-second margin |
| Token.Expired | token.go:59 | a refresh is due when the clock is strictly past that instant |
| Token.ExpiryIsStrict | token.go:58-59 | at the expiry instant itself the stored token is still used; one second later a refresh is made |
| Token.ExpiredStaysExpired | token.go:58-59 | a token expired at some instant is expired at every later one |
| Token.RefreshedTokenIsCurrent | token.go:58-100 | a refreshed token with a lifetime of at least 30 seconds is handed out, without another refresh, by a GetAccessToken at the same instant |
| Listing.ListEndpoint | ls.go:29-36 | "/" lists drive/root/children; any other path lists drive/root:/{escaped path without one leading slash}:/children |
| Listing.LeadingSlashOptional | ls.go:29-36 | "/p" and "p" give the same listing URL |
| Listing.ListChildren | ls.go:38-73 | at most two sends, all to the listing endpoint with the current bearer; a second send happens iff the first reply is a 401 and a token is obtained again; the outcome is judged on the last reply, a status of 300 or more or an undecodable body being an error |
| Listing.UnauthorizedTwiceFails | ls.go:48-66 | a 401 answered by another 401 fails with status 401 |
| Listing.RetryKeepsUnexpiredBearer | ls.go:48-52 | when the stored token has not expired, the retry after a 401 carries the same bearer as the first send |
| Listing.Entries | ls.go:75-82 | one listed line per item, in order; a line is a folder line (with its child count) iff the folder facet is present, and a file line (with its size) otherwise |
| Listing.Judge | ls.go:60-73 | the reply a listing ends with: a transport error, a status of 300 or more, or a body that does not parse is that error; otherwise its items |
| Listing.ListFiles | ls.go:26-83 | lists exactly the items of a successful ListChildren as entries, and lists nothing when it fails |
| Uploader.EscapePath | uploader.go:158-160 | the escaped path contains no space and is at least as long as the input |
| Uploader.EscapePathOnlySpaces | uploader.go:158-160 | each space becomes "%20" in place and every other character is kept where it is |
| Uploader.EscapePathIdentity | uploader.go:158-160 | a path without spaces is returned unchanged |
| Uploader.EscapePathKeepsPercent | uploader.go:158-160 | a '%' is kept as it is, so "a% b" becomes "a%%20b", whose '%' is not followed by two hex digits |
| Uploader.SessionPath | uploader.go:68 | the session path is '/' followed by the remote path with all its leading slashes removed, so it starts with exactly one '/' |
| Uploader.SessionPathIdempotent | uploader.go:68 | normalising an already normalised path changes nothing |
| Uploader.SessionPathIgnoresLeadingSlash | uploader.go:68 | any number of leading slashes names the same session path |
| Uploader.SessionEndpoint | uploader.go:67-68 | the createUploadSession URL for the escaped, slash-normalised remote path |
| Uploader.SessionEndpointShape | uploader.go:67-68 | the session URL is drive/root:/...:/createUploadSession and contains no space |
| Uploader.TotalChunks | uploader.go:97 | the chunk count is ceil(fileSize / 10 MiB): enough chunks to cover the file, one fewer does not; 0 iff the file is empty |
| Uploader.ChunkAt | uploader.go:108-113 | chunk idx starts at idx * 10 MiB and ends at min(start + 10 MiB - 1, fileSize - 1); its size is between 1 and 10 MiB; every chunk but the last is full |
| Uploader.ChunksPartition | uploader.go:97-113 | the chunks are contiguous from byte 0 to the last byte, their sizes add up to the file size, and the last one has fileSize mod 10 MiB bytes (a full chunk when that is 0) |
| Uploader.TwentyFiveMiBScenario | uploader.go:97-113 | a 25 MiB file goes up as three chunks of 10, 10 and 5 MiB with those exact ranges |
| Uploader.RangeRoundTrip | uploader.go:119 | "bytes {start}-{end}/{total}" reads back as exactly start, end and total |
| Uploader.ContentRange | uploader.go:119 | the Content-Range value "bytes start-end/fileSize" of a chunk |
| Uploader.ContentLength | uploader.go:118 | the Content-Length value of a chunk, its byte count end - start + 1 |
| Uploader.HeadersRoundTrip | uploader.go:118-119 | Content-Range "bytes start-end/fileSize" reads back as exactly the chunk's start, end and file size; Content-Length reads back as end - start + 1 |
| Uploader.PutForHeaders | uploader.go:108-119 | the PUT for chunk idx declares that chunk's range and the file size; its Content-Range reads back as that range and size, and its Content-Length as the number of bytes it carries |
| Uploader.HandleJob | uploader.go:107-129 | one job reads chunk idx at its offset and builds exactly PutFor(idx); the PUT goes through iff idx is not a failing index; the size it reports is the chunk's length |
| Uploader.UploadChunks | uploader.go:96-143 | every chunk index is queued once in ascending order and handled once: the PUTs sent are PutFor(0), ..., PutFor(n - 1) in that order; exactly the failed indices are logged, in order; the counter ends at the bytes of the chunks that did not fail |
| Uploader.AddedBytesPermutation | uploader.go:121-129 | the counter is the same for any order in which the workers handle the same jobs |
| Uploader.PrefixAccounting | uploader.go:121-129 | after the first k jobs the counter is at most the bytes those chunks cover, with equality iff none of them failed |
| Uploader.CounterOrderIndependent | uploader.go:121-129 | for any handling order, the final counter is the same, never exceeds the file size, and equals it iff no chunk failed |
| Uploader.ChunkBodiesReassemble | uploader.go:108-117 | the bodies of the PUTs for all chunks, laid end to end in index order, are exactly the file |
| Uploader.UploadFile | uploader.go:56-94 | an unopenable file fails before any request; otherwise one session request with the bearer and conflict behaviour "replace"; no uploadUrl or a transport failure is an error; otherwise the chunks go up and the call succeeds, whatever chunks failed, reporting the upload URL, the counter, the PUTs and the failure log of UploadChunks |
| Uploader.RemotePath | uploader.go:50-51 | a walked file's remote path is its relative path joined onto the remote prefix |
| Uploader.UploadFailure | uploader.go:57-90 | a file's upload fails iff it cannot be opened, its session request fails in transport, or the reply carries no uploadUrl, and the error names which |
| Uploader.FirstFailure | uploader.go:41-54 | the index of the first walked file whose upload does not start (the file count if none): every earlier file starts and that one does not |
| Uploader.TargetsAt | uploader.go:50-52 | the i-th target of the walk is the i-th file's relative path joined onto the remote prefix |
| Uploader.RequestsAt | uploader.go:52-76 | when every file opens, the walk sends one session request per file, the i-th to the i-th target's session URL with the shared bearer and "replace" |
| Uploader.ReportsAt | uploader.go:52-93 | when every upload starts, the i-th report is the i-th file's upload URL, counter, PUTs and failure log |
| Uploader.UploadFolder | uploader.go:41-54 | files are handled in walk order, each to its remote path, up to and including the first failing file and no further; the error returned is exactly that file's UploadFailure, and none when every upload starts; the targets, session requests and reports are exactly those of the files handled |
| Downloader.ItemEndpoint | downloader.go:17-25 | a remote starting with '/' is addressed as drive/root:{remote} with ':' appended unless it ends with '/'; any other remote as drive/items/{remote} |
| Downloader.ItemEndpointInjective | downloader.go:17-25 | different remotes never address the same metadata URL |
| Downloader.ChildrenEndpoint | downloader.go:41-46 | in path form the children URL is the item URL plus "/children"; in id form it uses the id of the returned item |
| Downloader.ChildrenOfTrailingSlash | downloader.go:17-46 | a path-form remote ending in '/' keeps that slash before "/children": "/docs/" lists ".../root:/docs//children" and "/" lists ".../root://children" |
| Downloader.FetchDriveItem | downloader.go:16-66 | the metadata request is always sent; the children request is sent iff the decoded item is a folder; a transport or decoding failure of either is an error; a folder's children are exactly the listed items |
| Downloader.TotalSize | downloader.go:68-77 | a file counts its size; an item without the file facet and without children counts 0 |
| Downloader.TotalSizeIsSumOfFiles | downloader.go:68-77 | the total is the sum of the sizes of the file nodes reachable through non-file nodes |
| Downloader.MakeDir | downloader.go:80 | the directories afterwards are those before plus the path, unless a regular file has that path; files, written contents and the counter are unchanged |
| Downloader.FetchFile | downloader.go:79-109 | the parent directory is made first; a failed GET or a failed create is returned as the error; otherwise the file receives every byte read, in order, the counter grows by exactly that many bytes, and the result is success iff the body ended at EOF |
| Downloader.WalkAppendsOnly | downloader.go:112-135 | a walk only adds: written files and existing directories stay, and the counter grows by exactly the bytes of the files it wrote |
| Downloader.FirstErrorStopsWalk | downloader.go:128-132 | once a child fails, no later child is visited and the error is the folder's result |
| Downloader.FileTarget | downloader.go:114-117 | where a file node is written: localPath/name when localPath is a directory or ends with the separator, localPath otherwise |
| Downloader.FolderTarget | downloader.go:123-126 | the directory a folder node is created as: localPath/name, or localPath when the name is empty |
| Downloader.FilePlacement | downloader.go:113-119 | a file node is written to localPath/name iff localPath is an existing directory or ends with '/', and to localPath itself otherwise |
| Downloader.FolderPlacement | downloader.go:122-133 | a folder node is created as localPath/name, or as localPath itself when its name is empty, unless a regular file has that path, and the directory is still there after its children are walked |
| Downloader.WalkMovesTotalSize | downloader.go:68-135 | when the walk completes and each stream yields its file's size, the counter grows by exactly calcTotalSize of the tree |
| Downloader.Resolve | downloader.go:153-162 | an existing directory receiving a folder gets the folder's name appended; a missing path is made as the folder, or as the file's parent directory; any other path is used as it is |
| Downloader.CompletedDownloadReachesTotal | downloader.go:164-200 | a completed download whose streams yield the listed sizes ends with the counter equal to the total |
| Downloader.FolderIntoExistingDirIsNestedTwice | downloader.go:122-162 | a named folder downloaded into an existing directory dest is created as dest/name/name |
| Downloader.Download.MkdirAll | downloader.go:80 | the disk after the call is MakeDir of the disk before |
| Downloader.Download.DownloadFileWithProgress | downloader.go:79-109 | the read loop leaves the disk and counter, and returns the error, that FetchFile gives |
| Downloader.Download.DownloadRecursive | downloader.go:112-135 | the recursive walk with its loop over the children leaves the disk and counter, and returns the error, that Walk gives |
| Downloader.Download.StartDownload | downloader.go:138-205 | "." is replaced by the working directory, the item is fetched, the destination resolved, the counter reset and the tree walked, exactly as StartDownloadSpec gives |
| Explore.Up | explorer.go:44-54 | back at "/" stays at "/"; elsewhere the path is cut at the last '/' of the path without its trailing '/', falling back to "/" when that is index 0; the result still starts with '/' |
| Explore.Descend | explorer.go:64-69 | entering a folder gives "/name" at the root and "path/name" elsewhere; the result still starts with '/' |
| Explore.GoBack | explorer.go:44-52 | the "0" branch of the loop computes exactly Up of the current path |
| Explore.UpAfterDescend | explorer.go:44-69 | for a non-empty folder name without '/', going back after entering it returns to the original path |
| Explore.Selected | explorer.go:56-63 | a number selects an entry iff 1 <= n <= the number of items, and then the entry n - 1 |
| Explore.LinkPath | explorer.go:92 | the path a link is asked for: the current path, a slash, the file name |
| Explore.FileMenu | explorer.go:76-108 | every link asked for is for path + "/" + name; the menu is left only by back or quit |
| Explore.FileMenuChoices | explorer.go:90-106 | every 1 before the first b or q asks for a share link and every 2 for a direct link, in order; that b returns to the listing and that q ends the program; without either the input runs out |
| Explore.RootLinkPath | explorer.go:92 | a file chosen at the root is handed over as "//name" |
| Explore.ReplayStaysRooted | explorer.go:15-74 | the explorer starts at "/", and every path it shows or is at starts with '/' |
| Explore.TurnStaysRooted | explorer.go:19-71 | one round keeps the current path, and every path shown so far, starting with '/'; it shows one more path unless its listing could not get a token |
| Explore.RootedUntilShown | explorer.go:16-24 | until a path has been shown the explorer is still at "/" |
| Explore.TurnMovesOnlyWhenShown | explorer.go:19-71 | a round that shows nothing leaves the path where it was |
| Explore.TurnListsCurrentFolder | explorer.go:19-159 | a round keeps the requests sent before and adds at most two, each to the children endpoint of the folder it is at |
| Explore.TurnOnTokenFailure | explorer.go:19 | a round whose listing cannot get a token ends the explorer with that cause, after the requests that listing sent, without showing the path |
| Explore.MenuEnding | explorer.go:99-103 | leaving the file menu ends the explorer iff it is not left by "back" |
| Explore.InvalidChoiceKeepsPath | explorer.go:56-61 | a choice out of range, or one that is not a number, leaves the path unchanged and the loop running |
| Explore.TurnTransitions | explorer.go:19-71 | once the folder is listed its path is shown; then q ends the explorer in place, 0 goes up, a choice out of range or not a number changes nothing, a folder entry is entered, and a file entry adds the file menu's links and ends as that menu is left |
| Explore.FileSelectionKeepsPath | explorer.go:70-71 | opening a file leaves the path unchanged |
| Explore.ReplayEnded | explorer.go:39-42 | once the explorer has ended, later input changes nothing |
| Explore.FileOptions | explorer.go:76-108 | the file-menu loop asks for exactly the links FileMenu gives and is left the way FileMenu says |
| Explore.Pass | explorer.go:18-72 | one pass of the loop lists the current folder, then moves, sends listing requests, asks for links and ends exactly as Turn says |
| Explore.Explorer | explorer.go:15-74 | the navigation loop shows exactly the paths, sends exactly the listing requests, asks for exactly the links, and ends exactly when and how Replay says (a link request is assumed to get its token) |
| Explore.Shown | explorer.go:143-177 | a reply shows its items iff ListFiles would accept it, and an empty folder otherwise |
| Explore.ListExplorer | explorer.go:128-178 | a failure to get the first token, or the token for the retry after a 401, is returned as that token error; otherwise the last reply received is shown, and a transport error, a status of 300 or more or a body that does not parse shows an empty folder |
| Explore.ListExplorerRequests | explorer.go:129-159 | every request of a listing goes to the children endpoint of its path; the first carries the first token and is sent iff that token was had; a second, with the token got again, is sent iff the first was answered 401 and that token was had |
| Explore.ListExplorerAgrees | explorer.go:128-178 | the explorer's listing sends exactly the requests ListChildren sends, fails exactly where ListChildren fails for want of a token, and otherwise shows ListChildren's items, or none where ListChildren fails |
| Explore.FailedListingShowsNothing | explorer.go:161-166 | a status of 300 or more (other than the retried 401) shows an empty folder |
| Explore.TokenFailureEndsExplorer | explorer.go:15-19 | a listing that cannot get a token (GetAccessToken exits at token.go:52-56, 75-78, 86-89) ends the explorer with that cause: the path is not shown, and later input is not read and sends nothing |

## Left out

- HTTP, JSON and the token file. The requests, the decoded replies and the loaded token are parameters and results, not I/O.
  - A decoding error that the Go code ignores (token.go:29, 84; uploader.go:87) is modelled by the zero values it leaves behind.
  - The token endpoint URL with its tenant id is not modelled; the form it posts is.
- Concurrency.
  - The four upload workers, the job channel and `sync.WaitGroup` are modelled as one worker that takes the jobs in queue order.
  - `CounterOrderIndependent` covers every other handling order of the counter.
  - The atomic counters are plain integers.
- Progress, speed and ETA printing (uploader.go:145-156, downloader.go:166-195). These are floating point over wall-clock time.
- `StartUpload` (uploader.go:23-39). It maps "." to the working directory, stats the local path, fetches the one token used for every file, and dispatches between `uploadFolder` and `uploadFile`, which are modelled with that token as a parameter. `StartDownload` likewise fetches its own token (downloader.go:139), and a failure there ends the program; `Downloader.Download.StartDownload` takes that token as a parameter.
- auth.go, storage.go, link.go, dl.go and main.go are not part of this model. Only the client id of auth.go:14 is used.
- Console I/O: `clearScreen`, `Scanln` and `Sscanf`.
  - A typed line is given already classified as a `Choice` or `FileChoice`. The script holds only these menu answers.
  - After each link request the file menu reads one more line and discards it (explorer.go:93-94, 97-98). That line is not modelled.
  - The model does not capture how `Sscanf("%d")` reads lines such as "3x".
  - The console input is a finite script. When it runs out, the model's explorer ends, whereas explorer.go keeps prompting.
  - `os.Exit` in the file menu, and in `GetAccessToken` when a listing cannot get a token (token.go:52-56, 75-78, 86-89), is modelled as the end of the explorer with its cause.
- The explorer's network replies are inputs. Each round carries what its listing's token calls and sends return. `ListExplorer` builds that round's requests from the current path and its tokens, and computes the listing from the replies.
- Uploader.UploadFile: the session URL is assumed to parse. `escapePath` (uploader.go:158-160) keeps a '%', so a remote such as "/50% off.txt" gives a URL whose '%' is not followed by two hex digits (`Uploader.EscapePathKeepsPercent`). `http.NewRequest` then fails, its error is discarded, and setting a header on the nil request panics (uploader.go:74-75). The model sends the request instead.
- Downloader.FetchDriveItem: likewise, the remote is put in the metadata URL without escaping (downloader.go:17-25), so a '%' not followed by two hex digits makes `http.NewRequest` fail, and the header set on the nil request panics (downloader.go:27-28). The model sends the request instead.
- Integer widths. Sizes, offsets and counters are unbounded integers, so int64 overflow is not modelled.
- Path helpers.
  - `filepath.Join` is a plain join with one separator, without cleaning "..", "." or repeated slashes.
  - `filepath.Dir` cuts at the last '/'.
  - `filepath.Rel` and `ToSlash` are replaced by the relative path being given.
  - Characters are Unicode scalars, so invalid UTF-8 in a path is not modelled.
- Explore.FileMenu: the share and direct links are asked for through `GetShareLink` and `GetDirectDownloadLink` (link.go:13, 33, 65, 84), which call `GetAccessToken`; a missing token file or a failed refresh there ends the program (token.go:52-56, 75-78, 86-89). The model records the link request and assumes its token is had. The links' own requests and replies are not modelled: link.go is not part of this model.
- Downloader.MakeDir: `os.MkdirAll` is modelled as adding the path itself. It does not add the intermediate directories, and it fails only when the path is a regular file.
- Creating a file with `os.Create` fails only when the path is a directory or its parent is a regular file. Permission errors are not modelled.
- Downloader.Resolve: a stat error other than "does not exist" is not modelled. A path is missing iff it is neither a known directory nor a known file.
- Uploader.UploadFolder: the walk's file list, in walk order, is an input. A walk error is not modelled.
- Token.RefreshAccessToken: token.go reads the clock separately in `SaveToken` and for the returned record (token.go:40, 99). Both readings are the one `now`, so the model does not capture a record saved one second apart from the returned one.
