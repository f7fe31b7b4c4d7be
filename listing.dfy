/**
 * ls.go: the DriveItem record, the choice of children-listing endpoint and
 * the retry-once-on-401 rule of ListFiles. The HTTP exchanges are inputs:
 * the token each GetAccessToken call yields and the (status, decoded body)
 * of each send.
 */
module Listing {
  import opened Wrappers
  import opened Text
  import PathEscaping
  import Token

  datatype FolderFacet = FolderFacet(childCount: int)
  datatype FileFacet = FileFacet

  /**
   * A drive item as decoded from the service. The kind is given by which
   * facet is present; `children` and `downloadUrl` are filled by the
   * download path.
   */
  datatype DriveItem = DriveItem(
    name: string,
    id: string,
    size: int,
    folder: Option<FolderFacet>,
    file: Option<FileFacet>,
    children: seq<DriveItem>,
    downloadUrl: string)

  const GraphDrive: string := "https://graph.microsoft.com/v1.0/me/drive"

  /** The children-listing URL for a drive path. */
  function ListEndpoint(path: string): (url: string)
    ensures path == "/" ==> url == GraphDrive + "/root/children"
    ensures path != "/" ==>
      url == GraphDrive + "/root:/" + PathEscaping.PathEscape(TrimPrefix(path, "/")) + ":/children"
  {
    if path == "/" then GraphDrive + "/root/children"
    else GraphDrive + "/root:/" + PathEscaping.PathEscape(TrimPrefix(path, "/")) + ":/children"
  }

  /** One leading slash is optional: "/docs" and "docs" list the same folder. */
  lemma LeadingSlashOptional(p: string)
    requires p != "" && p[0] != '/'
    ensures ListEndpoint("/" + p) == ListEndpoint(p)
  {
    assert HasPrefix("/" + p, "/");
    assert ("/" + p)[1..] == p;
    assert !HasPrefix(p, "/");
  }

  /** A sent request: where it went and which bearer token it carried. */
  datatype Request = Request(endpoint: string, bearer: string)

  /** What one send produced: a transport failure, or a status with the body decoded as a listing (None when it does not parse). */
  datatype Reply = TransportFailed | Response(status: int, body: Option<seq<DriveItem>>)

  datatype ListError = AuthFailed(cause: Token.TokenError) | Transport | HttpStatus(status: int) | BadJson

  /** The requests a listing sent, in order, and what it produced. */
  datatype ListCall = ListCall(requests: seq<Request>, result: Result<seq<DriveItem>, ListError>)

  /** Only statuses below 300 are accepted. */
  predicate Accepted(status: int) {
    status < 300
  }

  /** The reply that decides the outcome, and how it is judged. */
  function Judge(reply: Reply): Result<seq<DriveItem>, ListError> {
    match reply
    case TransportFailed => Err(Transport)
    case Response(status, body) =>
      if !Accepted(status) then Err(HttpStatus(status))
      else if body.None? then Err(BadJson)
      else Ok(body.value)
  }

  /**
   * The request/retry core shared by ListFiles and the explorer's listing:
   * `firstToken` and `retryToken` are what the two GetAccessToken calls
   * yield, `first` and `retry` what the two sends would produce.
   */
  function ListChildren(path: string, firstToken: Result<string, Token.TokenError>, first: Reply,
                        retryToken: Result<string, Token.TokenError>, retry: Reply): (c: ListCall)
    // at most two sends, all to the same endpoint
    ensures |c.requests| <= 2
    ensures forall i :: 0 <= i < |c.requests| ==> c.requests[i].endpoint == ListEndpoint(path)
    ensures firstToken.Err? ==> c == ListCall([], Err(AuthFailed(firstToken.error)))
    ensures firstToken.Ok? ==> |c.requests| >= 1 && c.requests[0].bearer == firstToken.value
    // the second send happens iff the first answered 401 and a token was obtained again
    ensures |c.requests| == 2 <==>
      firstToken.Ok? && first.Response? && first.status == 401 && retryToken.Ok?
    ensures |c.requests| == 2 ==> c.requests[1].bearer == retryToken.value
    // the outcome is judged on the last reply received; a final status >= 300 lists nothing
    ensures firstToken.Ok? && !(first.Response? && first.status == 401) ==> c.result == Judge(first)
    ensures firstToken.Ok? && first.Response? && first.status == 401 && retryToken.Err? ==>
      c.result == Err(AuthFailed(retryToken.error))
    ensures |c.requests| == 2 ==> c.result == Judge(retry)
    ensures c.result.Ok? ==> |c.requests| >= 1
  {
    match firstToken
    case Err(e) => ListCall([], Err(AuthFailed(e)))
    case Ok(token) =>
      var endpoint := ListEndpoint(path);
      var sent := [Request(endpoint, token)];
      if first.Response? && first.status == 401 then
        match retryToken
        case Err(e) => ListCall(sent, Err(AuthFailed(e)))
        case Ok(token2) => ListCall(sent + [Request(endpoint, token2)], Judge(retry))
      else ListCall(sent, Judge(first))
  }

  /** A 401 followed by a 401 is a failure carrying that status. */
  lemma UnauthorizedTwiceFails(path: string, t1: string, t2: string, body1: Option<seq<DriveItem>>, body2: Option<seq<DriveItem>>)
    ensures ListChildren(path, Ok(t1), Response(401, body1), Ok(t2), Response(401, body2)).result == Err(HttpStatus(401))
  {
  }

  /**
   * The retry calls GetAccessToken again, and that refreshes only when the
   * clock says the token expired: a 401 on a token that is still within its
   * lifetime is retried with the very same bearer.
   */
  lemma RetryKeepsUnexpiredBearer(path: string, t: Token.StoredToken, now1: int, now2: int,
                                  r1: Token.RefreshReply, r2: Token.RefreshReply, first: Reply, retry: Reply)
    requires now1 <= now2 && !Token.Expired(t, now2)
    requires first.Response? && first.status == 401
    ensures var c := ListChildren(path, Token.GetAccessToken(Some(t), now1, r1).result, first,
                                  Token.GetAccessToken(Some(t), now2, r2).result, retry);
            |c.requests| == 2 && c.requests[0].bearer == t.accessToken && c.requests[1].bearer == t.accessToken
  {
    assert !Token.Expired(t, now1);
  }

  /** A listed line: "folder (n items)" or "file (size)". */
  datatype Entry = FolderEntry(name: string, childCount: int) | FileEntry(name: string, size: int)

  /** How ListFiles shows the items: a folder iff the folder facet is present, a file otherwise. */
  function Entries(items: seq<DriveItem>): (es: seq<Entry>)
    ensures |es| == |items|
    ensures forall i :: 0 <= i < |items| ==> es[i].name == items[i].name
    ensures forall i :: 0 <= i < |items| ==> (es[i].FolderEntry? <==> items[i].folder.Some?)
    ensures forall i :: 0 <= i < |items| ==> es[i].FolderEntry? ==> es[i].childCount == items[i].folder.value.childCount
    ensures forall i :: 0 <= i < |items| ==> es[i].FileEntry? ==> es[i].size == items[i].size
  {
    seq(|items|, i requires 0 <= i < |items| =>
      if items[i].folder.Some? then FolderEntry(items[i].name, items[i].folder.value.childCount)
      else FileEntry(items[i].name, items[i].size))
  }

  /** ListFiles: the requests sent and the lines listed (nothing on failure). */
  function ListFiles(path: string, firstToken: Result<string, Token.TokenError>, first: Reply,
                     retryToken: Result<string, Token.TokenError>, retry: Reply): (out: (seq<Request>, Result<seq<Entry>, ListError>))
    ensures var c := ListChildren(path, firstToken, first, retryToken, retry);
      out.0 == c.requests
      && (out.1.Ok? <==> c.result.Ok?)
      && (c.result.Ok? ==> out.1.value == Entries(c.result.value))
      && (c.result.Err? ==> out.1 == Err(c.result.error))
  {
    var c := ListChildren(path, firstToken, first, retryToken, retry);
    match c.result
    case Ok(items) => (c.requests, Ok(Entries(items)))
    case Err(e) => (c.requests, Err(e))
  }
}
