/**
 * explorer.go: the interactive browser. The current path starts at the
 * drive root; each round lists the current folder and reads one choice:
 * quit, back, or a numbered entry. A folder entry is entered, a file entry
 * opens the file menu, whose share and direct-link choices ask for a link
 * to `path + "/" + name`. Console input is a finite script of choices,
 * and each round comes with what its listing's token calls and sends
 * return; a listing that cannot get a token ends the program.
 */
module Explore {
  import opened Wrappers
  import opened Text
  import opened Listing

  /** One line typed at the explorer prompt: q/Q, 0, a number, or anything else. */
  datatype Choice = Quit | Back | Number(n: int) | Invalid

  /** One line typed at the file menu: 1, 2, b/B, q/Q, or anything else. */
  datatype FileChoice = Share | Direct | FileBack | FileQuit | FileInvalid

  /** A link the file menu asks for, by the drive path it hands over. */
  datatype LinkRequest = ShareLink(path: string) | DirectLink(path: string)

  // ------------------------------------------------------------ paths

  /** The path after "Go Back": the last segment is cut; the root stays the root. */
  function Up(path: string): (r: string)
    ensures path == "/" ==> r == "/"
    ensures var i := LastIndexOf(TrimSuffix(path, "/"), '/');
      path != "/" ==> r == (if i > 0 then path[..i] else "/")
    ensures HasPrefix(path, "/") ==> HasPrefix(r, "/")
    ensures |r| <= |path| || r == "/"
  {
    if path == "/" then "/"
    else
      var i := LastIndexOf(TrimSuffix(path, "/"), '/');
      if i > 0 then path[..i] else "/"
  }

  /** The path after entering folder `name`. */
  function Descend(path: string, name: string): (r: string)
    ensures path == "/" ==> r == "/" + name
    ensures path != "/" ==> r == path + "/" + name
    ensures HasPrefix(path, "/") ==> HasPrefix(r, "/")
  {
    if path == "/" then path + name else path + "/" + name
  }

  /** Entering a folder and going back returns to where one was. */
  lemma UpAfterDescend(path: string, name: string)
    requires HasPrefix(path, "/")
    requires name != "" && '/' !in name
    ensures Up(Descend(path, name)) == path
  {
    var q := Descend(path, name);
    assert q[|q| - 1] == name[|name| - 1];
    assert TrimSuffix(q, "/") == q;
    if path == "/" {
      assert q == "/" + name;
      LastIndexOfAt(q, '/', 0);
    } else {
      assert q == path + "/" + name;
      LastIndexOfAt(q, '/', |path|);
    }
  }

  /** The last occurrence of c is at i when c is at i and not after it. */
  lemma LastIndexOfAt(s: string, c: char, i: nat)
    requires i < |s| && s[i] == c
    requires forall j :: i < j < |s| ==> s[j] != c
    ensures LastIndexOf(s, c) == i
  {
  }

  // ------------------------------------------------------------ choices

  /** A numbered choice selects entry n (counting from 1) when it is in range. */
  function Selected(items: seq<DriveItem>, n: int): (r: Option<DriveItem>)
    ensures r.Some? <==> 1 <= n <= |items|
    ensures r.Some? ==> r.value == items[n - 1]
  {
    if 1 <= n <= |items| then Some(items[n - 1]) else None
  }

  /** How the file menu is left: back to the listing, out of the program, or with its input used up. */
  datatype MenuExit = BackToList | ExitProgram | InputEnded

  /** The link path the file menu hands over: the folder path, a slash, the file name. */
  function LinkPath(path: string, file: DriveItem): string {
    path + "/" + file.name
  }

  /** Where the file menu stops reading: at the first b or q, or after the whole script. */
  function MenuStop(choices: seq<FileChoice>): (k: nat)
    ensures k <= |choices|
    ensures forall j :: 0 <= j < k ==> choices[j] !in {FileBack, FileQuit}
    ensures k < |choices| ==> choices[k] in {FileBack, FileQuit}
  {
    if |choices| == 0 || choices[0] in {FileBack, FileQuit} then 0 else 1 + MenuStop(choices[1..])
  }

  /** The link one line asks for: 1 a share link, 2 a direct link, anything else none. */
  function LinkFor(path: string, file: DriveItem, c: FileChoice): (r: seq<LinkRequest>)
    ensures c == Share ==> r == [ShareLink(LinkPath(path, file))]
    ensures c == Direct ==> r == [DirectLink(LinkPath(path, file))]
    ensures c !in {Share, Direct} ==> r == []
  {
    match c
    case Share => [ShareLink(LinkPath(path, file))]
    case Direct => [DirectLink(LinkPath(path, file))]
    case _ => []
  }

  /** The links a script asks for, line by line and in order. */
  function Asked(path: string, file: DriveItem, choices: seq<FileChoice>): (r: seq<LinkRequest>)
    ensures |r| <= |choices|
    ensures |choices| > 0 ==> r == LinkFor(path, file, choices[0]) + Asked(path, file, choices[1..])
  {
    if |choices| == 0 then [] else LinkFor(path, file, choices[0]) + Asked(path, file, choices[1..])
  }

  /** FileOptions over a script of choices: the links it asks for and how it is left. */
  function FileMenu(path: string, file: DriveItem, choices: seq<FileChoice>): (r: (seq<LinkRequest>, MenuExit))
    ensures forall i :: 0 <= i < |r.0| ==> r.0[i].path == LinkPath(path, file)
    ensures |r.0| <= |choices|
    ensures r.1 == InputEnded <==> forall i :: 0 <= i < |choices| ==> choices[i] !in {FileBack, FileQuit}
  {
    if |choices| == 0 then ([], InputEnded)
    else
      match choices[0]
      case FileBack => ([], BackToList)
      case FileQuit => ([], ExitProgram)
      case FileInvalid => FileMenu(path, file, choices[1..])
      case Share =>
        var rest := FileMenu(path, file, choices[1..]);
        ([ShareLink(LinkPath(path, file))] + rest.0, rest.1)
      case Direct =>
        var rest := FileMenu(path, file, choices[1..]);
        ([DirectLink(LinkPath(path, file))] + rest.0, rest.1)
  }

  /**
   * What each choice of the file menu does: every 1 and 2 before the first
   * b or q asks for its kind of link, in order; that b returns to the
   * listing, that q ends the program, and without either the input runs out.
   */
  lemma {:induction false} FileMenuChoices(path: string, file: DriveItem, choices: seq<FileChoice>)
    ensures var k := MenuStop(choices); var r := FileMenu(path, file, choices);
      && r.0 == Asked(path, file, choices[..k])
      && r.1 == (if k == |choices| then InputEnded else if choices[k] == FileBack then BackToList else ExitProgram)
  {
    if |choices| > 0 && choices[0] !in {FileBack, FileQuit} {
      FileMenuChoices(path, file, choices[1..]);
      assert choices[..MenuStop(choices)][1..] == choices[1..][..MenuStop(choices[1..])];
    }
  }

  /** A file chosen at the root is handed over with a doubled leading slash. */
  lemma RootLinkPath(file: DriveItem)
    ensures LinkPath("/", file) == "//" + file.name
  {
  }

  // ------------------------------------------------------------ listing

  /**
   * What one listing of the current folder gets back: the tokens its two
   * GetAccessToken calls yield and what its two sends would produce.
   */
  datatype Exchange = Exchange(firstToken: Result<string, Token.TokenError>, first: Reply,
                               retryToken: Result<string, Token.TokenError>, retry: Reply)

  /**
   * What a received reply shows: its items when the status is below 300 and
   * the body parses, an empty folder for a transport error, any other
   * status, or a body that does not parse.
   */
  function Shown(reply: Reply): (items: seq<DriveItem>)
    ensures items == (if Judge(reply).Ok? then Judge(reply).value else [])
  {
    match reply
    case TransportFailed => []
    case Response(status, body) => if status >= 300 || body.None? then [] else body.value
  }

  /**
   * What one listing did: the requests it sent, in order, and either what
   * it shows or the token error with which the program ends.
   */
  datatype Listed = Listed(requests: seq<Request>, result: Result<seq<DriveItem>, Token.TokenError>)

  /**
   * ListExplorer: one GET of the folder's children endpoint with the current
   * bearer; a 401 is sent again once with a token got again. A failure to get
   * a token is carried out (GetAccessToken ends the program there), and the
   * last reply received is what is shown.
   */
  function ListExplorer(path: string, x: Exchange): (l: Listed)
    ensures x.firstToken.Err? ==> l.result == Err(x.firstToken.error)
    ensures x.firstToken.Ok? && x.first.Response? && x.first.status == 401 && x.retryToken.Err? ==>
      l.result == Err(x.retryToken.error)
    ensures l.result.Err? <==> x.firstToken.Err? || (x.first.Response? && x.first.status == 401 && x.retryToken.Err?)
    // otherwise the last reply received is judged as ListFiles judges it, and every rejection lists nothing
    ensures x.firstToken.Ok? && !(x.first.Response? && x.first.status == 401) ==>
      l.result == Ok(if Judge(x.first).Ok? then Judge(x.first).value else [])
    ensures x.firstToken.Ok? && x.first.Response? && x.first.status == 401 && x.retryToken.Ok? ==>
      l.result == Ok(if Judge(x.retry).Ok? then Judge(x.retry).value else [])
  {
    if x.firstToken.Err? then Listed([], Err(x.firstToken.error))
    else
      var endpoint := ListEndpoint(path);
      var sent := [Request(endpoint, x.firstToken.value)];
      if x.first.Response? && x.first.status == 401 then
        if x.retryToken.Err? then Listed(sent, Err(x.retryToken.error))
        else Listed(sent + [Request(endpoint, x.retryToken.value)], Ok(Shown(x.retry)))
      else Listed(sent, Ok(Shown(x.first)))
  }

  /**
   * The requests of one listing all go to the folder's children endpoint: the
   * first with the first token, and a second, with the token got again, iff
   * the first was answered 401 and that token could be had.
   */
  lemma ListExplorerRequests(path: string, x: Exchange)
    ensures var l := ListExplorer(path, x);
      && |l.requests| <= 2
      && (forall i :: 0 <= i < |l.requests| ==> l.requests[i].endpoint == ListEndpoint(path))
      && (|l.requests| == 0 <==> x.firstToken.Err?)
      && (x.firstToken.Ok? ==> l.requests[0].bearer == x.firstToken.value)
      && (|l.requests| == 2 <==> x.firstToken.Ok? && x.first.Response? && x.first.status == 401 && x.retryToken.Ok?)
      && (|l.requests| == 2 ==> l.requests[1].bearer == x.retryToken.value)
  {
  }

  /**
   * ListExplorer and ListFiles share their request/retry core: the explorer
   * sends exactly the requests ListChildren sends, fails exactly where
   * ListChildren fails for want of a token, and otherwise shows what
   * ListChildren lists, or nothing where it fails.
   */
  lemma ListExplorerAgrees(path: string, x: Exchange)
    ensures var c := ListChildren(path, x.firstToken, x.first, x.retryToken, x.retry);
      var l := ListExplorer(path, x);
      && l.requests == c.requests
      && (l.result.Err? <==> c.result.Err? && c.result.error.AuthFailed?)
      && (l.result.Err? ==> c.result.error == AuthFailed(l.result.error))
      && (l.result.Ok? ==> l.result.value == (if c.result.Ok? then c.result.value else []))
  {
  }

  /** A reply the listing rejects shows an empty folder. */
  lemma FailedListingShowsNothing(path: string, t: string, status: int, body: Option<seq<DriveItem>>, retry: Reply)
    requires status >= 300 && status != 401
    ensures ListExplorer(path, Exchange(Ok(t), Response(status, body), Ok(t), retry)).result == Ok([])
  {
  }

  // ------------------------------------------------------------ rounds

  /** One round: what its listing gets back, the choice typed, and the file-menu lines typed if a file is opened. */
  datatype Round = Round(exchange: Exchange, choice: Choice, fileChoices: seq<FileChoice>)

  /**
   * Why the explorer ended: q at its prompt, q at the file menu, the file
   * menu's input ran out, or no token could be had for a listing.
   */
  datatype Ending = Quitted | QuitFromFileMenu | FileMenuInputEnded | TokenFailed(cause: Token.TokenError)

  /**
   * The explorer so far: the current path, the path shown in each round, the
   * listing requests sent, the links asked for, and how it ended, if it has.
   */
  datatype Session = Session(path: string, shown: seq<string>, requests: seq<Request>, links: seq<LinkRequest>,
                             end: Option<Ending>)

  /** How leaving the file menu ends the explorer, if it does. */
  function MenuEnding(exit: MenuExit): (e: Option<Ending>)
    ensures e.None? <==> exit == BackToList
  {
    match exit
    case BackToList => None
    case ExitProgram => Some(QuitFromFileMenu)
    case InputEnded => Some(FileMenuInputEnded)
  }

  /** One pass of the Explorer loop. */
  function Turn(s: Session, round: Round): Session {
    var listed := ListExplorer(s.path, round.exchange);
    var requests := s.requests + listed.requests;
    if listed.result.Err? then Session(s.path, s.shown, requests, s.links, Some(TokenFailed(listed.result.error)))
    else
      var shown := s.shown + [s.path];
      match round.choice
      case Quit => Session(s.path, shown, requests, s.links, Some(Quitted))
      case Back => Session(Up(s.path), shown, requests, s.links, None)
      case Invalid => Session(s.path, shown, requests, s.links, None)
      case Number(n) =>
        var sel := Selected(listed.result.value, n);
        if sel.None? then Session(s.path, shown, requests, s.links, None)
        else if sel.value.folder.Some? then Session(Descend(s.path, sel.value.name), shown, requests, s.links, None)
        else
          var menu := FileMenu(s.path, sel.value, round.fileChoices);
          Session(s.path, shown, requests, s.links + menu.0, MenuEnding(menu.1))
  }

  /** The explorer after the given rounds, starting at the root and ignoring rounds after it has ended. */
  function Replay(rounds: seq<Round>): Session {
    if |rounds| == 0 then Session("/", [], [], [], None)
    else
      var s := Replay(rounds[..|rounds| - 1]);
      if s.end.Some? then s else Turn(s, rounds[|rounds| - 1])
  }

  /** Every path the explorer is at starts at the root, and the first one is the root itself. */
  lemma {:induction false} ReplayStaysRooted(rounds: seq<Round>)
    ensures var s := Replay(rounds);
      && HasPrefix(s.path, "/")
      && (forall i :: 0 <= i < |s.shown| ==> HasPrefix(s.shown[i], "/"))
      && (|s.shown| > 0 ==> s.shown[0] == "/")
      && |s.shown| <= |rounds|
  {
    if |rounds| > 0 {
      var before := rounds[..|rounds| - 1];
      ReplayStaysRooted(before);
      RootedUntilShown(before);
      if Replay(before).end.None? {
        TurnStaysRooted(Replay(before), rounds[|rounds| - 1]);
      }
    }
  }

  /** Nothing is shown until a listing succeeds, and until then the explorer is at the root. */
  lemma {:induction false} RootedUntilShown(rounds: seq<Round>)
    ensures |Replay(rounds).shown| == 0 ==> Replay(rounds).path == "/"
  {
    if |rounds| > 0 {
      var before := rounds[..|rounds| - 1];
      RootedUntilShown(before);
      if Replay(before).end.None? {
        TurnMovesOnlyWhenShown(Replay(before), rounds[|rounds| - 1]);
      }
    }
  }

  /** A turn that shows nothing leaves the path where it was. */
  lemma TurnMovesOnlyWhenShown(s: Session, round: Round)
    ensures |Turn(s, round).shown| > |s.shown| || Turn(s, round).path == s.path
  {
  }

  /** A path that starts at the root, with every path shown so far starting there too. */
  predicate Rooted(s: Session) {
    && HasPrefix(s.path, "/")
    && (forall i :: 0 <= i < |s.shown| ==> HasPrefix(s.shown[i], "/"))
    && (|s.shown| > 0 ==> s.shown[0] == "/")
  }

  /** A turn shows the current path once, unless its listing could not get a token. */
  lemma TurnStaysRooted(s: Session, round: Round)
    requires Rooted(s) && (|s.shown| == 0 ==> s.path == "/")
    ensures Rooted(Turn(s, round))
    ensures |Turn(s, round).shown| == |s.shown| + (if ListExplorer(s.path, round.exchange).result.Err? then 0 else 1)
  {
    var shown := s.shown + [s.path];
    assert forall i :: 0 <= i < |shown| ==> HasPrefix(shown[i], "/");
  }

  /**
   * A turn keeps the requests sent before and adds at most two, each to the
   * children endpoint of the folder the explorer is at.
   */
  lemma TurnListsCurrentFolder(s: Session, round: Round)
    ensures var t := Turn(s, round);
      && |s.requests| <= |t.requests| <= |s.requests| + 2
      && t.requests[..|s.requests|] == s.requests
      && forall i :: |s.requests| <= i < |t.requests| ==> t.requests[i].endpoint == ListEndpoint(s.path)
  {
    var l := ListExplorer(s.path, round.exchange);
    ListExplorerRequests(s.path, round.exchange);
    assert Turn(s, round).requests == s.requests + l.requests;
  }

  /** A choice out of range, or one that is not a number, leaves the path where it was. */
  lemma InvalidChoiceKeepsPath(s: Session, round: Round)
    requires ListExplorer(s.path, round.exchange).result.Ok?
    requires round.choice.Invalid? ||
      (round.choice.Number? && !(1 <= round.choice.n <= |ListExplorer(s.path, round.exchange).result.value|))
    ensures Turn(s, round).path == s.path && Turn(s, round).end.None?
  {
  }

  /** Opening a file never moves the path. */
  lemma FileSelectionKeepsPath(s: Session, round: Round)
    requires ListExplorer(s.path, round.exchange).result.Ok?
    requires var items := ListExplorer(s.path, round.exchange).result.value;
      round.choice.Number? && 1 <= round.choice.n <= |items| && items[round.choice.n - 1].folder.None?
    ensures Turn(s, round).path == s.path
  {
  }

  /**
   * What each choice does once the folder is listed: the path is shown and
   * then q ends the explorer where it is, 0 goes up, an entry out of range
   * or a line that is not a number changes nothing, a folder entry is
   * entered, and a file entry opens the file menu, whose links are added
   * and whose exit decides whether the explorer goes on.
   */
  lemma TurnTransitions(s: Session, round: Round)
    ensures var l := ListExplorer(s.path, round.exchange); var t := Turn(s, round);
      l.result.Ok? ==>
        && t.shown == s.shown + [s.path]
        && t.requests == s.requests + l.requests
        && (round.choice.Quit? ==> t.path == s.path && t.links == s.links && t.end == Some(Quitted))
        && (round.choice.Back? ==> t.path == Up(s.path) && t.links == s.links && t.end.None?)
        && (round.choice.Invalid? ==> t.path == s.path && t.links == s.links && t.end.None?)
        && (round.choice.Number? && !(1 <= round.choice.n <= |l.result.value|) ==>
              t.path == s.path && t.links == s.links && t.end.None?)
        && (round.choice.Number? && 1 <= round.choice.n <= |l.result.value| ==>
              var item := l.result.value[round.choice.n - 1];
              var menu := FileMenu(s.path, item, round.fileChoices);
              if item.folder.Some? then
                t.path == Descend(s.path, item.name) && t.links == s.links && t.end.None?
              else
                t.path == s.path && t.links == s.links + menu.0 && t.end == MenuEnding(menu.1))
  {
  }

  /** One more round advances the explorer by one turn, unless it has ended. */
  lemma ReplayStep(rounds: seq<Round>, r: nat)
    requires r < |rounds|
    ensures Replay(rounds[..r + 1]) ==
      if Replay(rounds[..r]).end.Some? then Replay(rounds[..r]) else Turn(Replay(rounds[..r]), rounds[r])
  {
    assert rounds[..r + 1][..r] == rounds[..r];
  }

  /** Once the explorer has ended, later rounds change nothing. */
  lemma {:induction false} ReplayEnded(rounds: seq<Round>, k: nat)
    requires k <= |rounds| && Replay(rounds[..k]).end.Some?
    ensures Replay(rounds) == Replay(rounds[..k])
    decreases |rounds| - k
  {
    if k < |rounds| {
      assert rounds[..k + 1][..k] == rounds[..k];
      ReplayEnded(rounds, k + 1);
    } else {
      assert rounds[..k] == rounds;
    }
  }

  /** A turn whose listing cannot get a token ends there, with the requests it sent and that cause. */
  lemma TurnOnTokenFailure(s: Session, round: Round)
    requires ListExplorer(s.path, round.exchange).result.Err?
    ensures var l := ListExplorer(s.path, round.exchange);
      Turn(s, round) == Session(s.path, s.shown, s.requests + l.requests, s.links, Some(TokenFailed(l.result.error)))
  {
  }

  /**
   * A listing that cannot get a token ends the explorer for good: the path
   * is not shown again, nothing later is read or sent, and the cause is kept.
   */
  lemma {:induction false} TokenFailureEndsExplorer(rounds: seq<Round>, r: nat)
    requires r < |rounds|
    requires var s := Replay(rounds[..r]); s.end.None? && ListExplorer(s.path, rounds[r].exchange).result.Err?
    ensures var s := Replay(rounds[..r]); var l := ListExplorer(s.path, rounds[r].exchange);
      Replay(rounds) == Session(s.path, s.shown, s.requests + l.requests, s.links, Some(TokenFailed(l.result.error)))
  {
    ReplayStep(rounds, r);
    TurnOnTokenFailure(Replay(rounds[..r]), rounds[r]);
    ReplayEnded(rounds, r + 1);
  }

  // ------------------------------------------------------------ the loops

  method FileOptions(path: string, file: DriveItem, choices: seq<FileChoice>)
    returns (links: seq<LinkRequest>, exit: MenuExit)
    ensures (links, exit) == FileMenu(path, file, choices)
  {
    links := [];
    var i := 0;
    assert choices[0..] == choices;
    assert [] + FileMenu(path, file, choices).0 == FileMenu(path, file, choices).0;
    while i < |choices|
      invariant 0 <= i <= |choices|
      invariant FileMenu(path, file, choices).0 == links + FileMenu(path, file, choices[i..]).0
      invariant FileMenu(path, file, choices).1 == FileMenu(path, file, choices[i..]).1
    {
      ghost var rest := FileMenu(path, file, choices[i + 1..]);
      assert choices[i..][1..] == choices[i + 1..];
      match choices[i] {
        case Share =>
          assert links + ([ShareLink(LinkPath(path, file))] + rest.0) == links + [ShareLink(LinkPath(path, file))] + rest.0;
          links := links + [ShareLink(LinkPath(path, file))];
        case Direct =>
          assert links + ([DirectLink(LinkPath(path, file))] + rest.0) == links + [DirectLink(LinkPath(path, file))] + rest.0;
          links := links + [DirectLink(LinkPath(path, file))];
        case FileBack =>
          assert links + [] == links;
          return links, BackToList;
        case FileQuit =>
          assert links + [] == links;
          return links, ExitProgram;
        case FileInvalid =>
      }
      i := i + 1;
    }
    assert links + [] == links;
    return links, InputEnded;
  }

  /** The "Go Back" step of the loop: cut the last segment, staying at the root. */
  method GoBack(currentPath: string) returns (path: string)
    ensures path == Up(currentPath)
  {
    path := currentPath;
    if path != "/" {
      var idx := LastIndexOf(TrimSuffix(path, "/"), '/');
      if idx > 0 {
        path := path[..idx];
      } else {
        path := "/";
      }
    }
  }

  /** One pass of the Explorer loop at `currentPath`: list, read one choice, act on it. */
  method Pass(currentPath: string, shown: seq<string>, requests: seq<Request>, links: seq<LinkRequest>, round: Round)
    returns (path: string, shownAfter: seq<string>, requestsAfter: seq<Request>, linksAfter: seq<LinkRequest>,
             end: Option<Ending>)
    ensures Session(path, shownAfter, requestsAfter, linksAfter, end)
         == Turn(Session(currentPath, shown, requests, links, None), round)
  {
    path, shownAfter, linksAfter, end := currentPath, shown, links, None;
    var listed := ListExplorer(currentPath, round.exchange);
    requestsAfter := requests + listed.requests;
    if listed.result.Err? {
      return path, shownAfter, requestsAfter, linksAfter, Some(TokenFailed(listed.result.error));
    }
    var items := listed.result.value;
    shownAfter := shown + [currentPath];
    match round.choice {
      case Quit =>
        end := Some(Quitted);
      case Back =>
        path := GoBack(currentPath);
      case Invalid =>
      case Number(n) =>
        if 1 <= n <= |items| {
          var selected := items[n - 1];
          if selected.folder.Some? {
            if currentPath == "/" {
              path := currentPath + selected.name;
            } else {
              path := currentPath + "/" + selected.name;
            }
          } else {
            var asked, exit := FileOptions(currentPath, selected, round.fileChoices);
            linksAfter := links + asked;
            end := MenuEnding(exit);
          }
        }
    }
  }

  method Explorer(rounds: seq<Round>)
    returns (shown: seq<string>, requests: seq<Request>, links: seq<LinkRequest>, end: Option<Ending>)
    ensures var s := Replay(rounds);
      shown == s.shown && requests == s.requests && links == s.links && end == s.end
  {
    var currentPath := "/";
    shown, requests, links, end := [], [], [], None;
    var r := 0;
    while r < |rounds|
      invariant 0 <= r <= |rounds|
      invariant Replay(rounds[..r]) == Session(currentPath, shown, requests, links, None) && end.None?
    {
      ReplayStep(rounds, r);
      currentPath, shown, requests, links, end := Pass(currentPath, shown, requests, links, rounds[r]);
      if end.Some? {
        ReplayEnded(rounds, r + 1);
        return;
      }
      r := r + 1;
    }
    assert rounds[..r] == rounds;
  }
}
