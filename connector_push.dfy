/**
 * The base connector processor of the IDP git integration: connector lookup and
 * the push of catalog files to a repository, either through the git-sync gRPC
 * service (one create-file request per file) or through a JGit commit of all the
 * files at once.
 *
 * The connector service, the remote listing, file reading and the gRPC and JGit
 * clients are collaborators, passed in as `GitServices`.
 */
module ConnectorPush {
  import opened Wrappers
  import Text

  datatype ConnectorRef = ConnectorRef(identifier: string)

  datatype CatalogConnectorInfo = CatalogConnectorInfo(repo: string, branch: string, connector: ConnectorRef)

  /** The fields of a connector the Bitbucket processor reads. */
  datatype ConnectorInfo = ConnectorInfo(
    identifier: string,
    connectorType: string,
    executeOnDelegate: bool,
    authType: string,
    username: string,
    passwordRef: string)

  datatype Auth = Auth(username: string, password: string)

  datatype GitBaseRequest = GitBaseRequest(repoUrl: string, auth: Auth, connectorId: string, accountId: string)

  /** A remote ref and the name of the ref it points at. */
  datatype GitRef = GitRef(name: string, targetName: string)

  datatype BranchChoice = BranchChoice(commitToNewBranch: bool, baseBranchName: string)

  datatype CreateFileRequest = CreateFileRequest(
    repoName: string,
    branchName: string,
    filePath: string,
    connectorRef: string,
    fileContent: string,
    isCommitToNewBranch: bool,
    baseBranchName: string,
    commitMessage: string)

  datatype ChangeType = Add

  datatype GitFileChange = GitFileChange(filePath: string, fileContent: string, changeType: ChangeType, accountId: string)

  datatype CommitAndPushRequest = CommitAndPushRequest(
    repoUrl: string,
    branch: string,
    unsureOrNonExistentBranch: bool,
    cloneDepth: int,
    connectorId: string,
    accountId: string,
    auth: Auth,
    gitFileChanges: seq<GitFileChange>,
    authorName: string,
    authorEmail: string,
    commitMessage: string)

  /**
   * `readFile` is None where Files.readString throws; `createFile` is the status code of
   * the gRPC call after its retries, or None where it throws.
   */
  datatype GitServices = GitServices(
    accountScopedPrefix: string,
    commitMessage: string,
    authorEmail: string,
    findConnector: (string, string) -> Option<ConnectorInfo>,
    listRemote: GitBaseRequest -> map<string, GitRef>,
    readFile: string -> Option<string>,
    createFile: CreateFileRequest -> Option<int>)

  const PushFailedMessage := "Error response while pushing files to source in IDP catalog onboarding flow"
  const PrepareFailedMessage := "Error in preparing git files for commit."

  // ---------------------------------------------------------------- connector lookup

  /** getConnectorInfo: the connector, or an invalid request naming the identifier and account. */
  function GetConnectorInfo(accountIdentifier: string, connectorIdentifier: string, svc: GitServices):
    (r: Result<ConnectorInfo>)
    ensures svc.findConnector(connectorIdentifier, accountIdentifier).None? ==>
      r == Err(InvalidRequest("Connector not found for identifier: [" + connectorIdentifier +
                              "], accountIdentifier: [" + accountIdentifier + "]"))
    ensures svc.findConnector(connectorIdentifier, accountIdentifier).Some? ==>
      r == Ok(svc.findConnector(connectorIdentifier, accountIdentifier).value)
  {
    match svc.findConnector(connectorIdentifier, accountIdentifier)
    case None =>
      Err(InvalidRequest("Connector not found for identifier: [" + connectorIdentifier +
                         "], accountIdentifier: [" + accountIdentifier + "]"))
    case Some(info) => Ok(info)
  }

  // ---------------------------------------------------------------- branch and repository name

  /** The branch the gRPC push commits to: the catalog branch if the remote has it, else a new branch off HEAD. */
  function ChooseBranch(remotes: map<string, GitRef>, branch: string): (r: Result<BranchChoice>)
    ensures ("refs/heads/" + branch) in remotes ==> r == Ok(BranchChoice(false, branch))
    ensures ("refs/heads/" + branch) !in remotes && "HEAD" in remotes ==>
      r == Ok(BranchChoice(true, remotes["HEAD"].targetName))
    ensures r.Err? <==> ("refs/heads/" + branch) !in remotes && "HEAD" !in remotes
    ensures r.Err? ==> r.error == NullPointer
  {
    if ("refs/heads/" + branch) in remotes then Ok(BranchChoice(false, branch))
    else if "HEAD" in remotes then Ok(BranchChoice(true, remotes["HEAD"].targetName))
    else Err(NullPointer)
  }

  /** A new branch is created exactly when the catalog branch is not on the remote. */
  lemma NewBranchIffMissing(remotes: map<string, GitRef>, branch: string)
    requires ChooseBranch(remotes, branch).Ok?
    ensures ChooseBranch(remotes, branch).value.commitToNewBranch <==> ("refs/heads/" + branch) !in remotes
  {
  }

  /** String.substring(begin) of Java: out of range raises IndexOutOfBounds. */
  function Substring(s: string, begin: int): (r: Result<string>)
    ensures r.Ok? <==> 0 <= begin <= |s|
    ensures r.Ok? ==> r.value == s[begin..]
  {
    if 0 <= begin <= |s| then Ok(s[begin..]) else Err(IndexOutOfBounds)
  }

  /**
   * The repository name as the gRPC push computes it. For a trailing `/`, the slash is cut off
   * but the start index is taken from the uncut string's last `/`, which is the cut string's length
   * plus one.
   */
  function RepoNameAsWritten(repo: string): (r: Result<string>)
    ensures r.Err? ==> r.error == IndexOutOfBounds
    ensures |repo| > 0 && repo[|repo| - 1] == '/' ==> r.Err?
  {
    if |repo| == 0 then Err(IndexOutOfBounds)
    else if repo[|repo| - 1] == '/' then Substring(repo[..|repo| - 1], Text.LastIndexOf(repo, '/') + 1)
    else Substring(repo, Text.LastIndexOf(repo, '/') + 1)
  }

  /** As written, every repository URL with a trailing slash makes the push throw. */
  lemma TrailingSlashThrows(repo: string)
    requires |repo| > 0 && repo[|repo| - 1] == '/'
    ensures RepoNameAsWritten(repo) == Err(IndexOutOfBounds)
  {
  }

  /** The text after the last `/`, or the whole string when it has none. */
  function AfterLastSlash(s: string): (r: string)
    ensures '/' !in r
    ensures Text.EndsWith(s, r)
  {
    var k := Text.LastIndexOf(s, '/') + 1;
    assert forall j :: 0 <= j < |s| - k ==> s[k..][j] == s[k + j];
    s[k..]
  }

  /** The repository name intended: the text after the last `/` once a trailing `/` is dropped. */
  function RepoName(repo: string): (r: Result<string>)
    ensures r.Err? <==> |repo| == 0
    ensures r.Ok? ==> '/' !in r.value
    ensures r.Ok? && repo[|repo| - 1] != '/' ==> Text.EndsWith(repo, r.value)
  {
    if |repo| == 0 then Err(IndexOutOfBounds)
    else if repo[|repo| - 1] == '/' then Ok(AfterLastSlash(repo[..|repo| - 1]))
    else Ok(AfterLastSlash(repo))
  }

  /** Without a trailing slash the code as written and the intended name agree. */
  lemma RepoNameAgreesWithoutTrailingSlash(repo: string)
    requires |repo| > 0 && repo[|repo| - 1] != '/'
    ensures RepoNameAsWritten(repo) == RepoName(repo)
  {
  }

  /** A trailing slash does not change the intended name. */
  lemma RepoNameIgnoresTrailingSlash(repo: string)
    requires |repo| > 0 && repo[|repo| - 1] != '/'
    ensures RepoName(repo + "/") == RepoName(repo)
  {
    assert (repo + "/")[..|repo + "/"| - 1] == repo;
  }

  /** The input that shows the difference. */
  lemma RepoNameCounterexample()
    ensures RepoNameAsWritten("h/o/catalog/") == Err(IndexOutOfBounds)
    ensures RepoName("h/o/catalog/") == Ok("catalog")
  {
    var repo := "h/o/catalog/";
    TrailingSlashThrows(repo);
    assert repo[..|repo| - 1] == "h/o/catalog";
    assert Text.LastIndexOf("h/o/catalog", '/') == 3 by {
      assert "h/o/catalog"[3] == '/';
      assert forall i :: 3 < i < 11 ==> "h/o/catalog"[i] != '/';
    }
    assert "h/o/catalog"[4..] == "catalog";
  }

  // ---------------------------------------------------------------- file paths

  /** The path of a file in the repository for the gRPC push: every `parent/` removed. */
  function GrpcPath(file: string, parent: string): string
  {
    Text.ReplaceAll(file, parent + "/", "")
  }

  /** The path of a file for the JGit push: every `parent` removed (the slash after it stays). */
  function JGitPath(file: string, parent: string): string
  {
    Text.ReplaceAll(file, parent, "")
  }

  /** A file directly under the parent lands at its relative path through gRPC and one slash deeper through JGit. */
  lemma PathsRelativeToParent(parent: string, rest: string)
    requires parent != [] && !Text.Contains(rest, parent + "/") && !Text.Contains("/" + rest, parent)
    ensures GrpcPath(parent + "/" + rest, parent) == rest
    ensures JGitPath(parent + "/" + rest, parent) == "/" + rest
  {
    var t := parent + "/";
    var file := parent + "/" + rest;
    assert file[..|t|] == t;
    assert file[|t|..] == rest;
    Text.ReplaceAbsent(rest, t, "");
    assert file[..|parent|] == parent;
    assert file[|parent|..] == "/" + rest;
    Text.ReplaceAbsent("/" + rest, parent, "");
  }

  // ---------------------------------------------------------------- gRPC push

  /** What every create-file request of one push shares. */
  datatype RequestBase = RequestBase(
    repoName: string,
    branchName: string,
    connectorRef: string,
    isCommitToNewBranch: bool,
    baseBranchName: string,
    commitMessage: string)

  function FileRequest(base: RequestBase, filePath: string, content: string): CreateFileRequest
  {
    CreateFileRequest(base.repoName, base.branchName, filePath, base.connectorRef, content,
                      base.isCommitToNewBranch, base.baseBranchName, base.commitMessage)
  }

  /** The requests sent, and whether every file went through. */
  datatype Sends = Sends(sent: seq<CreateFileRequest>, ok: bool)

  /** The per-file loop: read, send, and stop at the first failure. */
  function GrpcSends(files: seq<string>, base: RequestBase, parent: string, svc: GitServices): (r: Sends)
    decreases |files|
  {
    if files == [] then Sends([], true)
    else match svc.readFile(files[0])
      case None => Sends([], false)
      case Some(content) =>
        var request := FileRequest(base, GrpcPath(files[0], parent), content);
        var status := svc.createFile(request);
        if status.None? || status.value >= 300 then Sends([request], false)
        else
          var rest := GrpcSends(files[1..], base, parent, svc);
          Sends([request] + rest.sent, rest.ok)
  }

  /** The loop sends one request per file, in order, for a prefix of the files; all of them when it succeeds. */
  lemma {:induction false} GrpcSendsShape(files: seq<string>, base: RequestBase, parent: string, svc: GitServices)
    ensures var r := GrpcSends(files, base, parent, svc);
      && |r.sent| <= |files|
      && (r.ok ==> |r.sent| == |files|)
      && (forall i :: 0 <= i < |r.sent| ==>
            r.sent[i].filePath == GrpcPath(files[i], parent) &&
            svc.readFile(files[i]) == Some(r.sent[i].fileContent) &&
            r.sent[i] == FileRequest(base, r.sent[i].filePath, r.sent[i].fileContent))
    decreases |files|
  {
    if files != [] && svc.readFile(files[0]).Some? {
      GrpcSendsShape(files[1..], base, parent, svc);
      assert forall i :: 0 < i < |files| ==> files[1..][i - 1] == files[i];
    }
  }

  function Prepend(sent: seq<CreateFileRequest>, r: Sends): Sends
  {
    Sends(sent + r.sent, r.ok)
  }

  /** One step of the per-file loop, from position `n`. */
  lemma SendsStep(files: seq<string>, n: int, base: RequestBase, parent: string, svc: GitServices)
    requires 0 <= n < |files|
    ensures GrpcSends(files[n..], base, parent, svc) ==
      match svc.readFile(files[n])
      case None => Sends([], false)
      case Some(content) =>
        var request := FileRequest(base, GrpcPath(files[n], parent), content);
        var status := svc.createFile(request);
        if status.None? || status.value >= 300 then Sends([request], false)
        else Prepend([request], GrpcSends(files[n + 1..], base, parent, svc))
  {
    assert files[n..][0] == files[n];
    assert files[n..][1..] == files[n + 1..];
  }

  method SendFiles(files: seq<string>, base: RequestBase, parent: string, svc: GitServices) returns (r: Sends)
    ensures r == GrpcSends(files, base, parent, svc)
  {
    var sent: seq<CreateFileRequest> := [];
    var n := 0;
    assert files[0..] == files;
    while n < |files|
      invariant 0 <= n <= |files|
      invariant GrpcSends(files, base, parent, svc) == Prepend(sent, GrpcSends(files[n..], base, parent, svc))
    {
      SendsStep(files, n, base, parent, svc);
      var content := svc.readFile(files[n]);
      if content.None? {
        assert sent + [] == sent;
        return Sends(sent, false);
      }
      var request := FileRequest(base, GrpcPath(files[n], parent), content.value);
      var status := svc.createFile(request);
      ghost var rest := GrpcSends(files[n + 1..], base, parent, svc);
      assert sent + ([request] + rest.sent) == (sent + [request]) + rest.sent;
      sent := sent + [request];
      if status.None? || status.value >= 300 {
        assert sent + [] == sent;
        return Sends(sent, false);
      }
      n := n + 1;
    }
    assert files[n..] == [];
    assert sent + [] == sent;
    r := Sends(sent, true);
  }

  /** What a push did: the gRPC listing and requests, or the JGit commit handed to the client. */
  datatype PushOutcome =
    | GrpcPushed(listRequest: GitBaseRequest, sent: seq<CreateFileRequest>, error: Option<Failure>)
    | JGitPushed(commit: Result<CommitAndPushRequest>)

  /** The gRPC push once the repository name (or the exception computing it) is known. */
  function GrpcPushWith(repoName: Result<string>, accountIdentifier: string, catalog: CatalogConnectorInfo,
                        parent: string, files: seq<string>, auth: Auth, svc: GitServices): (r: PushOutcome)
    ensures r.GrpcPushed?
    ensures r.listRequest == GitBaseRequest(catalog.repo, auth, catalog.connector.identifier, accountIdentifier)
    ensures |r.sent| <= |files|
    ensures r.error.None? ==> |r.sent| == |files|
    ensures repoName.Err? ==> r.sent == [] && r.error.Some?
    ensures r.error.Some? ==>
      r.error.value in {NullPointer, Unexpected(PushFailedMessage)} || repoName == Err(r.error.value)
  {
    var listRequest := GitBaseRequest(catalog.repo, auth, catalog.connector.identifier, accountIdentifier);
    var remotes := svc.listRemote(listRequest);
    match ChooseBranch(remotes, catalog.branch)
    case Err(e) => GrpcPushed(listRequest, [], Some(e))
    case Ok(choice) =>
      match repoName
      case Err(e) => GrpcPushed(listRequest, [], Some(e))
      case Ok(name) =>
        var base := RequestBase(name, catalog.branch, svc.accountScopedPrefix + catalog.connector.identifier,
                                choice.commitToNewBranch, choice.baseBranchName, svc.commitMessage);
        var sends := GrpcSends(files, base, parent, svc);
        GrpcSendsShape(files, base, parent, svc);
        GrpcPushed(listRequest, sends.sent, if sends.ok then None else Some(Unexpected(PushFailedMessage)))
  }

  /**
   * performPushGitServiceGrpc as written: the repository name is computed before the per-file
   * loop, so a URL ending in `/` makes the push throw before any file is sent.
   */
  function GrpcPushSpec(accountIdentifier: string, catalog: CatalogConnectorInfo, parent: string,
                        files: seq<string>, auth: Auth, svc: GitServices): (r: PushOutcome)
    ensures r.GrpcPushed?
    ensures r.listRequest == GitBaseRequest(catalog.repo, auth, catalog.connector.identifier, accountIdentifier)
    ensures |r.sent| <= |files|
    ensures r.error.None? ==> |r.sent| == |files|
    ensures r.error.Some? ==>
      r.error.value in {NullPointer, IndexOutOfBounds, Unexpected(PushFailedMessage)}
    ensures |catalog.repo| > 0 && catalog.repo[|catalog.repo| - 1] == '/' ==>
      r.sent == [] && r.error.Some? && r.error.value in {NullPointer, IndexOutOfBounds}
  {
    GrpcPushWith(RepoNameAsWritten(catalog.repo), accountIdentifier, catalog, parent, files, auth, svc)
  }

  /** The push with the intended repository name: a trailing `/` no longer stops it. */
  function GrpcPushCorrected(accountIdentifier: string, catalog: CatalogConnectorInfo, parent: string,
                             files: seq<string>, auth: Auth, svc: GitServices): (r: PushOutcome)
    ensures r.GrpcPushed?
    ensures r.listRequest == GitBaseRequest(catalog.repo, auth, catalog.connector.identifier, accountIdentifier)
    ensures r.error.None? ==> |r.sent| == |files|
    ensures |catalog.repo| > 0 && r.error.Some? ==> r.error.value in {NullPointer, Unexpected(PushFailedMessage)}
  {
    GrpcPushWith(RepoName(catalog.repo), accountIdentifier, catalog, parent, files, auth, svc)
  }

  /** Without a trailing slash the push as written and the corrected push do the same. */
  lemma GrpcPushAgreesWithoutTrailingSlash(accountIdentifier: string, catalog: CatalogConnectorInfo, parent: string,
                                           files: seq<string>, auth: Auth, svc: GitServices)
    requires |catalog.repo| > 0 && catalog.repo[|catalog.repo| - 1] != '/'
    ensures GrpcPushSpec(accountIdentifier, catalog, parent, files, auth, svc)
         == GrpcPushCorrected(accountIdentifier, catalog, parent, files, auth, svc)
  {
    RepoNameAgreesWithoutTrailingSlash(catalog.repo);
  }

  method PushGitServiceGrpc(accountIdentifier: string, catalog: CatalogConnectorInfo, parent: string,
                            files: seq<string>, auth: Auth, svc: GitServices) returns (r: PushOutcome)
    ensures r == GrpcPushSpec(accountIdentifier, catalog, parent, files, auth, svc)
  {
    var listRequest := GitBaseRequest(catalog.repo, auth, catalog.connector.identifier, accountIdentifier);
    var remotes := svc.listRemote(listRequest);
    var choice := ChooseBranch(remotes, catalog.branch);
    if choice.Err? {
      return GrpcPushed(listRequest, [], Some(choice.error));
    }
    var repoName := RepoNameAsWritten(catalog.repo);
    if repoName.Err? {
      return GrpcPushed(listRequest, [], Some(repoName.error));
    }
    var base := RequestBase(repoName.value, catalog.branch, svc.accountScopedPrefix + catalog.connector.identifier,
                            choice.value.commitToNewBranch, choice.value.baseBranchName, svc.commitMessage);
    var sends := SendFiles(files, base, parent, svc);
    if sends.ok {
      r := GrpcPushed(listRequest, sends.sent, None);
    } else {
      r := GrpcPushed(listRequest, sends.sent, Some(Unexpected(PushFailedMessage)));
    }
  }

  /** Every request of a gRPC push targets the same repository, branch and base branch, one file each, in order. */
  lemma GrpcRequestsInOrder(accountIdentifier: string, catalog: CatalogConnectorInfo, parent: string,
                            files: seq<string>, auth: Auth, svc: GitServices)
    requires var remotes := svc.listRemote(GitBaseRequest(catalog.repo, auth, catalog.connector.identifier,
                                                          accountIdentifier));
      ChooseBranch(remotes, catalog.branch).Ok? && RepoNameAsWritten(catalog.repo).Ok?
    ensures var r := GrpcPushSpec(accountIdentifier, catalog, parent, files, auth, svc);
      var choice := ChooseBranch(svc.listRemote(r.listRequest), catalog.branch).value;
      && (r.error.Some? ==> r.error.value == Unexpected(PushFailedMessage))
      && |r.sent| <= |files|
      && (forall i :: 0 <= i < |r.sent| ==>
            && r.sent[i].filePath == GrpcPath(files[i], parent)
            && svc.readFile(files[i]) == Some(r.sent[i].fileContent)
            && r.sent[i].repoName == RepoNameAsWritten(catalog.repo).value
            && r.sent[i].branchName == catalog.branch
            && r.sent[i].connectorRef == svc.accountScopedPrefix + catalog.connector.identifier
            && r.sent[i].isCommitToNewBranch == choice.commitToNewBranch
            && r.sent[i].baseBranchName == choice.baseBranchName)
  {
    var listRequest := GitBaseRequest(catalog.repo, auth, catalog.connector.identifier, accountIdentifier);
    var choice := ChooseBranch(svc.listRemote(listRequest), catalog.branch).value;
    var base := RequestBase(RepoNameAsWritten(catalog.repo).value, catalog.branch,
                            svc.accountScopedPrefix + catalog.connector.identifier,
                            choice.commitToNewBranch, choice.baseBranchName, svc.commitMessage);
    GrpcSendsShape(files, base, parent, svc);
    var sends := GrpcSends(files, base, parent, svc);
    assert GrpcPushSpec(accountIdentifier, catalog, parent, files, auth, svc).sent == sends.sent;
  }

  /** Files sent before a failure all went through: the push stops at the first failed file. */
  lemma {:induction false} GrpcStopsAtFirstFailure(files: seq<string>, base: RequestBase, parent: string,
                                                   svc: GitServices)
    ensures var r := GrpcSends(files, base, parent, svc);
      forall i :: 0 <= i < |r.sent| - 1 ==>
        svc.createFile(r.sent[i]).Some? && svc.createFile(r.sent[i]).value < 300
    ensures var r := GrpcSends(files, base, parent, svc);
      r.ok ==> forall i :: 0 <= i < |r.sent| ==> svc.createFile(r.sent[i]).Some? && svc.createFile(r.sent[i]).value < 300
    decreases |files|
  {
    if files != [] && svc.readFile(files[0]).Some? {
      GrpcStopsAtFirstFailure(files[1..], base, parent, svc);
    }
  }

  // ---------------------------------------------------------------- JGit push

  /** The ADD changes for the files, in order, or None when a file cannot be read. */
  function JGitChanges(files: seq<string>, parent: string, accountIdentifier: string, svc: GitServices):
    (r: Option<seq<GitFileChange>>)
    ensures r.Some? <==> forall i :: 0 <= i < |files| ==> svc.readFile(files[i]).Some?
    ensures r.Some? ==> |r.value| == |files| && forall i :: 0 <= i < |files| ==>
      r.value[i] == GitFileChange(JGitPath(files[i], parent), svc.readFile(files[i]).value, Add, accountIdentifier)
    decreases |files|
  {
    if files == [] then Some([])
    else
      var rest := JGitChanges(files[..|files| - 1], parent, accountIdentifier, svc);
      var last := files[|files| - 1];
      if rest.None? then None
      else match svc.readFile(last)
        case None => None
        case Some(content) => Some(rest.value + [GitFileChange(JGitPath(last, parent), content, Add, accountIdentifier)])
  }

  /**
   * What performPushJGit hands to the client: a commit of every file, as an ADD change of its
   * content, to the catalog's repository and branch at clone depth 1, authored by the user;
   * or, when some file cannot be read, the preparation error.
   */
  function JGitPushSpec(accountIdentifier: string, catalog: CatalogConnectorInfo, parent: string,
                        files: seq<string>, auth: Auth, svc: GitServices): (r: PushOutcome)
    ensures r.JGitPushed?
    ensures r.commit.Err? <==> exists i :: 0 <= i < |files| && svc.readFile(files[i]).None?
    ensures r.commit.Err? ==> r.commit.error == Unexpected(PrepareFailedMessage)
    ensures r.commit.Ok? ==>
      var c := r.commit.value;
      && c.repoUrl == catalog.repo && c.branch == catalog.branch
      && c.unsureOrNonExistentBranch && c.cloneDepth == 1
      && c.connectorId == catalog.connector.identifier && c.accountId == accountIdentifier
      && c.auth == auth && c.authorName == auth.username && c.authorEmail == svc.authorEmail
      && c.commitMessage == svc.commitMessage
      && |c.gitFileChanges| == |files|
      && forall i :: 0 <= i < |files| ==>
           && c.gitFileChanges[i].filePath == JGitPath(files[i], parent)
           && Some(c.gitFileChanges[i].fileContent) == svc.readFile(files[i])
           && c.gitFileChanges[i].changeType == Add
           && c.gitFileChanges[i].accountId == accountIdentifier
  {
    match JGitChanges(files, parent, accountIdentifier, svc)
    case None => JGitPushed(Err(Unexpected(PrepareFailedMessage)))
    case Some(changes) =>
      JGitPushed(Ok(CommitAndPushRequest(
        catalog.repo, catalog.branch, true, 1, catalog.connector.identifier, accountIdentifier, auth,
        changes, auth.username, svc.authorEmail, svc.commitMessage)))
  }

  /** performPushJGit: the commit request handed to the client, or the preparation error. */
  method PushJGit(accountIdentifier: string, catalog: CatalogConnectorInfo, parent: string,
                  files: seq<string>, auth: Auth, svc: GitServices) returns (r: PushOutcome)
    ensures r.JGitPushed?
    ensures r.commit.Err? <==> JGitChanges(files, parent, accountIdentifier, svc).None?
    ensures r.commit.Err? ==> r.commit.error == Unexpected(PrepareFailedMessage)
    ensures r.commit.Ok? ==> r.commit.value == CommitAndPushRequest(
      catalog.repo, catalog.branch, true, 1, catalog.connector.identifier, accountIdentifier, auth,
      JGitChanges(files, parent, accountIdentifier, svc).value, auth.username, svc.authorEmail, svc.commitMessage)
    ensures r == JGitPushSpec(accountIdentifier, catalog, parent, files, auth, svc)
  {
    var changes: seq<GitFileChange> := [];
    var n := 0;
    while n < |files|
      invariant 0 <= n <= |files|
      invariant JGitChanges(files[..n], parent, accountIdentifier, svc) == Some(changes)
    {
      assert files[..n + 1][..n] == files[..n];
      assert files[..n + 1][n] == files[n];
      var content := svc.readFile(files[n]);
      if content.None? {
        assert !(forall i :: 0 <= i < |files| ==> svc.readFile(files[i]).Some?);
        return JGitPushed(Err(Unexpected(PrepareFailedMessage)));
      }
      changes := changes + [GitFileChange(JGitPath(files[n], parent), content.value, Add, accountIdentifier)];
      n := n + 1;
    }
    assert files[..n] == files;
    r := JGitPushed(Ok(CommitAndPushRequest(
      catalog.repo, catalog.branch, true, 1, catalog.connector.identifier, accountIdentifier, auth,
      changes, auth.username, svc.authorEmail, svc.commitMessage)));
  }

  // ---------------------------------------------------------------- dispatch

  /** performPushOperationInternal: the gRPC push when asked for, else the JGit push, with the same credentials. */
  method PushOperationInternal(accountIdentifier: string, catalog: CatalogConnectorInfo, parent: string,
                               files: seq<string>, username: string, password: string, throughGrpc: bool,
                               svc: GitServices) returns (r: PushOutcome)
    ensures r.GrpcPushed? <==> throughGrpc
    ensures r.GrpcPushed? ==>
      r == GrpcPushSpec(accountIdentifier, catalog, parent, files, Auth(username, password), svc)
    ensures r.JGitPushed? && r.commit.Ok? ==> r.commit.value.auth == Auth(username, password)
    ensures r.JGitPushed? ==>
      (r.commit.Ok? <==> JGitChanges(files, parent, accountIdentifier, svc).Some?)
    ensures !throughGrpc ==>
      r == JGitPushSpec(accountIdentifier, catalog, parent, files, Auth(username, password), svc)
  {
    if throughGrpc {
      r := PushGitServiceGrpc(accountIdentifier, catalog, parent, files, Auth(username, password), svc);
    } else {
      r := PushJGit(accountIdentifier, catalog, parent, files, Auth(username, password), svc);
    }
  }
}
