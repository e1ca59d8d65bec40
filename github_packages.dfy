/**
 * GithubPackagesRegistryServiceImpl: lists the versions of a GitHub package page by page, turns
 * the tagged ones into build details, and filters them by tag or by a glob-like version pattern.
 * The REST calls are parameters (the pages the server answers and the manifest lookups), and so
 * are java.util.regex matching and GARUtils.isSHA. A HashMap of metadata is an entry sequence
 * (module LinkedMap) whose order stands for the map's iteration order.
 */
module GithubPackages {
  import opened Wrappers
  import opened Text
  import opened LinkedMap

  const DefaultGithubListResponseSize: nat := 100
  const IncorrectPackageType: string := "Incorrect Package Type"

  /** The package types GitHub Packages serves. */
  const PackageTypes: set<string> := {"container", "nuget", "maven", "npm", "rubygems"}

  /** isPackageType: one of the served types, compared case-sensitively. */
  predicate IsPackageType(packageType: string): (r: bool)
    ensures r <==> packageType in PackageTypes
  {
    packageType == "container" || packageType == "nuget" || packageType == "maven"
    || packageType == "npm" || packageType == "rubygems"
  }

  /** A retrofit Response as isSuccessful reads it. */
  datatype HttpResponse = HttpResponse(successful: bool, code: int, message: string)

  /**
   * isSuccessful: true for a successful response, false for 400 and 404; a missing response,
   * 401 and every other code throw.
   */
  function IsSuccessful(response: Option<HttpResponse>): (r: Result<bool>)
    ensures r == Ok(true) <==> response.Some? && response.value.successful
    ensures r == Ok(false) <==> response.Some? && !response.value.successful && response.value.code in {400, 404}
    ensures response.None? ==> r == Err(InvalidArtifactServer("Null response found"))
    ensures response.Some? && !response.value.successful && response.value.code == 401 ==> r == Err(UnauthorizedFailure())
  {
    if response.None? then Err(InvalidArtifactServer("Null response found"))
    else if response.value.successful then Ok(true)
    else
      var code := response.value.code;
      if code == 404 || code == 400 then Ok(false)
      else if code == 401 then Err(UnauthorizedFailure())
      else Err(InvalidArtifactServer(
        if !IsBlank(response.value.message) then response.value.message
        else "Server responded with the following error code - " + IntToString(code)))
  }

  function UnauthorizedFailure(): Failure
  {
    Hinted("Update the credentials", "Check if the provided credentials are correct",
           InvalidArtifactServer("Invalid Github Packages Registry credentials"))
  }

  /** Any other unsuccessful code is an artifact-server failure carrying the message, or the code when the message is blank. */
  lemma OtherCodesThrow(response: HttpResponse)
    requires !response.successful && response.code !in {400, 401, 404}
    ensures IsSuccessful(Some(response)).Err?
    ensures IsSuccessful(Some(response)).error.InvalidArtifactServer?
    ensures !IsBlank(response.message) ==> IsSuccessful(Some(response)).error.message == response.message
  {
  }

  // ---- versions and build details ----

  datatype Version = Version(versionName: string, versionHtmlUrl: string, tags: seq<string>)

  datatype BuildStatus = BuildSuccess

  datatype BuildDetails = BuildDetails(
    number: string,
    buildDisplayName: string,
    uiDisplayName: string,
    buildUrl: string,
    status: Option<BuildStatus>,
    buildFullDisplayName: string,
    metadata: seq<(string, string)>,
    artifactPath: string)

  /** A page of versions as the REST call answers it: the response and its (possibly null) body. */
  datatype Page = Page(response: Option<HttpResponse>, body: Option<seq<Version>>)

  /** The server's answer for page `i` (counted from 1); past the last page it answers an empty page. */
  function PageAt(pages: seq<Page>, i: nat): Page
  {
    if 1 <= i <= |pages| then pages[i - 1] else Page(Some(HttpResponse(true, 200, "")), Some([]))
  }

  function BodyOf(p: Page): seq<Version>
  {
    if p.body.Some? then p.body.value else []
  }

  /** The explanation of the failure for an unsuccessful page: by user or by organisation. */
  function PageExplanation(org: string): string
  {
    if org == [] then "Check if the package exists and if the permissions are scoped for the authenticated user"
    else "Check if the package exists and if the permissions are correct for the org"
  }

  /** The versions the page loop collects from page `i` on. */
  function CollectPages(pages: seq<Page>, i: nat, org: string): Result<seq<Version>>
    requires i >= 1
    decreases |pages| + 1 - i
  {
    var page := PageAt(pages, i);
    match IsSuccessful(page.response)
    case Err(e) => Err(e)
    case Ok(ok) =>
      if !ok then
        Err(Hinted("Unable to fetch the versions for the package", PageExplanation(org),
                   InvalidArtifactServer(page.response.value.message)))
      else if BodyOf(page) == [] then Ok([])
      else if |BodyOf(page)| < DefaultGithubListResponseSize then Ok(BodyOf(page))
      else
        match CollectPages(pages, i + 1, org)
        case Err(e) => Err(e)
        case Ok(rest) => Ok(BodyOf(page) + rest)
  }

  /** A result with `prefix` put in front of its versions. */
  function Prepend(prefix: seq<Version>, r: Result<seq<Version>>): Result<seq<Version>>
  {
    if r.Err? then r else Ok(prefix + r.value)
  }

  /** The page loop of getBuildDetails: pages of 100 are fetched until one is empty or short. */
  method FetchVersions(pages: seq<Page>, org: string) returns (r: Result<seq<Version>>)
    ensures r == CollectPages(pages, 1, org)
  {
    var response: seq<Version> := [];
    var i := 1;
    assert CollectPages(pages, 1, org).Ok? ==> [] + CollectPages(pages, 1, org).value == CollectPages(pages, 1, org).value;
    while true
      invariant i >= 1
      invariant CollectPages(pages, 1, org) == Prepend(response, CollectPages(pages, i, org))
      decreases |pages| + 1 - i
    {
      var pageResponse := PageAt(pages, i);
      var successful := IsSuccessful(pageResponse.response);
      if successful.Err? {
        return Err(successful.error);
      }
      if !successful.value {
        return Err(Hinted("Unable to fetch the versions for the package", PageExplanation(org),
                          InvalidArtifactServer(pageResponse.response.value.message)));
      }
      var body := BodyOf(pageResponse);
      if body == [] {
        assert response + [] == response;
        return Ok(response);
      }
      var rest := CollectPages(pages, i + 1, org);
      if |body| < DefaultGithubListResponseSize {
        return Ok(response + body);
      }
      assert rest.Ok? ==> response + (body + rest.value) == (response + body) + rest.value;
      response := response + body;
      i := i + 1;
    }
  }

  /** Pages `i` to `k`, each exactly as the server answered it, one after the other. */
  function Concat(pages: seq<Page>, i: nat, k: nat): seq<Version>
    decreases k - i
  {
    if k < i || k == 0 then [] else Concat(pages, i, k - 1) + BodyOf(PageAt(pages, k))
  }

  lemma ConcatFront(pages: seq<Page>, i: nat, k: nat)
    requires 1 <= i <= k
    ensures Concat(pages, i, k) == BodyOf(PageAt(pages, i)) + Concat(pages, i + 1, k)
    decreases k - i
  {
    if i < k {
      ConcatFront(pages, i, k - 1);
    }
  }

  /** `versions` are pages `i` to `k` in order, page `k` is empty or short and every page before it is full. */
  predicate StopsAt(pages: seq<Page>, i: nat, k: nat, versions: seq<Version>)
  {
    i <= k && versions == Concat(pages, i, k)
    && |BodyOf(PageAt(pages, k))| < DefaultGithubListResponseSize
    && forall j :: i <= j < k ==> |BodyOf(PageAt(pages, j))| >= DefaultGithubListResponseSize
  }

  /**
   * The collected versions are the pages in order up to the first empty or short one, and every
   * page before it is full.
   */
  lemma {:induction false} CollectedPagesInOrder(pages: seq<Page>, i: nat, org: string, versions: seq<Version>)
    requires i >= 1 && CollectPages(pages, i, org) == Ok(versions)
    ensures StopsAt(pages, i, StopIndex(pages, i), versions)
    decreases |pages| + 1 - i
  {
    if |BodyOf(PageAt(pages, i))| < DefaultGithubListResponseSize {
      CollectShortPage(pages, i, org);
    } else {
      assert i <= |pages|;
      CollectFullPage(pages, i, org);
      var rest := CollectPages(pages, i + 1, org).value;
      CollectedPagesInOrder(pages, i + 1, org, rest);
      StopsAtFront(pages, i, StopIndex(pages, i + 1), rest);
    }
  }

  /** The first page from `i` on that is empty or short; every page past the list is empty. */
  function StopIndex(pages: seq<Page>, i: nat): (k: nat)
    requires i >= 1
    ensures i <= k
    decreases |pages| + 1 - i
  {
    if |BodyOf(PageAt(pages, i))| < DefaultGithubListResponseSize then i
    else StopIndex(pages, i + 1)
  }

  /** An empty or short page is the last one collected. */
  lemma CollectShortPage(pages: seq<Page>, i: nat, org: string)
    requires i >= 1 && CollectPages(pages, i, org).Ok?
    requires |BodyOf(PageAt(pages, i))| < DefaultGithubListResponseSize
    ensures StopsAt(pages, i, i, CollectPages(pages, i, org).value)
  {
    assert CollectPages(pages, i, org).value == BodyOf(PageAt(pages, i));
    assert Concat(pages, i, i - 1) == [];
  }

  /** A full page is followed by the pages after it. */
  lemma CollectFullPage(pages: seq<Page>, i: nat, org: string)
    requires i >= 1 && CollectPages(pages, i, org).Ok?
    requires |BodyOf(PageAt(pages, i))| >= DefaultGithubListResponseSize
    ensures CollectPages(pages, i + 1, org).Ok?
    ensures CollectPages(pages, i, org).value == BodyOf(PageAt(pages, i)) + CollectPages(pages, i + 1, org).value
  {
  }

  lemma StopsAtFront(pages: seq<Page>, i: nat, k: nat, versions: seq<Version>)
    requires i >= 1 && StopsAt(pages, i + 1, k, versions)
    requires |BodyOf(PageAt(pages, i))| >= DefaultGithubListResponseSize
    ensures StopsAt(pages, i, k, BodyOf(PageAt(pages, i)) + versions)
  {
    ConcatFront(pages, i, k);
  }

  /** The org when given, the user name otherwise. */
  function Owner(org: string, username: string): string
  {
    if org == [] then username else org
  }

  /** The metadata of a version: each tag mapped to the package name. */
  function TagMetadata(tags: seq<string>, packageName: string): seq<(string, string)>
  {
    if tags == [] then [] else Put(TagMetadata(tags[..|tags| - 1], packageName), tags[|tags| - 1], packageName)
  }

  lemma {:induction false} TagMetadataSpec(tags: seq<string>, packageName: string)
    ensures DistinctKeys(TagMetadata(tags, packageName))
    ensures KeySet(TagMetadata(tags, packageName)) == set t | t in tags
    ensures forall e :: e in TagMetadata(tags, packageName) ==> e.1 == packageName
  {
    if tags != [] {
      var prefix := tags[..|tags| - 1];
      TagMetadataSpec(prefix, packageName);
      PutKeepsDistinct(TagMetadata(prefix, packageName), tags[|tags| - 1], packageName);
      assert tags == prefix + [tags[|tags| - 1]];
      assert (set t | t in tags) == (set t | t in prefix) + {tags[|tags| - 1]};
    }
  }

  /** The build of a version that has tags, named after its first tag. */
  function BuildOf(v: Version, packageName: string, username: string, org: string): BuildDetails
    requires |v.tags| > 0
  {
    var tag := v.tags[0];
    BuildDetails(tag, packageName + ": " + tag, "Tag# " + tag, v.versionHtmlUrl, Some(BuildSuccess), v.versionName,
                 TagMetadata(v.tags, packageName),
                 "ghcr.io" + "/" + Owner(org, username) + "/" + packageName + ":" + tag)
  }

  /** The builds processBuildDetails makes: one per version with tags, in order. */
  function Builds(versions: seq<Version>, packageName: string, username: string, org: string): seq<BuildDetails>
  {
    if versions == [] then []
    else
      var prefix := Builds(versions[..|versions| - 1], packageName, username, org);
      var v := versions[|versions| - 1];
      if |v.tags| > 0 then prefix + [BuildOf(v, packageName, username, org)] else prefix
  }

  /** processBuildDetails. */
  method ProcessBuildDetails(versions: seq<Version>, packageName: string, username: string, org: string)
    returns (buildDetails: seq<BuildDetails>)
    ensures buildDetails == Builds(versions, packageName, username, org)
  {
    buildDetails := [];
    var n := 0;
    while n < |versions|
      invariant 0 <= n <= |versions|
      invariant buildDetails == Builds(versions[..n], packageName, username, org)
    {
      assert versions[..n + 1][..n] == versions[..n];
      var v := versions[n];
      var tags := v.tags;
      var metadata: seq<(string, string)> := [];
      var j := 0;
      while j < |tags|
        invariant 0 <= j <= |tags|
        invariant metadata == TagMetadata(tags[..j], packageName)
      {
        assert tags[..j + 1][..j] == tags[..j];
        metadata := Put(metadata, tags[j], packageName);
        j := j + 1;
      }
      assert tags[..|tags|] == tags;
      if |tags| > 0 {
        var tag := tags[0];
        var artifactPath := "ghcr.io";
        if org == [] {
          artifactPath := artifactPath + "/" + username + "/" + packageName + ":" + tag;
        } else {
          artifactPath := artifactPath + "/" + org + "/" + packageName + ":" + tag;
        }
        buildDetails := buildDetails + [BuildDetails(tag, packageName + ": " + tag, "Tag# " + tag, v.versionHtmlUrl,
                                                     Some(BuildSuccess), v.versionName, metadata, artifactPath)];
      }
      n := n + 1;
    }
    assert versions[..|versions|] == versions;
  }

  /**
   * Versions without tags are dropped; every build is numbered by the first tag of a version,
   * maps each of its tags to the package name, and points at ghcr.io/<owner>/<package>:<tag>.
   */
  lemma {:induction false} BuildsSpec(versions: seq<Version>, packageName: string, username: string, org: string)
    ensures forall b :: b in Builds(versions, packageName, username, org) <==>
      exists v :: v in versions && |v.tags| > 0 && b == BuildOf(v, packageName, username, org)
  {
    if versions != [] {
      var prefix := versions[..|versions| - 1];
      BuildsSpec(prefix, packageName, username, org);
      assert versions == prefix + [versions[|versions| - 1]];
      assert forall v :: v in versions <==> v in prefix || v == versions[|versions| - 1];
    }
  }

  lemma BuildOfSpec(v: Version, packageName: string, username: string, org: string)
    requires |v.tags| > 0
    ensures var b := BuildOf(v, packageName, username, org);
      b.number == v.tags[0] && b.status == Some(BuildSuccess)
      && DistinctKeys(b.metadata)
      && KeySet(b.metadata) == (set t | t in v.tags)
      && (forall e :: e in b.metadata ==> e.1 == packageName)
      && b.artifactPath == "ghcr.io/" + FullPackageName(username, packageName, org) + ":" + v.tags[0]
  {
    TagMetadataSpec(v.tags, packageName);
  }

  // ---- paths ----

  /** getFullPackageName: <owner>/<package>. */
  function FullPackageName(userName: string, packageName: string, org: string): string
  {
    Owner(org, userName) + "/" + packageName
  }

  /** getArtifactPath: a SHA is referenced with `@`, a tag with `:`. */
  function ArtifactPath(org: string, packageName: string, tag: string, username: string, isSha: string -> bool): (r: string)
    ensures r == "ghcr.io/" + FullPackageName(username, packageName, org) + (if isSha(tag) then "@" else ":") + tag
  {
    var owner := if org == [] then username else org;
    if isSha(tag) then "ghcr.io/" + owner + "/" + packageName + "@" + tag
    else "ghcr.io/" + owner + "/" + packageName + ":" + tag
  }

  /** For a tag that is not a SHA, a listed build points where getArtifactPath would. */
  lemma ListedPathIsArtifactPath(v: Version, packageName: string, username: string, org: string, isSha: string -> bool)
    requires |v.tags| > 0 && !isSha(v.tags[0])
    ensures BuildOf(v, packageName, username, org).artifactPath == ArtifactPath(org, packageName, v.tags[0], username, isSha)
  {
    BuildOfSpec(v, packageName, username, org);
  }

  // ---- version pattern ----

  /** The regular expression made from a version pattern: `.` escaped, then `?` and `*` made lazy wildcards. */
  function GlobToRegex(versionRegex: string): string
  {
    ReplaceAll(ReplaceAll(ReplaceAll(versionRegex, ".", "\\."), "?", ".?"), "*", ".*?")
  }

  /** The replacements happen in order: the dots inserted for `?` and `*` are not escaped. */
  lemma GlobExample()
    ensures GlobToRegex("1.*") == "1\\..*?"
  {
    var s0, s1 := "1.*", "1\\.*";
    ReplaceCharCons(s0, '.', "\\.");
    ReplaceCharCons(s0[1..], '.', "\\.");
    ReplaceCharCons(s0[2..], '.', "\\.");
    assert ReplaceAll(s0, ".", "\\.") == s1;
    NoCharNoOccurrence(s1, '?');
    ReplaceAbsent(s1, "?", ".?");
    ReplaceCharCons(s1, '*', ".*?");
    ReplaceCharCons(s1[1..], '*', ".*?");
    ReplaceCharCons(s1[2..], '*', ".*?");
    ReplaceCharCons(s1[3..], '*', ".*?");
  }

  /** A version pattern without `.`, `?` or `*` is matched literally. */
  lemma {:induction false} PlainGlob(versionRegex: string)
    requires '.' !in versionRegex && '?' !in versionRegex && '*' !in versionRegex
    ensures GlobToRegex(versionRegex) == versionRegex
  {
    NoCharNoOccurrence(versionRegex, '.');
    ReplaceAbsent(versionRegex, ".", "\\.");
    NoCharNoOccurrence(versionRegex, '?');
    ReplaceAbsent(versionRegex, "?", ".?");
    NoCharNoOccurrence(versionRegex, '*');
    ReplaceAbsent(versionRegex, "*", ".*?");
  }

  lemma NoCharNoOccurrence(s: string, c: char)
    requires c !in s
    ensures !Contains(s, [c])
  {
    forall i | 0 <= i
      ensures !OccursAt(s, [c], i)
    {
      if i <= |s| - 1 { assert s[i..i + 1] == [s[i]]; }
    }
  }

  // ---- getBuilds ----

  const CouldNotFetchVersion: string := "Could not fetch the version for the package"
  const ErrorMessage: string :=
    "Check if the package and the version exists and if the permissions are scoped for the authenticated user"

  /** hintWithExplanationException around an ArtifactServerException that carries the failure caught. */
  function Wrapped(hint: string, explanation: string, caught: Failure): Failure
  {
    Hinted(hint, explanation, ArtifactServer(caught))
  }

  /** What getBuildDetails yields: the paged versions turned into builds, or the failure of a page. */
  function FetchedBuilds(pages: seq<Page>, packageName: string, username: string, org: string): Result<seq<BuildDetails>>
  {
    match CollectPages(pages, 1, org)
    case Err(e) => Err(e)
    case Ok(versions) => Ok(Builds(versions, packageName, username, org))
  }

  /** getBuildDetails. */
  method GetBuildDetails(pages: seq<Page>, packageName: string, username: string, org: string)
    returns (r: Result<seq<BuildDetails>>)
    ensures r == FetchedBuilds(pages, packageName, username, org)
  {
    var versions := FetchVersions(pages, org);
    if versions.Err? {
      return Err(versions.error);
    }
    var builds := ProcessBuildDetails(versions.value, packageName, username, org);
    r := Ok(builds);
  }

  /** A tag or number the version pattern selects: not a folder, and the pattern is found in it. */
  predicate Selected(s: string, regex: string, find: (string, string) -> bool)
  {
    !EndsWith(s, "/") && find(regex, s)
  }

  /** The stream filter of getBuilds on build numbers. */
  function KeepSelected(builds: seq<BuildDetails>, regex: string, find: (string, string) -> bool): (r: seq<BuildDetails>)
    ensures forall b :: b in r <==> b in builds && Selected(b.number, regex, find)
  {
    if builds == [] then []
    else
      var prefix := builds[..|builds| - 1];
      var b := builds[|builds| - 1];
      assert builds == prefix + [b];
      if Selected(b.number, regex, find) then KeepSelected(prefix, regex, find) + [b] else KeepSelected(prefix, regex, find)
  }

  /**
   * getBuilds: rejects an unknown package type before fetching, wraps a failed fetch, and keeps
   * the builds whose number the version pattern selects, in order.
   */
  method GetBuilds(pages: seq<Page>, packageName: string, packageType: string, username: string, org: string,
                   versionRegex: string, find: (string, string) -> bool) returns (r: Result<seq<BuildDetails>>)
    ensures !IsPackageType(packageType) ==> r == Err(InvalidRequest(IncorrectPackageType))
    ensures IsPackageType(packageType) && FetchedBuilds(pages, packageName, username, org).Err? ==>
      r == Err(Wrapped("Could not fetch versions for the package",
                       "Check if the package exists and if the permissions are scoped for the authenticated user",
                       FetchedBuilds(pages, packageName, username, org).error))
    ensures IsPackageType(packageType) && FetchedBuilds(pages, packageName, username, org).Ok? ==>
      r == Ok(KeepSelected(FetchedBuilds(pages, packageName, username, org).value, GlobToRegex(versionRegex), find))
  {
    if !IsPackageType(packageType) {
      return Err(InvalidRequest(IncorrectPackageType));
    }
    var buildDetails := GetBuildDetails(pages, packageName, username, org);
    if buildDetails.Err? {
      return Err(Wrapped("Could not fetch versions for the package",
                         "Check if the package exists and if the permissions are scoped for the authenticated user",
                         buildDetails.error));
    }
    var pattern := GlobToRegex(versionRegex);
    r := Ok(KeepSelected(buildDetails.value, pattern, find));
  }

  // ---- versionFiltering ----

  function Relabelled(b: BuildDetails, version: string, packageName: string): BuildDetails
  {
    b.(buildDisplayName := packageName + ": " + version, uiDisplayName := "Tag# " + version, number := version)
  }

  function VersionNotFound(version: string, packageName: string): Failure
  {
    InvalidRequest("Could not find version " + version + " in the package " + packageName)
  }

  /** What versionFiltering returns: the first build having the version, renamed after it. */
  function VersionFilter(version: string, builds: seq<BuildDetails>, packageName: string): Result<BuildDetails>
  {
    if builds == [] then Err(VersionNotFound(version, packageName))
    else if version in KeySet(builds[0].metadata) then Ok(Relabelled(builds[0], version, packageName))
    else VersionFilter(version, builds[1..], packageName)
  }

  /** versionFiltering. */
  method VersionFiltering(version: string, builds: seq<BuildDetails>, packageName: string) returns (r: Result<BuildDetails>)
    ensures r == VersionFilter(version, builds, packageName)
  {
    var i := 0;
    while i < |builds|
      invariant 0 <= i <= |builds|
      invariant VersionFilter(version, builds, packageName) == VersionFilter(version, builds[i..], packageName)
    {
      assert builds[i..][1..] == builds[i + 1..];
      var build := builds[i];
      if Get(build.metadata, version).Some? {
        return Ok(Relabelled(build, version, packageName));
      }
      i := i + 1;
    }
    r := Err(VersionNotFound(version, packageName));
  }

  /**
   * The build found is the first, in order, whose metadata has the version, renamed after it; it
   * fails exactly when no build has the version.
   */
  lemma {:induction false} VersionFilterSpec(version: string, builds: seq<BuildDetails>, packageName: string)
    ensures VersionFilter(version, builds, packageName).Ok? <==>
      exists i :: 0 <= i < |builds| && version in KeySet(builds[i].metadata)
    ensures VersionFilter(version, builds, packageName).Ok? ==>
      exists i :: 0 <= i < |builds| && version in KeySet(builds[i].metadata)
        && (forall j :: 0 <= j < i ==> version !in KeySet(builds[j].metadata))
        && VersionFilter(version, builds, packageName).value == Relabelled(builds[i], version, packageName)
    ensures VersionFilter(version, builds, packageName).Err? ==>
      VersionFilter(version, builds, packageName).error == VersionNotFound(version, packageName)
  {
    if builds != [] && version !in KeySet(builds[0].metadata) {
      var rest := builds[1..];
      VersionFilterSpec(version, rest, packageName);
      if VersionFilter(version, rest, packageName).Ok? {
        var i :| 0 <= i < |rest| && version in KeySet(rest[i].metadata)
          && (forall j :: 0 <= j < i ==> version !in KeySet(rest[j].metadata))
          && VersionFilter(version, rest, packageName).value == Relabelled(rest[i], version, packageName);
        assert builds[i + 1] == rest[i];
        assert forall j :: 1 <= j < i + 1 ==> builds[j] == rest[j - 1];
      } else {
        forall i | 0 <= i < |builds|
          ensures version !in KeySet(builds[i].metadata)
        {
          if i > 0 { assert builds[i] == rest[i - 1]; }
        }
      }
    }
  }

  // ---- regexFilteringForGetBuilds ----

  /** The metadata keys, in order, that the version pattern selects. */
  function MatchingKeys(metadata: seq<(string, string)>, regex: string, find: (string, string) -> bool): (r: seq<string>)
    ensures forall k :: k in r <==> k in KeySet(metadata) && Selected(k, regex, find)
  {
    if metadata == [] then []
    else
      var prefix := metadata[..|metadata| - 1];
      var e := metadata[|metadata| - 1];
      assert metadata == prefix + [e];
      KeySetSnoc(prefix, e);
      if Selected(e.0, regex, find) then MatchingKeys(prefix, regex, find) + [e.0] else MatchingKeys(prefix, regex, find)
  }

  /** Map.get on a HashMap<String, String> whose keys are known, with the empty string otherwise. */
  function GetValue(metadata: seq<(string, string)>, k: string): string
  {
    var v := Get(metadata, k);
    if v.Some? then v.value else ""
  }

  /** The `finalMap`: each key put with the value the metadata holds for it. */
  function Restrict(keys: seq<string>, metadata: seq<(string, string)>): seq<(string, string)>
  {
    if keys == [] then []
    else Put(Restrict(keys[..|keys| - 1], metadata), keys[|keys| - 1], GetValue(metadata, keys[|keys| - 1]))
  }

  /** A build with some selected key, renamed after the first and restricted to those keys. */
  function Narrowed(b: BuildDetails, keys: seq<string>, packageName: string): BuildDetails
    requires |keys| > 0
  {
    b.(number := keys[0], buildDisplayName := packageName + ": " + keys[0], uiDisplayName := "Tag# " + keys[0],
       metadata := Restrict(keys, b.metadata))
  }

  /** One build through the filter: narrowed when it has a selected tag, dropped otherwise. */
  function NarrowOne(b: BuildDetails, regex: string, find: (string, string) -> bool, packageName: string)
    : seq<BuildDetails>
  {
    var keys := MatchingKeys(b.metadata, regex, find);
    if |keys| > 0 then [Narrowed(b, keys, packageName)] else []
  }

  /** What regexFilteringForGetBuilds returns: the builds with a selected tag, narrowed to their selected tags. */
  function RegexFiltered(builds: seq<BuildDetails>, regex: string, find: (string, string) -> bool, packageName: string)
    : seq<BuildDetails>
  {
    if builds == [] then []
    else (RegexFiltered(builds[..|builds| - 1], regex, find, packageName)
          + NarrowOne(builds[|builds| - 1], regex, find, packageName))
  }

  lemma {:induction false} RegexFilteredAppend(a: seq<BuildDetails>, b: seq<BuildDetails>, regex: string,
                                               find: (string, string) -> bool, packageName: string)
    ensures RegexFiltered(a + b, regex, find, packageName)
      == RegexFiltered(a, regex, find, packageName) + RegexFiltered(b, regex, find, packageName)
    decreases |b|
  {
    if b != [] {
      assert (a + b)[..|a + b| - 1] == a + b[..|b| - 1];
      assert (a + b)[|a + b| - 1] == b[|b| - 1];
      RegexFilteredAppend(a, b[..|b| - 1], regex, find, packageName);
      var last := NarrowOne(b[|b| - 1], regex, find, packageName);
      calc {
        RegexFiltered(a + b, regex, find, packageName);
        RegexFiltered(a + b[..|b| - 1], regex, find, packageName) + last;
        RegexFiltered(a, regex, find, packageName) + RegexFiltered(b[..|b| - 1], regex, find, packageName) + last;
        RegexFiltered(a, regex, find, packageName) + (RegexFiltered(b[..|b| - 1], regex, find, packageName) + last);
      }
    } else {
      assert a + b == a;
    }
  }

  lemma {:induction false} MatchingKeysDistinct(metadata: seq<(string, string)>, regex: string,
                                                find: (string, string) -> bool)
    requires DistinctKeys(metadata)
    ensures forall i, j :: 0 <= i < j < |MatchingKeys(metadata, regex, find)| ==>
      MatchingKeys(metadata, regex, find)[i] != MatchingKeys(metadata, regex, find)[j]
  {
    if metadata != [] {
      var prefix := metadata[..|metadata| - 1];
      MatchingKeysDistinct(prefix, regex, find);
      PrefixLacksKey(metadata, |metadata| - 1);
    }
  }

  /** Restricting to distinct keys lists exactly those keys, in order, each with the metadata's value. */
  lemma {:induction false} RestrictSpec(keys: seq<string>, metadata: seq<(string, string)>)
    requires forall i, j :: 0 <= i < j < |keys| ==> keys[i] != keys[j]
    ensures |Restrict(keys, metadata)| == |keys|
    ensures forall i :: 0 <= i < |keys| ==> Restrict(keys, metadata)[i] == (keys[i], GetValue(metadata, keys[i]))
    ensures KeySet(Restrict(keys, metadata)) == set k | k in keys
  {
    if keys != [] {
      var prefix := keys[..|keys| - 1];
      RestrictSpec(prefix, metadata);
      assert keys == prefix + [keys[|keys| - 1]];
      assert (set k | k in keys) == (set k | k in prefix) + {keys[|keys| - 1]};
    }
  }

  lemma {:induction false} MatchingKeysOfRestricted(keys: seq<string>, metadata: seq<(string, string)>, regex: string,
                                                    find: (string, string) -> bool)
    requires forall i, j :: 0 <= i < j < |keys| ==> keys[i] != keys[j]
    requires forall k :: k in keys ==> Selected(k, regex, find)
    ensures MatchingKeys(Restrict(keys, metadata), regex, find) == keys
  {
    RestrictSpec(keys, metadata);
    if keys != [] {
      var prefix := keys[..|keys| - 1];
      MatchingKeysOfRestricted(prefix, metadata, regex, find);
      RestrictSpec(prefix, metadata);
      var r := Restrict(keys, metadata);
      assert r[..|r| - 1] == Restrict(prefix, metadata);
    }
  }

  /**
   * A narrowed build has distinct keys, exactly the selected ones, and narrowing it again changes
   * nothing: the restart of the loop after a removal leaves the builds already narrowed as they are.
   */
  lemma NarrowedIsStable(b: BuildDetails, regex: string, find: (string, string) -> bool, packageName: string)
    requires DistinctKeys(b.metadata)
    requires |MatchingKeys(b.metadata, regex, find)| > 0
    ensures var keys := MatchingKeys(b.metadata, regex, find);
      var n := Narrowed(b, keys, packageName);
      DistinctKeys(n.metadata) && MatchingKeys(n.metadata, regex, find) == keys
      && KeySet(n.metadata) == (set k | k in keys)
      && Narrowed(n, keys, packageName) == n
  {
    var keys := MatchingKeys(b.metadata, regex, find);
    MatchingKeysDistinct(b.metadata, regex, find);
    RestrictSpec(keys, b.metadata);
    MatchingKeysOfRestricted(keys, b.metadata, regex, find);
    RestrictTwice(keys, b.metadata);
  }

  /** Restricting to distinct keys twice is restricting once. */
  lemma RestrictTwice(keys: seq<string>, metadata: seq<(string, string)>)
    requires forall i, j :: 0 <= i < j < |keys| ==> keys[i] != keys[j]
    ensures DistinctKeys(Restrict(keys, metadata))
    ensures Restrict(keys, Restrict(keys, metadata)) == Restrict(keys, metadata)
  {
    RestrictSpec(keys, metadata);
    var md := Restrict(keys, metadata);
    assert DistinctKeys(md);
    RestrictSpec(keys, md);
    var again := Restrict(keys, md);
    forall i | 0 <= i < |keys|
      ensures again[i] == md[i]
    {
      PutAt(md, i, GetValue(metadata, keys[i]));
    }
    assert again == md;
  }

  predicate AllDistinctMetadata(builds: seq<BuildDetails>)
  {
    forall b :: b in builds ==> DistinctKeys(b.metadata)
  }

  /**
   * What a build kept by the filter is: named after one of its own tags, every tag it keeps
   * selected by the pattern and taken from the build it was made from.
   */
  predicate WellNarrowed(n: BuildDetails, source: BuildDetails, regex: string, find: (string, string) -> bool)
  {
    DistinctKeys(n.metadata)
    && n.number in KeySet(n.metadata) && Selected(n.number, regex, find)
    && (forall k :: k in KeySet(n.metadata) ==> Selected(k, regex, find))
    && KeySet(n.metadata) <= KeySet(source.metadata)
  }

  lemma NarrowOneSpec(b: BuildDetails, regex: string, find: (string, string) -> bool, packageName: string)
    requires DistinctKeys(b.metadata)
    ensures |NarrowOne(b, regex, find, packageName)| <= 1
    ensures NarrowOne(b, regex, find, packageName) != [] ==>
      WellNarrowed(NarrowOne(b, regex, find, packageName)[0], b, regex, find)
    ensures RegexFiltered(NarrowOne(b, regex, find, packageName), regex, find, packageName)
      == NarrowOne(b, regex, find, packageName)
  {
    var keys := MatchingKeys(b.metadata, regex, find);
    if |keys| > 0 {
      var n := Narrowed(b, keys, packageName);
      NarrowedIsStable(b, regex, find, packageName);
      assert keys[0] in keys;
      assert NarrowOne(n, regex, find, packageName) == [n];
      assert [n][..0] == [];
    }
  }

  /** Filtering builds already filtered changes nothing. */
  lemma {:induction false} RegexFilteredIdempotent(builds: seq<BuildDetails>, regex: string,
                                                   find: (string, string) -> bool, packageName: string)
    requires AllDistinctMetadata(builds)
    ensures AllDistinctMetadata(RegexFiltered(builds, regex, find, packageName))
    ensures RegexFiltered(RegexFiltered(builds, regex, find, packageName), regex, find, packageName)
      == RegexFiltered(builds, regex, find, packageName)
  {
    if builds != [] {
      var prefix := builds[..|builds| - 1];
      var b := builds[|builds| - 1];
      assert b in builds;
      assert forall x :: x in prefix ==> x in builds;
      RegexFilteredIdempotent(prefix, regex, find, packageName);
      NarrowOneSpec(b, regex, find, packageName);
      RegexFilteredAppend(RegexFiltered(prefix, regex, find, packageName), NarrowOne(b, regex, find, packageName),
                          regex, find, packageName);
    }
  }

  /** Every build kept is well narrowed from one of the builds given. */
  lemma {:induction false} RegexFilteredSpec(builds: seq<BuildDetails>, regex: string,
                                             find: (string, string) -> bool, packageName: string)
    requires AllDistinctMetadata(builds)
    ensures forall n :: n in RegexFiltered(builds, regex, find, packageName) ==>
      exists b :: b in builds && WellNarrowed(n, b, regex, find)
  {
    if builds != [] {
      var prefix := builds[..|builds| - 1];
      var b := builds[|builds| - 1];
      assert b in builds;
      assert forall x :: x in prefix ==> x in builds;
      RegexFilteredSpec(prefix, regex, find, packageName);
      NarrowOneSpec(b, regex, find, packageName);
    }
  }

  /** The number of the first build kept is a tag of some build it came from. */
  lemma {:induction false} FirstFilteredIsTag(builds: seq<BuildDetails>, regex: string,
                                              find: (string, string) -> bool, packageName: string)
    requires RegexFiltered(builds, regex, find, packageName) != []
    ensures exists i :: (0 <= i < |builds|
      && RegexFiltered(builds, regex, find, packageName)[0].number in KeySet(builds[i].metadata))
  {
    var prefix := builds[..|builds| - 1];
    var b := builds[|builds| - 1];
    var keys := MatchingKeys(b.metadata, regex, find);
    if RegexFiltered(prefix, regex, find, packageName) != [] {
      FirstFilteredIsTag(prefix, regex, find, packageName);
      var i :| 0 <= i < |prefix| && RegexFiltered(prefix, regex, find, packageName)[0].number in KeySet(prefix[i].metadata);
      assert prefix[i] == builds[i];
    } else {
      assert keys[0] in keys;
      assert RegexFiltered(builds, regex, find, packageName)[0].number in KeySet(builds[|builds| - 1].metadata);
    }
  }

  /** Filtering a list whose first `i` builds are already filtered and whose build `i` is dropped. */
  lemma RestartAfterRemoval(builds: seq<BuildDetails>, i: int, regex: string, find: (string, string) -> bool,
                            packageName: string)
    requires AllDistinctMetadata(builds)
    requires 0 <= i < |builds| && NarrowOne(builds[i], regex, find, packageName) == []
    ensures AllDistinctMetadata(RegexFiltered(builds[..i], regex, find, packageName) + builds[i + 1..])
    ensures RegexFiltered(RegexFiltered(builds[..i], regex, find, packageName) + builds[i + 1..], regex, find, packageName)
      == RegexFiltered(builds, regex, find, packageName)
  {
    RestartDistinct(builds, i, regex, find, packageName);
    DistinctSlices(builds, i);
    assert builds == (builds[..i] + [builds[i]]) + builds[i + 1..];
    RestartEquation(builds[..i], builds[i], builds[i + 1..], regex, find, packageName);
  }

  lemma RestartDistinct(builds: seq<BuildDetails>, i: int, regex: string, find: (string, string) -> bool,
                        packageName: string)
    requires AllDistinctMetadata(builds) && 0 <= i < |builds|
    ensures AllDistinctMetadata(RegexFiltered(builds[..i], regex, find, packageName) + builds[i + 1..])
  {
    DistinctSlices(builds, i);
    RegexFilteredIdempotent(builds[..i], regex, find, packageName);
    DistinctConcat(RegexFiltered(builds[..i], regex, find, packageName), builds[i + 1..]);
  }

  lemma RestartEquation(front: seq<BuildDetails>, b: BuildDetails, rest: seq<BuildDetails>, regex: string,
                        find: (string, string) -> bool, packageName: string)
    requires AllDistinctMetadata(front) && NarrowOne(b, regex, find, packageName) == []
    ensures RegexFiltered(RegexFiltered(front, regex, find, packageName) + rest, regex, find, packageName)
      == RegexFiltered((front + [b]) + rest, regex, find, packageName)
  {
    var kept := RegexFiltered(front, regex, find, packageName);
    RegexFilteredIdempotent(front, regex, find, packageName);
    calc {
      RegexFiltered((front + [b]) + rest, regex, find, packageName);
      { RegexFilteredAppend(front + [b], rest, regex, find, packageName); }
      RegexFiltered(front + [b], regex, find, packageName) + RegexFiltered(rest, regex, find, packageName);
      { DroppedBuild(front, b, regex, find, packageName); }
      kept + RegexFiltered(rest, regex, find, packageName);
      RegexFiltered(kept, regex, find, packageName) + RegexFiltered(rest, regex, find, packageName);
      { RegexFilteredAppend(kept, rest, regex, find, packageName); }
      RegexFiltered(kept + rest, regex, find, packageName);
    }
  }

  lemma DistinctSlices(builds: seq<BuildDetails>, i: int)
    requires AllDistinctMetadata(builds) && 0 <= i < |builds|
    ensures AllDistinctMetadata(builds[..i]) && AllDistinctMetadata(builds[i + 1..])
  {
    assert forall x :: x in builds[..i] ==> x in builds;
    assert forall x :: x in builds[i + 1..] ==> x in builds;
  }

  lemma DistinctConcat(a: seq<BuildDetails>, b: seq<BuildDetails>)
    requires AllDistinctMetadata(a) && AllDistinctMetadata(b)
    ensures AllDistinctMetadata(a + b)
  {
    assert forall x :: x in a + b ==> x in a || x in b;
  }

  lemma DroppedBuild(front: seq<BuildDetails>, b: BuildDetails, regex: string, find: (string, string) -> bool,
                     packageName: string)
    requires NarrowOne(b, regex, find, packageName) == []
    ensures RegexFiltered(front + [b], regex, find, packageName) == RegexFiltered(front, regex, find, packageName)
  {
    assert (front + [b])[..|front|] == front;
  }

  /** The list regexFilteringForGetBuilds restarts on after removing build `i` is shorter and filters alike. */
  lemma RemovalStep(builds: seq<BuildDetails>, list: seq<BuildDetails>, i: int, regex: string,
                    find: (string, string) -> bool, packageName: string)
    requires AllDistinctMetadata(builds)
    requires 0 <= i < |builds| == |list| && list[i..] == builds[i..]
    requires list[..i] == RegexFiltered(builds[..i], regex, find, packageName)
    requires NarrowOne(list[i], regex, find, packageName) == []
    ensures |list[..i] + list[i + 1..]| < |builds|
    ensures AllDistinctMetadata(list[..i] + list[i + 1..])
    ensures RegexFiltered(list[..i] + list[i + 1..], regex, find, packageName) == RegexFiltered(builds, regex, find, packageName)
  {
    assert list[i] == builds[i] by { assert list[i..][0] == builds[i..][0]; }
    assert list[i + 1..] == builds[i + 1..] by { assert list[i + 1..] == list[i..][1..]; }
    RestartAfterRemoval(builds, i, regex, find, packageName);
  }

  /** After narrowing build `i` in place, the first `i + 1` builds are filtered and the rest untouched. */
  lemma KeepStep(builds: seq<BuildDetails>, list: seq<BuildDetails>, i: int, regex: string,
                 find: (string, string) -> bool, packageName: string, narrowed: BuildDetails)
    requires 0 <= i < |builds| == |list| && list[i..] == builds[i..]
    requires list[..i] == RegexFiltered(builds[..i], regex, find, packageName)
    requires NarrowOne(list[i], regex, find, packageName) == [narrowed]
    ensures list[i := narrowed][i + 1..] == builds[i + 1..]
    ensures list[i := narrowed][..i + 1] == RegexFiltered(builds[..i + 1], regex, find, packageName)
  {
    var updated := list[i := narrowed];
    assert list[i] == builds[i] by { assert list[i..][0] == builds[i..][0]; }
    assert updated[i + 1..] == builds[i + 1..] by {
      assert updated[i + 1..] == list[i + 1..];
      assert list[i + 1..] == list[i..][1..];
      assert builds[i + 1..] == builds[i..][1..];
    }
    FilteredPrefixStep(builds, i, regex, find, packageName);
    assert updated[..i] == list[..i];
    assert updated[..i + 1] == updated[..i] + [narrowed];
  }

  /** Filtering one more build of a prefix appends that build's narrowing. */
  lemma FilteredPrefixStep(builds: seq<BuildDetails>, i: int, regex: string, find: (string, string) -> bool,
                           packageName: string)
    requires 0 <= i < |builds|
    ensures RegexFiltered(builds[..i + 1], regex, find, packageName)
      == RegexFiltered(builds[..i], regex, find, packageName) + NarrowOne(builds[i], regex, find, packageName)
  {
    var front := builds[..i + 1];
    assert front[..|front| - 1] == builds[..i] && front[|front| - 1] == builds[i];
  }

  /** The `finalMap` loop of regexFilteringForGetBuilds. */
  method RestrictMetadata(keys: seq<string>, metadata: seq<(string, string)>) returns (finalMap: seq<(string, string)>)
    ensures finalMap == Restrict(keys, metadata)
  {
    finalMap := [];
    var j := 0;
    while j < |keys|
      invariant 0 <= j <= |keys|
      invariant finalMap == Restrict(keys[..j], metadata)
    {
      assert keys[..j + 1][..j] == keys[..j];
      finalMap := Put(finalMap, keys[j], GetValue(metadata, keys[j]));
      j := j + 1;
    }
    assert keys[..|keys|] == keys;
  }

  /**
   * regexFilteringForGetBuilds: narrows the builds in order; on the first build with no selected
   * tag it removes that build and starts again on the shortened list.
   */
  method RegexFilteringForGetBuilds(versionRegex: string, builds: seq<BuildDetails>, packageName: string,
                                    find: (string, string) -> bool) returns (r: seq<BuildDetails>)
    requires AllDistinctMetadata(builds)
    ensures r == RegexFiltered(builds, GlobToRegex(versionRegex), find, packageName)
    decreases |builds|
  {
    var pattern := GlobToRegex(versionRegex);
    var list := builds;
    var i := 0;
    while i < |list|
      invariant 0 <= i <= |list| && |list| == |builds|
      invariant list[i..] == builds[i..]
      invariant list[..i] == RegexFiltered(builds[..i], pattern, find, packageName)
    {
      var build := list[i];
      var keys := MatchingKeys(build.metadata, pattern, find);
      if |keys| > 0 {
        var finalMap := RestrictMetadata(keys, build.metadata);
        var narrowed := build.(number := keys[0], buildDisplayName := packageName + ": " + keys[0],
                               uiDisplayName := "Tag# " + keys[0], metadata := finalMap);
        assert NarrowOne(build, pattern, find, packageName) == [narrowed];
        KeepStep(builds, list, i, pattern, find, packageName, narrowed);
        list := list[i := narrowed];
      } else {
        var shorter := list[..i] + list[i + 1..];
        RemovalStep(builds, list, i, pattern, find, packageName);
        r := RegexFilteringForGetBuilds(versionRegex, shorter, packageName, find);
        return;
      }
      i := i + 1;
    }
    assert list[..|list|] == list;
    assert builds[..|builds|] == builds;
    r := list;
  }

  lemma {:induction false} BuildsHaveDistinctMetadata(versions: seq<Version>, packageName: string, username: string,
                                                      org: string)
    ensures AllDistinctMetadata(Builds(versions, packageName, username, org))
  {
    if versions != [] {
      BuildsHaveDistinctMetadata(versions[..|versions| - 1], packageName, username, org);
      var v := versions[|versions| - 1];
      if |v.tags| > 0 {
        TagMetadataSpec(v.tags, packageName);
      }
    }
  }

  // ---- getBuild ----

  /**
   * constructBuildDetails: a build for the version with the two manifest digests as metadata
   * (under `keys`, the metadata keys for the SHA and the V2 SHA), the V2 digest as full display name.
   */
  function ConstructBuildDetails(version: string, packageName: string, sha: string, shaV2: string,
                                 keys: (string, string), org: string, userName: string, isSha: string -> bool)
    : (b: BuildDetails)
    ensures b.number == version && b.status == Some(BuildSuccess) && b.buildFullDisplayName == shaV2
    ensures Get(b.metadata, keys.1) == Some(shaV2)
    ensures keys.0 != keys.1 ==> Get(b.metadata, keys.0) == Some(sha)
    ensures b.artifactPath == ArtifactPath(org, packageName, version, ToLower(userName), isSha)
  {
    var metadata := Put(Put([], keys.0, sha), keys.1, shaV2);
    GetAfterPut(Put([], keys.0, sha), keys.1, shaV2, keys.0);
    GetAfterPut(Put([], keys.0, sha), keys.1, shaV2, keys.1);
    GetAfterPut([], keys.0, sha, keys.0);
    BuildDetails(version, packageName + ": " + version, "Tag# " + version, "", Some(BuildSuccess), shaV2, metadata,
                 ArtifactPath(org, packageName, version, ToLower(userName), isSha))
  }

  /**
   * What getBuild yields after its package-type guard: without any manifest digest ("" for a
   * failed or empty lookup) the version is looked up among the fetched builds, otherwise the
   * build is made from the digests.
   */
  function BuildFor(fetched: Result<seq<BuildDetails>>, version: string, packageName: string, manifest: (string, string),
                    keys: (string, string), org: string, username: string, isSha: string -> bool): Result<BuildDetails>
  {
    if manifest.0 == [] && manifest.1 == [] then
      match fetched
      case Err(e) => Err(Wrapped(CouldNotFetchVersion, ErrorMessage, e))
      case Ok(builds) => VersionFilter(version, builds, packageName)
    else Ok(ConstructBuildDetails(version, packageName, manifest.0, manifest.1, keys, org, username, isSha))
  }

  /** getBuild: `manifests` gives the (SHA, V2 SHA) the two image-manifest lookups find for a version. */
  method GetBuild(pages: seq<Page>, packageName: string, packageType: string, version: string, org: string,
                  username: string, manifests: string -> (string, string), keys: (string, string),
                  isSha: string -> bool) returns (r: Result<BuildDetails>)
    ensures !IsPackageType(packageType) ==> r == Err(InvalidRequest(IncorrectPackageType))
    ensures IsPackageType(packageType) ==>
      r == BuildFor(FetchedBuilds(pages, packageName, username, org), version, packageName, manifests(version), keys,
                    org, username, isSha)
  {
    if !IsPackageType(packageType) {
      return Err(InvalidRequest(IncorrectPackageType));
    }
    var (sha, shaV2) := manifests(version);
    if shaV2 == [] && sha == [] {
      var builds := GetBuildDetails(pages, packageName, username, org);
      if builds.Err? {
        return Err(Wrapped(CouldNotFetchVersion, ErrorMessage, builds.error));
      }
      r := VersionFiltering(version, builds.value, packageName);
      return;
    }
    r := Ok(ConstructBuildDetails(version, packageName, sha, shaV2, keys, org, username, isSha));
  }

  /** getLastSuccessfulBuildFromRegex. */
  method GetLastSuccessfulBuildFromRegex(pages: seq<Page>, packageName: string, packageType: string, versionRegex: string,
                                         org: string, username: string, find: (string, string) -> bool,
                                         manifests: string -> (string, string), keys: (string, string),
                                         isSha: string -> bool) returns (r: Result<BuildDetails>)
    ensures !IsPackageType(packageType) ==> r == Err(InvalidRequest(IncorrectPackageType))
    ensures IsPackageType(packageType) && FetchedBuilds(pages, packageName, username, org).Err? ==>
      r == Err(Wrapped(CouldNotFetchVersion, ErrorMessage, FetchedBuilds(pages, packageName, username, org).error))
    ensures IsPackageType(packageType) && FetchedBuilds(pages, packageName, username, org).Ok? ==>
      var filtered := RegexFiltered(FetchedBuilds(pages, packageName, username, org).value, GlobToRegex(versionRegex),
                                    find, packageName);
      r == if filtered == [] then Err(InvalidRequest("No version with matching regex is present"))
           else BuildFor(FetchedBuilds(pages, packageName, username, org), filtered[0].number, packageName,
                         manifests(filtered[0].number), keys, org, username, isSha)
  {
    if !IsPackageType(packageType) {
      return Err(InvalidRequest(IncorrectPackageType));
    }
    var buildDetails := GetBuildDetails(pages, packageName, username, org);
    if buildDetails.Err? {
      return Err(Wrapped(CouldNotFetchVersion, ErrorMessage, buildDetails.error));
    }
    var versions := CollectPages(pages, 1, org).value;
    BuildsHaveDistinctMetadata(versions, packageName, username, org);
    var filtered := RegexFilteringForGetBuilds(versionRegex, buildDetails.value, packageName, find);
    if filtered == [] {
      return Err(InvalidRequest("No version with matching regex is present"));
    }
    r := GetBuild(pages, packageName, packageType, filtered[0].number, org, username, manifests, keys, isSha);
  }

  /**
   * Without manifest digests, the build getLastSuccessfulBuildFromRegex chooses is always found
   * again by getBuild: its number is a tag of one of the fetched builds.
   */
  lemma ChosenVersionIsFound(builds: seq<BuildDetails>, regex: string, find: (string, string) -> bool, packageName: string)
    requires RegexFiltered(builds, regex, find, packageName) != []
    ensures var version := RegexFiltered(builds, regex, find, packageName)[0].number;
      VersionFilter(version, builds, packageName).Ok?
      && VersionFilter(version, builds, packageName).value.number == version
  {
    FirstFilteredIsTag(builds, regex, find, packageName);
    VersionFilterSpec(RegexFiltered(builds, regex, find, packageName)[0].number, builds, packageName);
  }

  // ---- listPackages ----

  datatype PackageInfo = PackageInfo(id: string, name: string, packageType: string, visibility: string, htmlUrl: string)

  /** The map processPackagesResponse makes for one package. */
  function PackageEntry(p: PackageInfo): seq<(string, string)>
  {
    [("packageId", p.id), ("packageName", p.name), ("packageType", p.packageType),
     ("visibility", p.visibility), ("packageUrl", p.htmlUrl)]
  }

  /** The map of a package has five distinct keys, each holding the package's field of that name. */
  lemma PackageEntrySpec(p: PackageInfo)
    ensures DistinctKeys(PackageEntry(p))
    ensures Get(PackageEntry(p), "packageId") == Some(p.id) && Get(PackageEntry(p), "packageName") == Some(p.name)
    ensures Get(PackageEntry(p), "packageType") == Some(p.packageType)
    ensures Get(PackageEntry(p), "visibility") == Some(p.visibility)
    ensures Get(PackageEntry(p), "packageUrl") == Some(p.htmlUrl)
  {
    var m := PackageEntry(p);
    assert "packageName"[7] != "packageType"[7] && "visibility"[0] != "packageUrl"[0];
    assert DistinctKeys(m);
    PutAt(m, 0, p.id);
    PutAt(m, 1, p.name);
    PutAt(m, 2, p.packageType);
    PutAt(m, 3, p.visibility);
    PutAt(m, 4, p.htmlUrl);
  }

  /** listPackages: `body` is the body of the listing response (None when absent). */
  method ListPackages(packageType: string, body: Option<seq<PackageInfo>>) returns (r: Result<seq<seq<(string, string)>>>)
    ensures !IsPackageType(packageType) ==> r == Err(InvalidRequest(IncorrectPackageType))
    ensures IsPackageType(packageType) && (body.None? || body.value == []) ==>
      r == Err(Wrapped("Could not fetch the packages", "Check if the permissions are scoped for the authenticated user",
                       InvalidRequest("Empty response for the get packages call")))
    ensures IsPackageType(packageType) && body.Some? && body.value != [] ==>
      r.Ok? && |r.value| == |body.value| && forall i :: 0 <= i < |body.value| ==> r.value[i] == PackageEntry(body.value[i])
  {
    if !IsPackageType(packageType) {
      return Err(InvalidRequest(IncorrectPackageType));
    }
    if body.None? || body.value == [] {
      return Err(Wrapped("Could not fetch the packages", "Check if the permissions are scoped for the authenticated user",
                         InvalidRequest("Empty response for the get packages call")));
    }
    var packages: seq<seq<(string, string)>> := [];
    var i := 0;
    while i < |body.value|
      invariant 0 <= i <= |body.value|
      invariant |packages| == i && forall j :: 0 <= j < i ==> packages[j] == PackageEntry(body.value[j])
    {
      packages := packages + [PackageEntry(body.value[i])];
      i := i + 1;
    }
    r := Ok(packages);
  }
}
