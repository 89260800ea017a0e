/**
 * Repository lookup: parsing owner and repository out of a URL, walking the
 * directory listing, picking the workflow files and collecting their
 * contents. The remote calls (`repos.get`, `repos.listLanguages`,
 * `repos.getContent` and the base64 decoding of a file) are replaced by maps
 * supplied by the caller: a key that is absent stands for a call that threw.
 */
module GitHub {
  import opened Wrappers
  import opened Text

  /** Owner and repository name as captured by the URL pattern. */
  datatype RepoRef = RepoRef(owner: string, repo: string)

  /** The literal part of `/github\.com\/([^/]+)\/([^/]+)/` before the first group. */
  const Host := "github.com/"
  const InvalidUrlMessage := "Invalid GitHub repo URL"

  predicate SlashFree(s: string) {
    '/' !in s
  }

  // ---------------------------------------------------------------------------
  // URL matching
  // ---------------------------------------------------------------------------

  /** End of the longest run of characters other than '/' that starts at i. */
  function RunEnd(s: string, i: nat): (j: nat)
    requires i <= |s|
    ensures i <= j <= |s|
    ensures forall k :: i <= k < j ==> s[k] != '/'
    ensures j < |s| ==> s[j] == '/'
    decreases |s| - i
  {
    if i == |s| || s[i] == '/' then i else RunEnd(s, i + 1)
  }

  /** A run of non-'/' characters from i that stops at the end or at a '/' is the one RunEnd finds. */
  lemma {:induction false} RunEndIs(s: string, i: nat, j: nat)
    requires i <= j <= |s|
    requires forall k :: i <= k < j ==> s[k] != '/'
    requires j < |s| ==> s[j] == '/'
    ensures RunEnd(s, i) == j
    decreases j - i
  {
    if i < j {
      RunEndIs(s, i + 1, j);
    }
  }

  /**
   * The pattern tried at position i of the URL: the literal host, then a
   * greedy `[^/]+`, a '/', and a second greedy `[^/]+`. The first group can
   * only end where a '/' follows, so backtracking never gives another match.
   */
  function MatchAt(url: string, i: nat): Option<RepoRef>
    requires i <= |url|
  {
    if StartsWith(url[i..], Host) then
      var j := RunEnd(url, i + |Host|);
      if j == i + |Host| || j == |url| then None
      else
        var k := RunEnd(url, j + 1);
        if k == j + 1 then None
        else Some(RepoRef(url[i + |Host|..j], url[j + 1..k]))
    else None
  }

  /**
   * The shape a match at i has: `github.com/<owner>/<repo>` spelled out
   * from i, both names non-empty and slash-free, the repository name running
   * to the end of the URL or up to a '/'.
   */
  predicate MatchesAt(url: string, i: nat, owner: string, repo: string)
    requires i <= |url|
  {
    var start := i + |Host|;
    var j := start + |owner|;
    var end := j + 1 + |repo|;
    && owner != "" && repo != "" && SlashFree(owner) && SlashFree(repo)
    && end <= |url|
    && url[i..start] == Host && url[start..j] == owner && url[j] == '/' && url[j + 1..end] == repo
    && (end == |url| || url[end] == '/')
  }

  /** Whatever MatchAt captures has the shape of a match. */
  lemma MatchAtSound(url: string, i: nat)
    requires i <= |url| && MatchAt(url, i).Some?
    ensures MatchesAt(url, i, MatchAt(url, i).value.owner, MatchAt(url, i).value.repo)
  {
    var start := i + |Host|;
    var j := RunEnd(url, start);
    var k := RunEnd(url, j + 1);
    var owner, repo := url[start..j], url[j + 1..k];
    assert url[i..start] == url[i..][..|Host|];
    assert '/' !in owner by {
      forall n | 0 <= n < |owner| ensures owner[n] != '/' {
        assert owner[n] == url[start + n];
      }
    }
    assert '/' !in repo by {
      forall n | 0 <= n < |repo| ensures repo[n] != '/' {
        assert repo[n] == url[j + 1 + n];
      }
    }
  }

  /** Every substring with the shape of a match is what MatchAt captures at that position. */
  lemma MatchAtComplete(url: string, i: nat, owner: string, repo: string)
    requires i <= |url| && MatchesAt(url, i, owner, repo)
    ensures MatchAt(url, i) == Some(RepoRef(owner, repo))
  {
    var start := i + |Host|;
    var j := start + |owner|;
    var k := j + 1 + |repo|;
    assert url[i..][..|Host|] == url[i..start];
    forall n | start <= n < j ensures url[n] != '/' {
      assert url[n] == url[start..j][n - start];
    }
    forall n | j + 1 <= n < k ensures url[n] != '/' {
      assert url[n] == url[j + 1..k][n - j - 1];
    }
    RunEndIs(url, start, j);
    RunEndIs(url, j + 1, k);
  }

  /** A match at i spells `github.com/<owner>/<repo>` from i. */
  lemma MatchesAtSpells(url: string, i: nat, owner: string, repo: string)
    requires i <= |url| && MatchesAt(url, i, owner, repo)
    ensures StartsWith(url[i..], Host + owner + "/" + repo)
  {
    var start := i + |Host|;
    var j := start + |owner|;
    var k := j + 1 + |repo|;
    assert url[j..j + 1] == "/";
    assert url[i..j] == url[i..start] + url[start..j];
    assert url[i..j + 1] == url[i..j] + url[j..j + 1];
    assert url[i..k] == url[i..j + 1] + url[j + 1..k];
    assert url[i..][..k - i] == url[i..k];
  }

  /** The leftmost position at or after `from` where the pattern matches (`String.prototype.match`). */
  function FirstMatch(url: string, from: nat): (p: Option<nat>)
    requires from <= |url|
    ensures p.Some? ==> from <= p.value <= |url| && MatchAt(url, p.value).Some?
    ensures p.Some? ==> forall q :: from <= q < p.value ==> MatchAt(url, q).None?
    ensures p.None? ==> forall q :: from <= q <= |url| ==> MatchAt(url, q).None?
    decreases |url| - from
  {
    if MatchAt(url, from).Some? then Some(from)
    else if from == |url| then None
    else FirstMatch(url, from + 1)
  }

  /** `repoUrl.match(...)` followed by the `Invalid GitHub repo URL` throw. */
  function ParseRepoUrl(url: string): (r: Result<RepoRef, string>)
    ensures r.Failure? <==> forall q :: 0 <= q <= |url| ==> MatchAt(url, q).None?
    ensures r.Failure? ==> r.error == InvalidUrlMessage
    ensures r.Success? ==>
      exists p :: (0 <= p <= |url| && MatchAt(url, p) == Some(r.value) && forall q :: 0 <= q < p ==> MatchAt(url, q).None?)
  {
    match FirstMatch(url, 0)
    case None => Failure(InvalidUrlMessage)
    case Some(p) => assert MatchAt(url, p).Some?; Success(MatchAt(url, p).value)
  }

  lemma {:induction false} StartsWithIncludes(s: string, p: nat, m: string)
    requires p <= |s| && StartsWith(s[p..], m)
    ensures Includes(s, m)
    decreases p
  {
    if p > 0 {
      assert s[1..][p - 1..] == s[p..];
      StartsWithIncludes(s[1..], p - 1, m);
    }
  }

  /** A parsed owner and repository are non-empty, slash-free, and `github.com/<owner>/<repo>` occurs in the URL. */
  lemma ParsedNamesOccurInUrl(url: string)
    ensures ParseRepoUrl(url).Success? ==>
      var rr := ParseRepoUrl(url).value;
      && rr.owner != "" && rr.repo != "" && SlashFree(rr.owner) && SlashFree(rr.repo)
      && Includes(url, Host + rr.owner + "/" + rr.repo)
  {
    if ParseRepoUrl(url).Success? {
      var rr := ParseRepoUrl(url).value;
      var p :| 0 <= p <= |url| && MatchAt(url, p) == Some(rr);
      MatchAtSound(url, p);
      MatchesAtSpells(url, p, rr.owner, rr.repo);
      StartsWithIncludes(url, p, Host + rr.owner + "/" + rr.repo);
    }
  }

  /**
   * Round trip: for non-empty slash-free names, `https://github.com/o/r`,
   * possibly followed by `/anything`, parses back to (o, r).
   */
  lemma ParseCanonicalUrl(owner: string, repo: string, rest: string)
    requires owner != "" && repo != "" && SlashFree(owner) && SlashFree(repo)
    requires rest == "" || rest[0] == '/'
    ensures ParseRepoUrl("https://" + Host + owner + "/" + repo + rest) == Success(RepoRef(owner, repo))
  {
    var url := "https://" + Host + owner + "/" + repo + rest;
    CanonicalUrlMatches(owner, repo, rest);
    MatchAtComplete(url, 8, owner, repo);
    NoMatchInScheme(url);
    FirstMatchIs(url, 8);
  }

  /** `https://github.com/<owner>/<repo><rest>` has the shape of a match at position 8, right after the scheme. */
  lemma CanonicalUrlMatches(owner: string, repo: string, rest: string)
    requires owner != "" && repo != "" && SlashFree(owner) && SlashFree(repo)
    requires rest == "" || rest[0] == '/'
    ensures var url := "https://" + Host + owner + "/" + repo + rest;
      StartsWith(url, "https://") && MatchesAt(url, 8, owner, repo)
  {
    var a := "https://" + Host;
    var b := a + owner;
    var c := b + "/";
    var d := c + repo;
    var url := d + rest;
    assert url[..|d|] == d;
    assert d[..|c|] == c && c[..|b|] == b && b[..|a|] == a;
    assert url[..8] == a[..8];
    assert url[8..|a|] == a[8..] == Host;
    assert url[|a|..|b|] == b[|a|..] == owner;
    assert url[|b|] == c[|b|] == '/';
    assert url[|c|..|d|] == d[|c|..] == repo;
    assert |d| < |url| ==> url[|d|] == rest[0];
  }

  /** When the leftmost match starts at `p`, the parse returns the names matched there. */
  lemma FirstMatchIs(url: string, p: nat)
    requires p <= |url| && MatchAt(url, p).Some?
    requires forall q :: 0 <= q < p ==> MatchAt(url, q).None?
    ensures ParseRepoUrl(url) == Success(MatchAt(url, p).value)
  {
    var f := FirstMatch(url, 0);
    assert f == Some(p);
  }

  /** No match can start inside a leading `https://`. */
  lemma NoMatchInScheme(url: string)
    requires StartsWith(url, "https://")
    ensures forall q :: 0 <= q < 8 ==> MatchAt(url, q).None?
  {
    forall q | 0 <= q < 8 ensures MatchAt(url, q).None? {
      assert url[q] == url[..8][q] == "https://"[q];
      assert url[q..][0] != Host[0];
    }
  }

  /** A `.git` suffix is not stripped: it stays part of the repository name. */
  lemma GitSuffixKept(owner: string, repo: string)
    requires owner != "" && repo != "" && SlashFree(owner) && SlashFree(repo)
    ensures ParseRepoUrl("https://" + Host + owner + "/" + repo + ".git") == Success(RepoRef(owner, repo + ".git"))
  {
    assert "https://" + Host + owner + "/" + repo + ".git" == "https://" + Host + owner + "/" + (repo + ".git") + "";
    ParseCanonicalUrl(owner, repo + ".git", "");
  }

  // ---------------------------------------------------------------------------
  // Directory listing
  // ---------------------------------------------------------------------------

  /** One item of a directory listing: its `type` ("file", "dir", "symlink", ...) and its `path`. */
  datatype Entry = Entry(kind: string, path: string)

  /** What `repos.getContent` returns for a path: an array of items, or a single item. */
  datatype Contents = Directory(entries: seq<Entry>) | Item(kind: string, path: string)

  /** The repository at its default branch; a path that is absent makes `getContent` throw. */
  type Store = map<string, Contents>

  const GithubDir := ".github"
  const WorkflowsPath := ".github/workflows"
  const WorkflowsDir := ".github/workflows/"

  /** The only directories the walk enters. */
  predicate Descends(e: Entry) {
    e.kind == "dir" && (e.path == GithubDir || e.path == WorkflowsPath)
  }

  /** Every item listed under a path has a strictly longer path; this is what makes the walk finite. */
  predicate ChildrenExtend(store: Store) {
    forall p, k :: p in store && store[p].Directory? && 0 <= k < |store[p].entries| ==>
      |p| < |store[p].entries[k].path|
  }

  /** Entered paths are at most 17 characters long and strictly grow, so this measure drops. */
  function Depth(path: string): nat {
    if |path| < 18 then 18 - |path| else 0
  }

  /** The paths `getFileTree(owner, repo, ref, path)` returns. */
  function FileTree(store: Store, path: string): seq<string>
    requires ChildrenExtend(store)
    decreases Depth(path), 1, 0
  {
    if path !in store then []
    else match store[path]
      case Directory(es) => EntriesFiles(store, path, es, |es|)
      case Item(kind, p) => if kind == "file" then [p] else []
  }

  /** The paths contributed by the first n items of the listing `es` of `parent`, in order. */
  function EntriesFiles(store: Store, parent: string, es: seq<Entry>, n: nat): seq<string>
    requires ChildrenExtend(store)
    requires forall k :: 0 <= k < |es| ==> |parent| < |es[k].path|
    requires n <= |es|
    decreases Depth(parent), 0, n
  {
    if n == 0 then []
    else EntriesFiles(store, parent, es, n - 1) + EntryFiles(store, parent, es[n - 1])
  }

  /** The paths one listed item contributes: the walk of an entered directory, the path of a file, nothing otherwise. */
  function EntryFiles(store: Store, parent: string, e: Entry): seq<string>
    requires ChildrenExtend(store)
    requires |parent| < |e.path|
    decreases Depth(parent), 0, 0
  {
    if Descends(e) then FileTree(store, e.path) else if e.kind == "file" then [e.path] else []
  }

  /** `getFileTree`: a listing is walked item by item, a single file gives its own path, anything else (or a call that throws) nothing. */
  method GetFileTree(store: Store, path: string) returns (files: seq<string>)
    requires ChildrenExtend(store)
    ensures files == FileTree(store, path)
    decreases Depth(path), 2
  {
    if path !in store {
      return [];
    }
    var contents := store[path];
    if contents.Directory? {
      files := ListingFiles(store, path, contents.entries);
    } else if contents.kind == "file" {
      files := [contents.path];
    } else {
      files := [];
    }
  }

  /** The loop of `getFileTree` over a listing: files are appended and the two entered subdirectories spliced in, in order. */
  method ListingFiles(store: Store, path: string, es: seq<Entry>) returns (files: seq<string>)
    requires ChildrenExtend(store)
    requires forall k :: 0 <= k < |es| ==> |path| < |es[k].path|
    ensures files == EntriesFiles(store, path, es, |es|)
    decreases Depth(path), 1
  {
    files := [];
    var i := 0;
    while i < |es|
      invariant 0 <= i <= |es|
      invariant files == EntriesFiles(store, path, es, i)
    {
      var sub := ItemFiles(store, path, es[i]);
      files := files + sub;
      i := i + 1;
    }
  }

  /** One pass of the loop in `getFileTree`: the walk of an entered directory, the path of a file, nothing for anything else. */
  method ItemFiles(store: Store, parent: string, item: Entry) returns (files: seq<string>)
    requires ChildrenExtend(store)
    requires |parent| < |item.path|
    ensures files == EntryFiles(store, parent, item)
    decreases Depth(parent), 0
  {
    files := [];
    if item.kind == "dir" {
      if item.path == GithubDir || item.path == WorkflowsPath {
        files := GetFileTree(store, item.path);
      }
    } else if item.kind == "file" {
      files := [item.path];
    }
  }

  /** A listing call that throws gives no paths; a path that is a single file gives just that file. */
  lemma FileTreeOfMissingOrFile(store: Store, path: string)
    requires ChildrenExtend(store)
    ensures path !in store ==> FileTree(store, path) == []
    ensures path in store && store[path].Item? ==>
      FileTree(store, path) == if store[path].kind == "file" then [store[path].path] else []
  {
  }

  /** The listing of q names f as a file. */
  predicate ListsFile(store: Store, q: string, f: string) {
    q in store &&
    match store[q]
    case Directory(es) => Entry("file", f) in es
    case Item(kind, p) => kind == "file" && p == f
  }

  /** Every path the walk returns is listed as a file at the start path, in `.github` or in `.github/workflows`. */
  lemma {:induction false} FileTreeOnlyFiles(store: Store, path: string, f: string)
    requires ChildrenExtend(store)
    requires f in FileTree(store, path)
    ensures ListsFile(store, path, f) || ListsFile(store, GithubDir, f) || ListsFile(store, WorkflowsPath, f)
    decreases Depth(path), 1, 0
  {
    match store[path]
    case Directory(es) =>
      EntriesFilesOnlyFiles(store, path, es, |es|, f);
    case Item(kind, p) =>
  }

  lemma {:induction false} EntriesFilesOnlyFiles(store: Store, parent: string, es: seq<Entry>, n: nat, f: string)
    requires ChildrenExtend(store)
    requires forall k :: 0 <= k < |es| ==> |parent| < |es[k].path|
    requires n <= |es|
    requires f in EntriesFiles(store, parent, es, n)
    ensures Entry("file", f) in es || ListsFile(store, GithubDir, f) || ListsFile(store, WorkflowsPath, f)
    decreases Depth(parent), 0, n
  {
    var e := es[n - 1];
    if f in EntryFiles(store, parent, e) {
      if Descends(e) {
        FileTreeOnlyFiles(store, e.path, f);
      } else {
        assert e == Entry("file", f);
      }
    } else {
      EntriesFilesOnlyFiles(store, parent, es, n - 1, f);
    }
  }

  /** Whatever one listed item contributes is part of what the whole listing contributes. */
  lemma {:induction false} EntriesFilesComplete(store: Store, parent: string, es: seq<Entry>, n: nat, k: nat, f: string)
    requires ChildrenExtend(store)
    requires forall j :: 0 <= j < |es| ==> |parent| < |es[j].path|
    requires k < n <= |es|
    requires f in EntryFiles(store, parent, es[k])
    ensures f in EntriesFiles(store, parent, es, n)
    decreases n
  {
    if k < n - 1 {
      EntriesFilesComplete(store, parent, es, n - 1, k, f);
    }
  }

  /**
   * Where an item's paths appear: the walk of a listing begins with the paths
   * of the items before the k-th, followed by those of the k-th item.
   */
  lemma {:induction false} EntriesFilesSplice(store: Store, parent: string, es: seq<Entry>, k: nat, n: nat)
    requires ChildrenExtend(store)
    requires forall j :: 0 <= j < |es| ==> |parent| < |es[j].path|
    requires k < n <= |es|
    ensures var front := EntriesFiles(store, parent, es, k) + EntryFiles(store, parent, es[k]);
      |front| <= |EntriesFiles(store, parent, es, n)| && EntriesFiles(store, parent, es, n)[..|front|] == front
    decreases n
  {
    if k < n - 1 {
      EntriesFilesSplice(store, parent, es, k, n - 1);
      var front := EntriesFiles(store, parent, es, k) + EntryFiles(store, parent, es[k]);
      var before := EntriesFiles(store, parent, es, n - 1);
      assert EntriesFiles(store, parent, es, n)[..|front|] == before[..|front|];
    }
  }

  /**
   * The converse of FileTreeOnlyFiles: when a path is listed as a directory,
   * the walk returns every file item of the listing and everything the walk
   * of an entered `.github` or `.github/workflows` returns.
   */
  lemma FileTreeComplete(store: Store, path: string, k: nat, f: string)
    requires ChildrenExtend(store)
    requires path in store && store[path].Directory? && k < |store[path].entries|
    requires var e := store[path].entries[k];
      e == Entry("file", f) || (Descends(e) && f in FileTree(store, e.path))
    ensures f in FileTree(store, path)
  {
    var es := store[path].entries;
    assert f in EntryFiles(store, path, es[k]);
    EntriesFilesComplete(store, path, es, |es|, k, f);
  }

  /**
   * The order of the walk: it begins with the paths of the items listed
   * before the k-th, followed by the paths the k-th item contributes (the
   * whole walk of an entered directory, spliced in at that point).
   */
  lemma FileTreeSplice(store: Store, path: string, k: nat)
    requires ChildrenExtend(store)
    requires path in store && store[path].Directory? && k < |store[path].entries|
    ensures var es := store[path].entries;
      var front := EntriesFiles(store, path, es, k) + EntryFiles(store, path, es[k]);
      |front| <= |FileTree(store, path)| && FileTree(store, path)[..|front|] == front
  {
    var es := store[path].entries;
    EntriesFilesSplice(store, path, es, k, |es|);
  }

  /** `path` is listed as a directory that names `q` as a subdirectory. */
  predicate ListsDir(store: Store, path: string, q: string) {
    path in store && store[path].Directory? && Entry("dir", q) in store[path].entries
  }

  /** A file listed at a path is returned by the walk of that path. */
  lemma ListedFileWalked(store: Store, path: string, f: string)
    requires ChildrenExtend(store)
    requires ListsFile(store, path, f)
    ensures f in FileTree(store, path)
  {
    match store[path]
    case Directory(es) =>
      var k :| 0 <= k < |es| && es[k] == Entry("file", f);
      FileTreeComplete(store, path, k, f);
    case Item(kind, p) =>
  }

  /** What the walk of an entered subdirectory returns, the walk of its parent returns. */
  lemma EnteredWalked(store: Store, path: string, q: string, f: string)
    requires ChildrenExtend(store)
    requires q == GithubDir || q == WorkflowsPath
    requires ListsDir(store, path, q) && f in FileTree(store, q)
    ensures f in FileTree(store, path)
  {
    var k :| 0 <= k < |store[path].entries| && store[path].entries[k] == Entry("dir", q);
    FileTreeComplete(store, path, k, f);
  }

  /**
   * The walk from the root returns the root's files, the files of a
   * `.github` listed there, and the files of a `.github/workflows` listed in
   * that `.github`.
   */
  lemma RootWalkFindsWorkflows(store: Store, f: string)
    requires ChildrenExtend(store)
    ensures "" in store && store[""].Directory? && Entry("file", f) in store[""].entries ==>
      f in FileTree(store, "")
    ensures ListsDir(store, "", GithubDir) && ListsFile(store, GithubDir, f) ==> f in FileTree(store, "")
    ensures ListsDir(store, "", GithubDir) && ListsDir(store, GithubDir, WorkflowsPath) && ListsFile(store, WorkflowsPath, f) ==>
      f in FileTree(store, "")
  {
    if "" in store && store[""].Directory? && Entry("file", f) in store[""].entries {
      var k :| 0 <= k < |store[""].entries| && store[""].entries[k] == Entry("file", f);
      FileTreeComplete(store, "", k, f);
    }
    if ListsDir(store, "", GithubDir) && ListsFile(store, GithubDir, f) {
      ListedFileWalked(store, GithubDir, f);
      EnteredWalked(store, "", GithubDir, f);
    }
    if ListsDir(store, "", GithubDir) && ListsDir(store, GithubDir, WorkflowsPath) && ListsFile(store, WorkflowsPath, f) {
      ListedFileWalked(store, WorkflowsPath, f);
      EnteredWalked(store, GithubDir, WorkflowsPath, f);
      EnteredWalked(store, "", GithubDir, f);
    }
  }

  /** Two stores agree about the path q. */
  predicate AgreeOn(s1: Store, s2: Store, q: string) {
    (q in s1 <==> q in s2) && (q in s1 ==> s1[q] == s2[q])
  }

  /**
   * The walk reads only the start path, `.github` and `.github/workflows`:
   * however every other directory is listed, the result is the same.
   */
  lemma {:induction false} FileTreeReadsOnly(s1: Store, s2: Store, path: string)
    requires ChildrenExtend(s1) && ChildrenExtend(s2)
    requires AgreeOn(s1, s2, path) && AgreeOn(s1, s2, GithubDir) && AgreeOn(s1, s2, WorkflowsPath)
    ensures FileTree(s1, path) == FileTree(s2, path)
    decreases Depth(path), 1, 0
  {
    if path in s1 {
      match s1[path]
      case Directory(es) =>
        EntriesFilesReadsOnly(s1, s2, path, es, |es|);
      case Item(kind, p) =>
    }
  }

  lemma {:induction false} EntriesFilesReadsOnly(s1: Store, s2: Store, parent: string, es: seq<Entry>, n: nat)
    requires ChildrenExtend(s1) && ChildrenExtend(s2)
    requires forall k :: 0 <= k < |es| ==> |parent| < |es[k].path|
    requires n <= |es|
    requires AgreeOn(s1, s2, GithubDir) && AgreeOn(s1, s2, WorkflowsPath)
    ensures EntriesFiles(s1, parent, es, n) == EntriesFiles(s2, parent, es, n)
    decreases Depth(parent), 0, n
  {
    if n > 0 {
      if Descends(es[n - 1]) {
        FileTreeReadsOnly(s1, s2, es[n - 1].path);
      }
      EntriesFilesReadsOnly(s1, s2, parent, es, n - 1);
    }
  }

  /** The paths of the items of type "file", in listing order. */
  function FilePaths(es: seq<Entry>): (r: seq<string>)
    ensures forall f :: f in r <==> Entry("file", f) in es
  {
    if es == [] then []
    else
      var e := es[|es| - 1];
      assert es == es[..|es| - 1] + [e];
      FilePaths(es[..|es| - 1]) + (if e.kind == "file" then [e.path] else [])
  }

  /** Without `.github` or `.github/workflows` among the directories, the walk is the file items in listing order. */
  lemma {:induction false} FileTreeFlat(store: Store, path: string)
    requires ChildrenExtend(store)
    requires path in store && store[path].Directory?
    requires forall k :: 0 <= k < |store[path].entries| ==> !Descends(store[path].entries[k])
    ensures FileTree(store, path) == FilePaths(store[path].entries)
  {
    var es := store[path].entries;
    EntriesFilesFlat(store, path, es, |es|);
    assert es[..|es|] == es;
  }

  lemma {:induction false} EntriesFilesFlat(store: Store, parent: string, es: seq<Entry>, n: nat)
    requires ChildrenExtend(store)
    requires forall k :: 0 <= k < |es| ==> |parent| < |es[k].path|
    requires forall k :: 0 <= k < |es| ==> !Descends(es[k])
    requires n <= |es|
    ensures EntriesFiles(store, parent, es, n) == FilePaths(es[..n])
    decreases n
  {
    if n > 0 {
      EntriesFilesFlat(store, parent, es, n - 1);
      assert es[..n][..n - 1] == es[..n - 1];
    }
  }

  // ---------------------------------------------------------------------------
  // Workflow files
  // ---------------------------------------------------------------------------

  /**
   * The filter of `workflowFiles` exactly as written: `&&` binds tighter
   * than `||`, so a `.yaml` file is kept wherever it is.
   */
  predicate IsWorkflowFile(f: string) {
    (StartsWith(f, WorkflowsDir) && EndsWith(f, ".yml")) || EndsWith(f, ".yaml")
  }

  /** `fileTree.filter(...)` */
  function WorkflowFiles(tree: seq<string>): seq<string> {
    if tree == [] then []
    else (if IsWorkflowFile(tree[0]) then [tree[0]] else []) + WorkflowFiles(tree[1..])
  }

  /** a is b with some elements left out, order kept. */
  ghost predicate IsSubsequence(a: seq<string>, b: seq<string>)
    decreases |b|
  {
    if b == [] then a == []
    else (a != [] && a[0] == b[0] && IsSubsequence(a[1..], b[1..])) || IsSubsequence(a, b[1..])
  }

  lemma {:induction false} WorkflowFilesSubsequence(tree: seq<string>)
    ensures IsSubsequence(WorkflowFiles(tree), tree)
  {
    if tree != [] {
      WorkflowFilesSubsequence(tree[1..]);
      if IsWorkflowFile(tree[0]) {
        assert WorkflowFiles(tree)[1..] == WorkflowFiles(tree[1..]);
      } else {
        assert WorkflowFiles(tree) == WorkflowFiles(tree[1..]);
      }
    }
  }

  lemma {:induction false} WorkflowFilesMembers(tree: seq<string>, f: string)
    ensures f in WorkflowFiles(tree) <==> f in tree && IsWorkflowFile(f)
  {
    if tree != [] {
      WorkflowFilesMembers(tree[1..], f);
      assert tree == [tree[0]] + tree[1..];
    }
  }

  /** A `.yml` file is kept only under `.github/workflows/`; a `.yaml` file anywhere is kept. */
  lemma WorkflowFilePrecedence(f: string)
    ensures EndsWith(f, ".yml") ==> (IsWorkflowFile(f) <==> StartsWith(f, WorkflowsDir))
    ensures EndsWith(f, ".yaml") ==> IsWorkflowFile(f)
  {
    if EndsWith(f, ".yml") {
      assert f[|f| - 4] == '.';
      if |f| >= 5 {
        assert f[|f| - 5..][1] == '.';
        assert f[|f| - 5..] != ".yaml";
      }
    }
  }

  // ---------------------------------------------------------------------------
  // Fetching files and collecting workflows
  // ---------------------------------------------------------------------------

  /** `fetchFile(path)`: the decoded content, or `null` when `getContent` threw. */
  function Fetch(files: map<string, string>, path: string): Option<string> {
    if path in files then Some(files[path]) else None
  }

  /** A fetched value that passes `if (content)`: not null and not empty. */
  predicate Truthy(o: Option<string>) {
    o.Some? && o.value != ""
  }

  /** The `for` loop filling `workflows`: a file is recorded exactly when its content was fetched and is non-empty. */
  method CollectWorkflows(workflowFiles: seq<string>, files: map<string, string>) returns (workflows: map<string, string>)
    ensures workflows.Keys == set f | f in workflowFiles && f in files && files[f] != ""
    ensures forall f :: f in workflows ==> f in files && workflows[f] == files[f]
  {
    workflows := map[];
    var i := 0;
    while i < |workflowFiles|
      invariant 0 <= i <= |workflowFiles|
      invariant workflows.Keys == set f | f in workflowFiles[..i] && f in files && files[f] != ""
      invariant forall f :: f in workflows ==> f in files && workflows[f] == files[f]
    {
      var wf := workflowFiles[i];
      assert workflowFiles[..i + 1] == workflowFiles[..i] + [wf];
      var content := Fetch(files, wf);
      if Truthy(content) {
        workflows := workflows[wf := content.value];
      }
      i := i + 1;
    }
    assert workflowFiles[..i] == workflowFiles;
  }

  // ---------------------------------------------------------------------------
  // analyzeRepo and fetchFileFromRepo
  // ---------------------------------------------------------------------------

  /** What the remote service knows about one repository. */
  datatype RepoData = RepoData(
    description: Option<string>,          // None: the repository has no description
    defaultBranch: string,
    languages: Option<map<string, nat>>,  // None: `listLanguages` throws
    store: Store,                        // listings at the default branch
    files: map<string, string>)          // decoded file contents at the default branch

  /** Repositories that `repos.get` finds; any other owner/name makes it throw. */
  type Remote = map<RepoRef, RepoData>

  predicate WellFormed(remote: Remote) {
    forall rr :: rr in remote ==> ChildrenExtend(remote[rr].store)
  }

  datatype AnalyzeError = InvalidRepoUrl | RemoteCallFailed(call: string)

  function Message(e: AnalyzeError): string {
    match e
    case InvalidRepoUrl => InvalidUrlMessage
    case RemoteCallFailed(call) => call
  }

  /** The object `analyzeRepo` returns, without the parsed `package.json`. */
  datatype Analysis = Analysis(
    owner: string,
    repo: string,
    languages: map<string, nat>,
    description: Option<string>,
    defaultBranch: string,
    requirementsTxt: Option<string>,
    readme: Option<string>,
    dockerfileContent: Option<string>,
    makefileContent: Option<string>,
    fileTree: seq<string>,
    workflowFiles: seq<string>,
    workflows: map<string, string>)

  /**
   * `a` is the analysis `analyzeRepo` assembles for the repository `rr` with
   * remote data `d`: languages were listed, and every field comes from the
   * remote, with the fetched files, the walk from the root, the workflow
   * filter and the workflows collected from the fetched, non-empty files.
   */
  predicate AnalysisOf(a: Analysis, rr: RepoRef, d: RepoData)
    requires ChildrenExtend(d.store)
  {
    && d.languages.Some?
    && a.owner == rr.owner && a.repo == rr.repo
    && a.languages == d.languages.value
    && a.description == d.description && a.defaultBranch == d.defaultBranch
    && a.requirementsTxt == Fetch(d.files, "requirements.txt")
    && a.readme == Fetch(d.files, "README.md")
    && a.dockerfileContent == Fetch(d.files, "Dockerfile")
    && a.makefileContent == Fetch(d.files, "Makefile")
    && a.fileTree == FileTree(d.store, "")
    && a.workflowFiles == WorkflowFiles(a.fileTree)
    && a.workflows.Keys == (set f | f in a.workflowFiles && f in d.files && d.files[f] != "")
    && forall f :: f in a.workflows ==> a.workflows[f] == d.files[f]
  }

  /** AnalysisOf leaves nothing open: it determines every field of the analysis. */
  lemma AnalysisOfUnique(a: Analysis, b: Analysis, rr: RepoRef, d: RepoData)
    requires ChildrenExtend(d.store)
    requires AnalysisOf(a, rr, d) && AnalysisOf(b, rr, d)
    ensures a == b
  {
    assert a.workflows == b.workflows;
  }

  /** `analyzeRepo(repoUrl)`: the errors it throws, and otherwise the analysis assembled from the remote calls. */
  method AnalyzeRepo(url: string, remote: Remote) returns (res: Result<Analysis, AnalyzeError>)
    requires WellFormed(remote)
    ensures ParseRepoUrl(url).Failure? ==> res == Failure(InvalidRepoUrl)
    ensures ParseRepoUrl(url).Success? && ParseRepoUrl(url).value !in remote ==>
      res == Failure(RemoteCallFailed("repos.get"))
    ensures (ParseRepoUrl(url).Success? && ParseRepoUrl(url).value in remote &&
             remote[ParseRepoUrl(url).value].languages.None?) ==>
      res == Failure(RemoteCallFailed("repos.listLanguages"))
    ensures res.Success? <==>
      ParseRepoUrl(url).Success? && ParseRepoUrl(url).value in remote
      && remote[ParseRepoUrl(url).value].languages.Some?
    ensures res.Success? ==>
      && ParseRepoUrl(url).Success? && ParseRepoUrl(url).value in remote
      && AnalysisOf(res.value, ParseRepoUrl(url).value, remote[ParseRepoUrl(url).value])
  {
    var parsed := ParseRepoUrl(url);
    if parsed.Failure? {
      return Failure(InvalidRepoUrl);
    }
    var rr := parsed.value;
    if rr !in remote {
      return Failure(RemoteCallFailed("repos.get"));
    }
    var d := remote[rr];
    if d.languages.None? {
      return Failure(RemoteCallFailed("repos.listLanguages"));
    }
    var requirementsTxt := Fetch(d.files, "requirements.txt");
    var readme := Fetch(d.files, "README.md");
    var dockerfile := Fetch(d.files, "Dockerfile");
    var makefile := Fetch(d.files, "Makefile");
    var fileTree := GetFileTree(d.store, "");
    var workflowFiles := WorkflowFiles(fileTree);
    var workflows := CollectWorkflows(workflowFiles, d.files);
    res := Success(Analysis(rr.owner, rr.repo, d.languages.value, d.description, d.defaultBranch,
                            requirementsTxt, readme, dockerfile, makefile,
                            fileTree, workflowFiles, workflows));
  }

  /**
   * `fetchFileFromRepo(repoUrl, path)`: a bad URL and a failing `repos.get`
   * throw; a failing `getContent` gives `null`.
   */
  function FetchFileFromRepo(url: string, path: string, remote: Remote): (r: Result<Option<string>, AnalyzeError>)
    ensures ParseRepoUrl(url).Failure? ==> r == Failure(InvalidRepoUrl)
    ensures ParseRepoUrl(url).Success? && ParseRepoUrl(url).value !in remote ==>
      r == Failure(RemoteCallFailed("repos.get"))
    ensures r.Failure? <==> ParseRepoUrl(url).Failure? || ParseRepoUrl(url).value !in remote
    ensures r == Success(None) <==>
      ParseRepoUrl(url).Success? && ParseRepoUrl(url).value in remote
      && path !in remote[ParseRepoUrl(url).value].files
    ensures r.Success? && r.value.Some? ==>
      && ParseRepoUrl(url).Success? && ParseRepoUrl(url).value in remote
      && var files := remote[ParseRepoUrl(url).value].files;
         path in files && r.value.value == files[path]
  {
    match ParseRepoUrl(url)
    case Failure(_) => Failure(InvalidRepoUrl)
    case Success(rr) =>
      if rr !in remote then Failure(RemoteCallFailed("repos.get"))
      else Success(Fetch(remote[rr].files, path))
  }
}
