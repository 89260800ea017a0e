# Repository analysis core, modelled in Dafny

This project models the repository analysis of a web tool that inspects a
GitHub repository and drafts DevOps artifacts for it (Dockerfile, CI
workflow, docs, security notes). It has three parts, with the remote services
replaced by values the caller supplies.

- **Health scores and suggested services** (`AnalyzeRepoRoute`). This is the
  `POST` handler of `/api/analyze-repo`.
  - It computes four scores from the repository's file tree: documentation,
    security, CI and hygiene. Each score is bumped with `+=` and clamped with
    `Math.min`.
  - The overall score is their rounded average.
  - It also builds the ordered list of services to suggest.
  - It answers 400 exactly when no repository is given. It answers 500 when
    the analysis throws: for a URL that does not parse, a failing
    `repos.get` or a failing `listLanguages`. Otherwise it answers 200 with
    the analysis assembled from the remote, its services and its scores.
- **Repository lookup** (`GitHub`).
  - It parses owner and repository out of a URL with the pattern
    `github.com/<owner>/<repo>`, taking the leftmost match and greedy groups.
  - It walks the directory listing, entering only `.github` and
    `.github/workflows`.
  - It selects the workflow files with the filter exactly as written. `&&`
    binds tighter than `||` there, so a `.yaml` file anywhere is selected,
    but a `.yml` file only under `.github/workflows/`.
  - It collects the workflow contents in a loop and assembles the analysis
    object. `fetchFileFromRepo` is modelled too.
- **Text extraction from model responses** (`FileGen`).
  - `extractTextContent` is a case split over the response's shape: falsy,
    string, string `content`, array, array `content`, anything else.
  - `cleanMarkdownResponse` is modelled for its empty-input guard and the
    final trim.

Supporting modules:
- `Text` holds the JavaScript string operations the code relies on:
  `startsWith`, `endsWith`, `includes`, ASCII `toLowerCase`, `trim` with the
  ECMAScript whitespace set, and `join`.
- `Wrappers` holds `Option` and `Result`.

How the imperative parts are modelled:
- The score accumulation, the `services` pushes, the `getFileTree` loop and
  the `workflows` loop are methods.
- Each such method is proved against a function: `FileTree`, `Suggested`, or
  a set comprehension for `workflows`.
- The properties the code promises are lemmas about those functions.

How the remote services are modelled:
- The remote is a map from `RepoRef` to `RepoData`. A repository that is
  absent means `repos.get` throws, and `languages = None` means
  `listLanguages` throws.
- Directory listings are a `Store` map and decoded file contents are a
  `files` map. A path absent from either means `getContent` throws.

## Model

| member | source | states |
|---|---|---|
| GitHub.RunEnd | src/lib/github.ts:11 | the end of a greedy `[^/]+` run: every character up to it is not '/', and it stops at the end or at a '/' |
| GitHub.RunEndIs | src/lib/github.ts:11 | any run of non-'/' characters that stops at the end or at a '/' ends where RunEnd says, so the greedy group is unique |
| GitHub.MatchAtSound | src/lib/github.ts:11 | the owner and repository the pattern captures at a position are non-empty and slash-free, and `github.com/<owner>/<repo>` is spelled there, ending at the end of the URL or before a '/' |
| GitHub.MatchAtComplete | src/lib/github.ts:11 | conversely, every such occurrence is exactly what the pattern captures at that position |
| GitHub.MatchesAtSpells | src/lib/github.ts:11 | a match at a position spells `github.com/<owner>/<repo>` from that position |
| GitHub.FirstMatch | src/lib/github.ts:11 | the leftmost position at which the pattern matches, with no match before it, or none when no position matches |
| GitHub.ParseRepoUrl | src/lib/github.ts:11-13 | fails with "Invalid GitHub repo URL" exactly when no position matches; on success the result is the capture at the leftmost matching position |
| GitHub.ParsedNamesOccurInUrl | src/lib/github.ts:11-13 | parsed owner and repository are non-empty, contain no '/', and `github.com/<owner>/<repo>` occurs in the URL |
| GitHub.MatchAt | src/lib/github.ts:11 | the capture of the pattern at one position (its meaning is MatchAtSound and MatchAtComplete) |
| GitHub.NoMatchInScheme | src/lib/github.ts:11 | no match can start inside a leading `https://` |
| GitHub.FirstMatchIs | src/lib/github.ts:11-13 | a match with none before it is what parsing returns |
| GitHub.CanonicalUrlMatches | src/lib/github.ts:11 | `https://github.com/<o>/<r><rest>` has the shape of a match right after the scheme when rest is empty or starts with '/' |
| GitHub.ParseCanonicalUrl | src/lib/github.ts:11-13 | round trip: for non-empty slash-free o and r, `https://github.com/o/r` and `https://github.com/o/r/...` parse to (o, r) |
| GitHub.GitSuffixKept | src/lib/github.ts:11-13 | a `.git` suffix is not stripped but stays in the repository name |
| GitHub.FileTree | src/lib/github.ts:32-61 | the reference walk of a path (its properties are FileTreeOfMissingOrFile, FileTreeOnlyFiles, FileTreeComplete, FileTreeSplice, FileTreeReadsOnly and FileTreeFlat) |
| GitHub.EntriesFiles | src/lib/github.ts:43-53 | the reference walk of a listing prefix (its properties are the EntriesFiles lemmas) |
| GitHub.EntryFiles | src/lib/github.ts:44-51 | what one listed item contributes: the walk of an entered `.github` or `.github/workflows`, the path of a file, nothing otherwise |
| GitHub.Descends | src/lib/github.ts:44-46 | the walk enters exactly the directory items whose path is `.github` or `.github/workflows` |
| GitHub.GetFileTree | src/lib/github.ts:32-61 | the walk returns exactly FileTree of the store and path: nothing for a failing call, the path of a single file, and the listing walked otherwise |
| GitHub.ListingFiles | src/lib/github.ts:41-53 | the loop over a listing returns the concatenation, in listing order, of what each item contributes |
| GitHub.ItemFiles | src/lib/github.ts:44-51 | one loop pass: the walk of `.github` or `.github/workflows`, the path of a file, nothing for any other item |
| GitHub.FileTreeOfMissingOrFile | src/lib/github.ts:54-59 | a failing listing call gives `[]`; a path that is a single item gives `[path]` for a file and `[]` otherwise |
| GitHub.FileTreeOnlyFiles | src/lib/github.ts:43-51 | every returned path is listed as a file at the start path, in `.github` or in `.github/workflows` |
| GitHub.EntriesFilesOnlyFiles | src/lib/github.ts:43-51 | the same for the paths contributed by a prefix of a listing |
| GitHub.EntriesFilesComplete | src/lib/github.ts:43-52 | whatever one item of a listing prefix contributes is returned for that prefix |
| GitHub.FileTreeComplete | src/lib/github.ts:30-53 | the converse of FileTreeOnlyFiles: the walk of a listed directory returns each of its file items and everything an entered `.github` or `.github/workflows` returns |
| GitHub.EntriesFilesSplice | src/lib/github.ts:43-52 | the result for a listing prefix begins with the paths of the items before the k-th followed by the k-th item's paths |
| GitHub.FileTreeSplice | src/lib/github.ts:43-53 | the order of the walk: the items before the k-th, then the k-th item's paths (an entered directory's whole walk spliced in there) form a prefix of the result |
| GitHub.ListedFileWalked | src/lib/github.ts:49-55 | a file listed at a path, in a listing or as a single item, is returned by the walk of that path |
| GitHub.EnteredWalked | src/lib/github.ts:44-47 | what the walk of an entered `.github` or `.github/workflows` returns, the walk of the directory listing it returns |
| GitHub.RootWalkFindsWorkflows | src/lib/github.ts:30-61 | from the root the walk returns the root's files, the files of a listed `.github`, and the files of a `.github/workflows` listed in it |
| GitHub.FileTreeReadsOnly | src/lib/github.ts:44-48 | the walk reads only the start path, `.github` and `.github/workflows`: stores that agree on those give the same tree |
| GitHub.EntriesFilesReadsOnly | src/lib/github.ts:44-48 | the same for a prefix of a listing |
| GitHub.FilePaths | src/lib/github.ts:49-50 | the file items of a listing: a path is in it exactly when the listing has a file entry with that path |
| GitHub.FileTreeFlat | src/lib/github.ts:43-53 | without `.github` or `.github/workflows` among the directories, the walk returns the file items in listing order |
| GitHub.EntriesFilesFlat | src/lib/github.ts:43-53 | the same for a prefix of a listing |
| GitHub.IsWorkflowFile | src/lib/github.ts:110 | the filter's test as written, `&&` binding tighter than `||` (see WorkflowFilePrecedence) |
| GitHub.WorkflowFiles | src/lib/github.ts:110 | the filter over the tree (see WorkflowFilesSubsequence and WorkflowFilesMembers) |
| GitHub.WorkflowFilesSubsequence | src/lib/github.ts:110 | the workflow files are a subsequence of the file tree, in order |
| GitHub.WorkflowFilesMembers | src/lib/github.ts:110 | a path is a workflow file exactly when it is in the tree and passes the filter as written |
| GitHub.WorkflowFilePrecedence | src/lib/github.ts:110 | a `.yml` path passes exactly when it starts with `.github/workflows/`; a `.yaml` path passes wherever it is |
| GitHub.Truthy | src/lib/github.ts:116 | `if (content)` (also `!repo` and `if (analysis.dockerfileContent)` at lines 6 and 49 of the route): not null and not "" |
| GitHub.Fetch | src/lib/github.ts:76-89 | a file's content, or `null` when it cannot be fetched (see FetchFileFromRepo) |
| GitHub.CollectWorkflows | src/lib/github.ts:113-117 | a workflow file is a key exactly when its content was fetched and is non-empty, and it maps to that content |
| GitHub.AnalysisOf | src/lib/github.ts:63-134 | the analysis for a repository: languages listed, and every field taken from the remote (fetched files, FileTree at the root, the workflow filter, the fetched non-empty workflows) |
| GitHub.AnalysisOfUnique | src/lib/github.ts:119-134 | AnalysisOf determines every field: two analyses that satisfy it for the same repository are equal |
| GitHub.AnalyzeRepo | src/lib/github.ts:63-134 | throws for a bad URL, a failing `repos.get` or a failing `listLanguages`, and succeeds exactly when none of these happens; on success the result is AnalysisOf the parsed repository, so every field comes from the remote |
| GitHub.Message | src/app/api/analyze-repo/route.ts:60 | `error.message` of the thrown error: the URL error's text, or the failing call's name |
| GitHub.FetchFileFromRepo | src/lib/github.ts:10-27 | throws exactly for a bad URL (the URL error) or a failing `repos.get` (that call's error); gives `null` exactly when the file cannot be fetched, and otherwise the file's content |
| Text.LowerChar | src/app/api/analyze-repo/route.ts:17 | `toLowerCase` on one character, for ASCII capitals only (see ToLower and LowerKeepsSlash) |
| Text.IsWhitespace | src/lib/filegen.ts:46 | the characters `trim` removes: ECMAScript WhiteSpace and LineTerminator (see TrimStart and TrimEnd) |
| Text.StartsWith | src/app/api/analyze-repo/route.ts:22 | `startsWith` (see SomeStartsWithExists and WorkflowFilePrecedence) |
| Text.EndsWith | src/lib/github.ts:110 | `endsWith` (see WorkflowFilePrecedence) |
| Text.Includes | src/app/api/analyze-repo/route.ts:18 | `includes` (see SomeLowerIncludesExists) |
| Text.Join | src/lib/filegen.ts:48 | `join` (see JoinAllWhitespace) |
| Text.TrimStart | src/lib/filegen.ts:46 | the result is a suffix, everything dropped is whitespace, and it does not start with whitespace |
| Text.TrimEnd | src/lib/filegen.ts:46 | the result is a prefix, everything dropped is whitespace, and it does not end with whitespace |
| Text.Trim | src/lib/filegen.ts:46 | the result has no whitespace at either end, is no longer than the input, and a trimmed string is unchanged |
| Text.ToLower | src/app/api/analyze-repo/route.ts:17 | lowercasing keeps the length |
| Text.LowerKeepsSlash | src/app/api/analyze-repo/route.ts:17 | lowercasing neither creates nor removes a '/' |
| FileGen.Truthy | src/lib/filegen.ts:45 | `!res` is false: not undefined, null, false, 0 or "" |
| FileGen.HasStringContent | src/lib/filegen.ts:47 | `typeof res.content === "string"` |
| FileGen.HasArrayContent | src/lib/filegen.ts:49 | `Array.isArray(res.content)` |
| FileGen.IsFallback | src/lib/filegen.ts:50 | the shapes that reach `JSON.stringify(res)` (see ExtractTrimmed) |
| FileGen.ExtractText | src/lib/filegen.ts:44-51 | `extractTextContent`, its tests in the source's order (its properties are the Extract lemmas below) |
| FileGen.ExtractFalsy | src/lib/filegen.ts:45 | a falsy response gives "" |
| FileGen.ExtractTrimmed | src/lib/filegen.ts:44-51 | every shape but the fallback gives trimmed text; the fallback gives exactly the serialisation |
| FileGen.ExtractStringIdempotent | src/lib/filegen.ts:46 | a string gives itself trimmed, and extracting from that result again changes nothing |
| FileGen.StringContentBeforeArray | src/lib/filegen.ts:47 | a string `content` is tested before the array test: an array that carries one gives that content trimmed |
| FileGen.ArrayBeforeArrayContent | src/lib/filegen.ts:48-49 | an array's own elements are used even when it also has an array `content` |
| FileGen.ArrayContentLikeArray | src/lib/filegen.ts:48-49 | an object whose `content` is an array gives what that array gives |
| FileGen.SingletonArray | src/lib/filegen.ts:48 | wrapping a non-fallback response in a one-element array does not change the text |
| FileGen.JoinAllWhitespace | src/lib/filegen.ts:48 | joining whitespace-only parts with "\n" gives whitespace only |
| FileGen.FalsyElementsGiveEmpty | src/lib/filegen.ts:48 | an array of falsy values, however long, gives "" once the joined newlines are trimmed |
| FileGen.CleanMarkdownResponse | src/lib/filegen.ts:35-38 | empty input gives ""; any other result is trimmed |
| AnalyzeRepoRoute.SomeLowerEquals | src/app/api/analyze-repo/route.ts:17 | the `.some` scan for a lowercased name (see SomeLowerEqualsExists) |
| AnalyzeRepoRoute.SomeLowerIncludes | src/app/api/analyze-repo/route.ts:18 | the `.some` scan for a lowercased needle (see SomeLowerIncludesExists) |
| AnalyzeRepoRoute.SomeStartsWith | src/app/api/analyze-repo/route.ts:22 | the `.some` scan for a prefix (see SomeStartsWithExists) |
| AnalyzeRepoRoute.StartingWith | src/app/api/analyze-repo/route.ts:25 | the `.filter` for a prefix (see StartingWithMembers) |
| AnalyzeRepoRoute.SomeLowerEqualsExists | src/app/api/analyze-repo/route.ts:17 | the `.some` scan succeeds exactly when some path, lowercased, equals the name |
| AnalyzeRepoRoute.SomeLowerIncludesExists | src/app/api/analyze-repo/route.ts:18-19 | the `.some` scan succeeds exactly when some path, lowercased, contains the needle |
| AnalyzeRepoRoute.SomeStartsWithExists | src/app/api/analyze-repo/route.ts:22 | the `.some` scan succeeds exactly when some path starts with the prefix |
| AnalyzeRepoRoute.StartingWithMembers | src/app/api/analyze-repo/route.ts:25 | the `.filter` keeps exactly the paths that start with the prefix |
| AnalyzeRepoRoute.WorkflowCountImpliesSome | src/app/api/analyze-repo/route.ts:25-28 | more than zero workflow paths means the `.some` test for workflows succeeds |
| AnalyzeRepoRoute.NestedReadmeEarnsNothing | src/app/api/analyze-repo/route.ts:17 | for every tree, the README bonus fires exactly when some path without a '/' lowercases to `readme.md`: a README in a subdirectory earns nothing |
| AnalyzeRepoRoute.ReadmeAtRootOnly | src/app/api/analyze-repo/route.ts:17 | `README.md` earns the bonus and `docs/README.md` does not |
| AnalyzeRepoRoute.Min | src/app/api/analyze-repo/route.ts:36-39 | the result is at most both arguments and equal to one of them |
| AnalyzeRepoRoute.RoundHalfUp | src/app/api/analyze-repo/route.ts:42 | `Math.round` on reals (see RoundQuarter) |
| AnalyzeRepoRoute.RoundQuarter | src/app/api/analyze-repo/route.ts:42 | `Math.round(sum / 4)` of a non-negative integer is `(sum + 2) div 4` |
| AnalyzeRepoRoute.PresencePoints | src/app/api/analyze-repo/route.ts:17-19 | the documentation (and hygiene) points: at most 100, and 40, 70 or 100 exactly when the root-file bonus fires (otherwise 0, 30 or 60) |
| AnalyzeRepoRoute.SecurityPoints | src/app/api/analyze-repo/route.ts:22-25 | 30 for a Dependabot path plus 30 for more than one workflow path, so 0, 30 or 60 |
| AnalyzeRepoRoute.CiPoints | src/app/api/analyze-repo/route.ts:28 | 100 exactly when some path starts with `.github/workflows/`, and 0 exactly when none does |
| AnalyzeRepoRoute.Overall | src/app/api/analyze-repo/route.ts:42 | the rounded average is `(sum + 2) div 4`, within 2 of a quarter of the sum, and in [0, 100] when every score is |
| AnalyzeRepoRoute.RouteScores | src/app/api/analyze-repo/route.ts:14-44 | the reference scores of a file tree: the four point functions and their rounded average (its properties are RouteScoresProperties) |
| AnalyzeRepoRoute.RouteScoresProperties | src/app/api/analyze-repo/route.ts:14-44 | every score is at most 100; security is 0, 30 or 60; CI is 100 exactly when workflows exist; security 60 implies full CI; overall is `(sum + 2) div 4` and in [0, 100] |
| AnalyzeRepoRoute.PresenceScore | src/app/api/analyze-repo/route.ts:17-19 | the three `+=` bonuses and the clamp compute exactly PresencePoints; used for documentation (`readme.md`, `contribut`, `license`) and for hygiene, lines 31-33 (`.gitignore`, `codeowner`, `changelog`) |
| AnalyzeRepoRoute.SecurityScore | src/app/api/analyze-repo/route.ts:22-25 | the two `+=` bonuses and the clamp compute exactly SecurityPoints |
| AnalyzeRepoRoute.CiScore | src/app/api/analyze-repo/route.ts:28 | the `+=` bonus and the clamp compute exactly CiPoints |
| AnalyzeRepoRoute.ComputeScores | src/app/api/analyze-repo/route.ts:14-44 | the score block computes exactly RouteScores of the tree |
| AnalyzeRepoRoute.Id | src/app/api/analyze-repo/route.ts:49-56 | the identifier strings the route pushes, one per service (see IdInjective) |
| AnalyzeRepoRoute.IdInjective | src/app/api/analyze-repo/route.ts:49-56 | two services share an identifier exactly when they are the same service |
| AnalyzeRepoRoute.Suggested | src/app/api/analyze-repo/route.ts:48-56 | the reference list of suggested services (its properties are SuggestedCases, SuggestedExplainsReviewed and SuggestedDistinct) |
| AnalyzeRepoRoute.SuggestedCases | src/app/api/analyze-repo/route.ts:48-56 | the suggested list for each of the four combinations of Dockerfile present and workflows present |
| AnalyzeRepoRoute.SuggestedExplainsReviewed | src/app/api/analyze-repo/route.ts:49-56 | 4 to 6 services; an explanation exactly when the artifact is reviewed; review exactly when it exists, generate exactly when it does not; the audit and docs always |
| AnalyzeRepoRoute.SuggestedDistinct | src/app/api/analyze-repo/route.ts:48-56 | no service, and so no identifier, is suggested twice |
| AnalyzeRepoRoute.SuggestServices | src/app/api/analyze-repo/route.ts:48-56 | the pushes build exactly the suggested list for "Dockerfile content is truthy" and "some path is under `.github/workflows/`" |
| AnalyzeRepoRoute.Post | src/app/api/analyze-repo/route.ts:4-62 | 400 with "No repo provided" exactly when no repository is given; 500 with the URL error when parsing fails, and with the failing call for `repos.get` or `listLanguages`; 200 when all succeed, and 200 exactly for a report; the report's analysis is AnalysisOf the parsed repository, its scores are RouteScores of that tree, and its services follow the Dockerfile and the CI score |

## Left out

- The pull-request submission pipeline is not part of this model. `src/app/api/create-pr/route.ts` imports `createPullRequestWithFile`, but `src/lib/github.ts` does not define it.
- The generation and review routes call `explainFile`, `reviewDockerfile`, `reviewWorkflow`, `securityAudit`, `generateDocs`, `generateDockerfile` and `generateWorkflowForRepo`. None of them is defined in the files modelled, so they are not modelled.
- The language-model calls and their prompt texts in `src/lib/filegen.ts` and `src/lib/agent.ts` are I/O and are not modelled.
- The remote API calls are replaced by maps. The network, authentication and the asynchronous ordering of awaits are not modelled.
- Base64 decoding of file contents is not modelled: the `files` map holds already-decoded text.
- `packageJson` is left out of `Analysis`: the fetch of `package.json` and its `JSON.parse` are not modelled.
- AnalyzeRepo: a failing remote call is reported by the name of the call, not by the remote library's error message. So is the 500 message in `Post`.
- FileGen.CleanMarkdownResponse: the fence-stripping `replace` is a function parameter and only the empty-input guard and the final trim are stated. The regular expression as written does not match its comment, so its intended effect is not stated.
- FileGen.ExtractText: `JSON.stringify` of the fallback case is a function parameter, and NaN as a falsy number is not modelled.
- Text.ToLower: only ASCII letters are lowercased. Unicode case mapping is not modelled.
- A character stands for one UTF-16 code unit, as in JavaScript. No operation modelled here depends on how a code point above U+FFFF is split into two units.
- GitHub.GetFileTree: termination rests on the precondition that listed paths are longer than the path listed (ChildrenExtend). A remote listing that broke this would not be covered.
- GitHub.ParseRepoUrl: `repoUrl` is treated as a string. A non-string request field is outside the model, and `Post` takes `repo` as an optional string.
- The UI components, including the progress bar's floating-point geometry, and the thin HTTP wrappers of the other routes are not part of this model.
