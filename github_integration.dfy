/**
 * The GitHub activity aggregation: the loop that folds each repository's
 * commit list into a total, a per-repository table, a per-language count
 * and a list of commit details; the pull request and issue counts; the
 * repository totals; and the summary built from all of them.
 *
 * Every HTTP response is an input. A response is either a transport error
 * or a status code with the decoded JSON body. JSON keys that may be
 * missing or null are `Option`s; `.get(key, default)` is `GetOr(default)`.
 */
module GitHubIntegration {
  import opened Common
  import opened Dicts

  datatype Http<T> = TransportError | Response(status: int, body: T)

  /** `raise_for_status()` lets a response through exactly when its status is 2xx. */
  predicate RaiseForStatusOk<T>(r: Http<T>) {
    r.Response? && 200 <= r.status < 300
  }

  /** A repository as the repos listing returns it. */
  datatype Repo = Repo(
    name: string,
    htmlUrl: string,
    language: Option<string>,
    description: Option<string>,
    stars: Option<int>,
    forks: Option<int>,
    updatedAt: Option<string>)

  /** `repo.get('language')` is truthy: present, not null and not empty. */
  predicate HasLanguage(repo: Repo) {
    repo.language.Some? && repo.language.value != ""
  }

  /** A commit as the commits endpoint returns it; the fields are the nested message, date and URL. */
  datatype CommitJson = CommitJson(message: Option<string>, date: Option<string>, htmlUrl: Option<string>)

  /** One repository of the loop with the response its commit request got. */
  datatype RepoFetch = RepoFetch(repo: Repo, commits: Http<seq<CommitJson>>)

  datatype RepoCommits = RepoCommits(
    count: int, url: string, language: Option<string>, description: Option<string>, stars: int, forks: int)

  datatype CommitDetail = CommitDetail(repo: string, message: string, date: string, url: string)

  /** The four running aggregates of get_user_commits. */
  datatype CommitsAcc = CommitsAcc(
    total: int,
    byRepo: Dict<string, RepoCommits>,
    languages: Dict<string, int>,
    details: seq<CommitDetail>)

  const NoCommits := CommitsAcc(0, [], [], [])

  const MaxDetailsPerRepo := 10
  const MaxDetails := 50

  /** A repository adds to the aggregates when its request answered 200 with at least one commit. */
  predicate Contributes(f: RepoFetch) {
    f.commits.Response? && f.commits.status == 200 && |f.commits.body| > 0
  }

  function DetailOf(repoName: string, c: CommitJson): CommitDetail {
    CommitDetail(repoName, c.message.GetOr(""), c.date.GetOr(""), c.htmlUrl.GetOr(""))
  }

  function DetailsOf(repoName: string, commits: seq<CommitJson>): (ds: seq<CommitDetail>)
    ensures |ds| == |commits|
  {
    seq(|commits|, i requires 0 <= i < |commits| => DetailOf(repoName, commits[i]))
  }

  function EntryOf(repo: Repo, count: int): RepoCommits {
    RepoCommits(count, repo.htmlUrl, repo.language, repo.description, repo.stars.GetOr(0), repo.forks.GetOr(0))
  }

  /** The language counts after one repository: its commits go to its language when it contributes and has one. */
  function LanguagesAfter(languages: Dict<string, int>, f: RepoFetch): Dict<string, int> {
    if Contributes(f) && HasLanguage(f.repo)
    then Put(languages, f.repo.language.value, Get(languages, f.repo.language.value).GetOr(0) + |f.commits.body|)
    else languages
  }

  /** One iteration of the repository loop. */
  function CommitsStep(acc: CommitsAcc, f: RepoFetch): CommitsAcc {
    if !Contributes(f) then acc
    else
      var repo := f.repo;
      var commits := f.commits.body;
      var n := |commits|;
      CommitsAcc(
        acc.total + n,
        Put(acc.byRepo, repo.name, EntryOf(repo, n)),
        LanguagesAfter(acc.languages, f),
        acc.details + DetailsOf(repo.name, commits[..Min(MaxDetailsPerRepo, n)]))
  }

  /** The aggregates after the loop has visited the given repositories, in order. */
  function CommitsFold(fs: seq<RepoFetch>): CommitsAcc
    decreases |fs|
  {
    if fs == [] then NoCommits else CommitsStep(CommitsFold(fs[..|fs| - 1]), fs[|fs| - 1])
  }

  // Reference counts over the repositories, independent of the loop.

  /** The number of commits in repositories that contribute. */
  function CommittedTotal(fs: seq<RepoFetch>): int
    decreases |fs|
  {
    if fs == [] then 0
    else CommittedTotal(fs[..|fs| - 1]) + (if Contributes(fs[|fs| - 1]) then |fs[|fs| - 1].commits.body| else 0)
  }

  /** The number of commits in contributing repositories without a language. */
  function UnlabelledTotal(fs: seq<RepoFetch>): int
    decreases |fs|
  {
    if fs == [] then 0
    else
      var f := fs[|fs| - 1];
      UnlabelledTotal(fs[..|fs| - 1]) + (if Contributes(f) && !HasLanguage(f.repo) then |f.commits.body| else 0)
  }

  /** The number of contributing repositories. */
  function ContributingCount(fs: seq<RepoFetch>): nat
    decreases |fs|
  {
    if fs == [] then 0 else ContributingCount(fs[..|fs| - 1]) + (if Contributes(fs[|fs| - 1]) then 1 else 0)
  }

  function Names(fs: seq<RepoFetch>): (names: seq<string>)
    ensures |names| == |fs|
  {
    seq(|fs|, i requires 0 <= i < |fs| => fs[i].repo.name)
  }

  predicate DistinctNames(fs: seq<RepoFetch>) {
    forall i, j :: 0 <= i < j < |fs| ==> fs[i].repo.name != fs[j].repo.name
  }

  function CountOf(c: RepoCommits): int { c.count }

  function SumCounts(byRepo: Dict<string, RepoCommits>): int {
    SumBy(byRepo, CountOf)
  }

  predicate PositiveCounts(byRepo: Dict<string, RepoCommits>) {
    forall e :: e in byRepo ==> e.1.count > 0
  }

  datatype CommitsReport = CommitsReport(
    total: int,
    byRepository: Dict<string, RepoCommits>,
    timeRangeDays: int,
    languageBreakdown: Dict<string, int>,
    commitDetails: seq<CommitDetail>,
    repositoriesWithCommits: int)

  /** The dict get_user_commits returns, built from the aggregates after the loop. */
  function ReportOf(acc: CommitsAcc, days: int): CommitsReport {
    CommitsReport(acc.total, acc.byRepo, days, acc.languages,
                  acc.details[..Min(MaxDetails, |acc.details|)], |acc.byRepo|)
  }

  /**
   * get_user_commits. `repos` is the repository listing, each repository
   * paired with the response to its commit request; the result is None when
   * the listing request raises.
   */
  method GetUserCommits(repos: Http<seq<RepoFetch>>, days: int) returns (r: Option<CommitsReport>)
    ensures r.Some? <==> RaiseForStatusOk(repos)
    ensures r.Some? ==> r.value == ReportOf(CommitsFold(repos.body), days)
  {
    if !RaiseForStatusOk(repos) {
      return None;
    }
    var fs := repos.body;
    var total := 0;
    var byRepo: Dict<string, RepoCommits> := [];
    var details: seq<CommitDetail> := [];
    var languages: Dict<string, int> := [];
    for i := 0 to |fs|
      invariant CommitsAcc(total, byRepo, languages, details) == CommitsFold(fs[..i])
    {
      assert fs[..i + 1][..i] == fs[..i];
      total, byRepo, languages, details := VisitRepo(total, byRepo, languages, details, fs[i]);
    }
    assert fs[..|fs|] == fs;
    return Some(ReportOf(CommitsAcc(total, byRepo, languages, details), days));
  }

  /** The body of the repository loop: one repository's commits folded into the aggregates. */
  method VisitRepo(total: int, byRepo: Dict<string, RepoCommits>, languages: Dict<string, int>,
                   details: seq<CommitDetail>, f: RepoFetch)
    returns (total': int, byRepo': Dict<string, RepoCommits>, languages': Dict<string, int>, details': seq<CommitDetail>)
    ensures CommitsAcc(total', byRepo', languages', details') == CommitsStep(CommitsAcc(total, byRepo, languages, details), f)
  {
    total', byRepo', languages', details' := total, byRepo, languages, details;
    var repo := f.repo;
    var response := f.commits;
    if response.Response? && response.status == 200 {
      var commits := response.body;
      var count := |commits|;
      if count > 0 {
        if repo.language.Some? && repo.language.value != "" {
          var lang := repo.language.value;
          languages' := Put(languages', lang, Get(languages', lang).GetOr(0) + count);
        }
        byRepo' := Put(byRepo', repo.name, EntryOf(repo, count));
        details' := AppendDetails(details', repo.name, commits[..Min(MaxDetailsPerRepo, count)]);
        total' := total' + count;
      }
    }
  }

  /** The inner loop: one detail record per shown commit, appended in order. */
  method AppendDetails(details: seq<CommitDetail>, repoName: string, shown: seq<CommitJson>)
    returns (details': seq<CommitDetail>)
    ensures details' == details + DetailsOf(repoName, shown)
  {
    details' := details;
    for j := 0 to |shown|
      invariant details' == details + DetailsOf(repoName, shown[..j])
    {
      assert DetailsOf(repoName, shown[..j + 1]) == DetailsOf(repoName, shown[..j]) + [DetailOf(repoName, shown[j])];
      details' := details' + [DetailOf(repoName, shown[j])];
    }
    assert shown[..|shown|] == shown;
  }

  // ---------------------------------------------------------------------
  // What the commit aggregates mean
  // ---------------------------------------------------------------------

  /** The total is the number of commits in contributing repositories. */
  lemma {:induction false} TotalIsCommittedTotal(fs: seq<RepoFetch>)
    ensures CommitsFold(fs).total == CommittedTotal(fs)
    ensures CommittedTotal(fs) >= ContributingCount(fs)
    decreases |fs|
  {
    if fs != [] {
      TotalIsCommittedTotal(fs[..|fs| - 1]);
    }
  }

  /** Only contributing repositories get a row, and there is at most one row per name. */
  lemma {:induction false} ByRepoRows(fs: seq<RepoFetch>)
    ensures DistinctKeys(CommitsFold(fs).byRepo)
    ensures |CommitsFold(fs).byRepo| <= ContributingCount(fs)
    ensures PositiveCounts(CommitsFold(fs).byRepo)
    decreases |fs|
  {
    if fs != [] {
      var prev := CommitsFold(fs[..|fs| - 1]);
      var f := fs[|fs| - 1];
      ByRepoRows(fs[..|fs| - 1]);
      if Contributes(f) {
        PutKeepsDistinct(prev.byRepo, f.repo.name, EntryOf(f.repo, |f.commits.body|));
        PutLength(prev.byRepo, f.repo.name, EntryOf(f.repo, |f.commits.body|));
        forall e | e in CommitsFold(fs).byRepo
          ensures e.1.count > 0
        {
          PutItemsFrom(prev.byRepo, f.repo.name, EntryOf(f.repo, |f.commits.body|), e);
        }
      }
    }
  }

  /** Only the name of a repository the loop visited can key a row. */
  lemma {:induction false} UnvisitedNameHasNoRow(fs: seq<RepoFetch>, k: string)
    requires forall i :: 0 <= i < |fs| ==> fs[i].repo.name != k
    ensures !HasKey(CommitsFold(fs).byRepo, k)
    decreases |fs|
  {
    if fs != [] {
      var prefix := fs[..|fs| - 1];
      var f := fs[|fs| - 1];
      UnvisitedNameHasNoRow(prefix, k);
      if Contributes(f) {
        PutHasKey(CommitsFold(prefix).byRepo, f.repo.name, EntryOf(f.repo, |f.commits.body|), k);
      }
    }
  }

  /**
   * The per-repository counts never add up to more than the total (a
   * repeated name overwrites its row); with distinct repository names they
   * add up to exactly the total, and every contributing repository has a row.
   */
  lemma {:induction false} ByRepoSumsToTotal(fs: seq<RepoFetch>)
    ensures SumCounts(CommitsFold(fs).byRepo) <= CommitsFold(fs).total
    ensures DistinctNames(fs) ==> SumCounts(CommitsFold(fs).byRepo) == CommitsFold(fs).total
    ensures DistinctNames(fs) ==> |CommitsFold(fs).byRepo| == ContributingCount(fs)
    decreases |fs|
  {
    if fs != [] {
      var prefix := fs[..|fs| - 1];
      var prev := CommitsFold(prefix);
      var f := fs[|fs| - 1];
      ByRepoSumsToTotal(prefix);
      assert DistinctNames(fs) ==> DistinctNames(prefix);
      if Contributes(f) {
        var entry := EntryOf(f.repo, |f.commits.body|);
        SumByPut(prev.byRepo, f.repo.name, entry, CountOf);
        PutLength(prev.byRepo, f.repo.name, entry);
        if DistinctNames(fs) {
          UnvisitedNameHasNoRow(prefix, f.repo.name);
        }
        if HasKey(prev.byRepo, f.repo.name) {
          ByRepoRows(prefix);
          GetFindsItem(prev.byRepo, f.repo.name);
        }
      }
    }
  }

  /** One repository adds its commits to the language sum when it contributes and has a language. */
  lemma LanguagesStep(languages: Dict<string, int>, f: RepoFetch)
    ensures SumValues(LanguagesAfter(languages, f))
            == SumValues(languages) + (if Contributes(f) && HasLanguage(f.repo) then |f.commits.body| else 0)
    ensures DistinctKeys(languages) ==> DistinctKeys(LanguagesAfter(languages, f))
  {
    if Contributes(f) && HasLanguage(f.repo) {
      var lang := f.repo.language.value;
      var n := |f.commits.body|;
      AddToCountSum(languages, lang, n);
      if DistinctKeys(languages) {
        PutKeepsDistinct(languages, lang, Get(languages, lang).GetOr(0) + n);
      }
    }
  }

  /**
   * Commits are counted per language only for repositories with a language:
   * the language counts plus the commits of unlabelled repositories make
   * the total, so the language counts never exceed it.
   */
  lemma {:induction false} LanguagesPlusUnlabelledIsTotal(fs: seq<RepoFetch>)
    ensures SumValues(CommitsFold(fs).languages) + UnlabelledTotal(fs) == CommitsFold(fs).total
    ensures UnlabelledTotal(fs) >= 0
    ensures DistinctKeys(CommitsFold(fs).languages)
    decreases |fs|
  {
    if fs != [] {
      var prev := CommitsFold(fs[..|fs| - 1]);
      var f := fs[|fs| - 1];
      LanguagesPlusUnlabelledIsTotal(fs[..|fs| - 1]);
      LanguagesStep(prev.languages, f);
    }
  }

  /** Each contributing repository adds at most ten details, in the order visited. */
  lemma {:induction false} DetailsBounded(fs: seq<RepoFetch>)
    ensures |CommitsFold(fs).details| <= MaxDetailsPerRepo * ContributingCount(fs)
    decreases |fs|
  {
    if fs != [] {
      DetailsBounded(fs[..|fs| - 1]);
    }
  }

  /** The returned report: at most fifty details, and one repository count per row. */
  lemma ReportShape(fs: seq<RepoFetch>, days: int)
    ensures |ReportOf(CommitsFold(fs), days).commitDetails| <= MaxDetails
    ensures ReportOf(CommitsFold(fs), days).commitDetails <= CommitsFold(fs).details
    ensures ReportOf(CommitsFold(fs), days).repositoriesWithCommits <= ContributingCount(fs)
    ensures ReportOf(CommitsFold(fs), days).repositoriesWithCommits <= ReportOf(CommitsFold(fs), days).total
  {
    ByRepoRows(fs);
    TotalIsCommittedTotal(fs);
  }

  lemma FoldAppend(fs: seq<RepoFetch>, f: RepoFetch)
    ensures CommitsFold(fs + [f]) == CommitsStep(CommitsFold(fs), f)
  {
    assert (fs + [f])[..|fs + [f]| - 1] == fs;
  }

  /**
   * A repository whose commit request failed, raised or came back empty
   * changes no aggregate: the loop ends as if it had never been listed.
   */
  lemma {:induction false} FailedFetchIsIgnored(p: seq<RepoFetch>, f: RepoFetch, q: seq<RepoFetch>)
    requires !Contributes(f)
    ensures CommitsFold(p + [f] + q) == CommitsFold(p + q)
    decreases |q|
  {
    if q == [] {
      assert p + [f] + q == p + [f];
      assert p + q == p;
      FoldAppend(p, f);
    } else {
      var q' := q[..|q| - 1];
      var y := q[|q| - 1];
      FailedFetchIsIgnored(p, f, q');
      assert p + [f] + q == (p + [f] + q') + [y];
      assert p + q == (p + q') + [y];
      FoldAppend(p + [f] + q', y);
      FoldAppend(p + q', y);
    }
  }

  // ---------------------------------------------------------------------
  // Pull requests and issues (both come from the issue search)
  // ---------------------------------------------------------------------

  /** An item of the issue search; `mergedAt` is `pull_request.merged_at`. */
  datatype SearchItem = SearchItem(
    title: Option<string>,
    htmlUrl: Option<string>,
    repositoryUrl: Option<string>,
    state: Option<string>,
    createdAt: Option<string>,
    mergedAt: Option<string>)

  /** The search response body: `data.get("items", [])`. */
  datatype SearchResult = SearchResult(items: Option<seq<SearchItem>>)

  function ItemsOf(r: SearchResult): seq<SearchItem> {
    r.items.GetOr([])
  }

  /** `"".split("/")[-1]`-style: the text after the last '/', or all of it when there is none. */
  function LastSegment(s: string): (r: string)
    ensures |r| <= |s| && r == s[|s| - |r|..]
    ensures forall i :: 0 <= i < |r| ==> r[i] != '/'
    ensures |r| < |s| ==> s[|s| - |r| - 1] == '/'
    decreases |s|
  {
    if s == [] || s[|s| - 1] == '/' then []
    else LastSegment(s[..|s| - 1]) + [s[|s| - 1]]
  }

  datatype ItemEntry = ItemEntry(
    title: Option<string>, url: Option<string>, repo: string, state: Option<string>, createdAt: Option<string>)

  function EntryOfItem(item: SearchItem): ItemEntry {
    ItemEntry(item.title, item.htmlUrl, LastSegment(item.repositoryUrl.GetOr("")), item.state, item.createdAt)
  }

  const MaxListedItems := 10

  /** The first ten items, each reduced to its entry. */
  function ListedItems(items: seq<SearchItem>): (entries: seq<ItemEntry>)
    ensures |entries| == Min(MaxListedItems, |items|)
    ensures forall i :: 0 <= i < |entries| ==> entries[i] == EntryOfItem(items[i])
  {
    var n := Min(MaxListedItems, |items|);
    seq(n, i requires 0 <= i < n => EntryOfItem(items[i]))
  }

  /** `pr.get("pull_request", {}).get("merged_at")` is truthy. */
  predicate IsMerged(item: SearchItem) {
    item.mergedAt.Some? && item.mergedAt.value != ""
  }

  /** Counted as open: not merged (merged is checked first) and in state "open". */
  predicate IsOpenUnmerged(item: SearchItem) {
    !IsMerged(item) && item.state == Some("open")
  }

  function MergedCount(items: seq<SearchItem>): nat
    decreases |items|
  {
    if items == [] then 0
    else MergedCount(items[..|items| - 1]) + (if IsMerged(items[|items| - 1]) then 1 else 0)
  }

  function OpenCount(items: seq<SearchItem>): nat
    decreases |items|
  {
    if items == [] then 0
    else OpenCount(items[..|items| - 1]) + (if IsOpenUnmerged(items[|items| - 1]) then 1 else 0)
  }

  /** No pull request is counted both merged and open, so the two counts fit in the total. */
  lemma {:induction false} MergedPlusOpenAtMostTotal(items: seq<SearchItem>)
    ensures MergedCount(items) + OpenCount(items) <= |items|
    decreases |items|
  {
    if items != [] {
      MergedPlusOpenAtMostTotal(items[..|items| - 1]);
    }
  }

  datatype PullRequestReport = PullRequestReport(total: int, merged: int, open: int, prs: seq<ItemEntry>)

  /** get_user_pull_requests: None when the search request raises. */
  method GetUserPullRequests(search: Http<SearchResult>) returns (r: Option<PullRequestReport>)
    ensures r.Some? <==> RaiseForStatusOk(search)
    ensures r.Some? ==> r.value.total == |ItemsOf(search.body)|
    ensures r.Some? ==> r.value.merged == MergedCount(ItemsOf(search.body))
    ensures r.Some? ==> r.value.open == OpenCount(ItemsOf(search.body))
    ensures r.Some? ==> r.value.prs == ListedItems(ItemsOf(search.body))
  {
    if !RaiseForStatusOk(search) {
      return None;
    }
    var prs := ItemsOf(search.body);
    var mergedCount := 0;
    var openCount := 0;
    for i := 0 to |prs|
      invariant mergedCount == MergedCount(prs[..i])
      invariant openCount == OpenCount(prs[..i])
    {
      assert prs[..i + 1][..i] == prs[..i];
      var pr := prs[i];
      if pr.mergedAt.Some? && pr.mergedAt.value != "" {
        mergedCount := mergedCount + 1;
      } else if pr.state == Some("open") {
        openCount := openCount + 1;
      }
    }
    assert prs[..|prs|] == prs;
    return Some(PullRequestReport(|prs|, mergedCount, openCount, ListedItems(prs)));
  }

  function ClosedCount(items: seq<SearchItem>): (n: nat)
    ensures n <= |items|
    decreases |items|
  {
    if items == [] then 0
    else ClosedCount(items[..|items| - 1]) + (if items[|items| - 1].state == Some("closed") then 1 else 0)
  }

  datatype IssueReport = IssueReport(total: int, closed: int, open: int, issues: seq<ItemEntry>)

  /** get_user_issues: closed are those in state "closed", open is everything else. */
  function GetUserIssues(search: Http<SearchResult>): (r: Option<IssueReport>)
    ensures r.Some? <==> RaiseForStatusOk(search)
    ensures r.Some? ==> r.value.total == |ItemsOf(search.body)|
    ensures r.Some? ==> r.value.closed == ClosedCount(ItemsOf(search.body))
    ensures r.Some? ==> 0 <= r.value.open && r.value.closed + r.value.open == r.value.total
    ensures r.Some? ==> |r.value.issues| == Min(MaxListedItems, r.value.total)
    ensures r.Some? ==> r.value.issues == ListedItems(ItemsOf(search.body))
  {
    if !RaiseForStatusOk(search) then None
    else
      var issues := ItemsOf(search.body);
      var closed := ClosedCount(issues);
      Some(IssueReport(|issues|, closed, |issues| - closed, ListedItems(issues)))
  }

  /** The listed repository of an item is the last path segment of its repository URL. */
  lemma ListedRepoIsLastSegment(items: seq<SearchItem>, i: nat)
    requires i < Min(MaxListedItems, |items|)
    ensures ListedItems(items)[i].repo == LastSegment(items[i].repositoryUrl.GetOr(""))
  {
  }

  // ---------------------------------------------------------------------
  // Repositories and the summary
  // ---------------------------------------------------------------------

  /** `sum(repo.get("stargazers_count", 0) for repo in repos)`. */
  function SumStars(repos: seq<Repo>): int
    decreases |repos|
  {
    if repos == [] then 0 else repos[0].stars.GetOr(0) + SumStars(repos[1..])
  }

  function SumForks(repos: seq<Repo>): int
    decreases |repos|
  {
    if repos == [] then 0 else repos[0].forks.GetOr(0) + SumForks(repos[1..])
  }

  /** Star totals add up over a split of the listing. */
  lemma {:induction false} SumStarsAppend(a: seq<Repo>, b: seq<Repo>)
    ensures SumStars(a + b) == SumStars(a) + SumStars(b)
    decreases |a|
  {
    if a == [] {
      assert a + b == b;
    } else {
      assert (a + b)[1..] == a[1..] + b;
      SumStarsAppend(a[1..], b);
    }
  }

  /** With no negative counts, the total is at least any one repository's stars. */
  lemma {:induction false} SumStarsBoundsEach(repos: seq<Repo>, i: nat)
    requires forall r :: r in repos ==> r.stars.GetOr(0) >= 0
    requires i < |repos|
    ensures repos[i].stars.GetOr(0) <= SumStars(repos)
    decreases |repos|
  {
    assert repos[0] in repos;
    if i > 0 {
      SumStarsBoundsEach(repos[1..], i - 1);
    }
    SumStarsNonNegative(repos[1..]);
  }

  lemma {:induction false} SumStarsNonNegative(repos: seq<Repo>)
    requires forall r :: r in repos ==> r.stars.GetOr(0) >= 0
    ensures SumStars(repos) >= 0
    decreases |repos|
  {
    if repos != [] {
      assert repos[0] in repos;
      SumStarsNonNegative(repos[1..]);
    }
  }

  datatype RepoEntry = RepoEntry(
    name: string, url: string, description: Option<string>, language: Option<string>,
    stars: Option<int>, forks: Option<int>, updatedAt: Option<string>)

  datatype ReposReport = ReposReport(total: int, totalStars: int, totalForks: int, repositories: seq<RepoEntry>)

  const MaxListedRepos := 20

  function RepoEntryOf(r: Repo): RepoEntry {
    RepoEntry(r.name, r.htmlUrl, r.description, r.language, r.stars, r.forks, r.updatedAt)
  }

  /** get_user_repos: None when the request raises. */
  function GetUserRepos(response: Http<seq<Repo>>): (r: Option<ReposReport>)
    ensures r.Some? <==> RaiseForStatusOk(response)
    ensures r.Some? ==> r.value.total == |response.body|
    ensures r.Some? ==> r.value.totalStars == SumStars(response.body)
    ensures r.Some? ==> r.value.totalForks == SumForks(response.body)
    ensures r.Some? ==> |r.value.repositories| == Min(MaxListedRepos, |response.body|)
    ensures r.Some? ==> forall i :: 0 <= i < |r.value.repositories| ==>
              r.value.repositories[i] == RepoEntryOf(response.body[i])
  {
    if !RaiseForStatusOk(response) then None
    else
      var repos := response.body;
      var shown := repos[..Min(MaxListedRepos, |repos|)];
      Some(ReposReport(|repos|, SumStars(repos), SumForks(repos),
                       seq(|shown|, i requires 0 <= i < |shown| => RepoEntryOf(shown[i]))))
  }

  /** The user record `get_user_info` returns, reduced to the fields the summary copies. */
  datatype UserInfo = UserInfo(
    name: Option<string>, avatarUrl: Option<string>, bio: Option<string>, location: Option<string>,
    followers: Option<int>, following: Option<int>, publicRepos: Option<int>)

  datatype Summary = Summary(
    totalCommits: int, totalPrs: int, totalIssues: int, publicRepos: int, totalStars: int, timePeriod: string)

  datatype ActivitySummary = ActivitySummary(
    username: string,
    userInfo: UserInfo,
    commits: CommitsReport,
    pullRequests: PullRequestReport,
    issues: IssueReport,
    repositories: ReposReport,
    summary: Summary)

  /**
   * get_user_activity_summary: the five requests in order; if any raises,
   * the whole call raises (None).
   */
  method GetUserActivitySummary(
    username: string, days: int,
    userInfo: Http<UserInfo>,
    commitRepos: Http<seq<RepoFetch>>,
    prSearch: Http<SearchResult>,
    issueSearch: Http<SearchResult>,
    repos: Http<seq<Repo>>)
    returns (r: Option<ActivitySummary>)
    ensures r.Some? <==> RaiseForStatusOk(userInfo) && RaiseForStatusOk(commitRepos)
                         && RaiseForStatusOk(prSearch) && RaiseForStatusOk(issueSearch) && RaiseForStatusOk(repos)
    ensures r.Some? ==> r.value.summary.totalCommits == CommitsFold(commitRepos.body).total
    ensures r.Some? ==> r.value.summary.totalPrs == |ItemsOf(prSearch.body)|
    ensures r.Some? ==> r.value.summary.totalIssues == |ItemsOf(issueSearch.body)|
    ensures r.Some? ==> r.value.summary.publicRepos == |repos.body|
    ensures r.Some? ==> r.value.summary.totalStars == SumStars(repos.body)
    ensures r.Some? ==> r.value.summary.timePeriod == "Last " + IntToString(days) + " days"
    ensures r.Some? ==> r.value.commits.timeRangeDays == days
  {
    if !RaiseForStatusOk(userInfo) {
      return None;
    }
    var commits := GetUserCommits(commitRepos, days);
    if commits.None? {
      return None;
    }
    var pullRequests := GetUserPullRequests(prSearch);
    if pullRequests.None? {
      return None;
    }
    var issues := GetUserIssues(issueSearch);
    if issues.None? {
      return None;
    }
    var repositories := GetUserRepos(repos);
    if repositories.None? {
      return None;
    }
    var summary := Summary(
      commits.value.total, pullRequests.value.total, issues.value.total,
      repositories.value.total, repositories.value.totalStars,
      "Last " + IntToString(days) + " days");
    return Some(ActivitySummary(username, userInfo.body, commits.value, pullRequests.value,
                                issues.value, repositories.value, summary));
  }
}
