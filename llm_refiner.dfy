/**
 * The deterministic helpers of the activity refiner: ranking languages and
 * projects, classifying contribution areas by keyword, naming a development
 * style, the fixed-size fallback insight lists and description, the text
 * formatters, and the merge that adds the "refined" entry to the activity
 * data.
 *
 * Each helper takes the piece of the activity data it reads (the shapes are
 * those the GitHub aggregation produces). The ratio tests of the source
 * (`prs > commits * 0.2`, `prs > commits * 0.3`, `prs > issues * 1.5`) are
 * stated as the exact integer comparisons they stand for.
 */
module LlmRefiner {
  import opened Common
  import opened Dicts
  import opened Sorting
  import GitHubIntegration

  type RepoEntry = GitHubIntegration.RepoEntry
  type RepoCommits = GitHubIntegration.RepoCommits
  type CommitDetail = GitHubIntegration.CommitDetail

  // ---------------------------------------------------------------------
  // Languages and top projects
  // ---------------------------------------------------------------------

  function CountKey(item: (string, int)): int { item.1 }

  /** _extract_languages: the breakdown's languages, most commits first. */
  function ExtractLanguages(breakdown: Dict<string, int>): (languages: seq<string>)
    ensures |languages| == |breakdown|
  {
    Keys(SortDesc(breakdown, CountKey))
  }

  /** The ranking lists exactly the languages of the breakdown. */
  lemma ExtractLanguagesSameKeys(breakdown: Dict<string, int>, lang: string)
    ensures lang in ExtractLanguages(breakdown) <==> HasKey(breakdown, lang)
  {
    var sorted := SortDesc(breakdown, CountKey);
    HasKeyIffInKeys(breakdown, lang);
    if lang in Keys(sorted) {
      var i :| 0 <= i < |sorted| && Keys(sorted)[i] == lang;
      assert sorted[i] in multiset(breakdown);
      var k :| 0 <= k < |breakdown| && breakdown[k] == sorted[i];
      assert Keys(breakdown)[k] == lang;
    }
    if lang in Keys(breakdown) {
      var k :| 0 <= k < |breakdown| && Keys(breakdown)[k] == lang;
      assert breakdown[k] in multiset(sorted);
      var i :| 0 <= i < |sorted| && sorted[i] == breakdown[k];
      assert Keys(sorted)[i] == lang;
    }
  }

  /** An earlier language in the ranking has at least as many commits as a later one. */
  lemma ExtractLanguagesByCount(breakdown: Dict<string, int>, i: nat, j: nat)
    requires DistinctKeys(breakdown)
    requires i < j < |breakdown|
    ensures var languages := ExtractLanguages(breakdown);
            Get(breakdown, languages[i]).Some? && Get(breakdown, languages[j]).Some? &&
            Get(breakdown, languages[i]).value >= Get(breakdown, languages[j]).value
  {
    var sorted := SortDesc(breakdown, CountKey);
    assert sorted[i] in multiset(breakdown) && sorted[j] in multiset(breakdown);
    GetOfItem(breakdown, sorted[i]);
    GetOfItem(breakdown, sorted[j]);
  }

  /** A repository's rank key: `x.get("stars", 0)`. */
  function StarsKey(repo: RepoEntry): int {
    repo.stars.GetOr(0)
  }

  const MaxTopProjects := 5

  /** _extract_top_projects: the five repositories with the most stars, most first. */
  function ExtractTopProjects(repos: seq<RepoEntry>): (top: seq<RepoEntry>)
    ensures |top| == Min(MaxTopProjects, |repos|)
    ensures SortedDesc(top, StarsKey)
    ensures multiset(top) <= multiset(repos)
  {
    var sorted := SortDesc(repos, StarsKey);
    var k := Min(MaxTopProjects, |repos|);
    assert sorted == sorted[..k] + sorted[k..];
    sorted[..k]
  }

  /** No repository left out of the top list has more stars than one in it. */
  lemma TopProjectsOutrankTheRest(repos: seq<RepoEntry>, r: RepoEntry, t: RepoEntry)
    requires r in multiset(repos) - multiset(ExtractTopProjects(repos))
    requires t in ExtractTopProjects(repos)
    ensures StarsKey(r) <= StarsKey(t)
  {
    var sorted := SortDesc(repos, StarsKey);
    var k := Min(MaxTopProjects, |repos|);
    assert ExtractTopProjects(repos) == sorted[..k];
    assert multiset(sorted[..k]) + multiset(sorted[k..]) == multiset(repos) by {
      assert sorted == sorted[..k] + sorted[k..];
    }
    assert r in sorted[k..];
    var m :| k <= m < |sorted| && sorted[m] == r;
    var i :| 0 <= i < k && sorted[i] == t;
  }

  // ---------------------------------------------------------------------
  // Contribution areas
  // ---------------------------------------------------------------------

  const WebWords := ["web", "frontend", "react", "vue", "angular"]
  const BackendWords := ["backend", "api", "server", "database", "django", "fastapi"]
  const MobileWords := ["mobile", "ios", "android", "flutter"]
  const DataWords := ["data", "ml", "ai", "machine", "neural", "tensorflow", "pytorch"]
  const DevOpsWords := ["devops", "docker", "kubernetes", "cloud", "aws", "azure", "gcp"]
  const ToolWords := ["tool", "cli", "lib", "framework", "utility"]

  const WebArea := "Web Development"
  const BackendArea := "Backend Development"
  const MobileArea := "Mobile Development"
  const DataArea := "Data/AI/ML"
  const DevOpsArea := "DevOps/Cloud"
  const ToolArea := "Tools & Libraries"
  const GeneralArea := "General Development"

  /** `any(word in text for word in words)`. */
  predicate MentionsAny(text: string, words: seq<string>) {
    exists i :: 0 <= i < |words| && ContainsText(text, words[i])
  }

  predicate MentionsAnyKeyword(text: string) {
    MentionsAny(text, WebWords) || MentionsAny(text, BackendWords) || MentionsAny(text, MobileWords)
    || MentionsAny(text, DataWords) || MentionsAny(text, DevOpsWords) || MentionsAny(text, ToolWords)
  }

  /** `(repo.get("description") or "").lower()`. */
  function DescriptionText(repo: RepoEntry): string {
    Lower(repo.description.GetOr(""))
  }

  /** One of the six tests: the area joins the set when the text mentions one of its words. */
  function WithArea(areas: set<string>, text: string, words: seq<string>, area: string): set<string> {
    if MentionsAny(text, words) then areas + {area} else areas
  }

  /** The six tests, in the source's order, for one description; an empty one adds nothing. */
  function AddTextAreas(areas: set<string>, text: string): set<string> {
    if text == "" then areas
    else
      var web := WithArea(areas, text, WebWords, WebArea);
      var backend := WithArea(web, text, BackendWords, BackendArea);
      var mobile := WithArea(backend, text, MobileWords, MobileArea);
      var data := WithArea(mobile, text, DataWords, DataArea);
      var devops := WithArea(data, text, DevOpsWords, DevOpsArea);
      WithArea(devops, text, ToolWords, ToolArea)
  }

  /** The set the loop builds over the given repositories. */
  function AreasOf(repos: seq<RepoEntry>): set<string>
    decreases |repos|
  {
    if repos == [] then {} else AddTextAreas(AreasOf(repos[..|repos| - 1]), DescriptionText(repos[|repos| - 1]))
  }

  lemma NoWordInEmptyText(words: seq<string>)
    requires forall i :: 0 <= i < |words| ==> words[i] != []
    ensures !MentionsAny("", words)
  {
    forall i | 0 <= i < |words|
      ensures !ContainsText("", words[i])
    {
      EmptyContainsOnlyEmpty(words[i]);
    }
  }

  lemma WithAreaEmpty(areas: set<string>, text: string, words: seq<string>, area: string)
    ensures WithArea(areas, text, words, area) == {} <==> areas == {} && !MentionsAny(text, words)
    ensures area != GeneralArea ==> (GeneralArea in WithArea(areas, text, words, area) <==> GeneralArea in areas)
  {
    if MentionsAny(text, words) {
      assert area in WithArea(areas, text, words, area);
    }
  }

  /** A description adds no area exactly when it mentions no keyword, and never the general one. */
  lemma AddTextAreasEmpty(areas: set<string>, text: string)
    ensures AddTextAreas(areas, text) == {} <==> areas == {} && !MentionsAnyKeyword(text)
    ensures GeneralArea in AddTextAreas(areas, text) <==> GeneralArea in areas
  {
    if text == "" {
      NoWordInEmptyText(WebWords);
      NoWordInEmptyText(BackendWords);
      NoWordInEmptyText(MobileWords);
      NoWordInEmptyText(DataWords);
      NoWordInEmptyText(DevOpsWords);
      NoWordInEmptyText(ToolWords);
    } else {
      var web := WithArea(areas, text, WebWords, WebArea);
      var backend := WithArea(web, text, BackendWords, BackendArea);
      var mobile := WithArea(backend, text, MobileWords, MobileArea);
      var data := WithArea(mobile, text, DataWords, DataArea);
      var devops := WithArea(data, text, DevOpsWords, DevOpsArea);
      WithAreaEmpty(areas, text, WebWords, WebArea);
      WithAreaEmpty(web, text, BackendWords, BackendArea);
      WithAreaEmpty(backend, text, MobileWords, MobileArea);
      WithAreaEmpty(mobile, text, DataWords, DataArea);
      WithAreaEmpty(data, text, DevOpsWords, DevOpsArea);
      WithAreaEmpty(devops, text, ToolWords, ToolArea);
    }
  }

  /** The loop finds no area exactly when no description mentions a keyword. */
  lemma {:induction false} NoAreaIffNoKeyword(repos: seq<RepoEntry>)
    ensures AreasOf(repos) == {} <==> forall i :: 0 <= i < |repos| ==> !MentionsAnyKeyword(DescriptionText(repos[i]))
    ensures GeneralArea !in AreasOf(repos)
    decreases |repos|
  {
    if repos != [] {
      var prefix := repos[..|repos| - 1];
      NoAreaIffNoKeyword(prefix);
      AddTextAreasEmpty(AreasOf(prefix), DescriptionText(repos[|repos| - 1]));
      assert forall i :: 0 <= i < |prefix| ==> prefix[i] == repos[i];
    }
  }

  /** The six tests of the loop body for one repository. */
  method AddAreas(areas: set<string>, text: string) returns (areas': set<string>)
    ensures areas' == AddTextAreas(areas, text)
  {
    areas' := areas;
    if text != "" {
      if MentionsAny(text, WebWords) {
        areas' := areas' + {WebArea};
      }
      assert areas' == WithArea(areas, text, WebWords, WebArea);
      ghost var web := areas';
      if MentionsAny(text, BackendWords) {
        areas' := areas' + {BackendArea};
      }
      assert areas' == WithArea(web, text, BackendWords, BackendArea);
      ghost var backend := areas';
      if MentionsAny(text, MobileWords) {
        areas' := areas' + {MobileArea};
      }
      assert areas' == WithArea(backend, text, MobileWords, MobileArea);
      ghost var mobile := areas';
      if MentionsAny(text, DataWords) {
        areas' := areas' + {DataArea};
      }
      assert areas' == WithArea(mobile, text, DataWords, DataArea);
      ghost var data := areas';
      if MentionsAny(text, DevOpsWords) {
        areas' := areas' + {DevOpsArea};
      }
      assert areas' == WithArea(data, text, DevOpsWords, DevOpsArea);
      ghost var devops := areas';
      if MentionsAny(text, ToolWords) {
        areas' := areas' + {ToolArea};
      }
      assert areas' == WithArea(devops, text, ToolWords, ToolArea);
    }
  }

  /**
   * _extract_contribution_areas. `list(areas)` lists a set in an order the
   * model leaves open: any order of the found areas is a possible result.
   */
  method ExtractContributionAreas(repos: seq<RepoEntry>) returns (result: seq<string>)
    ensures |result| > 0
    ensures forall i, j :: 0 <= i < j < |result| ==> result[i] != result[j]
    ensures AreasOf(repos) != {} ==> forall a :: a in result <==> a in AreasOf(repos)
    ensures result == [GeneralArea] <==> forall i :: 0 <= i < |repos| ==> !MentionsAnyKeyword(DescriptionText(repos[i]))
  {
    var areas: set<string> := {};
    for i := 0 to |repos|
      invariant areas == AreasOf(repos[..i])
    {
      assert repos[..i + 1][..i] == repos[..i];
      areas := AddAreas(areas, DescriptionText(repos[i]));
    }
    assert repos[..|repos|] == repos;
    NoAreaIffNoKeyword(repos);
    if areas == {} {
      return [GeneralArea];
    }
    result := [];
    var rest := areas;
    while rest != {}
      invariant rest <= areas
      invariant forall a :: a in result <==> a in areas && a !in rest
      invariant forall i, j :: 0 <= i < j < |result| ==> result[i] != result[j]
      decreases |rest|
    {
      var a :| a in rest;
      result := result + [a];
      rest := rest - {a};
    }
    var some :| some in areas;
    assert some in result;
  }

  // ---------------------------------------------------------------------
  // Development style
  // ---------------------------------------------------------------------

  const CollaborativeStyle := "Collaborative - Strong focus on code review and teamwork"
  const CommunityStyle := "Community-focused - Active in discussions and issue resolution"
  const ProlificStyle := "Prolific contributor - High commit volume and productivity"
  const BalancedStyle := "Balanced - Mix of commits, PRs, and community engagement"

  /** `x > commits * 0.2`, exactly. */
  predicate AboveFifth(x: int, commits: int) {
    5 * x > commits
  }

  /** _analyze_development_style: the first test that holds names the style. */
  function AnalyzeDevelopmentStyle(prs: int, issues: int, commits: int): (style: string)
    ensures style == CollaborativeStyle <==> AboveFifth(prs, commits)
    ensures style == CommunityStyle <==> !AboveFifth(prs, commits) && AboveFifth(issues, commits)
    ensures style == ProlificStyle <==> !AboveFifth(prs, commits) && !AboveFifth(issues, commits) && commits > 500
    ensures style == BalancedStyle <==> !AboveFifth(prs, commits) && !AboveFifth(issues, commits) && commits <= 500
  {
    if AboveFifth(prs, commits) then CollaborativeStyle
    else if AboveFifth(issues, commits) then CommunityStyle
    else if commits > 500 then ProlificStyle
    else BalancedStyle
  }

  /** No activity at all reads as balanced. */
  lemma NoActivityIsBalanced()
    ensures AnalyzeDevelopmentStyle(0, 0, 0) == BalancedStyle
  {
  }

  // ---------------------------------------------------------------------
  // Detailed fallback insights
  // ---------------------------------------------------------------------

  /** How many of the commit thresholds 50, 200, 500 are exceeded. */
  function ContributionLevel(commits: int): (level: nat)
    ensures level <= 3
  {
    (if commits > 50 then 1 else 0) + (if commits > 200 then 1 else 0) + (if commits > 500 then 1 else 0)
  }

  const ContributionOpenings := ["Moderate", "Active contributor", "Consistent", "Exceptional"]

  /** Insight 1: the contribution level, opening with the phrase of its level. */
  function ContributionInsight(commits: int): string {
    if commits > 500 then "Exceptional" + " contributor with 500+ commits showing strong development momentum"
    else if commits > 200 then "Consistent" + (" contributor with " + IntToString(commits) + " commits across multiple projects")
    else if commits > 50 then "Active contributor" + (" with " + IntToString(commits) + " commits indicating regular development activity")
    else "Moderate" + (" contribution level with " + IntToString(commits) + " commits")
  }

  /** Insight 2: language diversity, over the breakdown's languages in insertion order. */
  function LanguageInsight(languages: seq<string>): string {
    if |languages| >= 5 then "Polyglot developer - proficient in " + IntToString(|languages|) + " different programming languages"
    else if |languages| >= 3 then "Multi-language expertise across " + Join(languages[..3], ", ")
    else "Specialized in " + Join(languages, ", ")
  }

  /** Insight 3: project scope. */
  function ScopeInsight(repoCount: int, totalStars: int): string {
    if totalStars > 100 then "Impactful projects with " + IntToString(totalStars) + "+ stars, demonstrating popular contributions"
    else if repoCount > 20 then "Diverse portfolio with " + IntToString(repoCount) + "+ repositories across different domains"
    else "Focused development with " + IntToString(repoCount) + " key repositories"
  }

  const TeamPlayerInsight := "Strong team player with significant pull request contributions"
  const CommunityInsight := "Active community participant engaged in issue tracking and resolution"
  const IndependentInsight := "Independent builder focused on code contributions and development"

  /** Insight 4: collaboration, by the same tests as the development style. */
  function CollaborationInsight(prs: int, issues: int, commits: int): string {
    if AboveFifth(prs, commits) then TeamPlayerInsight
    else if AboveFifth(issues, commits) then CommunityInsight
    else IndependentInsight
  }

  /** Insight 1 opens with the phrase of its level, and a higher count never lowers the level. */
  lemma ContributionInsightByLevel(commits: int, more: int)
    requires commits <= more
    ensures ContributionOpenings[ContributionLevel(commits)] <= ContributionInsight(commits)
    ensures ContributionLevel(commits) <= ContributionLevel(more)
  {
    var level := ContributionLevel(commits);
    var text := ContributionInsight(commits);
    var opening := ContributionOpenings[level];
    assert text == opening + text[|opening|..];
  }

  /** Insight 4 agrees with the development style on the two collaboration tests. */
  lemma CollaborationInsightMatchesStyle(prs: int, issues: int, commits: int)
    ensures CollaborationInsight(prs, issues, commits) == TeamPlayerInsight
        <==> AnalyzeDevelopmentStyle(prs, issues, commits) == CollaborativeStyle
    ensures CollaborationInsight(prs, issues, commits) == CommunityInsight
        <==> AnalyzeDevelopmentStyle(prs, issues, commits) == CommunityStyle
  {
  }

  /**
   * _create_detailed_fallback_insights: four insights appended one by one.
   */
  method CreateDetailedFallbackInsights(commits: int, languages: seq<string>, repoCount: int, totalStars: int,
                                        prs: int, issues: int)
    returns (insights: seq<string>)
    ensures |insights| == 4
    ensures insights == [ContributionInsight(commits), LanguageInsight(languages),
                         ScopeInsight(repoCount, totalStars), CollaborationInsight(prs, issues, commits)]
  {
    var contribution, language := ContributionInsight(commits), LanguageInsight(languages);
    var scope, collaboration := ScopeInsight(repoCount, totalStars), CollaborationInsight(prs, issues, commits);
    insights := [];
    insights := insights + [contribution];
    insights := insights + [language];
    insights := insights + [scope];
    insights := insights + [collaboration];
    // the final `[:5]` leaves the four insights as they are
    FourAppendedInTurn(contribution, language, scope, collaboration);
  }

  /** Four appends to an empty list give the four items in order. */
  lemma FourAppendedInTurn<T>(a: T, b: T, c: T, d: T)
    ensures [] + [a] + [b] + [c] + [d] == [a, b, c, d]
  {
  }

  // ---------------------------------------------------------------------
  // Short fallback insights and description
  // ---------------------------------------------------------------------

  const VeryHighInsight := "Very high commit velocity indicating strong development momentum."
  const ConsistentInsight := "Consistent contribution pattern showing regular development activity."
  const ModerateInsight := "Moderate activity level with room for increased contributions."

  function ActivityInsight(totalCommits: int): string {
    if totalCommits > 200 then VeryHighInsight
    else if totalCommits > 50 then ConsistentInsight
    else ModerateInsight
  }

  function DiversityInsight(totalRepos: int): string {
    if totalRepos > 20 then "Diverse portfolio across multiple projects demonstrates broad expertise."
    else "Focus on fewer projects allows for deeper specialization."
  }

  /** `prs > issues * 1.5`, exactly. */
  function BalanceInsight(prs: int, issues: int): string {
    if 2 * prs > 3 * issues then "Strong focus on writing code with significant PR contributions."
    else "Good balance between code contributions and issue reporting/resolution."
  }

  /** The short activity insight is the coarse form of the detailed contribution level. */
  lemma ActivityInsightMatchesLevel(totalCommits: int)
    ensures ActivityInsight(totalCommits) == VeryHighInsight <==> ContributionLevel(totalCommits) >= 2
    ensures ActivityInsight(totalCommits) == ModerateInsight <==> ContributionLevel(totalCommits) == 0
  {
  }

  /** _create_fallback_insights: three insights appended one by one. */
  method CreateFallbackInsights(totalCommits: int, totalRepos: int, prs: int, issues: int)
    returns (insights: seq<string>)
    ensures |insights| == 3
    ensures insights == [ActivityInsight(totalCommits), DiversityInsight(totalRepos), BalanceInsight(prs, issues)]
  {
    var activity, diversity, balance := ActivityInsight(totalCommits), DiversityInsight(totalRepos), BalanceInsight(prs, issues);
    insights := [];
    insights := insights + [activity];
    insights := insights + [diversity];
    insights := insights + [balance];
    // the final `[:3]` leaves the three insights as they are
    AppendedInTurn(activity, diversity, balance);
  }

  /** Three appends to an empty list give the three items in order. */
  lemma AppendedInTurn<T>(a: T, b: T, c: T)
    ensures [] + [a] + [b] + [c] == [a, b, c]
  {
  }

  /** `prs > commits * 0.3`, exactly. */
  predicate AboveThreeTenths(prs: int, commits: int) {
    10 * prs > 3 * commits
  }

  /** The four sentences the fallback description chooses between. */
  datatype DescriptionKind = Prolific | Collaborative | Active | Developing

  /** The tests of _create_fallback_description, in order: the first that holds picks the sentence. */
  function DescriptionKindOf(commits: int, prs: int): (k: DescriptionKind)
    ensures k == Prolific <==> commits > 500
    ensures k == Collaborative <==> commits <= 500 && AboveThreeTenths(prs, commits)
    ensures k == Active <==> commits <= 500 && !AboveThreeTenths(prs, commits) && commits > 100
    ensures k == Developing <==> commits <= 100 && !AboveThreeTenths(prs, commits)
  {
    if commits > 500 then Prolific
    else if AboveThreeTenths(prs, commits) then Collaborative
    else if commits > 100 then Active
    else Developing
  }

  /** What follows "<username> is " in each sentence. */
  function DescriptionTail(kind: DescriptionKind, commits: int, prs: int, repos: int): string {
    match kind
    case Prolific => "exceptionally prolific with " + IntToString(commits) + " commits this month."
    case Collaborative => "a collaborative developer with strong PR contributions (" + IntToString(prs) + " PRs)."
    case Active => "an active contributor with consistent development activity (" + IntToString(commits) + " commits)."
    case Developing =>
      "developing across " + IntToString(repos) + " repositories with " + IntToString(commits)
      + " commits and " + IntToString(prs) + " PRs."
  }

  /**
   * _create_fallback_description (the later of its two definitions, which
   * is the one in effect). The issue count is read but not used.
   */
  function CreateFallbackDescription(username: string, commits: int, prs: int, issues: int, repos: int): (d: string)
    ensures commits > 500 ==> d == username + " is " + DescriptionTail(Prolific, commits, prs, repos)
    ensures commits <= 500 && AboveThreeTenths(prs, commits)
            ==> d == username + " is " + DescriptionTail(Collaborative, commits, prs, repos)
    ensures commits <= 500 && !AboveThreeTenths(prs, commits) && commits > 100
            ==> d == username + " is " + DescriptionTail(Active, commits, prs, repos)
    ensures commits <= 100 && !AboveThreeTenths(prs, commits)
            ==> d == username + " is " + DescriptionTail(Developing, commits, prs, repos)
  {
    username + " is " + DescriptionTail(DescriptionKindOf(commits, prs), commits, prs, repos)
  }

  /**
   * The collaborative sentence asks for more PRs (0.3 of the commits) than
   * the collaborative style (0.2), so for a non-negative commit count it
   * only appears next to that style; the prolific sentence only next to a
   * style other than balanced.
   */
  lemma DescriptionAgreesWithStyle(commits: int, prs: int, issues: int)
    requires commits >= 0
    ensures DescriptionKindOf(commits, prs) == Collaborative
            ==> AnalyzeDevelopmentStyle(prs, issues, commits) == CollaborativeStyle
    ensures DescriptionKindOf(commits, prs) == Prolific
            ==> AnalyzeDevelopmentStyle(prs, issues, commits) != BalancedStyle
  {
  }

  // ---------------------------------------------------------------------
  // Formatters
  // ---------------------------------------------------------------------

  const Bullet := "  \U{2022} "

  /** `text[:n]`. */
  function Take(text: string, n: nat): (r: string)
    ensures |r| == Min(n, |text|) && r <= text
  {
    text[..Min(n, |text|)]
  }

  /** `text.split("\n")[0]`: everything before the first line break. */
  function FirstLine(text: string): (line: string)
    ensures line <= text
    ensures forall i :: 0 <= i < |line| ==> line[i] != '\n'
    ensures |line| < |text| ==> text[|line|] == '\n'
    decreases |text|
  {
    if text == [] || text[0] == '\n' then [] else [text[0]] + FirstLine(text[1..])
  }

  /** `str(value)` of a JSON value that is text or null. */
  function TextOrNone(value: Option<string>): string {
    value.GetOr("None")
  }

  /** `str(value)` of a JSON value that is a number or null. */
  function NumberOrNone(value: Option<int>): string {
    match value
    case Some(n) => IntToString(n)
    case None => "None"
  }

  /** Lines that each start with the bullet, joined by line breaks, are never the placeholder. */
  lemma BulletedIsNotPlaceholder(lines: seq<string>, placeholder: string)
    requires |lines| > 0 && forall i :: 0 <= i < |lines| ==> Bullet <= lines[i]
    requires |placeholder| > 0 && placeholder[0] != ' '
    ensures Join(lines, "\n") != placeholder
  {
    assert lines[0][0] == ' ';
    JoinStartsWith(lines, "\n", ' ');
  }

  const MaxLanguageLines := 10
  const MaxCommitRepoLines := 15
  const MaxRecentCommitLines := 10

  const NoLanguageData := "No language data"
  const NoRepositories := "No repositories"
  const NoCommitData := "No commit data"
  const NoCommitDetails := "No commit details"

  function LanguageLine(item: (string, int)): (line: string)
    ensures Bullet <= line
  {
    Bullet + item.0 + ": " + IntToString(item.1) + " commits"
  }

  /** The lines of _format_languages: the ten languages with the most commits, most first. */
  function LanguageLines(breakdown: Dict<string, int>): (lines: seq<string>)
    ensures |lines| == Min(MaxLanguageLines, |breakdown|)
    ensures forall i :: 0 <= i < |lines| ==> Bullet <= lines[i]
  {
    var sorted := SortDesc(breakdown, CountKey);
    var n := Min(MaxLanguageLines, |sorted|);
    seq(n, i requires 0 <= i < n => LanguageLine(sorted[i]))
  }

  /** _format_languages. */
  function FormatLanguages(breakdown: Dict<string, int>): (text: string)
    ensures text == NoLanguageData <==> breakdown == []
    ensures breakdown != [] ==> text == Join(LanguageLines(breakdown), "\n")
  {
    if breakdown == [] then NoLanguageData
    else
      BulletedIsNotPlaceholder(LanguageLines(breakdown), NoLanguageData);
      Join(LanguageLines(breakdown), "\n")
  }

  /** `(repo.get('description') or 'N/A')[:60]`. */
  function ShortDescription(description: Option<string>): (r: string)
    ensures |r| <= 60
  {
    var text := if description.None? || description.value == "" then "N/A" else description.value;
    Take(text, 60)
  }

  function RepoLine(repo: RepoEntry): (line: string)
    ensures Bullet <= line
  {
    Bullet + repo.name + ": " + ShortDescription(repo.description) + "... ("
    + NumberOrNone(repo.stars) + " \U{2B50}, " + NumberOrNone(repo.forks) + " \U{1F500})"
  }

  /** _format_repos: one line per repository given (the caller passes at most ten). */
  function FormatRepos(repos: seq<RepoEntry>): (text: string)
    ensures text == NoRepositories <==> repos == []
    ensures repos != [] ==> text == Join(seq(|repos|, i requires 0 <= i < |repos| => RepoLine(repos[i])), "\n")
  {
    if repos == [] then NoRepositories
    else
      var lines := seq(|repos|, i requires 0 <= i < |repos| => RepoLine(repos[i]));
      BulletedIsNotPlaceholder(lines, NoRepositories);
      Join(lines, "\n")
  }

  function RepoCountKey(item: (string, RepoCommits)): int { item.1.count }

  function CommitRepoLine(item: (string, RepoCommits)): (line: string)
    ensures Bullet <= line
  {
    Bullet + item.0 + ": " + IntToString(item.1.count) + " commits (" + TextOrNone(item.1.language) + ")"
  }

  /** The lines of _format_commits_by_repo: the fifteen repositories with the most commits. */
  function CommitRepoLines(byRepo: Dict<string, RepoCommits>): (lines: seq<string>)
    ensures |lines| == Min(MaxCommitRepoLines, |byRepo|)
    ensures forall i :: 0 <= i < |lines| ==> Bullet <= lines[i]
  {
    var sorted := SortDesc(byRepo, RepoCountKey);
    var n := Min(MaxCommitRepoLines, |sorted|);
    seq(n, i requires 0 <= i < n => CommitRepoLine(sorted[i]))
  }

  /** _format_commits_by_repo. */
  function FormatCommitsByRepo(byRepo: Dict<string, RepoCommits>): (text: string)
    ensures text == NoCommitData <==> byRepo == []
    ensures byRepo != [] ==> text == Join(CommitRepoLines(byRepo), "\n")
  {
    if byRepo == [] then NoCommitData
    else
      BulletedIsNotPlaceholder(CommitRepoLines(byRepo), NoCommitData);
      Join(CommitRepoLines(byRepo), "\n")
  }

  function RecentCommitLine(detail: CommitDetail): (line: string)
    ensures Bullet <= line
  {
    Bullet + "[" + detail.repo + "] " + Take(FirstLine(detail.message), 50) + "..."
  }

  /** The lines of _format_recent_commits: the first ten details, in order. */
  function RecentCommitLines(details: seq<CommitDetail>): (lines: seq<string>)
    ensures |lines| == Min(MaxRecentCommitLines, |details|)
    ensures forall i :: 0 <= i < |lines| ==> lines[i] == RecentCommitLine(details[i])
  {
    var n := Min(MaxRecentCommitLines, |details|);
    seq(n, i requires 0 <= i < n => RecentCommitLine(details[i]))
  }

  /** _format_recent_commits. */
  function FormatRecentCommits(details: seq<CommitDetail>): (text: string)
    ensures text == NoCommitDetails <==> details == []
    ensures details != [] ==> text == Join(RecentCommitLines(details), "\n")
  {
    if details == [] then NoCommitDetails
    else
      BulletedIsNotPlaceholder(RecentCommitLines(details), NoCommitDetails);
      Join(RecentCommitLines(details), "\n")
  }

  // ---------------------------------------------------------------------
  // The fallback refinement and the merge
  // ---------------------------------------------------------------------

  /** The dict refine_activity_summary returns; a key it lacks is None. */
  datatype Refinement = Refinement(
    summary: Option<string>,
    insights: Option<seq<string>>,
    languagesUsed: Option<seq<string>>,
    topProjects: Option<seq<RepoEntry>>,
    contributionAreas: Option<seq<string>>,
    developmentStyle: Option<string>,
    recommendations: Option<string>,
    refined: Option<bool>)

  /**
   * refine_activity_summary without an API key: every field from the
   * fallback helpers, "refined" false, and no recommendations. `summaryText`
   * is the fallback summary sentence.
   */
  method FallbackRefinement(data: GitHubIntegration.ActivitySummary, summaryText: string)
    returns (r: Refinement)
    ensures r.refined == Some(false) && r.recommendations.None?
    ensures r.summary == Some(summaryText)
    ensures r.insights.Some? && |r.insights.value| == 4
    ensures r.languagesUsed == Some(ExtractLanguages(data.commits.languageBreakdown))
    ensures r.topProjects == Some(ExtractTopProjects(data.repositories.repositories))
    ensures r.contributionAreas.Some? && |r.contributionAreas.value| > 0
    ensures r.developmentStyle == Some(AnalyzeDevelopmentStyle(
              data.summary.totalPrs, data.summary.totalIssues, data.summary.totalCommits))
  {
    var insights := CreateDetailedFallbackInsights(
      data.summary.totalCommits, Keys(data.commits.languageBreakdown),
      data.repositories.total, data.repositories.totalStars,
      data.summary.totalPrs, data.summary.totalIssues);
    var areas := ExtractContributionAreas(data.repositories.repositories);
    r := Refinement(
      Some(summaryText),
      Some(insights),
      Some(ExtractLanguages(data.commits.languageBreakdown)),
      Some(ExtractTopProjects(data.repositories.repositories)),
      Some(areas),
      Some(AnalyzeDevelopmentStyle(data.summary.totalPrs, data.summary.totalIssues, data.summary.totalCommits)),
      None,
      Some(false));
  }

  /** The "refined" entry enhance_activity_data adds. */
  datatype RefinedEntry = RefinedEntry(
    description: string,
    summary: string,
    insights: seq<string>,
    languagesUsed: seq<string>,
    topProjects: seq<RepoEntry>,
    contributionAreas: seq<string>,
    developmentStyle: string,
    recommendations: string,
    llmEnabled: bool)

  /** The nine fields, each read with its default when the refinement lacks it. */
  function RefinedEntryOf(description: string, r: Refinement): (e: RefinedEntry)
    ensures e.llmEnabled <==> r.refined == Some(true)
    ensures e.recommendations == (if r.recommendations.Some? then r.recommendations.value else "")
    ensures r.insights.None? ==> e.insights == []
  {
    RefinedEntry(
      description,
      r.summary.GetOr(""),
      r.insights.GetOr([]),
      r.languagesUsed.GetOr([]),
      r.topProjects.GetOr([]),
      r.contributionAreas.GetOr([]),
      r.developmentStyle.GetOr(""),
      r.recommendations.GetOr(""),
      r.refined.GetOr(false))
  }

  /** The merge `{**activity_data, "refined": ...}` on a dict of top-level entries. */
  function EnhanceActivityData<V>(data: Dict<string, V>, refined: V): (merged: Dict<string, V>)
    ensures Get(merged, "refined") == Some(refined)
    ensures HasKey(data, "refined") ==> Keys(merged) == Keys(data)
    ensures !HasKey(data, "refined") ==> merged == data + [("refined", refined)]
  {
    Put(data, "refined", refined)
  }

  /** Every original entry other than "refined" survives the merge unchanged. */
  lemma EnhanceKeepsOriginalEntries<V>(data: Dict<string, V>, refined: V, key: string)
    requires key != "refined"
    ensures Get(EnhanceActivityData(data, refined), key) == Get(data, key)
  {
    PutKeepsOthers(data, "refined", refined, key);
  }

  /** Without an API key the merged entry says the LLM was not used and has no recommendations. */
  lemma FallbackEntryHasNoLlm(description: string, r: Refinement)
    requires r.refined == Some(false) && r.recommendations.None?
    ensures !RefinedEntryOf(description, r).llmEnabled
    ensures RefinedEntryOf(description, r).recommendations == ""
  {
  }
}
