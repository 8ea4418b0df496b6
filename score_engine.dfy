/**
 * The backend DevScore rules: a weighted sum of commits, pull requests,
 * issues and Discord messages, each category capped on its own and the
 * total capped at 1000; a per-category breakdown; and the five-tier
 * classifier.
 *
 * The Discord weight is 0.5, so the Discord category is a multiple of one
 * half. The model keeps everything exact by working with twice the total,
 * and then applies Python's int(), which truncates toward zero.
 */
module ScoreEngine {
  import opened Common

  const CommitWeight := 2
  const PullRequestWeight := 5
  const IssueWeight := 3

  const MaxCommitScore := 400
  const MaxPullRequestScore := 250
  const MaxIssueScore := 150
  const MaxDiscordScore := 200

  const MaxTotalScore := 1000

  function CommitScore(commits: int): (r: int)
    ensures r <= MaxCommitScore
    ensures commits >= 0 ==> r >= 0
  {
    Min(commits * CommitWeight, MaxCommitScore)
  }

  function PullRequestScore(pullRequests: int): (r: int)
    ensures r <= MaxPullRequestScore
    ensures pullRequests >= 0 ==> r >= 0
  {
    Min(pullRequests * PullRequestWeight, MaxPullRequestScore)
  }

  function IssueScore(issues: int): (r: int)
    ensures r <= MaxIssueScore
    ensures issues >= 0 ==> r >= 0
  {
    Min(issues * IssueWeight, MaxIssueScore)
  }

  /** Twice `min(discord_messages * 0.5, 200)`, which is an integer. */
  function DoubleDiscordScore(discordMessages: int): int {
    Min(discordMessages, 2 * MaxDiscordScore)
  }

  /** Python's `int(h / 2)`: halving, truncated toward zero. */
  function TruncatedHalf(h: int): (r: int)
    ensures h >= 0 ==> 0 <= 2 * r <= h < 2 * r + 2
    ensures h < 0 ==> 2 * r - 2 < h <= 2 * r <= 0
  {
    if h >= 0 then h / 2 else -((-h) / 2)
  }

  /** `int(discord_score)` as the breakdown reports it. */
  function DiscordScore(discordMessages: int): (r: int)
    ensures r <= MaxDiscordScore
    ensures discordMessages >= 0 ==> r == Min(discordMessages / 2, MaxDiscordScore)
  {
    TruncatedHalf(DoubleDiscordScore(discordMessages))
  }

  /** calculate_devscore. */
  function CalculateDevScore(commits: int, pullRequests: int, issues: int, discordMessages: int): (score: int)
    ensures score <= MaxTotalScore
  {
    var doubleTotal := 2 * (CommitScore(commits) + PullRequestScore(pullRequests) + IssueScore(issues))
                       + DoubleDiscordScore(discordMessages);
    Min(TruncatedHalf(doubleTotal), MaxTotalScore)
  }

  /** The four category caps add up to exactly the total cap. */
  lemma CapsSumToMaxTotal()
    ensures MaxCommitScore + MaxPullRequestScore + MaxIssueScore + MaxDiscordScore == MaxTotalScore
  {
  }

  predicate NonNegative(commits: int, pullRequests: int, issues: int, discordMessages: int) {
    commits >= 0 && pullRequests >= 0 && issues >= 0 && discordMessages >= 0
  }

  /**
   * For real counts the final cap never bites: the score is the plain sum of
   * the capped categories, with Discord contributing min(d / 2, 200), and it
   * lies in [0, 1000].
   */
  lemma ScoreIsSumOfCappedParts(commits: int, pullRequests: int, issues: int, discordMessages: int)
    requires NonNegative(commits, pullRequests, issues, discordMessages)
    ensures CalculateDevScore(commits, pullRequests, issues, discordMessages)
         == CommitScore(commits) + PullRequestScore(pullRequests) + IssueScore(issues)
            + Min(discordMessages / 2, MaxDiscordScore)
    ensures 0 <= CalculateDevScore(commits, pullRequests, issues, discordMessages) <= MaxTotalScore
  {
  }

  /** Raising any count never lowers the score (for every integer input). */
  lemma ScoreIsMonotone(c: int, p: int, i: int, d: int, c': int, p': int, i': int, d': int)
    requires c <= c' && p <= p' && i <= i' && d <= d'
    ensures CalculateDevScore(c, p, i, d) <= CalculateDevScore(c', p', i', d')
  {
    assert CommitScore(c) <= CommitScore(c');
    assert PullRequestScore(p) <= PullRequestScore(p');
    assert IssueScore(i) <= IssueScore(i');
    assert DoubleDiscordScore(d) <= DoubleDiscordScore(d');
    var h := 2 * (CommitScore(c) + PullRequestScore(p) + IssueScore(i)) + DoubleDiscordScore(d);
    var h' := 2 * (CommitScore(c') + PullRequestScore(p') + IssueScore(i')) + DoubleDiscordScore(d');
    TruncatedHalfIsMonotone(h, h');
  }

  /** Halving with truncation never reverses an order. */
  lemma TruncatedHalfIsMonotone(h: int, h': int)
    requires h <= h'
    ensures TruncatedHalf(h) <= TruncatedHalf(h')
  {
  }

  /** The score reaches 1000 exactly when every category is saturated. */
  lemma FullScoreIffSaturated(commits: int, pullRequests: int, issues: int, discordMessages: int)
    ensures CalculateDevScore(commits, pullRequests, issues, discordMessages) == MaxTotalScore
        <==> commits >= 200 && pullRequests >= 50 && issues >= 50 && discordMessages >= 400
  {
  }

  /** Discord counts by whole pairs: an odd message adds nothing. */
  lemma OddDiscordMessageAddsNothing(commits: int, pullRequests: int, issues: int, discordMessages: int)
    requires NonNegative(commits, pullRequests, issues, discordMessages)
    requires discordMessages % 2 == 0
    ensures CalculateDevScore(commits, pullRequests, issues, discordMessages + 1)
         == CalculateDevScore(commits, pullRequests, issues, discordMessages)
  {
  }

  datatype ScoreBreakdown = ScoreBreakdown(
    commits: int, pullRequests: int, issues: int, discord: int, total: int)

  /** get_score_breakdown. */
  function GetScoreBreakdown(commits: int, pullRequests: int, issues: int, discordMessages: int): (b: ScoreBreakdown)
    ensures b.total == CalculateDevScore(commits, pullRequests, issues, discordMessages)
    ensures b.commits <= MaxCommitScore && b.pullRequests <= MaxPullRequestScore
    ensures b.issues <= MaxIssueScore && b.discord <= MaxDiscordScore
    ensures NonNegative(commits, pullRequests, issues, discordMessages) ==>
              b.total == b.commits + b.pullRequests + b.issues + b.discord
  {
    var commitScore := CommitScore(commits);
    var prScore := PullRequestScore(pullRequests);
    var issueScore := IssueScore(issues);
    var doubleDiscord := DoubleDiscordScore(discordMessages);
    var total := Min(TruncatedHalf(2 * (commitScore + prScore + issueScore) + doubleDiscord), MaxTotalScore);
    ScoreBreakdown(commitScore, prScore, issueScore, TruncatedHalf(doubleDiscord), total)
  }

  // ---------------------------------------------------------------------
  // Tiers
  // ---------------------------------------------------------------------

  const TierNames := ["Newcomer", "Junior Developer", "Mid Developer", "Senior Developer", "Elite Developer"]

  /** get_tier: an if/elif chain over the thresholds 800, 600, 400, 200. */
  function GetTier(score: int): string {
    if score >= 800 then "Elite Developer"
    else if score >= 600 then "Senior Developer"
    else if score >= 400 then "Mid Developer"
    else if score >= 200 then "Junior Developer"
    else "Newcomer"
  }

  /** How many of the thresholds 200, 400, 600, 800 the score reaches. */
  function TierLevel(score: int): (level: nat)
    ensures level < 5
  {
    (if score >= 200 then 1 else 0) + (if score >= 400 then 1 else 0)
    + (if score >= 600 then 1 else 0) + (if score >= 800 then 1 else 0)
  }

  /** The chain names the tier whose rank is the number of thresholds reached. */
  lemma GetTierByLevel(score: int)
    ensures GetTier(score) == TierNames[TierLevel(score)]
  {
  }

  /** A higher score never gets a lower tier. */
  lemma TierIsMonotone(score: int, score': int)
    requires score <= score'
    ensures TierLevel(score) <= TierLevel(score')
  {
  }

  /** The example run of the module: (150, 25, 12, 340) scores 631, a Senior Developer. */
  lemma WorkedExample()
    ensures CalculateDevScore(150, 25, 12, 340) == 631
    ensures GetScoreBreakdown(150, 25, 12, 340) == ScoreBreakdown(300, 125, 36, 170, 631)
    ensures GetTier(631) == "Senior Developer"
  {
  }
}
