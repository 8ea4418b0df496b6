# DevScore NFT — a verified model of its scoring, aggregation and ledger helpers

DevScore turns a developer's GitHub and Discord activity into a reputation
score between 0 and 1000, a tier, and a mock NFT minted on the Qubic
network. This project models, in Dafny, the parts of the repository that
carry logic:

- the backend score engine (weighted, per-category capped score; breakdown; tier);
- the frontend `useDevScore` hook (its own uncapped-per-category score and the
  fetch / mint state machine with its `hasMinted` latch);
- the `useWallet` hook (connect / disconnect with a mock base-32 address);
- the Qubic client helpers (tier labels, wallet, signature, token id, mint
  metadata, transfer, connect);
- the GitHub aggregation (the commit loop folding repositories into a total,
  per-repository rows, per-language counts and capped detail lists; pull
  request, issue and repository counts; the activity summary);
- the deterministic helpers of the LLM refiner (language order, top
  projects, contribution areas, development style, fallback insights and
  descriptions, the formatters, and the merge into the activity data);
- the Nostromo deployment registry (a dictionary keyed by deployment id).

One Dafny module per source file, plus three support modules:
`Common` (options, ASCII case, hex digests, decimal text, joining, substring
search), `Dicts` (a Python `dict` as an insertion-ordered association list)
and `Sorting` (a stable descending sort, matching `sorted(..., reverse=True)`,
and the key-sorted order of `json.dumps(sort_keys=True)`).

SHA-256 is a function parameter `Sha256` returning 64 lowercase hex
characters; `json.dumps` is a parameter; every clock reading and every
random draw is a parameter; every HTTP response is an input value
(`Http<T>`: a transport error, or a status and a decoded body). The React
hooks are classes with one record field, whose methods are proved equal to
the pure `setState` updaters, and whose invariants are proved over any
sequence of operations.

Where the code and its comments disagree, the model follows the code:

- `create_wallet` says addresses are 60 characters; "QUBIC" plus 56 digest
  characters is 61, and so is the frontend's mock address.
- A failed `mint` in `useDevScore` leaves `hasMinted` and `nftData` as they
  were (an earlier success persists); a second successful mint replaces
  `nftData`.
- `llm_refiner.py` defines `_create_fallback_description` twice; the second
  definition is the one Python keeps, and it is the one modelled.

## Model

| member | source | states |
|---|---|---|
| ScoreEngine.CommitScore | backend/score_engine.py:57 | the commit part never exceeds its cap of 400 and is non-negative for non-negative counts |
| ScoreEngine.PullRequestScore | backend/score_engine.py:58 | the pull request part never exceeds 250 and is non-negative for non-negative counts |
| ScoreEngine.IssueScore | backend/score_engine.py:59 | the issue part never exceeds 150 and is non-negative for non-negative counts |
| ScoreEngine.TruncatedHalf | backend/score_engine.py:60-66 | `int()` of half a value truncates toward zero: bracketed from below for non-negative values and from above for negative ones |
| ScoreEngine.DiscordScore | backend/score_engine.py:60 | the Discord part never exceeds 200 and for non-negative counts is `min(d / 2, 200)` with floor division |
| ScoreEngine.CalculateDevScore | backend/score_engine.py:38-66 | the score never exceeds 1000 |
| ScoreEngine.CapsSumToMaxTotal | backend/score_engine.py:27-35 | the four category caps sum exactly to the total cap of 1000 |
| ScoreEngine.ScoreIsSumOfCappedParts | backend/score_engine.py:57-66 | for non-negative counts the final `min(..., 1000)` changes nothing: the score is the sum of the capped parts and lies in [0, 1000] |
| ScoreEngine.ScoreIsMonotone | backend/score_engine.py:57-66 | raising any count never lowers the score |
| ScoreEngine.TruncatedHalfIsMonotone | backend/score_engine.py:66 | truncating half a value is monotone |
| ScoreEngine.FullScoreIffSaturated | backend/score_engine.py:28-31 | the score is 1000 exactly when every category reaches its cap (200 commits, 50 PRs, 50 issues, 400 messages) |
| ScoreEngine.OddDiscordMessageAddsNothing | backend/score_engine.py:23 | from an even message count, one more Discord message leaves the score unchanged |
| ScoreEngine.GetScoreBreakdown | backend/score_engine.py:69-100 | the breakdown's total equals the score for the same arguments, each part is within its cap, and for non-negative counts the total is the sum of the parts |
| ScoreEngine.TierLevel | backend/score_engine.py:103-122 | the tier is one of five levels |
| ScoreEngine.GetTierByLevel | backend/score_engine.py:103-122 | the tier name is the one at the level picked by the 800/600/400/200 thresholds |
| ScoreEngine.TierIsMonotone | backend/score_engine.py:113-122 | a higher score never gets a lower tier |
| ScoreEngine.WorkedExample | backend/score_engine.py:127-141 | (150, 25, 12, 340) scores 631 with breakdown 300/125/36/170 and tier "Senior Developer" |
| DevScoreHook.CalculateScore | src/hooks/useDevScore.ts:36-44 | the frontend score never exceeds 1000 and is non-negative for non-negative counts |
| DevScoreHook.NoActivityScoresZero | src/hooks/useDevScore.ts:36-44 | no activity scores 0 |
| DevScoreHook.ScoreExample | src/hooks/useDevScore.ts:36-44 | (200, 50, 30, 500) scores 990 |
| DevScoreHook.CalculateScoreIsMonotone | src/hooks/useDevScore.ts:36-44 | raising any count never lowers the frontend score |
| DevScoreHook.FrontendAndBackendDiffer | src/hooks/useDevScore.ts:38 | 300 commits score 600 in the frontend but 400 in the backend: the two formulas differ |
| DevScoreHook.FrontendMatchesBackendWithinCaps | src/hooks/useDevScore.ts:36-44 | within every backend category cap the two formulas agree |
| DevScoreHook.FrontendAtLeastBackend | src/hooks/useDevScore.ts:36-44 | for non-negative counts the frontend score is never below the backend score |
| DevScoreHook.MockActivity | src/hooks/useDevScore.ts:28-33 | a mock fetch result lies in the ranges [50, 249], [10, 59], [5, 34], [100, 599] |
| DevScoreHook.MockActivityCoversRanges | src/hooks/useDevScore.ts:28-33 | every activity in those ranges is produced by some draw |
| DevScoreHook.MockActivityScoresAboveZero | src/hooks/useDevScore.ts:28-44 | every mock activity scores at least 215, so minting after a mock fetch is never refused |
| DevScoreHook.InitialStateIsIdle | src/hooks/useDevScore.ts:55-67 | the initial state has score 0, no activity, all flags false, no NFT, and its score is the score of its activity |
| DevScoreHook.FetchSuccessEffect | src/hooks/useDevScore.ts:76-81 | a successful fetch stores the activity and its score, clears loading, and leaves minting, the latch and the NFT alone |
| DevScoreHook.FetchFailureEffect | src/hooks/useDevScore.ts:87-88 | a failed fetch only clears loading |
| DevScoreHook.MintRefusedAtZero | src/hooks/useDevScore.ts:98-105 | with score 0, mint changes nothing whatever the mint call would return |
| DevScoreHook.MintSuccessEffect | src/hooks/useDevScore.ts:107-120 | a successful mint sets the latch and the NFT data, clears minting, and leaves score, activity and loading alone |
| DevScoreHook.MintFailureEffect | src/hooks/useDevScore.ts:126-127 | a failed mint only clears minting, so an earlier NFT persists |
| DevScoreHook.StepKeepsSettled | src/hooks/useDevScore.ts:69-134 | one operation keeps the state settled: no flag left on, latch set exactly when NFT data exists, score the score of the activity |
| DevScoreHook.RunKeepsSettled | src/hooks/useDevScore.ts:69-134 | any sequence of operations from a settled state keeps it settled |
| DevScoreHook.MintedLatchHolds | src/hooks/useDevScore.ts:112-127 | once minted, every later sequence of operations keeps the latch and an NFT |
| DevScoreHook.NoMintNoNft | src/hooks/useDevScore.ts:97-134 | without a successful mint there is never a latch nor an NFT |
| DevScoreHook.MockFetchThenMintMints | src/hooks/useDevScore.ts:28-120 | a mock fetch followed by a successful mint always stores the NFT |
| DevScoreHook.DevScoreHook.constructor | src/hooks/useDevScore.ts:55-67 | the hook starts in the initial state |
| DevScoreHook.DevScoreHook.FetchActivity | src/hooks/useDevScore.ts:69-95 | the new state is the fetch updater applied to the old state |
| DevScoreHook.DevScoreHook.Mint | src/hooks/useDevScore.ts:97-134 | the mint call is made exactly when the score is non-zero, and the new state is the mint updater applied to the old state |
| WalletHook.Base32AlphabetDecodes | src/hooks/useWallet.ts:26 | every draw picks a base-32 letter that decodes back to the draw |
| WalletHook.Letters | src/hooks/useWallet.ts:25-27 | one base-32 letter per draw |
| WalletHook.LettersAreBase32 | src/hooks/useWallet.ts:25-27 | letters picked from the alphabet are base-32 letters |
| WalletHook.MockAddress | src/hooks/useWallet.ts:25-27 | the mock address is "QUBIC" followed by 56 base-32 letters, 61 characters in all |
| WalletHook.MockAddressInjective | src/hooks/useWallet.ts:25-27 | different draws give different addresses |
| WalletHook.ConnectStartsConnecting | src/hooks/useWallet.ts:18 | connect first raises the connecting flag and keeps the rest |
| WalletHook.ConnectSuccessEffect | src/hooks/useWallet.ts:29-33 | a successful connect is connected, not connecting, and holds a well-formed address |
| WalletHook.ConnectFailureEffect | src/hooks/useWallet.ts:40 | a failed connect only clears the connecting flag |
| WalletHook.DisconnectRestoresInitial | src/hooks/useWallet.ts:49-54 | disconnect restores the initial state from any state and is idempotent |
| WalletHook.StepKeepsSettled | src/hooks/useWallet.ts:17-54 | one operation keeps the wallet settled: not connecting, connected exactly when it holds a well-formed address |
| WalletHook.RunKeepsSettled | src/hooks/useWallet.ts:17-54 | any sequence of operations keeps the wallet settled |
| WalletHook.EndingWithDisconnect | src/hooks/useWallet.ts:49-54 | a sequence ending in disconnect always ends in the initial state |
| WalletHook.WalletHook.constructor | src/hooks/useWallet.ts:11-15 | the wallet starts disconnected |
| WalletHook.WalletHook.Connect | src/hooks/useWallet.ts:17-47 | the new state is the connect updaters applied to the old state |
| WalletHook.WalletHook.Disconnect | src/hooks/useWallet.ts:49-54 | the new state is the disconnect updater applied to the old state |
| QubicClient.QubicTierMatchesScoreEngine | backend/qubic_client.py:274-284 | the client's tier label is the score engine's tier name without " Developer", at the same thresholds |
| QubicClient.AddressOf | backend/qubic_client.py:105-106 | the address is 61 characters: "QUBIC" then 56 upper-case hex digits that lower-case back to the public key's first 56 |
| QubicClient.CreateWallet | backend/qubic_client.py:91-112 | the private key is the digest of the clock text and the public key the digest of the private key; the address is 61 characters, "QUBIC" then 56 upper-case hex digits that lower-case back to the public key's first 56 |
| QubicClient.WalletAddressShape | backend/qubic_client.py:101-106 | every created wallet's address has the 61-character shape |
| QubicClient.WalletAddressRecoversPublicKey | backend/qubic_client.py:103-106 | the address gives back the first 56 digits of the public key |
| QubicClient.WalletDeterminedByPrivateKey | backend/qubic_client.py:102-103 | two wallets with the same private key are the same wallet |
| QubicClient.SignTransaction | backend/qubic_client.py:128-150 | the signature is the digest of the key, ":" and the JSON text of the data in ascending key order: whichever ascending arrangement of the data's items is taken, it is the same signature, and one always exists |
| QubicClient.SignatureIgnoresKeyOrder | backend/qubic_client.py:146-150 | the signature does not depend on the order in which the data's keys were inserted |
| QubicClient.TokenIdOf | backend/qubic_client.py:176-177 | a token id is 16 upper-case hex digits that lower-case back to the digest's first 16 |
| QubicClient.TransferNft | backend/qubic_client.py:234-272 | a transfer always succeeds, names the new owner and the same token, and its hash is the digest of the signature of the transfer data |
| QubicClient.TransferData | backend/qubic_client.py:256-262 | the transfer data has five keys, with the token id and the new owner in place |
| QubicClient.QubicClient.constructor | backend/qubic_client.py:66-77 | a new client is not connected and its API URL names the network |
| QubicClient.QubicClient.Connect | backend/qubic_client.py:79-89 | connect reports success, leaves the client connected and changes nothing else |
| QubicClient.QubicClient.MintDevScoreNft | backend/qubic_client.py:152-218 | the token id comes from the wallet, score and clock; the metadata name carries it; six attributes in the fixed order with the score first and the tier last; the hash is the digest of the mint transaction |
| QubicClient.QubicClient.MintAttributesEchoCounts | backend/qubic_client.py:183-190 | the six attribute values echo score, commits, pull requests, issues, Discord messages and tier |
| QubicClient.QubicClient.MintTokenIdDeterminedByInputs | backend/qubic_client.py:176-177 | the token id depends only on wallet address, score and clock reading, not on the other counts |
| GitHubIntegration.GetUserCommits | backend/github_integration.py:49-122 | a report exists exactly when the listing request succeeds, and it is the fold of the repository loop with details capped at 50 |
| GitHubIntegration.VisitRepo | backend/github_integration.py:76-113 | one pass of the loop body is one step of the fold |
| GitHubIntegration.AppendDetails | backend/github_integration.py:102-108 | the inner loop appends one detail per shown commit, in order |
| GitHubIntegration.DetailsOf | backend/github_integration.py:102-108 | one detail per commit |
| GitHubIntegration.TotalIsCommittedTotal | backend/github_integration.py:84-110 | the total is the number of commits of the repositories that answered 200 with commits, at least one per such repository |
| GitHubIntegration.ByRepoRows | backend/github_integration.py:93-100 | the per-repository table has distinct names, positive counts and no more rows than contributing repositories |
| GitHubIntegration.UnvisitedNameHasNoRow | backend/github_integration.py:93-100 | a name never seen in the loop has no row |
| GitHubIntegration.ByRepoSumsToTotal | backend/github_integration.py:93-110 | the rows never count more than the total; with distinct names they sum to it and there is one row per contributing repository |
| GitHubIntegration.LanguagesStep | backend/github_integration.py:89-90 | one repository adds its commits to its language's count exactly when it contributes and has a language |
| GitHubIntegration.LanguagesPlusUnlabelledIsTotal | backend/github_integration.py:89-110 | language counts plus commits of repositories without a language make up the total; languages are distinct |
| GitHubIntegration.DetailsBounded | backend/github_integration.py:102-108 | at most 10 details per contributing repository |
| GitHubIntegration.ReportShape | backend/github_integration.py:115-122 | at most 50 details, the first ones in encounter order; the repositories-with-commits count is bounded by the contributing repositories and by the total |
| GitHubIntegration.FoldAppend | backend/github_integration.py:76-113 | the loop over one more repository is one more step |
| GitHubIntegration.FailedFetchIsIgnored | backend/github_integration.py:84-113 | a repository whose fetch fails or has no commits contributes to no aggregate |
| GitHubIntegration.LastSegment | backend/github_integration.py:202 | the repository name is the suffix after the last '/' |
| GitHubIntegration.ListedItems | backend/github_integration.py:158-167 | at most 10 listed items, each built from the item at the same position |
| GitHubIntegration.MergedPlusOpenAtMostTotal | backend/github_integration.py:148-152 | merged is checked first, so merged plus open never exceeds the total |
| GitHubIntegration.GetUserPullRequests | backend/github_integration.py:124-168 | a report exists exactly when the search succeeds; it counts total, merged and open items and lists the first 10 |
| GitHubIntegration.ClosedCount | backend/github_integration.py:191 | closed issues never exceed the total |
| GitHubIntegration.GetUserIssues | backend/github_integration.py:170-208 | a report exists exactly when the search succeeds; closed plus open is the total, and the listed issues are the first 10 items, each reduced to its entry with the repository's last URL segment |
| GitHubIntegration.ListedRepoIsLastSegment | backend/github_integration.py:202 | each listed issue names the last segment of its repository URL |
| GitHubIntegration.SumStarsAppend | backend/github_integration.py:243 | the star total of two lists is the sum of their totals |
| GitHubIntegration.SumStarsBoundsEach | backend/github_integration.py:243 | with non-negative stars every repository's stars are within the total |
| GitHubIntegration.SumStarsNonNegative | backend/github_integration.py:243 | with non-negative stars the total is non-negative |
| GitHubIntegration.GetUserRepos | backend/github_integration.py:233-262 | a report exists exactly when the request succeeds; total, stars (missing as 0) and forks are summed over all repositories, and the first 20 are listed |
| GitHubIntegration.GetUserActivitySummary | backend/github_integration.py:264-309 | a summary exists exactly when the user and listing requests succeed; its totals are the commit total, the PR and issue counts, the repository count and the star total; the period is "Last N days" |
| LlmRefiner.ExtractLanguages | backend/llm_refiner.py:130-135 | one language per breakdown entry |
| LlmRefiner.ExtractLanguagesSameKeys | backend/llm_refiner.py:130-135 | the languages are exactly the breakdown's keys |
| LlmRefiner.ExtractLanguagesByCount | backend/llm_refiner.py:130-135 | an earlier language never has fewer commits than a later one |
| LlmRefiner.ExtractTopProjects | backend/llm_refiner.py:137-142 | at most 5 of the given repositories, by stars non-increasing with missing stars as 0 |
| LlmRefiner.TopProjectsOutrankTheRest | backend/llm_refiner.py:137-142 | no repository left out has more stars than one kept |
| LlmRefiner.NoWordInEmptyText | backend/llm_refiner.py:153 | an empty description mentions no keyword |
| LlmRefiner.WithAreaEmpty | backend/llm_refiner.py:154-165 | one keyword test adds an area exactly when the description mentions a word of its list |
| LlmRefiner.AddTextAreasEmpty | backend/llm_refiner.py:152-165 | one description adds some area exactly when it mentions a keyword, and never adds the general area |
| LlmRefiner.NoAreaIffNoKeyword | backend/llm_refiner.py:150-167 | no area is found exactly when no description mentions a keyword |
| LlmRefiner.AddAreas | backend/llm_refiner.py:152-165 | the six keyword tests add their areas to the set |
| LlmRefiner.ExtractContributionAreas | backend/llm_refiner.py:144-167 | the areas are never empty, have no duplicates, are the areas found when there are any, and are the general area alone exactly when no description mentions a keyword |
| LlmRefiner.AnalyzeDevelopmentStyle | backend/llm_refiner.py:169-183 | first match of: PRs above a fifth of commits, issues above a fifth, more than 500 commits, otherwise balanced; each style exactly under its condition |
| LlmRefiner.NoActivityIsBalanced | backend/llm_refiner.py:169-183 | no activity is balanced |
| LlmRefiner.ContributionLevel | backend/llm_refiner.py:290-298 | four commit levels |
| LlmRefiner.ContributionInsightByLevel | backend/llm_refiner.py:290-298 | the first insight opens with the phrase of the level picked by 500/200/50, and more commits never lower the level |
| LlmRefiner.CollaborationInsightMatchesStyle | backend/llm_refiner.py:320-329 | the collaboration insight follows the same PR and issue ratio tests as the development style |
| LlmRefiner.CreateDetailedFallbackInsights | backend/llm_refiner.py:282-331 | always exactly four insights: contribution, languages, scope, collaboration |
| LlmRefiner.ActivityInsightMatchesLevel | backend/llm_refiner.py:406-413 | the activity insight is "very high" exactly above 200 commits and "moderate" exactly at 50 or fewer |
| LlmRefiner.CreateFallbackInsights | backend/llm_refiner.py:399-430 | always exactly three insights: activity, diversity, balance |
| LlmRefiner.DescriptionKindOf | backend/llm_refiner.py:491-507 | first match of: more than 500 commits, PRs above three tenths of commits, more than 100 commits, otherwise developing; each kind exactly under its condition |
| LlmRefiner.CreateFallbackDescription | backend/llm_refiner.py:491-507 | "<user> is " followed by the prolific sentence above 500 commits, else the collaborative one when PRs exceed three tenths of the commits, else the active one above 100 commits, else the developing one |
| LlmRefiner.DescriptionAgreesWithStyle | backend/llm_refiner.py:491-507 | a collaborative description implies a collaborative style, and a prolific one is never balanced |
| LlmRefiner.Take | backend/llm_refiner.py:239 | a slice `[:n]` is the longest prefix of at most n characters |
| LlmRefiner.FirstLine | backend/llm_refiner.py:259 | the first line is the prefix before the first newline |
| LlmRefiner.BulletedIsNotPlaceholder | backend/llm_refiner.py:228-261 | joined bullet lines never coincide with a placeholder |
| LlmRefiner.LanguageLine | backend/llm_refiner.py:233 | every language line is a bullet |
| LlmRefiner.LanguageLines | backend/llm_refiner.py:232-233 | at most 10 language lines, all bullets |
| LlmRefiner.FormatLanguages | backend/llm_refiner.py:228-233 | the placeholder exactly for an empty breakdown, otherwise the joined lines |
| LlmRefiner.ShortDescription | backend/llm_refiner.py:239 | at most 60 characters of the description |
| LlmRefiner.RepoLine | backend/llm_refiner.py:239 | every repository line is a bullet |
| LlmRefiner.FormatRepos | backend/llm_refiner.py:235-242 | the placeholder exactly for no repositories, otherwise one joined line per repository |
| LlmRefiner.CommitRepoLine | backend/llm_refiner.py:251 | every repository commit line is a bullet |
| LlmRefiner.CommitRepoLines | backend/llm_refiner.py:248-252 | at most 15 lines, all bullets |
| LlmRefiner.FormatCommitsByRepo | backend/llm_refiner.py:244-252 | the placeholder exactly for an empty table, otherwise the joined lines |
| LlmRefiner.RecentCommitLine | backend/llm_refiner.py:259 | every commit line is a bullet |
| LlmRefiner.RecentCommitLines | backend/llm_refiner.py:258-261 | at most 10 lines, one per detail in order |
| LlmRefiner.FormatRecentCommits | backend/llm_refiner.py:254-261 | the placeholder exactly for no details, otherwise the joined lines |
| LlmRefiner.FallbackRefinement | backend/llm_refiner.py:35-43 | without an API key the refinement is not refined, has four insights, the languages, top projects, non-empty areas and the style |
| LlmRefiner.RefinedEntryOf | backend/llm_refiner.py:476-489 | the merged entry says LLM enabled exactly when refined, and defaults missing recommendations and insights to empty |
| LlmRefiner.EnhanceActivityData | backend/llm_refiner.py:452-489 | the merged data holds the refinement under "refined", keeping the original keys in order and appending the new key when absent |
| LlmRefiner.EnhanceKeepsOriginalEntries | backend/llm_refiner.py:476-489 | every other key keeps its value |
| LlmRefiner.FallbackEntryHasNoLlm | backend/llm_refiner.py:476-489 | a fallback refinement merges as LLM disabled with no recommendations |
| Nostromo.DeploymentId | backend/nostromo_integration.py:209 | every id starts with "deploy_" |
| Nostromo.DeploymentIdInjective | backend/nostromo_integration.py:209 | two deployments share an id only when they share the second and the contract name |
| Nostromo.SplitAtUnderscore | backend/nostromo_integration.py:209 | the seconds and the name are recovered by splitting the id's tail at its first underscore |
| Nostromo.UnderscoreAfterDigits | backend/nostromo_integration.py:209 | the seconds' digits end at the first underscore of the id |
| Nostromo.ContractAddress | backend/nostromo_integration.py:228-230 | "QUBIC_CONTRACT_" then 40 upper-case hex digits that lower-case back to the id's digest |
| Nostromo.DeployResult | backend/nostromo_integration.py:236-242 | a confirmed success with no error, the address of the id and the hash of the id and clock |
| Nostromo.BaseUrl | backend/nostromo_integration.py:81 | the production host exactly on mainnet |
| Nostromo.RecordKeepsConsistent | backend/nostromo_integration.py:244 | storing a result under its own id keeps one entry per id, each under its own id |
| Nostromo.SameIdOverwrites | backend/nostromo_integration.py:244 | a second deployment with the same id replaces the first and the registry does not grow |
| Nostromo.ListedResultsAreFound | backend/nostromo_integration.py:262-271 | every listed result is found again by its own id |
| Nostromo.NostromoClient.constructor | backend/nostromo_integration.py:67-84 | a new client has no deployments and the base URL of its network |
| Nostromo.NostromoClient.Deploy | backend/nostromo_integration.py:198-250 | the result is stored under its id, found by it afterwards, and every other id keeps its result |
| Nostromo.NostromoClient.GetDeploymentStatus | backend/nostromo_integration.py:252-262 | None exactly for an unknown id, otherwise the stored result, which carries that id |
| Nostromo.NostromoClient.ListDeployments | backend/nostromo_integration.py:264-271 | every stored result exactly once, in the order first recorded, each found again by its id |
| Nostromo.DevScoreConfig | backend/nostromo_integration.py:307-313 | the DevScore contract: no initial supply, the metadata URI, the default gas limit |
| Nostromo.DeployDevScoreContract | backend/nostromo_integration.py:292-315 | a confirmed success under a DevScore id with the address of that id |
| Sorting.SortDesc | backend/llm_refiner.py:137-142 | sorted by key non-increasing and a permutation of the input |
| Sorting.SortDescIsStable | backend/llm_refiner.py:142 | the sort is stable: for every key, the elements with that key come out in their input order, which decides which equally-starred repositories survive `[:5]` |
| Sorting.SortByKeyIsTheAscendingOrder | backend/qubic_client.py:146 | the key-sorted order is the only ascending arrangement of a dict's items |
| Sorting.SortByKeyIgnoresOrder | backend/qubic_client.py:146 | key-sorted output does not depend on the input's order |

## Left out

- HTTP requests, the OpenAI calls and the prompt text: responses are inputs, and the LLM branch of `refine_activity_summary` is not modelled (only its no-key fallback).
- `_format_activity_detailed`, `_create_detailed_fallback_summary`, `_create_fallback_summary` and `generate_activity_description`: prompt and prose assembly; the fallback summary text is a parameter of `FallbackRefinement`.
- The first `_create_fallback_description`: Python replaces it with the second definition.
- `get_user_stars` and the user-info fields beyond the request status: plain field copies.
- `get_balance`, `get_nft`, `verify_contract`, `prepare_devscore_contract` and the contract source text: constant placeholders.
- The `NostromoIntegration` class in `backend/qubic_client.py`: a second placeholder not used by the rest of the code.
- `print`, `time.sleep`, `setTimeout` and toasts: output and delays.
- SHA-256, `json.dumps`, `time.time`, `Math.random` and `new Date()`: parameters; their own behaviour is not modelled.
- LlmRefiner.AnalyzeDevelopmentStyle: the float test `> commits * 0.2` is the exact integer inequality `5 * x > commits`, and likewise `* 0.3` in the fallback description and `* 1.5` in the balance insight; float rounding near the boundary is not modelled.
- Common.Lower: ASCII letters only; Python's Unicode case mapping is not modelled.
- GitHubIntegration.GetUserRepos, GitHubIntegration.SumStars, GitHubIntegration.SumForks, GitHubIntegration.EntryOf, GitHubIntegration.EntryOfItem, GitHubIntegration.GetUserActivitySummary: a JSON field is an `Option`, so a missing key and a null value are the same `None`. The model assumes GitHub always sends these keys and never sends a null star or fork count or a null repository URL; `None` then stands for a null language or description, and the `.get` defaults (`'Unknown'` for a missing language, `''` for a missing description) never apply. Where the source would raise on a null count (`sum` at lines 243-244) or a null URL (`.split` at lines 162 and 202), the model counts 0 or uses the empty text.
- LlmRefiner.ExtractTopProjects: a repository whose stars are present but null counts as 0, where Python's sort would raise.
- LlmRefiner.ExtractContributionAreas: the order of `list(areas)` is Python's set order, which is unspecified; the model leaves the order open (any order of the found areas is a possible result) and proves only membership and the absence of duplicates.
- DevScoreHook.DevScoreHook.Mint: the token id's base-36 shape and the `toLocaleDateString` text are parameters.
- Nostromo.NostromoClient.Deploy: the clock reading is a natural number of seconds; negative clocks are not modelled.
- Concurrency between overlapping `fetchActivity`, `mint` and `connect` calls: each operation is atomic.
