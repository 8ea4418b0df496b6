/**
 * The frontend DevScore container: its own score formula (only the total is
 * capped), the mock activity fetch, and the state record that fetchActivity
 * and mint step through.
 *
 * Each React `setState` updater is a function on the state record; the hook
 * is a class with that record as its one field, and its methods apply the
 * updaters in the order the source does. The awaited mock calls become
 * inputs: a fetch or mint result is `Some(...)` on success and `None` when
 * the call throws.
 */
module DevScoreHook {
  import opened Common
  import ScoreEngine

  datatype Activity = Activity(commits: int, pullRequests: int, issues: int, discordMessages: int)

  const NoActivity := Activity(0, 0, 0, 0)

  predicate IsCount(a: Activity) {
    a.commits >= 0 && a.pullRequests >= 0 && a.issues >= 0 && a.discordMessages >= 0
  }

  const MaxScore := 1000

  /**
   * calculateScore: 2 per commit, 5 per pull request, 3 per issue and
   * floor(d * 0.5) for Discord, with only the total capped at 1000.
   * (Dafny's `/` by 2 is floor division, as Math.floor(d * 0.5) is.)
   */
  function CalculateScore(a: Activity): (score: int)
    ensures score <= MaxScore
    ensures IsCount(a) ==> 0 <= score
  {
    Min(2 * a.commits + 5 * a.pullRequests + 3 * a.issues + a.discordMessages / 2, MaxScore)
  }

  /** No activity, no score. */
  lemma NoActivityScoresZero()
    ensures CalculateScore(NoActivity) == 0
  {
  }

  /** 200 commits, 50 PRs, 30 issues and 500 messages: 400 + 250 + 90 + 250 = 990. */
  lemma ScoreExample()
    ensures CalculateScore(Activity(200, 50, 30, 500)) == 990
  {
  }

  /** Raising any count never lowers the frontend score. */
  lemma CalculateScoreIsMonotone(a: Activity, b: Activity)
    requires a.commits <= b.commits && a.pullRequests <= b.pullRequests
    requires a.issues <= b.issues && a.discordMessages <= b.discordMessages
    ensures CalculateScore(a) <= CalculateScore(b)
  {
  }

  /**
   * The two formulas are different: 300 commits alone give 600 here, while
   * the backend caps the commit category at 400.
   */
  lemma FrontendAndBackendDiffer()
    ensures CalculateScore(Activity(300, 0, 0, 0)) == 600
    ensures ScoreEngine.CalculateDevScore(300, 0, 0, 0) == 400
  {
  }

  /** Below every backend category cap the two formulas agree. */
  lemma FrontendMatchesBackendWithinCaps(a: Activity)
    requires IsCount(a)
    requires a.commits <= 200 && a.pullRequests <= 50 && a.issues <= 50 && a.discordMessages <= 400
    ensures CalculateScore(a) == ScoreEngine.CalculateDevScore(a.commits, a.pullRequests, a.issues, a.discordMessages)
  {
    ScoreEngine.ScoreIsSumOfCappedParts(a.commits, a.pullRequests, a.issues, a.discordMessages);
  }

  /** For real counts the frontend never scores below the backend. */
  lemma FrontendAtLeastBackend(a: Activity)
    requires IsCount(a)
    ensures ScoreEngine.CalculateDevScore(a.commits, a.pullRequests, a.issues, a.discordMessages) <= CalculateScore(a)
  {
    ScoreEngine.ScoreIsSumOfCappedParts(a.commits, a.pullRequests, a.issues, a.discordMessages);
  }

  // ---------------------------------------------------------------------
  // The mock backend fetch
  // ---------------------------------------------------------------------

  /** The ranges the mock fetch draws from. */
  predicate IsMockActivity(a: Activity) {
    50 <= a.commits < 250 && 10 <= a.pullRequests < 60
    && 5 <= a.issues < 35 && 100 <= a.discordMessages < 600
  }

  /**
   * fetchActivityFromBackend: each count is floor(random * n) plus an offset.
   * The draws are the floored random parts.
   */
  function MockActivity(commitDraw: nat, prDraw: nat, issueDraw: nat, discordDraw: nat): (a: Activity)
    requires commitDraw < 200 && prDraw < 50 && issueDraw < 30 && discordDraw < 500
    ensures IsMockActivity(a)
  {
    Activity(commitDraw + 50, prDraw + 10, issueDraw + 5, discordDraw + 100)
  }

  /** Every activity in the mock ranges is produced by some draw. */
  lemma MockActivityCoversRanges(a: Activity)
    requires IsMockActivity(a)
    ensures a == MockActivity(a.commits - 50, a.pullRequests - 10, a.issues - 5, a.discordMessages - 100)
  {
  }

  /** A mock activity never scores 0, so minting after a mock fetch is allowed. */
  lemma MockActivityScoresAboveZero(a: Activity)
    requires IsMockActivity(a)
    ensures 215 <= CalculateScore(a)
  {
  }

  // ---------------------------------------------------------------------
  // The hook's state and its updaters
  // ---------------------------------------------------------------------

  datatype NftData = NftData(tokenId: string, mintedAt: string)

  datatype DevScoreState = DevScoreState(
    score: int,
    activity: Activity,
    isLoading: bool,
    isMinting: bool,
    hasMinted: bool,
    nftData: Option<NftData>)

  const InitialState := DevScoreState(0, NoActivity, false, false, false, None)

  function StartLoading(s: DevScoreState): DevScoreState {
    s.(isLoading := true)
  }

  function FetchSucceeded(s: DevScoreState, a: Activity): DevScoreState {
    s.(activity := a, score := CalculateScore(a), isLoading := false)
  }

  function FetchFailed(s: DevScoreState): DevScoreState {
    s.(isLoading := false)
  }

  function StartMinting(s: DevScoreState): DevScoreState {
    s.(isMinting := true)
  }

  function MintSucceeded(s: DevScoreState, tokenId: string, mintedAt: string): DevScoreState {
    s.(isMinting := false, hasMinted := true, nftData := Some(NftData(tokenId, mintedAt)))
  }

  function MintFailed(s: DevScoreState): DevScoreState {
    s.(isMinting := false)
  }

  /** The state once a whole fetchActivity call has finished. */
  function AfterFetch(s: DevScoreState, fetched: Option<Activity>): DevScoreState {
    match fetched
    case Some(a) => FetchSucceeded(StartLoading(s), a)
    case None => FetchFailed(StartLoading(s))
  }

  /** The state once a whole mint call has finished (the mint result is `minted`). */
  function AfterMint(s: DevScoreState, minted: Option<string>, mintedAt: string): DevScoreState {
    if s.score == 0 then s
    else match minted
      case Some(tokenId) => MintSucceeded(StartMinting(s), tokenId, mintedAt)
      case None => MintFailed(StartMinting(s))
  }

  /** The initial state: score 0, no activity, no flag set, no NFT. */
  lemma InitialStateIsIdle()
    ensures InitialState.score == 0 && InitialState.activity == NoActivity
    ensures !InitialState.isLoading && !InitialState.isMinting && !InitialState.hasMinted
    ensures InitialState.nftData == None
    ensures InitialState.score == CalculateScore(InitialState.activity)
  {
  }

  /**
   * A successful fetch installs the new activity and its score and clears
   * the loading flag; the minting fields are left alone.
   */
  lemma FetchSuccessEffect(s: DevScoreState, a: Activity)
    ensures AfterFetch(s, Some(a)).activity == a
    ensures AfterFetch(s, Some(a)).score == CalculateScore(a)
    ensures !AfterFetch(s, Some(a)).isLoading
    ensures AfterFetch(s, Some(a)).isMinting == s.isMinting
    ensures AfterFetch(s, Some(a)).hasMinted == s.hasMinted
    ensures AfterFetch(s, Some(a)).nftData == s.nftData
  {
  }

  /** A failed fetch changes nothing but the loading flag. */
  lemma FetchFailureEffect(s: DevScoreState)
    ensures AfterFetch(s, None) == s.(isLoading := false)
  {
  }

  /** With a score of 0, mint changes nothing, whatever the mint call would have returned. */
  lemma MintRefusedAtZero(s: DevScoreState, minted: Option<string>, mintedAt: string)
    requires s.score == 0
    ensures AfterMint(s, minted, mintedAt) == s
  {
  }

  /** A successful mint records the token and sets the latch; score and activity stay. */
  lemma MintSuccessEffect(s: DevScoreState, tokenId: string, mintedAt: string)
    requires s.score != 0
    ensures AfterMint(s, Some(tokenId), mintedAt).hasMinted
    ensures AfterMint(s, Some(tokenId), mintedAt).nftData == Some(NftData(tokenId, mintedAt))
    ensures !AfterMint(s, Some(tokenId), mintedAt).isMinting
    ensures AfterMint(s, Some(tokenId), mintedAt).score == s.score
    ensures AfterMint(s, Some(tokenId), mintedAt).activity == s.activity
    ensures AfterMint(s, Some(tokenId), mintedAt).isLoading == s.isLoading
  {
  }

  /** A failed mint only clears the minting flag: an earlier NFT survives it. */
  lemma MintFailureEffect(s: DevScoreState, mintedAt: string)
    ensures AfterMint(s, None, mintedAt) == if s.score == 0 then s else s.(isMinting := false)
    ensures AfterMint(s, None, mintedAt).hasMinted == s.hasMinted
    ensures AfterMint(s, None, mintedAt).nftData == s.nftData
  {
  }

  /** One user action, with the result its awaited call produced. */
  datatype Op =
    | Fetch(fetched: Option<Activity>)
    | Mint(minted: Option<string>, mintedAt: string)

  function Step(s: DevScoreState, op: Op): DevScoreState {
    match op
    case Fetch(fetched) => AfterFetch(s, fetched)
    case Mint(minted, mintedAt) => AfterMint(s, minted, mintedAt)
  }

  /** The state after a sequence of completed actions, in order. */
  function Run(s: DevScoreState, ops: seq<Op>): DevScoreState
    decreases |ops|
  {
    if ops == [] then s else Run(Step(s, ops[0]), ops[1..])
  }

  /**
   * Between actions: the score is the score of the stored activity, the
   * latch is set exactly when an NFT is recorded, and no call is in flight.
   */
  predicate Settled(s: DevScoreState) {
    s.score == CalculateScore(s.activity)
    && (s.hasMinted <==> s.nftData.Some?)
    && !s.isLoading && !s.isMinting
  }

  lemma StepKeepsSettled(s: DevScoreState, op: Op)
    requires Settled(s)
    ensures Settled(Step(s, op))
  {
  }

  /** Every sequence of actions from the initial state ends settled. */
  lemma {:induction false} RunKeepsSettled(s: DevScoreState, ops: seq<Op>)
    requires Settled(s)
    ensures Settled(Run(s, ops))
    decreases |ops|
  {
    if ops != [] {
      StepKeepsSettled(s, ops[0]);
      RunKeepsSettled(Step(s, ops[0]), ops[1..]);
    }
  }

  /** Once minted, always minted: no later fetch or mint, failed or not, clears the latch. */
  lemma {:induction false} MintedLatchHolds(s: DevScoreState, ops: seq<Op>)
    requires s.hasMinted && s.nftData.Some?
    ensures Run(s, ops).hasMinted && Run(s, ops).nftData.Some?
    decreases |ops|
  {
    if ops != [] {
      MintedLatchHolds(Step(s, ops[0]), ops[1..]);
    }
  }

  /** Without a successful mint call the latch stays clear. */
  predicate NoSuccessfulMint(ops: seq<Op>) {
    forall i :: 0 <= i < |ops| ==> !(ops[i].Mint? && ops[i].minted.Some?)
  }

  lemma {:induction false} NoMintNoNft(s: DevScoreState, ops: seq<Op>)
    requires !s.hasMinted && s.nftData.None?
    requires NoSuccessfulMint(ops)
    ensures !Run(s, ops).hasMinted && Run(s, ops).nftData.None?
    decreases |ops|
  {
    if ops != [] {
      assert !(ops[0].Mint? && ops[0].minted.Some?);
      NoMintNoNft(Step(s, ops[0]), ops[1..]);
    }
  }

  /** A fetch that returns mock data followed by a successful mint call always mints. */
  lemma MockFetchThenMintMints(s: DevScoreState, a: Activity, tokenId: string, mintedAt: string)
    requires IsMockActivity(a)
    ensures Run(s, [Fetch(Some(a)), Mint(Some(tokenId), mintedAt)]).nftData == Some(NftData(tokenId, mintedAt))
  {
    MockActivityScoresAboveZero(a);
    var ops := [Fetch(Some(a)), Mint(Some(tokenId), mintedAt)];
    var fetchedState := AfterFetch(s, Some(a));
    assert ops[1..] == [Mint(Some(tokenId), mintedAt)];
    assert Run(s, ops) == Run(fetchedState, ops[1..]);
    assert Run(fetchedState, ops[1..]) == Run(AfterMint(fetchedState, Some(tokenId), mintedAt), []);
  }

  /** The hook itself: the state cell that useState holds and the callbacks that update it. */
  class DevScoreHook {
    var state: DevScoreState

    constructor()
      ensures state == InitialState
    {
      state := InitialState;
    }

    /** fetchActivity; `fetched` is what the awaited mock fetch produced. */
    method FetchActivity(fetched: Option<Activity>)
      modifies this
      ensures state == AfterFetch(old(state), fetched)
    {
      state := StartLoading(state);
      match fetched {
        case Some(a) =>
          var score := CalculateScore(a);
          state := state.(activity := a, score := score, isLoading := false);
        case None =>
          state := FetchFailed(state);
      }
    }

    /**
     * mint; `minted` is the token id the awaited mint call produced and
     * `mintedAt` the local date text. `called` says whether the mint call
     * was made at all.
     */
    method Mint(minted: Option<string>, mintedAt: string) returns (called: bool)
      modifies this
      ensures called <==> old(state).score != 0
      ensures state == AfterMint(old(state), minted, mintedAt)
    {
      if state.score == 0 {
        return false;
      }
      state := StartMinting(state);
      called := true;
      match minted {
        case Some(tokenId) =>
          state := state.(isMinting := false, hasMinted := true, nftData := Some(NftData(tokenId, mintedAt)));
        case None =>
          state := MintFailed(state);
      }
    }
  }
}
