/**
 * The frontend wallet container: a record (connected, address, connecting)
 * that connect and disconnect overwrite, and the mock Qubic address that
 * connect produces from 56 random draws over a 32-letter alphabet.
 */
module WalletHook {
  import opened Common

  const AddressPrefix := "QUBIC"
  const Base32Alphabet := "ABCDEFGHIJKLMNOPQRSTUVWXYZ234567"
  const AddressDraws := 56

  /** `Math.floor(Math.random() * 32)`: an index into the alphabet. */
  type Draw = n: nat | n < 32

  predicate IsBase32Char(c: char) {
    'A' <= c <= 'Z' || '2' <= c <= '7'
  }

  /** The position of an alphabet letter; the inverse of indexing the alphabet. */
  function Base32Value(c: char): int {
    if 'A' <= c <= 'Z' then c as int - 'A' as int else c as int - '2' as int + 26
  }

  lemma Base32AlphabetDecodes(k: Draw)
    ensures IsBase32Char(Base32Alphabet[k])
    ensures Base32Value(Base32Alphabet[k]) == k
  {
  }

  /** The letters the draws pick out of the alphabet, in order. */
  function Letters(draws: seq<Draw>): (letters: string)
    ensures |letters| == |draws|
    ensures forall i :: 0 <= i < |draws| ==> IsBase32Char(letters[i])
  {
    var letters := seq(|draws|, i requires 0 <= i < |draws| => Base32Alphabet[draws[i]]);
    LettersAreBase32(draws, letters);
    letters
  }

  lemma LettersAreBase32(draws: seq<Draw>, letters: string)
    requires |letters| == |draws|
    requires forall i :: 0 <= i < |draws| ==> letters[i] == Base32Alphabet[draws[i]]
    ensures forall i :: 0 <= i < |draws| ==> IsBase32Char(letters[i])
  {
    forall i | 0 <= i < |draws|
      ensures IsBase32Char(letters[i])
    {
      Base32AlphabetDecodes(draws[i]);
    }
  }

  /** "QUBIC" followed by one alphabet letter per draw. */
  function MockAddress(draws: seq<Draw>): (address: string)
    requires |draws| == AddressDraws
    ensures |address| == |AddressPrefix| + AddressDraws == 61
    ensures address[..|AddressPrefix|] == AddressPrefix
    ensures forall i :: |AddressPrefix| <= i < |address| ==> IsBase32Char(address[i])
  {
    AddressPrefix + Letters(draws)
  }

  /** The shape every mock address has. */
  predicate IsMockAddress(s: string) {
    |s| == 61 && s[..5] == AddressPrefix
    && forall i :: 5 <= i < 61 ==> IsBase32Char(s[i])
  }

  /** Different draws give different addresses: the address determines the draws. */
  lemma MockAddressInjective(d1: seq<Draw>, d2: seq<Draw>)
    requires |d1| == AddressDraws && |d2| == AddressDraws
    requires MockAddress(d1) == MockAddress(d2)
    ensures d1 == d2
  {
    forall i | 0 <= i < AddressDraws
      ensures d1[i] == d2[i]
    {
      assert Letters(d1)[i] == MockAddress(d1)[5 + i] == MockAddress(d2)[5 + i] == Letters(d2)[i];
      Base32AlphabetDecodes(d1[i]);
      Base32AlphabetDecodes(d2[i]);
    }
  }

  // ---------------------------------------------------------------------
  // The wallet state and its updates
  // ---------------------------------------------------------------------

  datatype WalletState = WalletState(isConnected: bool, address: Option<string>, isConnecting: bool)

  const Disconnected := WalletState(false, None, false)

  function StartConnecting(w: WalletState): WalletState {
    w.(isConnecting := true)
  }

  /** connect's first update raises the connecting flag and touches nothing else. */
  lemma ConnectStartsConnecting(w: WalletState)
    ensures StartConnecting(w).isConnecting
    ensures StartConnecting(w).isConnected == w.isConnected && StartConnecting(w).address == w.address
  {
  }

  /** A connect call's random draws, or None when the call throws. */
  type ConnectResult = r: Option<seq<Draw>> | r.Some? ==> |r.value| == AddressDraws
    witness None

  /** The state once a whole connect call has finished. */
  function AfterConnect(w: WalletState, result: ConnectResult): WalletState {
    match result
    case Some(draws) => WalletState(true, Some(MockAddress(draws)), false)
    case None => StartConnecting(w).(isConnecting := false)
  }

  /** A successful connect: connected, not connecting, with a mock address. */
  lemma ConnectSuccessEffect(w: WalletState, draws: seq<Draw>)
    requires |draws| == AddressDraws
    ensures AfterConnect(w, Some(draws)).isConnected
    ensures !AfterConnect(w, Some(draws)).isConnecting
    ensures AfterConnect(w, Some(draws)).address.Some?
    ensures IsMockAddress(AfterConnect(w, Some(draws)).address.value)
  {
  }

  /** A failed connect only clears the connecting flag. */
  lemma ConnectFailureEffect(w: WalletState)
    ensures AfterConnect(w, None) == w.(isConnecting := false)
  {
  }

  /** disconnect restores the initial state from any state, so doing it twice is doing it once. */
  lemma DisconnectRestoresInitial(w: WalletState)
    ensures AfterDisconnect(w) == Disconnected
    ensures AfterDisconnect(AfterDisconnect(w)) == AfterDisconnect(w)
  {
  }

  /** The state after disconnect: the initial one, whatever came before. */
  function AfterDisconnect(w: WalletState): WalletState {
    Disconnected
  }

  datatype Op = ConnectOp(result: ConnectResult) | DisconnectOp

  function Step(w: WalletState, op: Op): WalletState {
    match op
    case ConnectOp(result) => AfterConnect(w, result)
    case DisconnectOp => AfterDisconnect(w)
  }

  function Run(w: WalletState, ops: seq<Op>): WalletState
    decreases |ops|
  {
    if ops == [] then w else Run(Step(w, ops[0]), ops[1..])
  }

  /**
   * Between calls: connected exactly when an address is held, any held
   * address is a mock address, and no connect is in flight.
   */
  predicate Settled(w: WalletState) {
    (w.isConnected <==> w.address.Some?)
    && (w.address.Some? ==> IsMockAddress(w.address.value))
    && !w.isConnecting
  }

  lemma StepKeepsSettled(w: WalletState, op: Op)
    requires Settled(w)
    ensures Settled(Step(w, op))
  {
  }

  lemma {:induction false} RunKeepsSettled(w: WalletState, ops: seq<Op>)
    requires Settled(w)
    ensures Settled(Run(w, ops))
    decreases |ops|
  {
    if ops != [] {
      StepKeepsSettled(w, ops[0]);
      RunKeepsSettled(Step(w, ops[0]), ops[1..]);
    }
  }

  /** Any history that ends with a disconnect ends in the initial state. */
  lemma {:induction false} EndingWithDisconnect(w: WalletState, ops: seq<Op>)
    requires ops != [] && ops[|ops| - 1] == DisconnectOp
    ensures Run(w, ops) == Disconnected
    decreases |ops|
  {
    if |ops| > 1 {
      EndingWithDisconnect(Step(w, ops[0]), ops[1..]);
    }
  }

  /** The hook: the state cell useState holds and the callbacks that overwrite it. */
  class WalletHook {
    var wallet: WalletState

    constructor()
      ensures wallet == Disconnected
    {
      wallet := Disconnected;
    }

    /** connect; `result` carries the random draws, or None when the call throws. */
    method Connect(result: ConnectResult)
      modifies this
      ensures wallet == AfterConnect(old(wallet), result)
    {
      wallet := StartConnecting(wallet);
      match result {
        case Some(draws) =>
          var address := MockAddress(draws);
          wallet := WalletState(true, Some(address), false);
        case None =>
          wallet := wallet.(isConnecting := false);
      }
    }

    method Disconnect()
      modifies this
      ensures wallet == AfterDisconnect(old(wallet))
    {
      wallet := WalletState(false, None, false);
    }
  }
}
