/**
 * The mock Qubic ledger client: tier labels, wallet creation from chained
 * SHA-256 digests, transaction signing over key-sorted JSON, the DevScore
 * NFT mint record and the transfer record.
 *
 * SHA-256 is a parameter of type `Sha256` (any function returning 64
 * lower-case hex digits). The JSON text json.dumps produces is a parameter
 * too, so the model fixes which value is serialised and in which key order,
 * not the exact spelling of the text. Clock readings are parameters.
 */
module QubicClient {
  import opened Common
  import Sorting
  import ScoreEngine

  // ---------------------------------------------------------------------
  // Tiers
  // ---------------------------------------------------------------------

  /** _get_tier: the short tier label, at the thresholds 800, 600, 400, 200. */
  function QubicTier(score: int): string {
    if score >= 800 then "Elite"
    else if score >= 600 then "Senior"
    else if score >= 400 then "Mid"
    else if score >= 200 then "Junior"
    else "Newcomer"
  }

  /**
   * The ledger's label and the score engine's tier agree at every score:
   * the engine's name is the label with " Developer" appended, except for
   * "Newcomer".
   */
  lemma QubicTierMatchesScoreEngine(score: int)
    ensures ScoreEngine.GetTier(score)
         == if score >= 200 then QubicTier(score) + " Developer" else QubicTier(score)
  {
    if score >= 800 {
      assert "Elite" + " Developer" == "Elite Developer";
    } else if score >= 600 {
      assert "Senior" + " Developer" == "Senior Developer";
    } else if score >= 400 {
      assert "Mid" + " Developer" == "Mid Developer";
    } else if score >= 200 {
      assert "Junior" + " Developer" == "Junior Developer";
    }
  }

  // ---------------------------------------------------------------------
  // Wallets
  // ---------------------------------------------------------------------

  datatype QubicWallet = QubicWallet(address: string, publicKey: string, privateKey: string)

  const AddressPrefix := "QUBIC"

  /** The address of a public key: "QUBIC" and its first 56 hex digits in upper case. */
  function AddressOf(publicKey: HexDigest): (address: string)
    ensures |address| == 61
    ensures address[..5] == AddressPrefix
    ensures IsUpperHex(address[5..])
    ensures Lower(address[5..]) == publicKey[..56]
  {
    UpperHexRoundTrip(publicKey[..56]);
    assert (AddressPrefix + Upper(publicKey[..56]))[5..] == Upper(publicKey[..56]);
    AddressPrefix + Upper(publicKey[..56])
  }

  /**
   * create_wallet; `clockText` is `str(time.time())`. The private key is the
   * digest of the clock text and the public key the digest of the private key.
   */
  function CreateWallet(sha: Sha256, clockText: string): (w: QubicWallet)
    ensures w.privateKey == sha(clockText)
    ensures w.publicKey == sha(w.privateKey)
    ensures |w.address| == 61 && w.address[..5] == AddressPrefix
    ensures IsUpperHex(w.address[5..])
    ensures Lower(w.address[5..]) == w.publicKey[..56]
  {
    var privateKey := sha(clockText);
    var publicKey := sha(privateKey);
    QubicWallet(AddressOf(publicKey), publicKey, privateKey)
  }

  /** The address is 61 characters: the prefix and 56 upper-case hex digits (not 60). */
  lemma WalletAddressShape(sha: Sha256, clockText: string)
    ensures |CreateWallet(sha, clockText).address| == 61
    ensures CreateWallet(sha, clockText).address[..5] == AddressPrefix
    ensures IsUpperHex(CreateWallet(sha, clockText).address[5..])
  {
  }

  /** The address gives back the first 56 digits of the public key. */
  lemma WalletAddressRecoversPublicKey(sha: Sha256, clockText: string)
    ensures Lower(CreateWallet(sha, clockText).address[5..]) == CreateWallet(sha, clockText).publicKey[..56]
  {
  }

  /** Two wallets with the same private key have the same public key and address. */
  lemma WalletDeterminedByPrivateKey(sha: Sha256, clock1: string, clock2: string)
    requires CreateWallet(sha, clock1).privateKey == CreateWallet(sha, clock2).privateKey
    ensures CreateWallet(sha, clock1) == CreateWallet(sha, clock2)
  {
  }

  // ---------------------------------------------------------------------
  // Signing
  // ---------------------------------------------------------------------

  /** The scalar values a transaction dict holds. */
  datatype Scalar = Text(text: string) | Number(number: int)

  /** A flat JSON object: its items in insertion order, keys distinct as in a Python dict. */
  type JsonObject = items: seq<(string, Scalar)> | Sorting.DistinctTextKeys(items)
    witness []

  /** `json.dumps(obj)` of an object whose items come in the given order. */
  type Dumps = seq<(string, Scalar)> -> string

  /**
   * sign_transaction: the digest of the private key, a colon and the JSON
   * text of the data with its keys sorted.
   */
  function SignTransaction(sha: Sha256, dumps: Dumps, privateKey: string, data: JsonObject): (signature: HexDigest)
    ensures exists s :: Sorting.KeysAscending(s) && multiset(s) == multiset(data)
    ensures forall s :: Sorting.KeysAscending(s) && multiset(s) == multiset(data) ==>
              signature == sha(privateKey + ":" + dumps(s))
  {
    AnyAscendingOrderSignsAlike(sha, dumps, privateKey, data);
    sha(privateKey + ":" + dumps(Sorting.SortByKey(data)))
  }

  /** Every ascending arrangement of the data is the key-sorted one, so it is signed alike. */
  lemma AnyAscendingOrderSignsAlike(sha: Sha256, dumps: Dumps, privateKey: string, data: JsonObject)
    ensures forall s :: Sorting.KeysAscending(s) && multiset(s) == multiset(data) ==>
              sha(privateKey + ":" + dumps(Sorting.SortByKey(data))) == sha(privateKey + ":" + dumps(s))
  {
    forall s | Sorting.KeysAscending(s) && multiset(s) == multiset(data)
      ensures sha(privateKey + ":" + dumps(Sorting.SortByKey(data))) == sha(privateKey + ":" + dumps(s))
    {
      Sorting.SortByKeyIsTheAscendingOrder(data);
    }
  }

  /**
   * Because the keys are sorted first, the signature of a dict does not
   * depend on the order in which its keys were inserted.
   */
  lemma SignatureIgnoresKeyOrder(sha: Sha256, dumps: Dumps, privateKey: string, d1: JsonObject, d2: JsonObject)
    requires multiset(d1) == multiset(d2)
    ensures SignTransaction(sha, dumps, privateKey, d1) == SignTransaction(sha, dumps, privateKey, d2)
  {
    Sorting.SortByKeyIgnoresOrder(d1, d2);
  }

  // ---------------------------------------------------------------------
  // Minting and transfers
  // ---------------------------------------------------------------------

  datatype AttributeValue = IntValue(n: int) | TextValue(s: string)

  datatype Attribute = Attribute(traitType: string, value: AttributeValue)

  datatype NftMetadata = NftMetadata(
    name: string,
    description: string,
    attributes: seq<Attribute>,
    mintedAt: int,
    network: string)

  /** The transaction a mint submits: type NFT_MINT, the token id, the owner and the metadata. */
  datatype MintTransaction = MintTransaction(kind: string, tokenId: string, owner: string, metadata: NftMetadata)

  datatype MintResult = MintResult(tokenId: string, transactionHash: string, metadata: NftMetadata)

  const MintDescription := "Blockchain-verified developer reputation score"

  const TraitNames := ["Score", "Commits", "Pull Requests", "Issues", "Discord Messages", "Tier"]

  /** The token id: the first 16 digits of a digest, in upper case. */
  function TokenIdOf(digest: HexDigest): (tokenId: string)
    ensures |tokenId| == 16 && IsUpperHex(tokenId)
    ensures Lower(tokenId) == digest[..16]
  {
    UpperHexRoundTrip(digest[..16]);
    Upper(digest[..16])
  }

  datatype TransferResult = TransferResult(success: bool, transactionHash: string, tokenId: string, newOwner: string)

  /**
   * transfer_nft. The transfer record (type, token id, from, to, timestamp)
   * is signed, and the transaction hash is the digest of the signature.
   */
  function TransferNft(sha: Sha256, dumps: Dumps, tokenId: string, fromAddress: string, toAddress: string,
                       privateKey: string, now: int): (r: TransferResult)
    ensures r.success && r.newOwner == toAddress && r.tokenId == tokenId
    ensures r.transactionHash == sha(SignTransaction(sha, dumps, privateKey, TransferData(tokenId, fromAddress, toAddress, now)))
  {
    var signature := SignTransaction(sha, dumps, privateKey, TransferData(tokenId, fromAddress, toAddress, now));
    TransferResult(true, sha(signature), tokenId, toAddress)
  }

  /** The dict transfer_nft signs, in insertion order. */
  function TransferData(tokenId: string, fromAddress: string, toAddress: string, now: int): (d: JsonObject)
    ensures |d| == 5 && d[1] == ("token_id", Text(tokenId)) && d[3] == ("to", Text(toAddress))
  {
    [("type", Text("NFT_TRANSFER")), ("token_id", Text(tokenId)), ("from", Text(fromAddress)),
     ("to", Text(toAddress)), ("timestamp", Number(now))]
  }

  /** The client: the network it talks to, its API URL and whether it is connected. */
  class QubicClient {
    var network: string
    var apiUrl: string
    var connected: bool

    constructor(network: string)
      ensures this.network == network
      ensures apiUrl == "https://" + network + ".qubic.org/api"
      ensures !connected
    {
      this.network := network;
      this.apiUrl := "https://" + network + ".qubic.org/api";
      this.connected := false;
    }

    /** connect: always succeeds and marks the client connected. */
    method Connect() returns (ok: bool)
      modifies this
      ensures ok && connected
      ensures network == old(network) && apiUrl == old(apiUrl)
    {
      connected := true;
      ok := true;
    }

    /**
     * mint_devscore_nft. `clockText` is the `str(time.time())` read for the
     * token id, `now` the `int(time.time())` stored as minted_at, and
     * `dumpsTx` the JSON text of the mint transaction.
     */
    function MintDevScoreNft(sha: Sha256, dumpsTx: MintTransaction -> string, walletAddress: string,
                             score: int, commits: int, pullRequests: int, issues: int, discordMessages: int,
                             clockText: string, now: int): (r: MintResult)
      reads this
      ensures r.tokenId == TokenIdOf(sha(walletAddress + ":" + IntToString(score) + ":" + clockText))
      ensures r.metadata.name == "DevScore #" + r.tokenId
      ensures r.metadata.description == MintDescription
      ensures |r.metadata.attributes| == |TraitNames|
      ensures forall i :: 0 <= i < |TraitNames| ==> r.metadata.attributes[i].traitType == TraitNames[i]
      ensures r.metadata.attributes[0].value == IntValue(score)
      ensures r.metadata.attributes[5].value == TextValue(QubicTier(score))
      ensures r.metadata.mintedAt == now && r.metadata.network == network
      ensures r.transactionHash == sha(dumpsTx(MintTransaction("NFT_MINT", r.tokenId, walletAddress, r.metadata)))
    {
      var mintData := walletAddress + ":" + IntToString(score) + ":" + clockText;
      var tokenId := TokenIdOf(sha(mintData));
      var metadata := NftMetadata(
        "DevScore #" + tokenId,
        MintDescription,
        [ Attribute("Score", IntValue(score)),
          Attribute("Commits", IntValue(commits)),
          Attribute("Pull Requests", IntValue(pullRequests)),
          Attribute("Issues", IntValue(issues)),
          Attribute("Discord Messages", IntValue(discordMessages)),
          Attribute("Tier", TextValue(QubicTier(score))) ],
        now,
        network);
      var txHash := sha(dumpsTx(MintTransaction("NFT_MINT", tokenId, walletAddress, metadata)));
      MintResult(tokenId, txHash, metadata)
    }

    /** The middle four attributes echo the activity counts, in the order given. */
    lemma MintAttributesEchoCounts(sha: Sha256, dumpsTx: MintTransaction -> string, walletAddress: string,
                                   score: int, commits: int, pullRequests: int, issues: int, discordMessages: int,
                                   clockText: string, now: int)
      ensures var attrs := MintDevScoreNft(sha, dumpsTx, walletAddress, score, commits, pullRequests, issues,
                                           discordMessages, clockText, now).metadata.attributes;
              |attrs| == 6 &&
              attrs[1].value == IntValue(commits) && attrs[2].value == IntValue(pullRequests) &&
              attrs[3].value == IntValue(issues) && attrs[4].value == IntValue(discordMessages)
    {
    }

    /** Two mints at the same clock reading, for the same wallet and score, get the same token id. */
    lemma MintTokenIdDeterminedByInputs(sha: Sha256, dumpsTx: MintTransaction -> string, walletAddress: string,
                                        score: int, c1: int, p1: int, i1: int, d1: int,
                                        c2: int, p2: int, i2: int, d2: int, clockText: string, now1: int, now2: int)
      ensures MintDevScoreNft(sha, dumpsTx, walletAddress, score, c1, p1, i1, d1, clockText, now1).tokenId
           == MintDevScoreNft(sha, dumpsTx, walletAddress, score, c2, p2, i2, d2, clockText, now2).tokenId
    {
    }
  }
}
