/**
 * The Nostromo launchpad client: a registry of deployment results keyed by
 * deployment id, which deploy writes and the status and listing calls
 * read. Deployment itself is simulated: it always succeeds, with a contract
 * address and a transaction hash drawn from SHA-256 digests.
 *
 * SHA-256 is a parameter (`Sha256`); the clock readings `int(time.time())`
 * and `str(time.time())` are parameters of deploy.
 */
module Nostromo {
  import opened Common
  import opened Dicts

  datatype DeploymentStatus = Pending | Verifying | Deploying | Confirmed | Failed

  /** The wire value of each status. */
  function StatusValue(s: DeploymentStatus): string {
    match s
    case Pending => "pending"
    case Verifying => "verifying"
    case Deploying => "deploying"
    case Confirmed => "confirmed"
    case Failed => "failed"
  }

  const DefaultGasLimit := 1000000

  datatype DeploymentConfig = DeploymentConfig(
    network: string,
    contractName: string,
    initialSupply: int,
    ownerAddress: string,
    metadataUri: Option<string>,
    gasLimit: int)

  datatype DeploymentResult = DeploymentResult(
    success: bool,
    deploymentId: string,
    contractAddress: Option<string>,
    transactionHash: Option<string>,
    status: DeploymentStatus,
    errorMessage: Option<string>)

  const DeployPrefix := "deploy_"
  const ContractPrefix := "QUBIC_CONTRACT_"

  /** `f"deploy_{int(time.time())}_{config.contract_name}"`. */
  function DeploymentId(seconds: nat, contractName: string): (id: string)
    ensures |id| > 7 && id[..7] == DeployPrefix
  {
    var id := DeployPrefix + NatToString(seconds) + "_" + contractName;
    assert id[..7] == DeployPrefix;
    id
  }

  /**
   * The digits end at the first underscore after the prefix, so the id
   * gives back both the second and the contract name: two deployments get
   * the same id only when they share both.
   */
  lemma DeploymentIdInjective(s1: nat, n1: string, s2: nat, n2: string)
    requires DeploymentId(s1, n1) == DeploymentId(s2, n2)
    ensures s1 == s2 && n1 == n2
  {
    IdTail(s1, n1);
    IdTail(s2, n2);
    SplitAtUnderscore(NatToString(s1), n1);
    SplitAtUnderscore(NatToString(s2), n2);
    NatToStringInjective(s1, s2);
  }

  /** After the seven-character prefix, an id is the seconds, an underscore and the name. */
  lemma IdTail(seconds: nat, contractName: string)
    ensures DeploymentId(seconds, contractName)[7..] == NatToString(seconds) + "_" + contractName
  {
    var tail := NatToString(seconds) + "_" + contractName;
    assert DeploymentId(seconds, contractName) == DeployPrefix + tail;
  }

  /** Digits, an underscore and a name split again at the first underscore. */
  lemma SplitAtUnderscore(d: string, n: string)
    requires forall i :: 0 <= i < |d| ==> IsDigit(d[i])
    ensures var t := d + "_" + n; d == t[..UnderscoreIndex(t)] && n == t[UnderscoreIndex(t) + 1..]
  {
    UnderscoreAfterDigits(d, n);
    var t := d + "_" + n;
    assert t[..|d|] == d;
    assert t[|d| + 1..] == n;
  }

  /** The position of the first underscore, or the length when there is none. */
  function UnderscoreIndex(t: string): (k: nat)
    ensures k <= |t|
  {
    if t == [] || t[0] == '_' then 0 else 1 + UnderscoreIndex(t[1..])
  }

  /** A run of digits followed by an underscore ends where the first underscore is. */
  lemma {:induction false} UnderscoreAfterDigits(d: string, n: string)
    requires forall i :: 0 <= i < |d| ==> IsDigit(d[i])
    ensures UnderscoreIndex(d + "_" + n) == |d|
  {
    if d != [] {
      assert (d + "_" + n)[1..] == d[1..] + "_" + n;
      UnderscoreAfterDigits(d[1..], n);
    }
  }

  /** The mock contract address: the prefix and the first 40 digits of the id's digest, in upper case. */
  function ContractAddress(sha: Sha256, deploymentId: string): (address: string)
    ensures |address| == |ContractPrefix| + 40
    ensures address[..|ContractPrefix|] == ContractPrefix
    ensures IsUpperHex(address[|ContractPrefix|..])
    ensures Lower(address[|ContractPrefix|..]) == sha(deploymentId)[..40]
  {
    var digits := sha(deploymentId)[..40];
    UpperHexRoundTrip(digits);
    assert (ContractPrefix + Upper(digits))[|ContractPrefix|..] == Upper(digits);
    ContractPrefix + Upper(digits)
  }

  /** The result deploy records: a confirmed success with an address and a hash. */
  function DeployResult(sha: Sha256, deploymentId: string, clockText: string): (r: DeploymentResult)
    ensures r.success && r.status == Confirmed && r.errorMessage.None?
    ensures r.deploymentId == deploymentId
    ensures r.contractAddress == Some(ContractAddress(sha, deploymentId))
    ensures r.transactionHash == Some(sha(deploymentId + "_" + clockText))
  {
    DeploymentResult(true, deploymentId, Some(ContractAddress(sha, deploymentId)),
                     Some(sha(deploymentId + "_" + clockText)), Confirmed, None)
  }

  /** `'api'` on mainnet, `'testnet-api'` on any other network. */
  function BaseUrl(network: string): (url: string)
    ensures url == "https://api.nostromo.qubic.org" <==> network == "mainnet"
  {
    var host := if network == "mainnet" then "api" else "testnet-api";
    var url := "https://" + host + ".nostromo.qubic.org";
    assert url[8..11] == host[..3];
    url
  }

  /**
   * The registry is consistent: one entry per id, each stored under its
   * own deployment id.
   */
  ghost predicate Consistent(deployments: Dict<string, DeploymentResult>) {
    DistinctKeys(deployments)
    && forall i :: 0 <= i < |deployments| ==> deployments[i].1.deploymentId == deployments[i].0
  }

  /** Storing a result under its own id keeps the registry consistent. */
  lemma RecordKeepsConsistent(deployments: Dict<string, DeploymentResult>, r: DeploymentResult)
    requires Consistent(deployments)
    ensures Consistent(Put(deployments, r.deploymentId, r))
  {
    var next := Put(deployments, r.deploymentId, r);
    PutKeepsDistinct(deployments, r.deploymentId, r);
    forall i | 0 <= i < |next|
      ensures next[i].1.deploymentId == next[i].0
    {
      PutItemsFrom(deployments, r.deploymentId, r, next[i]);
    }
  }

  /**
   * Two deployments with the same id (the same contract name in the same
   * second): the second replaces the first and the registry does not grow.
   */
  lemma SameIdOverwrites(deployments: Dict<string, DeploymentResult>, r1: DeploymentResult, r2: DeploymentResult)
    requires r1.deploymentId == r2.deploymentId
    ensures var once := Put(deployments, r1.deploymentId, r1);
            var twice := Put(once, r2.deploymentId, r2);
            Get(twice, r1.deploymentId) == Some(r2) && |twice| == |once|
  {
    var once := Put(deployments, r1.deploymentId, r1);
    PutHasKey(deployments, r1.deploymentId, r1, r1.deploymentId);
    PutLength(once, r2.deploymentId, r2);
  }

  /** In a consistent registry every listed result is found again by its own id. */
  lemma ListedResultsAreFound(deployments: Dict<string, DeploymentResult>)
    requires Consistent(deployments)
    ensures forall i :: 0 <= i < |deployments| ==>
              Get(deployments, Values(deployments)[i].deploymentId) == Some(Values(deployments)[i])
  {
    forall i | 0 <= i < |deployments|
      ensures Get(deployments, Values(deployments)[i].deploymentId) == Some(Values(deployments)[i])
    {
      GetStoredItem(deployments, i);
    }
  }

  class NostromoClient {
    var apiKey: Option<string>
    var network: string
    var baseUrl: string
    var deployments: Dict<string, DeploymentResult>

    ghost predicate Valid()
      reads this
    {
      Consistent(deployments) && baseUrl == BaseUrl(network)
    }

    /** A fresh client has no deployments. */
    constructor(apiKey: Option<string>, network: string)
      ensures this.apiKey == apiKey && this.network == network
      ensures baseUrl == BaseUrl(network)
      ensures deployments == []
      ensures Valid()
    {
      this.apiKey := apiKey;
      this.network := network;
      this.baseUrl := BaseUrl(network);
      this.deployments := [];
    }

    /**
     * deploy. `nowSeconds` is `int(time.time())` and `clockText` the
     * `str(time.time())` read for the transaction hash. The result is stored
     * under its id, overwriting an earlier deployment of the same contract
     * name in the same second.
     */
    method Deploy(sha: Sha256, config: DeploymentConfig, nowSeconds: nat, clockText: string)
      returns (r: DeploymentResult)
      requires Valid()
      modifies this
      ensures Valid()
      ensures r == DeployResult(sha, DeploymentId(nowSeconds, config.contractName), clockText)
      ensures deployments == Put(old(deployments), r.deploymentId, r)
      ensures Get(deployments, r.deploymentId) == Some(r)
      ensures forall id :: id != r.deploymentId ==> Get(deployments, id) == Get(old(deployments), id)
      ensures apiKey == old(apiKey) && network == old(network) && baseUrl == old(baseUrl)
    {
      var deploymentId := DeploymentId(nowSeconds, config.contractName);
      var contractAddress := ContractAddress(sha, deploymentId);
      var txHash := sha(deploymentId + "_" + clockText);
      r := DeploymentResult(true, deploymentId, Some(contractAddress), Some(txHash), Confirmed, None);
      RecordKeepsConsistent(deployments, r);
      forall id | id != r.deploymentId
        ensures Get(Put(deployments, r.deploymentId, r), id) == Get(deployments, id)
      {
        PutKeepsOthers(deployments, r.deploymentId, r, id);
      }
      deployments := Put(deployments, deploymentId, r);
    }

    /** get_deployment_status: the result stored under the id, or None for an unknown id. */
    function GetDeploymentStatus(deploymentId: string): (r: Option<DeploymentResult>)
      reads this
      requires Valid()
      ensures r.None? <==> !HasKey(deployments, deploymentId)
      ensures r.Some? ==> r.value.deploymentId == deploymentId && (deploymentId, r.value) in deployments
    {
      var r := Get(deployments, deploymentId);
      if r.Some? then
        GetFindsItem(deployments, deploymentId);
        r
      else r
    }

    /** list_deployments: every stored result, in the order first recorded. */
    function ListDeployments(): (results: seq<DeploymentResult>)
      reads this
      requires Valid()
      ensures |results| == |deployments|
      ensures forall i :: 0 <= i < |deployments| ==> results[i] == deployments[i].1
      ensures forall id, r :: (id, r) in deployments ==> r in results
      ensures forall i :: 0 <= i < |results| ==> GetDeploymentStatus(results[i].deploymentId) == Some(results[i])
    {
      ListedResultsAreFound(deployments);
      Values(deployments)
    }
  }

  const DevScoreContractName := "DevScoreNFT"
  const DevScoreMetadataUri := "ipfs://QmDevScoreMetadata"

  /** The configuration deploy_devscore_contract builds: no initial supply, the default gas limit. */
  function DevScoreConfig(ownerAddress: string, network: string): (config: DeploymentConfig)
    ensures config.contractName == DevScoreContractName && config.initialSupply == 0
    ensures config.ownerAddress == ownerAddress && config.network == network
    ensures config.metadataUri == Some(DevScoreMetadataUri) && config.gasLimit == DefaultGasLimit
  {
    DeploymentConfig(network, DevScoreContractName, 0, ownerAddress, Some(DevScoreMetadataUri), DefaultGasLimit)
  }

  /** deploy_devscore_contract: a fresh client on the network deploys the DevScore contract. */
  method DeployDevScoreContract(sha: Sha256, ownerAddress: string, network: string, nowSeconds: nat,
                                clockText: string)
    returns (r: DeploymentResult)
    ensures r.success && r.status == Confirmed
    ensures r.deploymentId == DeploymentId(nowSeconds, DevScoreContractName)
    ensures r.contractAddress == Some(ContractAddress(sha, r.deploymentId))
  {
    var client := new NostromoClient(None, network);
    r := client.Deploy(sha, DevScoreConfig(ownerAddress, network), nowSeconds, clockText);
  }
}
