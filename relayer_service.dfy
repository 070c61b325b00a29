/**
 * The relay gateway of src/services/relayer.service.ts. Its mode is fixed when
 * it is built from the configured base URL. In mock mode the token operations
 * synthesise their answers; in live mode each operation interprets what the
 * client call finally yielded (after the client's own retries, see
 * RelayClient): a body whose business `status` is the endpoint's success code
 * is accepted, any other body becomes a `RelayerApiError` with status 400,
 * and a rejected call becomes a `ServiceUnavailableError`.
 */
module RelayerService {
  import opened Wrappers
  import opened Text
  import opened ApiErrors
  import opened RelayClient

  /** A relay response body: the business `status`, the `message`, and the endpoint's own fields. */
  datatype Body<+P> = Body(status: int, message: string, payload: P)

  /** `tokenid`, `image`, `chain` and `sbtaddr`, carried by token and address responses. */
  datatype TokenFields = TokenFields(tokenid: int, image: string, chain: string, sbtaddr: string)

  /** The relay's standard `RelayerResponse`. */
  type RelayerResponse = Body<TokenFields>

  datatype BlockchainInfo = BlockchainInfo(id: string, name: string, path: seq<string>, algo: string, url: string,
                                           available: bool, attestoraddr: string, delattestoraddr: string,
                                           sbtaddr: string, sbtdeladdr: string)

  /** What the client call finally yields: a body, or a rejection of any kind. */
  type Reply<P> = Attempt<Body<P>>

  /** `RELAYER_STATUS.SUCCESS` and `RELAYER_STATUS.WALLET_SUCCESS`. */
  const Success: int := 1
  const WalletSuccess: int := 2

  datatype RegisterTokenRequest = RegisterTokenRequest(
    hid: seq<int>, himei: seq<int>, mcc: string, mnc: string, owner: string, distributor: string,
    sig: seq<int>, leaf: string, proof: seq<seq<int>>, fid: string, bid: string, mid: real, blockchain: string)

  datatype DelegateTokenRequest = DelegateTokenRequest(
    hid: seq<int>, himei: seq<int>, mcc: string, mnc: string, owner: string, delegateowner: string,
    distributor: string, sig: seq<int>, blockchain: string)

  /** `token` is 1 for VCT and 2 for WCT; `toaddress` and `amount` are parallel arrays. */
  datatype MintRewardRequest = MintRewardRequest(token: int, toaddress: seq<string>, amount: seq<real>, blockchain: string)

  const MockSbtAddress := "0x76EbB010DDe57D38bB0a56477dD620977bb3C43d"
  const MockDelegateSbtAddress := "0x650F77ddbD9CC00e2EE6353360BA45fe126E8e70"
  const ServiceErrorMessage := "Relayer service error"

  /** The mode predicate evaluated once by the constructor. */
  function NewGateway(baseUrl: string): (g: Gateway)
  {
    Gateway(Contains(baseUrl, "localhost:9999") || Contains(baseUrl, "mock") || baseUrl == "")
  }

  /** The deterministic stand-in address: '0x', then the key's first 40 characters padded with '0' to 40. */
  function MockWalletAddress(publicKey: string): (r: string)
  {
    "0x" + PadEnd(Prefix(publicKey, 40), 40, '0')
  }

  /** The status check and error mapping shared by every live call. */
  function Interpret<P>(reply: Reply<P>, successCode: int, failureMessage: string, unavailableMessage: string): (r: Result<Body<P>>)
    ensures r.Ok? <==> reply.Responded? && reply.response.status == successCode
    ensures r.Ok? ==> r.value == reply.response
    ensures reply.Failed? ==> r == Err(ServiceUnavailableError(Some(unavailableMessage)))
    ensures reply.Responded? && reply.response.status != successCode ==>
              r == Err(RelayerApiError(400, failureMessage, reply.response.status, reply.response.message))
  {
    match reply
    case Failed(_) => Err(ServiceUnavailableError(Some(unavailableMessage)))
    case Responded(body) =>
      if body.status == successCode then Ok(body)
      else Err(RelayerApiError(400, failureMessage, body.status, body.message))
  }

  /** The path `checkTokenBalance` requests; `isDelegated` defaults to false. */
  function BalancePath(blockchain: string, address: string, isDelegated: Option<bool>): string {
    if isDelegated.GetOr(false) then "/relayer/midtokendel/" + blockchain + "/" + address
    else "/relayer/midtoken/" + blockchain + "/" + address
  }

  datatype Gateway = Gateway(isMockMode: bool) {

    /** `getWalletAddress`: live mode accepts status 2 and returns the body's `message` as the address. */
    function GetWalletAddress(publicKey: string, reply: Reply<TokenFields>): Result<string> {
      if isMockMode then Ok(MockWalletAddress(publicKey))
      else
        var body :- Interpret(reply, WalletSuccess, "Failed to get wallet address", ServiceErrorMessage);
        Ok(body.message)
    }

    /** `registerToken`; `mockTokenId` stands for the random id a mock registration draws. */
    function RegisterToken(request: RegisterTokenRequest, mockTokenId: nat, reply: Reply<TokenFields>): Result<RelayerResponse> {
      if isMockMode then
        Ok(Body(Success, "OK", TokenFields(mockTokenId, "https://ipfs.io/ipfs/mock-hash", request.blockchain, MockSbtAddress)))
      else
        Interpret(reply, Success, "Token registration failed", ServiceErrorMessage)
    }

    /** `registerDelegateToken`; `mockTokenId` stands for the random id a mock registration draws. */
    function RegisterDelegateToken(request: DelegateTokenRequest, mockTokenId: nat, reply: Reply<TokenFields>): Result<RelayerResponse> {
      if isMockMode then
        Ok(Body(Success, "OK", TokenFields(mockTokenId, "https://ipfs.io/ipfs/mock-delegate-hash", request.blockchain,
                                           MockDelegateSbtAddress)))
      else
        Interpret(reply, Success, "Delegate token registration failed", ServiceErrorMessage)
    }

    /**
     * `checkTokenBalance`: in live mode the `balance` of the body the relay sends
     * for `BalancePath` (`balanceAt` is the relay's answer per requested path);
     * always 1 in mock mode.
     */
    function CheckTokenBalance(blockchain: string, address: string, isDelegated: Option<bool>,
                               balanceAt: string -> Reply<int>): Result<int> {
      if isMockMode then Ok(1)
      else
        var body :- Interpret(balanceAt(BalancePath(blockchain, address, isDelegated)), Success,
                              "Failed to check token balance", ServiceErrorMessage);
        Ok(body.payload)
    }

    /** `mintRewardToken`; its unavailable message is the source's literal 'Relayer service is '. */
    function MintRewardToken(request: MintRewardRequest, reply: Reply<TokenFields>): Result<RelayerResponse> {
      if isMockMode then
        Ok(Body(Success, "Mint successfully", TokenFields(0, "", request.blockchain, "")))
      else
        Interpret(reply, Success, "Reward token minting failed", "Relayer service is ")
    }

    /** `getBlockchainInfo`: always a live call, whatever the mode. */
    function GetBlockchainInfo(reply: Reply<seq<BlockchainInfo>>): Result<Body<seq<BlockchainInfo>>> {
      Interpret(reply, Success, "Failed to get blockchain info", ServiceErrorMessage)
    }
  }

  /** Mock mode holds exactly when the base URL is empty or contains 'localhost:9999' or 'mock'. */
  lemma MockModeIff(baseUrl: string)
    ensures NewGateway(baseUrl).isMockMode <==>
              || baseUrl == ""
              || (exists i :: OccursAt(baseUrl, "localhost:9999", i))
              || (exists i :: OccursAt(baseUrl, "mock", i))
  {
    ContainsAt(baseUrl, "localhost:9999");
    ContainsAt(baseUrl, "mock");
  }

  /**
   * The mock address is 42 characters: '0x', then the key's first characters (at most 40)
   * in order, then '0' up to 40; hence a key of hex digits yields a wallet address.
   */
  lemma MockWalletAddressShape(publicKey: string)
    ensures var r := MockWalletAddress(publicKey);
            var n := if |publicKey| < 40 then |publicKey| else 40;
            && |r| == 42 && r[..2] == "0x"
            && (forall i :: 0 <= i < n ==> r[i + 2] == publicKey[i])
            && (forall i :: n + 2 <= i < 42 ==> r[i] == '0')
            && ((forall i :: 0 <= i < n ==> IsHexDigit(publicKey[i])) ==> IsWalletAddress(r))
  {
    var r := MockWalletAddress(publicKey);
    var n := if |publicKey| < 40 then |publicKey| else 40;
    var p := PadEnd(Prefix(publicKey, 40), 40, '0');
    assert |p| == 40;
    assert forall i :: 0 <= i < 40 ==> r[i + 2] == p[i];
    assert forall i :: 2 <= i < 42 ==> r[i] == p[i - 2];
    assert forall i :: 0 <= i < n ==> p[i] == publicKey[i];
  }

  /** The registration example: a key of 128 'a's derives '0x' followed by 40 'a's. */
  lemma MockWalletAddressExample()
    ensures MockWalletAddress(seq(128, _ => 'a')) == "0x" + seq(40, _ => 'a')
  {
    var k := seq(128, _ => 'a');
    assert Prefix(k, 40) == seq(40, _ => 'a');
  }

  /** In live mode each operation succeeds exactly on its endpoint's success code: 2 for addresses, 1 otherwise. */
  lemma LiveSuccessCodes(g: Gateway, publicKey: string, reg: RegisterTokenRequest, del: DelegateTokenRequest,
                         mint: MintRewardRequest, id: nat, blockchain: string, address: string,
                         isDelegated: Option<bool>, tokenReply: Reply<TokenFields>, balanceAt: string -> Reply<int>,
                         infoReply: Reply<seq<BlockchainInfo>>)
    requires !g.isMockMode
    ensures g.GetWalletAddress(publicKey, tokenReply).Ok? <==>
              tokenReply.Responded? && tokenReply.response.status == 2
    ensures g.GetWalletAddress(publicKey, tokenReply).Ok? ==>
              g.GetWalletAddress(publicKey, tokenReply).value == tokenReply.response.message
    ensures g.RegisterToken(reg, id, tokenReply).Ok? <==> tokenReply.Responded? && tokenReply.response.status == 1
    ensures g.RegisterDelegateToken(del, id, tokenReply).Ok? <==> tokenReply.Responded? && tokenReply.response.status == 1
    ensures g.MintRewardToken(mint, tokenReply).Ok? <==> tokenReply.Responded? && tokenReply.response.status == 1
    ensures var balanceReply := balanceAt(BalancePath(blockchain, address, isDelegated));
            g.CheckTokenBalance(blockchain, address, isDelegated, balanceAt).Ok? <==>
              balanceReply.Responded? && balanceReply.response.status == 1
    ensures var balanceReply := balanceAt(BalancePath(blockchain, address, isDelegated));
            g.CheckTokenBalance(blockchain, address, isDelegated, balanceAt).Ok? ==>
              g.CheckTokenBalance(blockchain, address, isDelegated, balanceAt).value == balanceReply.response.payload
    ensures g.GetBlockchainInfo(infoReply).Ok? <==> infoReply.Responded? && infoReply.response.status == 1
  {
  }

  /**
   * A live failure is one of two kinds: a received body with another status is a
   * `RelayerApiError` of status 400 carrying the relay's status and message; a
   * rejected client call is a `ServiceUnavailableError` (503).
   */
  lemma LiveFailureKinds<P>(reply: Reply<P>, r: Result<Body<P>>, code: int, failure: string, unavailable: string)
    requires r == Interpret(reply, code, failure, unavailable)
    ensures r.Err? && reply.Responded? ==>
              && r.error.cls == RelayerApi(400, reply.response.status, reply.response.message)
              && StatusCode(r.error) == 400 && r.error.message == failure
    ensures reply.Failed? ==> r.Err? && r.error.cls == ServiceUnavailable && StatusCode(r.error) == 503
  {
  }

  /** Mock answers have status 1 and echo the request's blockchain, whatever the relay would have said. */
  lemma MockAnswers(reg: RegisterTokenRequest, del: DelegateTokenRequest, mint: MintRewardRequest, id: nat,
                    blockchain: string, address: string, isDelegated: Option<bool>,
                    tokenReply: Reply<TokenFields>, balanceAt: string -> Reply<int>)
    ensures var g := Gateway(true);
            && g.RegisterToken(reg, id, tokenReply).Ok?
            && g.RegisterToken(reg, id, tokenReply).value.status == 1
            && g.RegisterToken(reg, id, tokenReply).value.payload.chain == reg.blockchain
            && g.RegisterDelegateToken(del, id, tokenReply).Ok?
            && g.RegisterDelegateToken(del, id, tokenReply).value.status == 1
            && g.RegisterDelegateToken(del, id, tokenReply).value.payload.chain == del.blockchain
            && g.MintRewardToken(mint, tokenReply) ==
                 Ok(Body(1, "Mint successfully", TokenFields(0, "", mint.blockchain, "")))
            && g.CheckTokenBalance(blockchain, address, isDelegated, balanceAt) == Ok(1)
  {
  }

  /** `getBlockchainInfo` behaves the same in both modes. */
  lemma BlockchainInfoIgnoresMode(reply: Reply<seq<BlockchainInfo>>)
    ensures Gateway(true).GetBlockchainInfo(reply) == Gateway(false).GetBlockchainInfo(reply)
  {
  }

  /**
   * The balance is read from the delegated-token path exactly when `isDelegated`
   * is true (absent counts as false): a live check answers with what the relay
   * sends for that one path, whatever it would send for any other.
   */
  lemma BalancePathChoice(g: Gateway, blockchain: string, address: string, isDelegated: Option<bool>,
                          balanceAt: string -> Reply<int>)
    ensures StartsWith(BalancePath(blockchain, address, isDelegated), "/relayer/midtokendel/") <==>
              isDelegated == Some(true)
    ensures !isDelegated.Some? ==> BalancePath(blockchain, address, isDelegated) == BalancePath(blockchain, address, Some(false))
    ensures var asked := if isDelegated == Some(true) then "/relayer/midtokendel/" + blockchain + "/" + address
                         else "/relayer/midtoken/" + blockchain + "/" + address;
            var r := g.CheckTokenBalance(blockchain, address, isDelegated, balanceAt);
            !g.isMockMode ==>
                 && r == g.CheckTokenBalance(blockchain, address, isDelegated, (_: string) => balanceAt(asked))
                 && (r.Ok? <==> balanceAt(asked).Responded? && balanceAt(asked).response.status == Success)
                 && (r.Ok? ==> r.value == balanceAt(asked).response.payload)
  {
    var p := BalancePath(blockchain, address, isDelegated);
    if !isDelegated.GetOr(false) {
      assert p[..17] == "/relayer/midtoken";
      assert "/relayer/midtokendel/"[..17] == "/relayer/midtoken";
      assert p[17] == '/';
    }
  }
}
