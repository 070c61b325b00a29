/**
 * `TokenService` of src/services/token.service.ts. Each workflow looks the user
 * up, checks ownership where it does, asks the relay gateway, and only then
 * writes the token collection. The `...Outcome` functions state the answer and
 * the new token collection; the `TokenService` object's methods are proved
 * against them. `reply` is what the relay answers, `mockTokenId` the id a mock
 * registration draws, and `stamp(i)` the time-and-random suffix of the i-th
 * reward token's id.
 */
module TokenService {
  import opened Wrappers
  import opened Text
  import opened Json
  import opened ApiErrors
  import opened Responses
  import opened TokenModel
  import opened UserModel
  import opened TokenStore
  import opened UserStore
  import opened RelayClient
  import opened RelayerService

  datatype IssueTokenRequest = IssueTokenRequest(
    userId: string, walletAddress: string, hid: seq<int>, himei: seq<int>, mcc: string, mnc: string,
    distributor: string, sig: seq<int>, leaf: string, proof: seq<seq<int>>, fid: string, bid: string, mid: real,
    blockchain: string)

  /** The `data` of the issue response (the creation time is left out). */
  datatype IssuedToken = IssuedToken(tokenId: string, walletAddress: string, blockchain: string,
                                     contractAddress: string, imageUrl: string)

  datatype CheckTokenRequest = CheckTokenRequest(walletAddress: string, blockchain: string, isDelegated: Option<bool>)

  datatype TokenCheck = TokenCheck(walletAddress: string, blockchain: string, balance: int, verified: bool)

  datatype Recipient = Recipient(address: string, amount: real)

  datatype MintRewardTokenRequest = MintRewardTokenRequest(userId: string, tokenType: string,
                                                           recipients: seq<Recipient>, blockchain: string)

  datatype MintedRecipient = MintedRecipient(address: string, amount: real, status: string)

  /** The `data` of the mint response (the timestamp is left out). */
  datatype MintedRewards = MintedRewards(blockchain: string, recipients: seq<MintedRecipient>)

  datatype DelegateTokenRequest = DelegateTokenRequest(
    userId: string, walletAddress: string, delegateWalletAddress: string, hid: seq<int>, himei: seq<int>,
    mcc: string, mnc: string, distributor: string, sig: seq<int>, blockchain: string)

  /** The `data` of the delegate response (the creation time is left out). */
  datatype DelegatedToken = DelegatedToken(tokenId: string, walletAddress: string, delegateWalletAddress: string,
                                           blockchain: string, contractAddress: string, imageUrl: string)

  const WalletMismatchMessage := "Wallet address does not match user record"
  /** `REWARD_TOKEN_TYPES`. */
  const VctCode := 1
  const WctCode := 2

  function UserNotFound(userId: string): Error {
    NotFoundError(Some("User " + userId + " not found"))
  }

  /** The ownership check: stored and requested wallets agree ignoring case. */
  predicate OwnsWallet(user: User, walletAddress: string) {
    EqualsIgnoreCase(user.walletAddress, walletAddress)
  }

  // ---------------------------------------------------------------- issue

  function RegisterRequestOf(request: IssueTokenRequest): RegisterTokenRequest {
    RegisterTokenRequest(request.hid, request.himei, request.mcc, request.mnc, request.walletAddress,
                         request.distributor, request.sig, request.leaf, request.proof, request.fid, request.bid,
                         request.mid, request.blockchain)
  }

  /** The token `issueToken` hands to the repository once the relay has registered it. */
  function IssuedDraft(request: IssueTokenRequest, f: TokenFields): TokenDraft {
    TokenDraft(IntToString(f.tokenid), request.userId, ToLower(request.walletAddress), SOULBOUND, f.chain, f.sbtaddr,
               Some(f.image),
               Some(map["mcc" := JStr(request.mcc), "mnc" := JStr(request.mnc),
                        "distributor" := JStr(request.distributor), "mid" := JNum(request.mid)]),
               None, Some(MINTED), None)
  }

  function IssueTokenOutcome(users: seq<User>, tokens: seq<Token>, relayer: Gateway, request: IssueTokenRequest,
                             mockTokenId: nat, reply: Reply<TokenFields>): (Result<SuccessBody<IssuedToken>>, seq<Token>)
  {
    match FindUserById(users, request.userId)
    case None => (Err(UserNotFound(request.userId)), tokens)
    case Some(user) =>
      if !OwnsWallet(user, request.walletAddress) then (Err(BadRequestError(Some(WalletMismatchMessage))), tokens)
      else match relayer.RegisterToken(RegisterRequestOf(request), mockTokenId, reply)
        case Err(e) => (Err(e), tokens)
        case Ok(body) =>
          match CreateToken(tokens, IssuedDraft(request, body.payload))
          case (Err(e), tokens') => (Err(e), tokens')
          case (Ok(t), tokens') =>
            (Ok(SuccessBody(true, IssuedToken(t.tokenId, t.walletAddress, t.blockchain, t.contractAddress,
                                              t.imageUrl.GetOr("")), "Token issued successfully")), tokens')
  }

  /**
   * An unknown user is a 404 and a wallet that differs from the user's (ignoring
   * case) a 400; either is decided before the relay is asked and writes nothing.
   */
  lemma IssueTokenPreconditions(users: seq<User>, tokens: seq<Token>, relayer: Gateway, request: IssueTokenRequest,
                                mockTokenId: nat, reply: Reply<TokenFields>, other: Reply<TokenFields>)
    ensures var (r, tokens') := IssueTokenOutcome(users, tokens, relayer, request, mockTokenId, reply);
            var user := FindUserById(users, request.userId);
            && (user.None? ==> r == Err(UserNotFound(request.userId)) && StatusCode(r.error) == 404)
            && (user.Some? && !OwnsWallet(user.value, request.walletAddress) ==>
                  r == Err(BadRequestError(Some(WalletMismatchMessage))) && StatusCode(r.error) == 400)
            && (user.None? || !OwnsWallet(user.value, request.walletAddress) ==>
                  tokens' == tokens && IssueTokenOutcome(users, tokens, relayer, request, mockTokenId, other) == (r, tokens'))
  {
  }

  /** The token stored for a registered one: the relay's id, chain, contract and image, the request's user and wallet. */
  lemma IssuedTokenFields(tokens: seq<Token>, request: IssueTokenRequest, f: TokenFields)
    requires ValidTokens(tokens)
    ensures var (r, tokens') := CreateToken(tokens, IssuedDraft(request, f));
            && ValidTokens(tokens')
            && (r.Err? ==> tokens' == tokens)
            && (r.Ok? ==>
                  && |tokens'| == |tokens| + 1 && tokens'[..|tokens|] == tokens && tokens'[|tokens|] == r.value
                  && r.value.tokenId == IntToString(f.tokenid) && r.value.userId == request.userId
                  && r.value.walletAddress == ToLower(request.walletAddress)
                  && r.value.tokenType == SOULBOUND && r.value.status == MINTED
                  && r.value.blockchain == f.chain && r.value.contractAddress == ToLower(f.sbtaddr)
                  && r.value.imageUrl == Some(f.image))
  {
    var d := IssuedDraft(request, f);
    CreateTokenSpec(tokens, d);
    var (r, tokens') := CreateToken(tokens, d);
    if r.Ok? {
      assert tokens'[..|tokens|] == tokens;
    }
  }

  /**
   * Past the checks: a relay failure propagates and writes nothing; a success
   * writes exactly one token, soulbound and minted, under the relay's id, chain,
   * contract and image and the lower-cased request wallet, and echoes it.
   */
  lemma IssueTokenSpec(users: seq<User>, tokens: seq<Token>, relayer: Gateway, request: IssueTokenRequest,
                       mockTokenId: nat, reply: Reply<TokenFields>)
    requires ValidTokens(tokens)
    requires FindUserById(users, request.userId).Some?
    requires OwnsWallet(FindUserById(users, request.userId).value, request.walletAddress)
    ensures var (r, tokens') := IssueTokenOutcome(users, tokens, relayer, request, mockTokenId, reply);
            var relayed := relayer.RegisterToken(RegisterRequestOf(request), mockTokenId, reply);
            && ValidTokens(tokens')
            && (relayed.Err? ==> r == Err(relayed.error) && tokens' == tokens)
            && (r.Err? ==> tokens' == tokens)
            && (r.Ok? <==> relayed.Ok? && CreateToken(tokens, IssuedDraft(request, relayed.value.payload)).0.Ok?)
            && (r.Ok? ==>
                  var f := relayed.value.payload;
                  && |tokens'| == |tokens| + 1 && tokens'[..|tokens|] == tokens
                  && var t := tokens'[|tokens|];
                  && t.tokenId == IntToString(f.tokenid) && t.userId == request.userId
                  && t.walletAddress == ToLower(request.walletAddress)
                  && t.tokenType == SOULBOUND && t.status == MINTED
                  && t.blockchain == f.chain && t.contractAddress == ToLower(f.sbtaddr) && t.imageUrl == Some(f.image)
                  && r.value.data == IssuedToken(t.tokenId, t.walletAddress, f.chain, ToLower(f.sbtaddr), f.image))
  {
    var relayed := relayer.RegisterToken(RegisterRequestOf(request), mockTokenId, reply);
    if relayed.Ok? {
      IssuedTokenFields(tokens, request, relayed.value.payload);
    }
  }

  // ---------------------------------------------------------------- check

  /** `checkToken`: the relay's balance, `verified` exactly when it is positive; no collection is read or written. */
  function CheckToken(relayer: Gateway, request: CheckTokenRequest, balanceAt: string -> Reply<int>): (r: Result<SuccessBody<TokenCheck>>)
    ensures var balance := relayer.CheckTokenBalance(request.blockchain, request.walletAddress, request.isDelegated, balanceAt);
            && (r.Ok? <==> balance.Ok?)
            && (r.Err? ==> r.error == balance.error)
            && (r.Ok? ==> r.value.data.balance == balance.value)
    ensures r.Ok? ==> (r.value.data.verified <==> r.value.data.balance > 0)
    ensures r.Ok? ==> r.value.message == (if r.value.data.verified then "Token verified successfully" else "No token found")
    ensures r.Ok? ==> r.value.success && r.value.data.walletAddress == request.walletAddress &&
                      r.value.data.blockchain == request.blockchain
  {
    var balance :- relayer.CheckTokenBalance(request.blockchain, request.walletAddress, request.isDelegated, balanceAt);
    var verified := balance > 0;
    Ok(SuccessBody(true, TokenCheck(request.walletAddress, request.blockchain, balance, verified),
                   if verified then "Token verified successfully" else "No token found"))
  }

  /** In mock mode every check is verified with balance 1. */
  lemma MockCheckVerified(request: CheckTokenRequest, balanceAt: string -> Reply<int>)
    ensures CheckToken(Gateway(true), request, balanceAt).Ok?
    ensures CheckToken(Gateway(true), request, balanceAt).value.data == TokenCheck(request.walletAddress, request.blockchain, 1, true)
  {
  }

  // ---------------------------------------------------------------- mint reward

  /** The relay request of `mintRewardToken`: code 1 for 'VCT', 2 otherwise, and the recipients as parallel arrays. */
  function MintRequestOf(request: MintRewardTokenRequest): (m: MintRewardRequest)
    ensures m.token == (if request.tokenType == "VCT" then 1 else 2)
    ensures |m.toaddress| == |m.amount| == |request.recipients|
    ensures forall i :: 0 <= i < |request.recipients| ==>
              m.toaddress[i] == request.recipients[i].address && m.amount[i] == request.recipients[i].amount
    ensures m.blockchain == request.blockchain
  {
    MintRewardRequest(if request.tokenType == "VCT" then VctCode else WctCode,
                      seq(|request.recipients|, i requires 0 <= i < |request.recipients| => request.recipients[i].address),
                      seq(|request.recipients|, i requires 0 <= i < |request.recipients| => request.recipients[i].amount),
                      request.blockchain)
  }

  /** The token written for one recipient. */
  function RewardDraft(request: MintRewardTokenRequest, user: User, f: TokenFields, recipient: Recipient, suffix: string)
    : TokenDraft
  {
    TokenDraft(f.chain + "-" + request.tokenType + "-" + suffix, request.userId, ToLower(recipient.address),
               if request.tokenType == "VCT" then VCT else WCT, f.chain, if f.sbtaddr == "" then "N/A" else f.sbtaddr,
               None, Some(map["amount" := JNum(recipient.amount), "mintedBy" := JStr(user.walletAddress)]),
               None, Some(MINTED), None)
  }

  /** One token per recipient, in request order. */
  function RewardDrafts(request: MintRewardTokenRequest, user: User, f: TokenFields, stamp: nat -> string)
    : (ds: seq<TokenDraft>)
    ensures |ds| == |request.recipients|
    ensures forall i :: 0 <= i < |ds| ==> ds[i] == RewardDraft(request, user, f, request.recipients[i], stamp(i))
  {
    seq(|request.recipients|, i requires 0 <= i < |request.recipients| =>
      RewardDraft(request, user, f, request.recipients[i], stamp(i)))
  }

  /**
   * The fan-out: every create is attempted in turn; the answer is the first
   * failure, if any, and the writes that succeeded stay.
   */
  function CreateAll(tokens: seq<Token>, ds: seq<TokenDraft>): (Result<()>, seq<Token>)
    decreases |ds|
  {
    if ds == [] then (Ok(()), tokens)
    else
      var (first, tokens1) := CreateToken(tokens, ds[0]);
      var (rest, tokens2) := CreateAll(tokens1, ds[1..]);
      (if first.Err? then Err(first.error) else rest, tokens2)
  }

  /**
   * The fan-out keeps the collection valid and only appends; when it answers
   * success every draft was stored, in order, as its normalised document.
   */
  lemma {:induction false} CreateAllSpec(tokens: seq<Token>, ds: seq<TokenDraft>)
    requires ValidTokens(tokens)
    ensures var (r, tokens') := CreateAll(tokens, ds);
            && ValidTokens(tokens')
            && |tokens| <= |tokens'| <= |tokens| + |ds| && tokens'[..|tokens|] == tokens
            && (r.Ok? ==> |tokens'| == |tokens| + |ds| &&
                          forall i :: 0 <= i < |ds| ==> tokens'[|tokens| + i] == NormalizeToken(ds[i]))
    decreases |ds|
  {
    if ds != [] {
      CreateTokenSpec(tokens, ds[0]);
      var (first, tokens1) := CreateToken(tokens, ds[0]);
      CreateAllSpec(tokens1, ds[1..]);
      var (rest, tokens2) := CreateAll(tokens1, ds[1..]);
      assert tokens1[..|tokens|] == tokens;
      assert tokens2[..|tokens|] == tokens2[..|tokens1|][..|tokens|];
      if first.Ok? && rest.Ok? {
        forall i | 0 <= i < |ds| ensures tokens2[|tokens| + i] == NormalizeToken(ds[i]) {
          if i > 0 {
            assert tokens2[|tokens1| + (i - 1)] == NormalizeToken(ds[1..][i - 1]);
          } else {
            assert tokens2[|tokens|] == tokens2[..|tokens1|][|tokens|];
          }
        }
      }
    }
  }

  function MintedRecipients(recipients: seq<Recipient>): (ms: seq<MintedRecipient>)
    ensures |ms| == |recipients|
    ensures forall i :: 0 <= i < |ms| ==>
              ms[i] == MintedRecipient(recipients[i].address, recipients[i].amount, "minted")
  {
    seq(|recipients|, i requires 0 <= i < |recipients| =>
      MintedRecipient(recipients[i].address, recipients[i].amount, "minted"))
  }

  function MintRewardOutcome(users: seq<User>, tokens: seq<Token>, relayer: Gateway, request: MintRewardTokenRequest,
                             stamp: nat -> string, reply: Reply<TokenFields>): (Result<SuccessBody<MintedRewards>>, seq<Token>)
  {
    match FindUserById(users, request.userId)
    case None => (Err(UserNotFound(request.userId)), tokens)
    case Some(user) =>
      match relayer.MintRewardToken(MintRequestOf(request), reply)
      case Err(e) => (Err(e), tokens)
      case Ok(body) =>
        match CreateAll(tokens, RewardDrafts(request, user, body.payload, stamp))
        case (Err(e), tokens') => (Err(e), tokens')
        case (Ok(_), tokens') =>
          (Ok(SuccessBody(true, MintedRewards(request.blockchain, MintedRecipients(request.recipients)),
                          "Reward tokens minted successfully")), tokens')
  }

  /** The stored form of a reward token: the fields `mintRewardToken` promises for one recipient. */
  lemma RewardTokenFields(request: MintRewardTokenRequest, user: User, f: TokenFields, recipient: Recipient,
                          suffix: string)
    ensures var t := NormalizeToken(RewardDraft(request, user, f, recipient, suffix));
            && t.walletAddress == ToLower(recipient.address)
            && t.tokenType == (if request.tokenType == "VCT" then VCT else WCT)
            && t.status == MINTED && t.userId == request.userId && t.blockchain == f.chain
            && t.contractAddress == ToLower(if f.sbtaddr == "" then "N/A" else f.sbtaddr)
            && "mintedBy" in t.metadata && t.metadata["mintedBy"] == JStr(user.walletAddress)
            && "amount" in t.metadata && t.metadata["amount"] == JNum(recipient.amount)
  {
  }

  /**
   * An unknown user is a 404 decided before the relay is asked; a relay failure
   * propagates; neither writes anything.
   */
  lemma MintRewardPreconditions(users: seq<User>, tokens: seq<Token>, relayer: Gateway,
                                request: MintRewardTokenRequest, stamp: nat -> string, reply: Reply<TokenFields>,
                                other: Reply<TokenFields>)
    ensures var (r, tokens') := MintRewardOutcome(users, tokens, relayer, request, stamp, reply);
            var user := FindUserById(users, request.userId);
            var relayed := relayer.MintRewardToken(MintRequestOf(request), reply);
            && (user.None? ==> r == Err(UserNotFound(request.userId)) && tokens' == tokens &&
                               MintRewardOutcome(users, tokens, relayer, request, stamp, other) == (r, tokens'))
            && (user.Some? && relayed.Err? ==> r == Err(relayed.error) && tokens' == tokens)
  {
  }

  /**
   * `mintRewardToken` only appends to a valid collection and keeps it valid; a
   * success writes one minted token per recipient, in order, with the
   * recipient's lower-cased address, the reward type, the relay's chain, the
   * relay's contract (or 'N/A') lower-cased, and the user's wallet as
   * `mintedBy`. No recipient is checked against the user.
   */
  lemma MintRewardSpec(users: seq<User>, tokens: seq<Token>, relayer: Gateway, request: MintRewardTokenRequest,
                       stamp: nat -> string, reply: Reply<TokenFields>)
    requires ValidTokens(tokens)
    ensures var (r, tokens') := MintRewardOutcome(users, tokens, relayer, request, stamp, reply);
            && ValidTokens(tokens') && |tokens| <= |tokens'| && tokens'[..|tokens|] == tokens
            && (r.Ok? ==>
                  && FindUserById(users, request.userId).Some?
                  && relayer.MintRewardToken(MintRequestOf(request), reply).Ok?
                  && r.value.data.recipients == MintedRecipients(request.recipients)
                  && |tokens'| == |tokens| + |request.recipients|
                  && forall i :: 0 <= i < |request.recipients| ==>
                       tokens'[|tokens| + i] ==
                         NormalizeToken(RewardDraft(request, FindUserById(users, request.userId).value,
                                                    relayer.MintRewardToken(MintRequestOf(request), reply).value.payload,
                                                    request.recipients[i], stamp(i))))
  {
    var user := FindUserById(users, request.userId);
    if user.Some? {
      var relayed := relayer.MintRewardToken(MintRequestOf(request), reply);
      if relayed.Ok? {
        var ds := RewardDrafts(request, user.value, relayed.value.payload, stamp);
        CreateAllSpec(tokens, ds);
      }
    }
  }

  // ---------------------------------------------------------------- delegate

  function DelegateRequestOf(request: DelegateTokenRequest): RelayerService.DelegateTokenRequest {
    RelayerService.DelegateTokenRequest(request.hid, request.himei, request.mcc, request.mnc, request.walletAddress,
                                        request.delegateWalletAddress, request.distributor, request.sig,
                                        request.blockchain)
  }

  /** The token `delegateToken` writes: held by, and delegated to, the delegate wallet. */
  function DelegatedDraft(request: DelegateTokenRequest, f: TokenFields): TokenDraft {
    TokenDraft(IntToString(f.tokenid), request.userId, ToLower(request.delegateWalletAddress), DELEGATE_SOULBOUND,
               f.chain, f.sbtaddr, Some(f.image),
               Some(map["mcc" := JStr(request.mcc), "mnc" := JStr(request.mnc),
                        "distributor" := JStr(request.distributor), "originalOwner" := JStr(request.walletAddress)]),
               None, Some(MINTED), Some(ToLower(request.delegateWalletAddress)))
  }

  function DelegateTokenOutcome(users: seq<User>, tokens: seq<Token>, relayer: Gateway, request: DelegateTokenRequest,
                                mockTokenId: nat, reply: Reply<TokenFields>)
    : (Result<SuccessBody<DelegatedToken>>, seq<Token>)
  {
    match FindUserById(users, request.userId)
    case None => (Err(UserNotFound(request.userId)), tokens)
    case Some(user) =>
      if !OwnsWallet(user, request.walletAddress) then (Err(BadRequestError(Some(WalletMismatchMessage))), tokens)
      else match relayer.RegisterDelegateToken(DelegateRequestOf(request), mockTokenId, reply)
        case Err(e) => (Err(e), tokens)
        case Ok(body) =>
          match CreateToken(tokens, DelegatedDraft(request, body.payload))
          case (Err(e), tokens') => (Err(e), tokens')
          case (Ok(t), tokens') =>
            (Ok(SuccessBody(true, DelegatedToken(t.tokenId, request.walletAddress, request.delegateWalletAddress,
                                                 t.blockchain, t.contractAddress, t.imageUrl.GetOr("")),
                            "Token delegated successfully")), tokens')
  }

  /** An unknown user (404) or a wallet the user does not hold (400) stops a delegation before the relay is asked. */
  lemma DelegateTokenPreconditions(users: seq<User>, tokens: seq<Token>, relayer: Gateway,
                                   request: DelegateTokenRequest, mockTokenId: nat, reply: Reply<TokenFields>,
                                   other: Reply<TokenFields>)
    ensures var (r, tokens') := DelegateTokenOutcome(users, tokens, relayer, request, mockTokenId, reply);
            var user := FindUserById(users, request.userId);
            && (user.None? ==> r == Err(UserNotFound(request.userId)) && StatusCode(r.error) == 404)
            && (user.Some? && !OwnsWallet(user.value, request.walletAddress) ==>
                  r == Err(BadRequestError(Some(WalletMismatchMessage))) && StatusCode(r.error) == 400)
            && (user.None? || !OwnsWallet(user.value, request.walletAddress) ==>
                  tokens' == tokens &&
                  DelegateTokenOutcome(users, tokens, relayer, request, mockTokenId, other) == (r, tokens'))
  {
  }

  /**
   * Past the checks: a relay failure writes nothing; a success writes one
   * DELEGATE_SOULBOUND token whose holder and delegate are both the lower-cased
   * delegate wallet and whose `originalOwner` is the request wallet, and the
   * answer echoes the request's own wallet. Nothing compares the two wallets, so
   * delegating to oneself is accepted like any other delegation.
   */
  lemma DelegateTokenSpec(users: seq<User>, tokens: seq<Token>, relayer: Gateway, request: DelegateTokenRequest,
                          mockTokenId: nat, reply: Reply<TokenFields>)
    requires ValidTokens(tokens)
    requires FindUserById(users, request.userId).Some?
    requires OwnsWallet(FindUserById(users, request.userId).value, request.walletAddress)
    ensures var (r, tokens') := DelegateTokenOutcome(users, tokens, relayer, request, mockTokenId, reply);
            var relayed := relayer.RegisterDelegateToken(DelegateRequestOf(request), mockTokenId, reply);
            && ValidTokens(tokens')
            && (relayed.Err? ==> r == Err(relayed.error) && tokens' == tokens)
            && (r.Err? ==> tokens' == tokens)
            && (r.Ok? <==> relayed.Ok? && CreateToken(tokens, DelegatedDraft(request, relayed.value.payload)).0.Ok?)
            && (r.Ok? ==>
                  var f := relayed.value.payload;
                  && |tokens'| == |tokens| + 1 && tokens'[..|tokens|] == tokens
                  && var t := tokens'[|tokens|];
                  && t.tokenId == IntToString(f.tokenid) && t.tokenType == DELEGATE_SOULBOUND && t.status == MINTED
                  && t.walletAddress == ToLower(request.delegateWalletAddress)
                  && t.delegatedTo == Some(ToLower(request.delegateWalletAddress))
                  && "originalOwner" in t.metadata && t.metadata["originalOwner"] == JStr(request.walletAddress)
                  && r.value.data.walletAddress == request.walletAddress
                  && r.value.data.delegateWalletAddress == request.delegateWalletAddress)
  {
    var relayed := relayer.RegisterDelegateToken(DelegateRequestOf(request), mockTokenId, reply);
    if relayed.Ok? {
      var d := DelegatedDraft(request, relayed.value.payload);
      CreateTokenSpec(tokens, d);
      ToLowerIsLowerCase(request.delegateWalletAddress);
      var (r, tokens') := CreateToken(tokens, d);
      if r.Ok? {
        assert tokens'[..|tokens|] == tokens;
      }
    }
  }

  // ---------------------------------------------------------------- the service object

  /** The service object: the repositories it reads and writes and the gateway it asks. */
  class TokenService {
    const userRepository: UserRepository
    const tokenRepository: TokenRepository
    const relayerService: Gateway

    ghost predicate Valid()
      reads this, tokenRepository
    {
      tokenRepository.Valid()
    }

    constructor (userRepository: UserRepository, tokenRepository: TokenRepository, relayerService: Gateway)
      requires tokenRepository.Valid()
      ensures Valid() && this.userRepository == userRepository && this.tokenRepository == tokenRepository
      ensures this.relayerService == relayerService
    {
      this.userRepository := userRepository;
      this.tokenRepository := tokenRepository;
      this.relayerService := relayerService;
    }

    method IssueToken(request: IssueTokenRequest, mockTokenId: nat, reply: Reply<TokenFields>)
      returns (r: Result<SuccessBody<IssuedToken>>)
      requires Valid()
      modifies tokenRepository
      ensures Valid()
      ensures (r, tokenRepository.tokens) ==
                IssueTokenOutcome(userRepository.users, old(tokenRepository.tokens), relayerService, request,
                                  mockTokenId, reply)
    {
      var user := userRepository.FindById(request.userId);
      if user.None? {
        return Err(UserNotFound(request.userId));
      }
      if ToLower(user.value.walletAddress) != ToLower(request.walletAddress) {
        return Err(BadRequestError(Some(WalletMismatchMessage)));
      }
      var relayerResponse :- relayerService.RegisterToken(RegisterRequestOf(request), mockTokenId, reply);
      var token :- tokenRepository.Create(IssuedDraft(request, relayerResponse.payload));
      r := Ok(SuccessBody(true, IssuedToken(token.tokenId, token.walletAddress, token.blockchain,
                                            token.contractAddress, token.imageUrl.GetOr("")),
                          "Token issued successfully"));
    }

    method MintRewardToken(request: MintRewardTokenRequest, stamp: nat -> string, reply: Reply<TokenFields>)
      returns (r: Result<SuccessBody<MintedRewards>>)
      requires Valid()
      modifies tokenRepository
      ensures Valid()
      ensures (r, tokenRepository.tokens) ==
                MintRewardOutcome(userRepository.users, old(tokenRepository.tokens), relayerService, request, stamp, reply)
    {
      var user := userRepository.FindById(request.userId);
      if user.None? {
        return Err(UserNotFound(request.userId));
      }
      var relayerResponse :- relayerService.MintRewardToken(MintRequestOf(request), reply);
      var drafts := RewardDrafts(request, user.value, relayerResponse.payload, stamp);
      var created := CreateEach(drafts);
      if created.Err? {
        return Err(created.error);
      }
      r := Ok(SuccessBody(true, MintedRewards(request.blockchain, MintedRecipients(request.recipients)),
                          "Reward tokens minted successfully"));
    }

    /** The fan-out of `mintRewardToken`: one `create` per draft, each attempted whatever the others did. */
    method CreateEach(drafts: seq<TokenDraft>) returns (r: Result<()>)
      requires Valid()
      modifies tokenRepository
      ensures Valid()
      ensures (r, tokenRepository.tokens) == CreateAll(old(tokenRepository.tokens), drafts)
    {
      ghost var all := CreateAll(tokenRepository.tokens, drafts);
      var failure: Option<Error> := None;
      var i := 0;
      while i < |drafts|
        invariant 0 <= i <= |drafts|
        invariant tokenRepository.Valid()
        invariant all.1 == CreateAll(tokenRepository.tokens, drafts[i..]).1
        invariant all.0 == if failure.Some? then Err(failure.value) else CreateAll(tokenRepository.tokens, drafts[i..]).0
      {
        assert drafts[i..][0] == drafts[i] && drafts[i..][1..] == drafts[i + 1..];
        var created := tokenRepository.Create(drafts[i]);
        if created.Err? && failure.None? {
          failure := Some(created.error);
        }
        i := i + 1;
      }
      r := if failure.Some? then Err(failure.value) else Ok(());
    }

    method DelegateToken(request: DelegateTokenRequest, mockTokenId: nat, reply: Reply<TokenFields>)
      returns (r: Result<SuccessBody<DelegatedToken>>)
      requires Valid()
      modifies tokenRepository
      ensures Valid()
      ensures (r, tokenRepository.tokens) ==
                DelegateTokenOutcome(userRepository.users, old(tokenRepository.tokens), relayerService, request,
                                     mockTokenId, reply)
    {
      var user := userRepository.FindById(request.userId);
      if user.None? {
        return Err(UserNotFound(request.userId));
      }
      if ToLower(user.value.walletAddress) != ToLower(request.walletAddress) {
        return Err(BadRequestError(Some(WalletMismatchMessage)));
      }
      var relayerResponse :- relayerService.RegisterDelegateToken(DelegateRequestOf(request), mockTokenId, reply);
      var token :- tokenRepository.Create(DelegatedDraft(request, relayerResponse.payload));
      r := Ok(SuccessBody(true, DelegatedToken(token.tokenId, request.walletAddress, request.delegateWalletAddress,
                                               token.blockchain, token.contractAddress, token.imageUrl.GetOr("")),
                          "Token delegated successfully"));
    }
  }
}
