/**
 * `UserService.registerUser` of src/services/user.service.ts: check the public
 * key, derive the wallet address through the relay gateway, lower-case it, and
 * create the user. `RegisterUserOutcome` states the result and the new user
 * collection; the `UserService` object's method is proved against it.
 */
module UserService {
  import opened Wrappers
  import opened Text
  import opened ApiErrors
  import opened Responses
  import opened UserModel
  import opened UserStore
  import opened RelayClient
  import opened RelayerService

  datatype RegisterUserRequest = RegisterUserRequest(userId: string, email: Option<string>, name: Option<string>,
                                                     publicKey: Option<string>)

  /** The `data` of the registration response. */
  datatype Registration = Registration(userId: string, walletAddress: string, status: string)

  const PublicKeyRequiredMessage := "Public key is required to generate wallet address"
  const RegisteredMessage := "User registered successfully"

  /** The document handed to the repository once the address is known. */
  function UserDraftOf(request: RegisterUserRequest, walletAddress: string): UserDraft {
    UserDraft(request.userId, ToLower(walletAddress), request.publicKey, request.email, request.name, None)
  }

  /**
   * `registerUser`: a missing or empty public key is refused before the relay is
   * asked; a relay or repository error propagates; otherwise the created user is
   * echoed with status 'registered'. `reply` is what the relay answers.
   */
  function RegisterUserOutcome(us: seq<User>, relayer: Gateway, request: RegisterUserRequest, reply: Reply<TokenFields>)
    : (Result<SuccessBody<Registration>>, seq<User>)
  {
    if request.publicKey.None? || request.publicKey.value == "" then
      (Err(BadRequestError(Some(PublicKeyRequiredMessage))), us)
    else match relayer.GetWalletAddress(request.publicKey.value, reply)
      case Err(e) => (Err(e), us)
      case Ok(walletAddress) =>
        match CreateUser(us, UserDraftOf(request, walletAddress))
        case (Err(e), us') => (Err(e), us')
        case (Ok(user), us') =>
          (Ok(SuccessBody(true, Registration(user.userId, user.walletAddress, "registered"), RegisteredMessage)), us')
  }

  /** Without a public key the answer is a 400 whatever the relay would say, and nothing is stored. */
  lemma MissingPublicKeyRefused(us: seq<User>, relayer: Gateway, request: RegisterUserRequest,
                                reply: Reply<TokenFields>, other: Reply<TokenFields>)
    requires request.publicKey.None? || request.publicKey.value == ""
    ensures var (r, us') := RegisterUserOutcome(us, relayer, request, reply);
            && us' == us && r.Err? && StatusCode(r.error) == 400 && r.error.message == PublicKeyRequiredMessage
            && RegisterUserOutcome(us, relayer, request, other) == (r, us')
  {
  }

  /**
   * With a public key: a relay failure propagates and stores nothing; a repository
   * error propagates; a success stores exactly one user, whose wallet is the derived
   * address lower-cased and whose other fields come from the request, and echoes it.
   */
  lemma RegisterUserSpec(us: seq<User>, relayer: Gateway, request: RegisterUserRequest, reply: Reply<TokenFields>)
    requires ValidUsers(us)
    requires request.publicKey.Some? && request.publicKey.value != ""
    ensures var (r, us') := RegisterUserOutcome(us, relayer, request, reply);
            var derived := relayer.GetWalletAddress(request.publicKey.value, reply);
            && ValidUsers(us')
            && (derived.Err? ==> r == Err(derived.error) && us' == us)
            && (r.Err? ==> us' == us)
            && (derived.Ok? && Clashes(us, request.userId, ToLower(derived.value)) ==>
                  r.Err? && StatusCode(r.error) == 409)
            && (r.Ok? <==> derived.Ok? && !Clashes(us, request.userId, ToLower(derived.value)) &&
                           AdmissibleUser(NormalizeUser(UserDraftOf(request, derived.value))))
            && (r.Ok? ==>
                  && |us'| == |us| + 1 && us'[..|us|] == us
                  && var u := us'[|us|];
                  && u.walletAddress == ToLower(derived.value)
                  && u.userId == request.userId && u.publicKey == request.publicKey && u.name == request.name
                  && u.email == (if request.email.Some? then Some(ToLower(request.email.value)) else None)
                  && r.value.data == Registration(u.userId, u.walletAddress, "registered")
                  && r.value.success && r.value.message == RegisteredMessage)
  {
    var derived := relayer.GetWalletAddress(request.publicKey.value, reply);
    if derived.Ok? {
      var d := UserDraftOf(request, derived.value);
      CreateUserSpec(us, d);
      ToLowerIsLowerCase(derived.value);
      var (r, us') := CreateUser(us, d);
      if r.Ok? {
        assert us'[..|us|] == us;
      }
    }
  }

  /**
   * In mock mode a user with an admissible id, a hex public key, no email and a
   * free id and address is registered under the lower-cased mock address.
   */
  lemma MockRegistration(us: seq<User>, request: RegisterUserRequest, reply: Reply<TokenFields>)
    requires ValidUsers(us)
    requires request.publicKey.Some? && request.publicKey.value != ""
    requires forall i :: 0 <= i < |request.publicKey.value| ==> IsHexDigit(request.publicKey.value[i])
    requires MinUserIdLength <= |request.userId| <= MaxUserIdLength && request.email.None?
    requires request.name.None? || |request.name.value| <= MaxNameLength
    requires !Clashes(us, request.userId, ToLower(MockWalletAddress(request.publicKey.value)))
    ensures var (r, us') := RegisterUserOutcome(us, Gateway(true), request, reply);
            && r.Ok? && r.value.data.walletAddress == ToLower(MockWalletAddress(request.publicKey.value))
            && us' == us + [us'[|us|]]
  {
    var key := request.publicKey.value;
    MockWalletAddressShape(key);
    LowerWalletAddress(MockWalletAddress(key));
    ToLowerIsLowerCase(MockWalletAddress(key));
    RegisterUserSpec(us, Gateway(true), request, reply);
  }

  /** Once a user is registered, registering the same id again is a 409 conflict and stores nothing. */
  lemma SecondRegistrationConflicts(us: seq<User>, relayer: Gateway, first: RegisterUserRequest,
                                    reply: Reply<TokenFields>, second: RegisterUserRequest, reply2: Reply<TokenFields>)
    requires ValidUsers(us)
    requires RegisterUserOutcome(us, relayer, first, reply).0.Ok?
    requires second.userId == first.userId && second.publicKey.Some? && second.publicKey.value != ""
    requires relayer.GetWalletAddress(second.publicKey.value, reply2).Ok?
    ensures var us' := RegisterUserOutcome(us, relayer, first, reply).1;
            var (r, us'') := RegisterUserOutcome(us', relayer, second, reply2);
            r.Err? && StatusCode(r.error) == 409 && us'' == us'
  {
    RegisterUserSpec(us, relayer, first, reply);
    var us' := RegisterUserOutcome(us, relayer, first, reply).1;
    var w := relayer.GetWalletAddress(second.publicKey.value, reply2).value;
    assert us'[|us|] in us' && us'[|us|].userId == second.userId;
    assert Clashes(us', second.userId, ToLower(w));
    RegisterUserSpec(us', relayer, second, reply2);
  }

  /** The service object: the user repository it writes and the gateway it asks. */
  class UserService {
    const userRepository: UserRepository
    const relayerService: Gateway

    ghost predicate Valid()
      reads this, userRepository
    {
      userRepository.Valid()
    }

    constructor (userRepository: UserRepository, relayerService: Gateway)
      requires userRepository.Valid()
      ensures Valid() && this.userRepository == userRepository && this.relayerService == relayerService
    {
      this.userRepository := userRepository;
      this.relayerService := relayerService;
    }

    method RegisterUser(request: RegisterUserRequest, reply: Reply<TokenFields>) returns (r: Result<SuccessBody<Registration>>)
      requires Valid()
      modifies userRepository
      ensures Valid()
      ensures (r, userRepository.users) == RegisterUserOutcome(old(userRepository.users), relayerService, request, reply)
    {
      if request.publicKey.None? || request.publicKey.value == "" {
        return Err(BadRequestError(Some(PublicKeyRequiredMessage)));
      }
      var walletAddress :- relayerService.GetWalletAddress(request.publicKey.value, reply);
      var user :- userRepository.Create(UserDraftOf(request, walletAddress));
      r := Ok(SuccessBody(true, Registration(user.userId, user.walletAddress, "registered"), RegisteredMessage));
    }
  }
}
