# SBT service: a verified model of its service layer

This project models the core of the soul-bound-token (SBT) service.

The service sits between HTTP clients, a blockchain "relayer" HTTP API and a MongoDB store. Its parts are:

- a relay client that retries on network errors with capped exponential backoff;
- a relay gateway that can run in a mock mode;
- token and user repositories over Mongoose models;
- Joi request schemas;
- the `ApiError` hierarchy, the Express error middleware and the response envelopes;
- the token workflows (issue, check, mint reward, delegate) and user registration.

The relay and the database are replaced by values:

- **The relay.** An operation receives what the client call finally yielded as a parameter: a response body, or a rejection (`Reply`).
- **The retry loop.** It reads the outcome of its k-th attempt from a function `net(k)`.
- **The collections.** Each is a sequence in insertion order, which stands for ascending `createdAt`.
- **Random and time-based values.** The mock token id and the reward-token id suffixes are parameters.

Modules:

- `Wrappers`, `Text`, `Json`, `Sequences`: `Option`, ASCII lower-casing, the address and e-mail patterns, substring search, decimal rendering, JSON values, reverse and filter.
- `ApiErrors`, `Responses`, `ErrorMiddleware`: the error taxonomy, the envelopes and pagination, and the error handler.
- `RelayClient`: the retry policy. `Dispatch` is its specification; the method `Send` runs the loop and is proved equal to it.
- `RelayerService`: the `Gateway` with its mode, its success codes and its two-way error mapping.
- `TokenModel`, `UserModel`: the schema setters and defaults (`Normalize…`) and the schema validation (`Admissible…`).
- `TokenValidator`, `UserValidator`: the Joi schemas as predicates over a JSON body.
- `TokenStore`, `UserStore`:
  - functions that state what each repository operation does to the collection;
  - lemmas proving the collection invariants (unique keys, well-formed documents) are kept;
  - the repository classes, whose methods are proved against those functions.
- `TokenService`, `UserService`:
  - `…Outcome` functions that give the answer and the new collection of each workflow;
  - lemmas on them;
  - service classes whose methods are proved against them. The mint-reward fan-out is a loop.

Behaviour of the code worth noting:

- **Relay rejections.** A body with a non-success status becomes `RelayerApiError` with status 400 (src/services/relayer.service.ts:42-47). It does not become a 502.
- **HTTP error statuses from the relay.** The HTTP client rejects these, and the code reports every rejection as `ServiceUnavailableError` (503). So an HTTP 5xx never becomes a relay rejection.
- **Duplicate token ids.** A duplicate `tokenId` on token creation is the driver's unique-index error. It is not an `ApiError`, so the error handler answers 500, not a 409 conflict.
- **Delegate tokens.** A `DELEGATE_SOULBOUND` token stores the delegate wallet as both `walletAddress` and `delegatedTo`. Nothing checks that the delegate differs from the owner, so delegating to oneself is accepted.
- **Mint-reward message.** When the relay is unreachable, the mint-reward error message is the literal 'Relayer service is '.

## Model

| member | source | states |
|---|---|---|
| ApiErrors.SubclassStatusCodes | src/utils/api-error.ts:32-107 | every subclass is an `ApiError`, operational by default, with its fixed status: 400, 401, 403, 404, 409, 422, 500, 503 |
| ApiErrors.DefaultMessages | src/utils/api-error.ts:32-146 | an omitted message takes the class default ('Bad Request', 'Unauthorized', 'Forbidden', 'Resource Not Found', 'Resource Conflict', 'Unprocessable Entity', 'Internal Server Error', 'Service Unavailable', 'Database operation failed'); for each of these nine classes a given message is kept |
| ApiErrors.RelayerApiErrorFields | src/utils/api-error.ts:113-123 | `RelayerApiError` keeps the caller's status code and carries the relay's status and message |
| ApiErrors.ValidationErrorDefaults | src/utils/api-error.ts:128-136 | `ValidationError` is 422 with empty `validationErrors` by default |
| Responses.SuccessResponse | src/utils/response.ts:4-18 | `success` true with the given data; status defaults to 200 and message to 'Success' |
| Responses.ErrorResponse | src/utils/response.ts:20-34 | `success` false with the given error; status defaults to 500 and message to 'Error occurred' |
| Responses.PaginatedResponse | src/utils/response.ts:36-61 | the pagination block echoes page, limit and total; `hasPrev` holds exactly when page > 1 |
| Responses.TotalPagesIsCeiling | src/utils/response.ts:52 | for a positive limit, `totalPages` is the least p with total <= p·limit |
| Responses.HasNextIffLaterPage | src/utils/response.ts:53 | for a positive limit, `hasNext` (page·limit < total) holds exactly when page < totalPages |
| ErrorMiddleware.ErrorHandler | src/middlewares/error.middleware.ts:7-30 | an `ApiError` is answered with its status and message; any other error with 500 'Internal Server Error'; `error` is the message; `success` is false; the stack is dropped exactly in production |
| ErrorMiddleware.NotFoundHandler | src/middlewares/error.middleware.ts:33-36 | an unmatched route yields a 404 `ApiError` |
| ErrorMiddleware.UnmatchedRouteAnswer | src/middlewares/error.middleware.ts:33-36 | the unmatched-route error is answered 404 with message 'Route <url> not found' |
| ErrorMiddleware.ResponseSeverity | src/middlewares/error.middleware.ts:12-16 | client-side error classes are answered 4xx and server-side ones 5xx |
| RelayClient.Send | src/config/relayer.ts:47-80 | the retry loop ends exactly as the interceptor's specification `Dispatch` says: same final result, retry count and delays |
| RelayClient.DispatchCourse | src/config/relayer.ts:50-80 | the result is the last attempt's outcome; every earlier attempt failed with a retryable code; a failure ends it when not retryable or when the counter reached the budget; the delay before retry n is `RetryDelay(n)` |
| RelayClient.AttemptsBounded | src/config/relayer.ts:50-62 | at most maxRetries + 1 attempts are made |
| RelayClient.NonRetryableRejectedAtOnce | src/config/relayer.ts:55-80 | a first attempt that responds, or fails with a non-retryable code, is handed back unchanged with no retry |
| RelayClient.RetryDelayMonotone | src/config/relayer.ts:67 | the delay min(1000·2^n, 10000) is nondecreasing in n and never above 10000 |
| RelayClient.DefaultSchedule | src/config/relayer.ts:67 | with the default 3 retries the delays are 2000, 4000 and 8000 ms; from retry 4 on the delay is 10000 |
| RelayerService.Interpret | src/services/relayer.service.ts:33-52 | a body with the success code is accepted; any other body becomes `RelayerApiError(400, …)` with the relay's status and message; a rejected call becomes `ServiceUnavailableError` |
| RelayerService.MockModeIff | src/services/relayer.service.ts:18-24 | mock mode holds exactly when the base URL is empty or contains 'localhost:9999' or 'mock' |
| RelayerService.MockWalletAddressShape | src/services/relayer.service.ts:26-31 | the mock address is 42 characters: '0x', the key's first characters (up to 40) in order, then '0' padding; a hex key gives a valid wallet address |
| RelayerService.MockWalletAddressExample | src/services/relayer.service.ts:29-30 | a key of 128 'a' derives '0x' followed by 40 'a' |
| RelayerService.LiveSuccessCodes | src/services/relayer.service.ts:38-206 | live address derivation succeeds exactly on status 2 and returns the body's message; every other operation succeeds exactly on status 1 |
| RelayerService.LiveFailureKinds | src/services/relayer.service.ts:42-51 | a live failure is either a 400 `RelayerApiError` carrying the relay's status and message, or a 503 `ServiceUnavailableError` |
| RelayerService.MockAnswers | src/services/relayer.service.ts:55-175 | mock answers have status 1 and the request's chain; a mock mint has token id 0 and empty image and contract; the mock balance is 1 |
| RelayerService.BlockchainInfoIgnoresMode | src/services/relayer.service.ts:199-219 | `getBlockchainInfo` answers the same in both modes |
| RelayerService.BalancePathChoice | src/services/relayer.service.ts:129-151 | the `midtokendel` path is requested exactly when `isDelegated` is true, and an absent flag acts as false; a live check answers with the relay's reply at the requested path only: Ok exactly on status 1, with that reply's balance, whatever other paths would answer |
| TokenModel.NormalizeTokenLowers | src/models/token.model.ts:19-70 | wallet, contract and delegate addresses are stored lower-cased; status defaults to PENDING and metadata to {} |
| TokenModel.AdmissibleTokenIsWellFormed | src/models/token.model.ts:4-70 | a document that passes validation satisfies the stored-token invariant |
| TokenModel.AdmissibleTokenDraft | src/models/token.model.ts:6-44 | a token saves exactly when its required strings are non-empty and its lower-cased wallet matches 0x + 40 hex digits |
| UserModel.AdmissibleUserIsWellFormed | src/models/user.model.ts:4-43 | a user that passes validation has lower-cased wallet and e-mail; metadata defaults to {} |
| TokenValidator.IsDelegated | src/validators/token.validator.ts:87 | `isDelegated` is the given boolean and defaults to false |
| TokenValidator.UnknownKeysRejected | src/validators/token.validator.ts:6-146 | each of the four schemas refuses a body carrying an undeclared key |
| TokenValidator.WalletFieldExactly | src/validators/token.validator.ts:11-138 | in an otherwise valid body, a wallet field is accepted exactly when it is 0x + 40 hex digits of either case |
| TokenValidator.FixedLengthArrays | src/validators/token.validator.ts:19-144 | `hid`/`himei` of length other than 32, `sig` other than 65, or with a non-integer element, are refused |
| TokenValidator.ValidatedWalletsStorable | src/validators/token.validator.ts:11-138 | every validated wallet still matches the stored-record pattern once lower-cased |
| TokenValidator.ValidatedRecipients | src/validators/token.validator.ts:103-124 | a valid mint body has at least one recipient, every amount is positive and every address is storable |
| UserValidator.UnknownUserKeysRejected | src/validators/user.validator.ts:6-35 | both schemas refuse undeclared keys; an update refuses `userId`, `walletAddress` and `publicKey` |
| UserValidator.RegisteredUserIdFits | src/validators/user.validator.ts:7-23 | a valid registration has a white-space-free `userId` of 3-50 characters and a non-empty `publicKey` |
| UserValidator.BadUserIdRejected | src/validators/user.validator.ts:7-11 | a `userId` of the wrong length or with a non-alphanumeric character is refused |
| TokenStore.FindTokenById | src/repositories/token.repository.ts:20-28 | returns a token with that id, or none exactly when no token has it |
| TokenStore.CreateTokenSpec | src/repositories/token.repository.ts:7-18 | create succeeds exactly for a valid document with a fresh id and appends exactly it; otherwise it stores nothing and the error is not an `ApiError`; the collection stays valid |
| TokenStore.TokensOfUser | src/repositories/token.repository.ts:30-38 | all and only the tokens of that user, newest first: the i-th result is the match at the i-th highest insertion position |
| TokenStore.TokensOfWallet | src/repositories/token.repository.ts:40-51 | all and only the tokens of the lower-cased wallet, on the given blockchain when a non-empty one is given, newest first: the i-th result is the match at the i-th highest insertion position |
| TokenStore.TokensOfTypeAndStatus | src/repositories/token.repository.ts:81-91 | all and only the tokens of that type in that status, newest first: the i-th result is the match at the i-th highest insertion position |
| TokenStore.QueriesDescend | src/repositories/token.repository.ts:32-91 | in any of the sorted query results, a token listed before another was inserted after it |
| TokenStore.QueriesNewestFirst | src/repositories/token.repository.ts:30-91 | the token created last heads every query it matches |
| TokenStore.SetStatusSpec | src/repositories/token.repository.ts:53-79 | an unknown id is a 404 and changes nothing; otherwise only that token changes, getting the new status and the hash only when a non-empty one is given, every other field kept |
| TokenStore.TokenRepository.Create | src/repositories/token.repository.ts:7-18 | the repository's collection changes as `CreateToken` says, and its invariant is kept |
| TokenStore.TokenRepository.UpdateStatus | src/repositories/token.repository.ts:53-79 | the repository's collection changes as `SetStatus` says, and its invariant is kept |
| UserStore.FindUserById | src/repositories/user.repositry.ts:29-37 | returns a user with that id, or none exactly when no user has it |
| UserStore.FindUserByWallet | src/repositories/user.repositry.ts:39-49 | matches the lower-cased address; none exactly when no user holds it |
| UserStore.CreateUserSpec | src/repositories/user.repositry.ts:7-27 | a user sharing the id or the wallet is a 409 conflict; otherwise a valid document is appended; a failure stores nothing; the collection stays valid |
| UserStore.PatchValidIff | src/repositories/user.repositry.ts:51-56 | validating only the supplied fields accepts exactly the updates that leave the user valid |
| UserStore.UpdateUserKeepsValid | src/repositories/user.repositry.ts:51-70 | update keeps ids and wallets unique and documents well-formed; a failed update changes nothing |
| UserStore.UpdateUserSpec | src/repositories/user.repositry.ts:51-70 | a 404 exactly when the update is valid and no user has the id; otherwise only the supplied fields of that one user change |
| UserStore.DeleteUserSpec | src/repositories/user.repositry.ts:72-86 | exactly the matching user is removed and the others keep their order; none matching is a 404 that changes nothing |
| UserStore.UsersPage | src/repositories/user.repositry.ts:88-105 | newest first, skipping (page-1)·limit, at most limit users, and the total count of users |
| UserStore.DefaultUsersPage | src/repositories/user.repositry.ts:88 | with the defaults page 1 and limit 10, the answer is the ten newest users (all when fewer), newest first, and the total |
| UserStore.UserRepository.Create | src/repositories/user.repositry.ts:7-27 | the repository's collection changes as `CreateUser` says, and its invariant is kept |
| UserStore.UserRepository.Update | src/repositories/user.repositry.ts:51-70 | the repository's collection changes as `UpdateUser` says, and its invariant is kept |
| UserStore.UserRepository.Delete | src/repositories/user.repositry.ts:72-86 | the repository's collection changes as `DeleteUser` says, and its invariant is kept |
| UserService.MissingPublicKeyRefused | src/services/user.service.ts:9-11 | a missing or empty public key is a 400 decided before the relay is asked, and stores nothing |
| UserService.RegisterUserSpec | src/services/user.service.ts:13-33 | relay errors propagate and store nothing; a conflict is a 409; a success stores one user (derived wallet lower-cased, request's id, key, name and e-mail) and echoes it with status 'registered' |
| UserService.MockRegistration | src/services/user.service.ts:13-33 | in mock mode a fresh user with a hex key is registered under the lower-cased mock address |
| UserService.SecondRegistrationConflicts | src/services/user.service.ts:23 | registering an already registered id again is a 409 and stores nothing |
| UserService.UserService.RegisterUser | src/services/user.service.ts:8-34 | the service's user collection and answer are those of `RegisterUserOutcome` |
| TokenService.IssueTokenPreconditions | src/services/token.service.ts:19-27 | an unknown user is a 404 and a wallet differing from the user's (ignoring case) a 400; both are decided before the relay call and write nothing |
| TokenService.IssuedTokenFields | src/services/token.service.ts:29-58 | the stored token carries the relay's id (as decimal text), chain, lower-cased contract and image, the request's user and lower-cased wallet, type SOULBOUND and status MINTED, appended after the existing tokens |
| TokenService.IssueTokenSpec | src/services/token.service.ts:29-73 | a relay failure writes nothing; a success writes one SOULBOUND MINTED token with the relay's id, chain, contract and image and the lower-cased request wallet, and echoes it |
| TokenService.CheckToken | src/services/token.service.ts:76-95 | the relay's balance; `verified` exactly when it is positive, with the matching message; relay errors propagate |
| TokenService.MockCheckVerified | src/services/token.service.ts:83-93 | in mock mode every check is verified with balance 1 |
| TokenService.MintRequestOf | src/services/token.service.ts:103-111 | code 1 for 'VCT' and 2 otherwise; addresses and amounts as parallel arrays in request order |
| TokenService.RewardDrafts | src/services/token.service.ts:113-129 | one token per recipient, in request order |
| TokenService.RewardTokenFields | src/services/token.service.ts:115-127 | a reward token has the lower-cased recipient address, the reward type, status MINTED, the relay's chain, the lower-cased contract or 'n/a', and `mintedBy` the user's wallet |
| TokenService.CreateAllSpec | src/services/token.service.ts:113-129 | the fan-out only appends and keeps the collection valid; on success every draft is stored, in order |
| TokenService.MintedRecipients | src/services/token.service.ts:135-139 | the response lists every recipient with status 'minted' |
| TokenService.MintRewardPreconditions | src/services/token.service.ts:97-111 | an unknown user is a 404 decided before the relay call; a relay failure propagates; neither writes anything |
| TokenService.MintRewardSpec | src/services/token.service.ts:113-143 | a success writes exactly one reward token per recipient, in order, and answers the recipient list |
| TokenService.DelegateTokenPreconditions | src/services/token.service.ts:146-154 | an unknown user is a 404 and a wallet mismatch a 400, both before the relay call and writing nothing |
| TokenService.DelegateTokenSpec | src/services/token.service.ts:156-198 | a success writes one DELEGATE_SOULBOUND MINTED token held by and delegated to the lower-cased delegate wallet, with `originalOwner` the request wallet; the answer echoes the request wallet |
| TokenService.TokenService.IssueToken | src/services/token.service.ts:19-74 | the service's token collection and answer are those of `IssueTokenOutcome` |
| TokenService.TokenService.CreateEach | src/services/token.service.ts:113-129 | the fan-out loop's writes and answer are those of `CreateAll` |
| TokenService.TokenService.MintRewardToken | src/services/token.service.ts:97-144 | the service's token collection and answer are those of `MintRewardOutcome` |
| TokenService.TokenService.DelegateToken | src/services/token.service.ts:146-199 | the service's token collection and answer are those of `DelegateTokenOutcome` |

## Left out

- **Transport and logging.** The HTTP calls, the 30 s timeout and the actual waiting are out: the backoff is a computed delay. Logging (winston and the two `console.log` lines) is out too.
- **Request interceptor.** It only logs and returns its input, so the model treats it as the identity.
- **Randomness and time.**
  - The mock token id (`Math.random`) is the parameter `mockTokenId`.
  - The reward-token id suffix (`Date.now()` and `Math.random`) is the parameter `stamp`.
  - `createdAt`/`updatedAt` and response timestamps are not modelled; insertion order stands for creation time.
- **Trimming.** Mongoose `trim` setters are not modelled: strings are stored as given, apart from lower-casing.
- **Lower-casing.** It is ASCII only; JavaScript's Unicode case mapping of other letters is not modelled.
- **Concurrency.**
  - The mint-reward `Promise.all` is a sequential loop. The reported failure is the first in recipient order, and writes that succeeded are kept.
  - Races between the conflict check and the insert are not modelled.
- **`toObject` and `_id`.** The conversion and the `_id` field are left out.
- **Joi details.**
  - The schemas are predicates that say accept or refuse; Joi's error messages are left out.
  - `email()` is the parameter `isEmail`.
- TokenValidator.CheckTokenSchema, TokenValidator.IsDelegated: the schema checks the query string, where Joi converts `isDelegated: 'true'`/`'false'` to booleans. The model does not convert, so it refuses the string `'true'` that the service accepts.
- TokenValidator.IssueTokenSchema, TokenValidator.DelegateTokenSchema: Joi converts numeric strings to numbers in the number fields and the integer arrays. The model refuses such strings.
- TokenValidator.MintRewardTokenSchema: the same for numeric-string recipient amounts.
- **Express wiring.** The controllers' 201 status codes and the `isDelegated === 'true'` query parsing are left out, as are routes, the unseen validation middleware, and the process, health, environment and database-connection files.
- **Pagination requirements.**
  - UserStore.UsersPage: requires page >= 1 and limit >= 0. The driver's answer to a negative skip or limit is not modelled.
  - Responses.TotalPagesIsCeiling: only a positive limit is covered. With limit 0, `Math.ceil(total / 0)` gives Infinity or NaN, which the model represents as `None`.
- **Numbers.**
  - TokenService.IssueTokenSpec: the relay's `tokenid` is rendered as a decimal integer. JavaScript's exponent notation for numbers of 1e21 and above is not modelled.
  - Amounts and `mid` are reals, not IEEE doubles.
- RelayerService.MockWalletAddress: `substring(0, 40)` and `padEnd(40, '0')` count UTF-16 code units, while the model counts characters. The two agree when the key's first 40 characters lie in the Basic Multilingual Plane, as hex keys do. They differ for a key with a character outside it.
- UserModel.AdmissibleUser: the `userId` bounds (3-50) and the `name` bound (100) count characters. Mongoose's `minlength`/`maxlength` count UTF-16 code units, so a name of 60 characters outside the Basic Multilingual Plane is refused by the service but accepted here.
- UserValidator.RegisterUserSchema, UserValidator.UpdateUserSchema: the same difference for Joi's `max(100)` on `name`. The `userId` bounds agree, because `alphanum()` admits ASCII only.
- **Metadata.** `metadata` (a Mongoose `Mixed` field) is a map from strings to JSON values.
