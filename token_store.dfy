/**
 * src/repositories/token.repository.ts over an in-memory collection. The
 * collection is a sequence in insertion order, which stands for ascending
 * `createdAt`; the queries sorted by `createdAt: -1` return the reverse.
 * `CreateToken`, `SetStatus` and the query functions state what each
 * repository operation does to the collection; `TokenRepository` is the
 * repository object, whose methods are proved against them.
 */
module TokenStore {
  import opened Wrappers
  import opened Text
  import opened ApiErrors
  import opened TokenModel
  import opened Sequences

  /** The messages of the non-API errors `save()` throws: a failed validation and the unique index on `tokenId`. */
  const TokenValidationMessage := "Token validation failed"
  const DuplicateTokenIdMessage := "E11000 duplicate key error collection: tokens index: tokenId_1"

  predicate UniqueTokenIds(ts: seq<Token>) {
    forall i, j :: 0 <= i < j < |ts| ==> ts[i].tokenId != ts[j].tokenId
  }

  /** What the collection always satisfies: unique ids and well-formed documents. */
  predicate ValidTokens(ts: seq<Token>) {
    UniqueTokenIds(ts) && forall i :: 0 <= i < |ts| ==> WellFormedToken(ts[i])
  }

  /** The position `findOne({ tokenId })` reaches: the first document with that id. */
  function IndexOfToken(ts: seq<Token>, tokenId: string): (r: Option<nat>)
    ensures r.Some? ==> r.value < |ts| && ts[r.value].tokenId == tokenId
    ensures r.Some? ==> forall j :: 0 <= j < r.value ==> ts[j].tokenId != tokenId
    ensures r.None? <==> forall i :: 0 <= i < |ts| ==> ts[i].tokenId != tokenId
  {
    if ts == [] then None
    else if ts[0].tokenId == tokenId then Some(0)
    else match IndexOfToken(ts[1..], tokenId)
      case None => None
      case Some(k) => Some(k + 1)
  }

  /** `findById`: the token with that id, or none when no token has it. */
  function FindTokenById(ts: seq<Token>, tokenId: string): (r: Option<Token>)
    ensures r.Some? ==> r.value in ts && r.value.tokenId == tokenId
    ensures r.None? <==> forall t :: t in ts ==> t.tokenId != tokenId
  {
    match IndexOfToken(ts, tokenId)
    case None => None
    case Some(i) => Some(ts[i])
  }

  /**
   * `create`: the document built from `d` is validated, then inserted; a failed
   * validation or an id already present is a non-API error and stores nothing.
   */
  function CreateToken(ts: seq<Token>, d: TokenDraft): (Result<Token>, seq<Token>) {
    var t := NormalizeToken(d);
    if !AdmissibleToken(t) then (Err(PlainError(TokenValidationMessage)), ts)
    else if FindTokenById(ts, t.tokenId).Some? then (Err(PlainError(DuplicateTokenIdMessage)), ts)
    else (Ok(t), ts + [t])
  }

  /** The effect of `create` on a valid collection. */
  lemma CreateTokenSpec(ts: seq<Token>, d: TokenDraft)
    requires ValidTokens(ts)
    ensures var (r, ts') := CreateToken(ts, d);
            && (r.Ok? <==> AdmissibleToken(NormalizeToken(d)) && forall t :: t in ts ==> t.tokenId != d.tokenId)
            && (r.Ok? ==> r.value == NormalizeToken(d) && ts' == ts + [r.value])
            && (r.Err? ==> ts' == ts && !IsApiError(r.error))
            && ValidTokens(ts')
  {
    var t := NormalizeToken(d);
    if AdmissibleToken(t) && FindTokenById(ts, t.tokenId).None? {
      AdmissibleTokenIsWellFormed(d);
      var ts' := ts + [t];
      forall i, j | 0 <= i < j < |ts'| ensures ts'[i].tokenId != ts'[j].tokenId {
        if j == |ts| {
          assert ts'[i] in ts;
        }
      }
    }
  }

  /** The query filters of `findByUserId`, `findByWalletAddress` and `findByTypeAndStatus`. */
  function OfUser(userId: string): Token -> bool {
    (t: Token) => t.userId == userId
  }

  function OfWallet(walletAddress: string, blockchain: Option<string>): Token -> bool {
    (t: Token) => t.walletAddress == ToLower(walletAddress) &&
                  (blockchain.None? || blockchain.value == "" || t.blockchain == blockchain.value)
  }

  function OfTypeAndStatus(tokenType: TokenType, status: TokenStatus): Token -> bool {
    (t: Token) => t.tokenType == tokenType && t.status == status
  }

  /**
   * `findByUserId`: all and only the tokens of that user, newest first (the i-th
   * result is the i-th most recently inserted match).
   */
  function TokensOfUser(ts: seq<Token>, userId: string): (r: seq<Token>)
    ensures forall t :: t in r <==> t in ts && t.userId == userId
    ensures NewestFirstOf(r, ts, OfUser(userId))
  {
    ReverseWhere(ts, OfUser(userId));
    Reverse(Where(ts, OfUser(userId)))
  }

  /**
   * `findByWalletAddress`: the tokens held by the lower-cased wallet and, when a
   * non-empty blockchain is given, on that blockchain; newest first.
   */
  function TokensOfWallet(ts: seq<Token>, walletAddress: string, blockchain: Option<string>): (r: seq<Token>)
    ensures forall t :: t in r <==>
              && t in ts && t.walletAddress == ToLower(walletAddress)
              && (blockchain.Some? && blockchain.value != "" ==> t.blockchain == blockchain.value)
    ensures NewestFirstOf(r, ts, OfWallet(walletAddress, blockchain))
  {
    ReverseWhere(ts, OfWallet(walletAddress, blockchain));
    Reverse(Where(ts, OfWallet(walletAddress, blockchain)))
  }

  /** `findByTypeAndStatus`: exactly the tokens of that type in that status, newest first. */
  function TokensOfTypeAndStatus(ts: seq<Token>, tokenType: TokenType, status: TokenStatus): (r: seq<Token>)
    ensures forall t :: t in r <==> t in ts && t.tokenType == tokenType && t.status == status
    ensures NewestFirstOf(r, ts, OfTypeAndStatus(tokenType, status))
  {
    ReverseWhere(ts, OfTypeAndStatus(tokenType, status));
    Reverse(Where(ts, OfTypeAndStatus(tokenType, status)))
  }

  /**
   * Newest first, spelled out on a valid collection: of two results, the one
   * listed earlier was inserted later.
   */
  lemma QueriesDescend(ts: seq<Token>, r: seq<Token>, keep: Token -> bool, i: nat, j: nat)
    requires NewestFirstOf(r, ts, keep)
    requires i < j < |r|
    ensures exists p, q :: 0 <= q < p < |ts| && ts[p] == r[i] && ts[q] == r[j]
  {
    var ps := Positions(ts, keep);
    var p, q := ps[|ps| - 1 - i], ps[|ps| - 1 - j];
    assert 0 <= q < p < |ts| && ts[p] == r[i] && ts[q] == r[j];
  }

  /** The token created last heads every query it matches. */
  lemma QueriesNewestFirst(ts: seq<Token>, t: Token, blockchain: Option<string>)
    ensures |TokensOfUser(ts + [t], t.userId)| > 0 && TokensOfUser(ts + [t], t.userId)[0] == t
    ensures |TokensOfTypeAndStatus(ts + [t], t.tokenType, t.status)| > 0 &&
            TokensOfTypeAndStatus(ts + [t], t.tokenType, t.status)[0] == t
    ensures IsLowerCase(t.walletAddress) && (blockchain.None? || blockchain.value in {"", t.blockchain}) ==>
              |TokensOfWallet(ts + [t], t.walletAddress, blockchain)| > 0 &&
              TokensOfWallet(ts + [t], t.walletAddress, blockchain)[0] == t
  {
    NewestFirst(ts, t, OfUser(t.userId));
    NewestFirst(ts, t, OfTypeAndStatus(t.tokenType, t.status));
    if IsLowerCase(t.walletAddress) && (blockchain.None? || blockchain.value in {"", t.blockchain}) {
      NewestFirst(ts, t, OfWallet(t.walletAddress, blockchain));
    }
  }

  /** The document `updateStatus` writes: the new status, and the hash only when a non-empty one is given. */
  function WithStatus(t: Token, status: TokenStatus, transactionHash: Option<string>): Token {
    var withStatus := t.(status := status);
    if transactionHash.Some? && transactionHash.value != "" then withStatus.(transactionHash := transactionHash)
    else withStatus
  }

  /** `updateStatus`: the one token with that id is rewritten; an unknown id is a 404 and changes nothing. */
  function SetStatus(ts: seq<Token>, tokenId: string, status: TokenStatus, transactionHash: Option<string>)
    : (Result<Token>, seq<Token>)
  {
    match IndexOfToken(ts, tokenId)
    case None => (Err(NotFoundError(Some("Token " + tokenId + " not found"))), ts)
    case Some(i) => var t := WithStatus(ts[i], status, transactionHash); (Ok(t), ts[i := t])
  }

  /** The effect of `updateStatus` on a valid collection: only status and hash of one token change. */
  lemma SetStatusSpec(ts: seq<Token>, tokenId: string, status: TokenStatus, transactionHash: Option<string>)
    requires ValidTokens(ts)
    ensures var (r, ts') := SetStatus(ts, tokenId, status, transactionHash);
            && ValidTokens(ts')
            && |ts'| == |ts|
            && (r.Err? <==> forall t :: t in ts ==> t.tokenId != tokenId)
            && (r.Err? ==> ts' == ts && StatusCode(r.error) == 404 && r.error.message == "Token " + tokenId + " not found")
            && (r.Ok? ==> exists i :: 0 <= i < |ts| && ts[i].tokenId == tokenId && ts' == ts[i := r.value])
            && (r.Ok? ==> FindTokenById(ts', tokenId) == Some(r.value))
            && (r.Ok? ==>
                  var old_ := FindTokenById(ts, tokenId).value;
                  && r.value.status == status
                  && r.value.transactionHash ==
                       (if transactionHash.Some? && transactionHash.value != "" then transactionHash
                        else old_.transactionHash)
                  && r.value.tokenId == old_.tokenId && r.value.userId == old_.userId
                  && r.value.walletAddress == old_.walletAddress && r.value.tokenType == old_.tokenType
                  && r.value.blockchain == old_.blockchain && r.value.contractAddress == old_.contractAddress
                  && r.value.imageUrl == old_.imageUrl && r.value.metadata == old_.metadata
                  && r.value.delegatedTo == old_.delegatedTo)
  {
    match IndexOfToken(ts, tokenId)
    case None =>
    case Some(i) =>
      var t := WithStatus(ts[i], status, transactionHash);
      var ts' := ts[i := t];
      assert WellFormedToken(t) by { assert WellFormedToken(ts[i]); }
      assert forall j :: 0 <= j < |ts| && j != i ==> ts'[j] == ts[j];
      assert ts'[i].tokenId == tokenId;
      var k := IndexOfToken(ts', tokenId);
      assert k == Some(i);
  }

  /** The token collection behind the repository. */
  class TokenRepository {
    var tokens: seq<Token>

    ghost predicate Valid()
      reads this
    {
      ValidTokens(tokens)
    }

    constructor ()
      ensures Valid() && tokens == []
    {
      tokens := [];
    }

    method Create(tokenData: TokenDraft) returns (r: Result<Token>)
      requires Valid()
      modifies this
      ensures Valid()
      ensures (r, tokens) == CreateToken(old(tokens), tokenData)
    {
      CreateTokenSpec(tokens, tokenData);
      var token := NormalizeToken(tokenData);
      if !AdmissibleToken(token) {
        return Err(PlainError(TokenValidationMessage));
      }
      if FindById(token.tokenId).Some? {
        return Err(PlainError(DuplicateTokenIdMessage));
      }
      tokens := tokens + [token];
      r := Ok(token);
    }

    function FindById(tokenId: string): Option<Token>
      reads this
    {
      FindTokenById(tokens, tokenId)
    }

    function FindByUserId(userId: string): seq<Token>
      reads this
    {
      TokensOfUser(tokens, userId)
    }

    function FindByWalletAddress(walletAddress: string, blockchain: Option<string>): seq<Token>
      reads this
    {
      TokensOfWallet(tokens, walletAddress, blockchain)
    }

    function FindByTypeAndStatus(tokenType: TokenType, status: TokenStatus): seq<Token>
      reads this
    {
      TokensOfTypeAndStatus(tokens, tokenType, status)
    }

    method UpdateStatus(tokenId: string, status: TokenStatus, transactionHash: Option<string>) returns (r: Result<Token>)
      requires Valid()
      modifies this
      ensures Valid()
      ensures (r, tokens) == SetStatus(old(tokens), tokenId, status, transactionHash)
    {
      SetStatusSpec(tokens, tokenId, status, transactionHash);
      var found := IndexOfToken(tokens, tokenId);
      if found.None? {
        return Err(NotFoundError(Some("Token " + tokenId + " not found")));
      }
      var token := tokens[found.value].(status := status);
      if transactionHash.Some? && transactionHash.value != "" {
        token := token.(transactionHash := transactionHash);
      }
      tokens := tokens[found.value := token];
      r := Ok(token);
    }
  }
}
