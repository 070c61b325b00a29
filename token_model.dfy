/**
 * The token document of src/models/token.model.ts. A `TokenDraft` is what a
 * caller hands to the model; `NormalizeToken` applies the schema's setters and
 * defaults (lower-casing, `status` PENDING, `metadata` {}); `AdmissibleToken` is the
 * schema validation that `save()` runs on the normalised document.
 */
module TokenModel {
  import opened Wrappers
  import opened Text
  import opened Json

  datatype TokenType = SOULBOUND | DELEGATE_SOULBOUND | VCT | WCT

  datatype TokenStatus = PENDING | MINTED | FAILED | VERIFIED

  datatype TokenDraft = TokenDraft(
    tokenId: string, userId: string, walletAddress: string, tokenType: TokenType, blockchain: string,
    contractAddress: string, imageUrl: Option<string>, metadata: Option<map<string, Json>>,
    transactionHash: Option<string>, status: Option<TokenStatus>, delegatedTo: Option<string>)

  datatype Token = Token(
    tokenId: string, userId: string, walletAddress: string, tokenType: TokenType, blockchain: string,
    contractAddress: string, imageUrl: Option<string>, metadata: map<string, Json>,
    transactionHash: Option<string>, status: TokenStatus, delegatedTo: Option<string>)

  function LowerOpt(s: Option<string>): Option<string> {
    match s
    case None => None
    case Some(v) => Some(ToLower(v))
  }

  /** The document as constructed: lower-cased addresses, absent `status` PENDING, absent `metadata` empty. */
  function NormalizeToken(d: TokenDraft): Token {
    Token(d.tokenId, d.userId, ToLower(d.walletAddress), d.tokenType, d.blockchain, ToLower(d.contractAddress),
          d.imageUrl, d.metadata.GetOr(map[]), d.transactionHash, d.status.GetOr(PENDING), LowerOpt(d.delegatedTo))
  }

  /** The validators `save()` runs: required strings are non-empty and the wallet matches the address pattern. */
  predicate AdmissibleToken(t: Token) {
    && t.tokenId != ""
    && t.userId != ""
    && IsWalletAddress(t.walletAddress)
    && t.blockchain != ""
    && t.contractAddress != ""
  }

  /** What every stored token satisfies: admissible, with its lower-cased fields in lower case. */
  predicate WellFormedToken(t: Token) {
    && AdmissibleToken(t)
    && IsLowerCase(t.walletAddress)
    && IsLowerCase(t.contractAddress)
    && (t.delegatedTo.Some? ==> IsLowerCase(t.delegatedTo.value))
  }

  /** The setters leave wallet, contract and delegate addresses lower-cased, and the defaults fill the rest. */
  lemma NormalizeTokenLowers(d: TokenDraft)
    ensures var t := NormalizeToken(d);
            && IsLowerCase(t.walletAddress) && IsLowerCase(t.contractAddress)
            && (t.delegatedTo.Some? ==> IsLowerCase(t.delegatedTo.value))
            && (d.status.None? ==> t.status == PENDING)
            && (d.metadata.None? ==> t.metadata == map[])
            && t.walletAddress == ToLower(d.walletAddress) && t.contractAddress == ToLower(d.contractAddress)
  {
    ToLowerIsLowerCase(d.walletAddress);
    ToLowerIsLowerCase(d.contractAddress);
    if d.delegatedTo.Some? {
      ToLowerIsLowerCase(d.delegatedTo.value);
    }
  }

  /** A normalised document that passes validation is well-formed. */
  lemma AdmissibleTokenIsWellFormed(d: TokenDraft)
    requires AdmissibleToken(NormalizeToken(d))
    ensures WellFormedToken(NormalizeToken(d))
  {
    NormalizeTokenLowers(d);
  }

  /**
   * A draft is saved exactly when its required strings are non-empty and its wallet,
   * once lower-cased, matches the pattern; any wallet already matching the pattern does.
   */
  lemma AdmissibleTokenDraft(d: TokenDraft)
    ensures AdmissibleToken(NormalizeToken(d)) <==>
              d.tokenId != "" && d.userId != "" && d.blockchain != "" && d.contractAddress != "" &&
              IsWalletAddress(ToLower(d.walletAddress))
    ensures (IsWalletAddress(d.walletAddress) && d.tokenId != "" && d.userId != "" && d.blockchain != "" &&
             d.contractAddress != "") ==> AdmissibleToken(NormalizeToken(d))
  {
    if IsWalletAddress(d.walletAddress) {
      LowerWalletAddress(d.walletAddress);
    }
    if d.contractAddress != "" {
      assert |ToLower(d.contractAddress)| == |d.contractAddress|;
    }
    if ToLower(d.contractAddress) != "" {
      assert |ToLower(d.contractAddress)| == |d.contractAddress|;
    }
  }
}
