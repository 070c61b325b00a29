/**
 * The request schemas of src/validators/token.validator.ts as predicates over a
 * JSON request body. Joi's rules as used there: `string()` accepts only a
 * non-empty string, `number()` only a number within the safe-integer range,
 * `integer()` only a whole number, an object schema rejects keys it does not
 * declare (the nested recipient objects included), and `required()` demands the
 * key be present while `optional()` lets it be absent.
 */
module TokenValidator {
  import opened Text
  import opened Json

  /** `Number.MAX_SAFE_INTEGER`: Joi's `number()` refuses values beyond it. */
  const MaxSafeInteger: real := 9007199254740991.0

  /** Lengths fixed by the schemas: device identifiers, signature and Merkle-proof items. */
  const IdLength := 32
  const SigLength := 65
  const ProofItemLength := 32

  predicate IsString(v: Json) {
    v.JStr? && v.s != ""
  }

  predicate IsWallet(v: Json) {
    v.JStr? && IsWalletAddress(v.s)
  }

  predicate IsNumber(v: Json) {
    v.JNum? && -MaxSafeInteger <= v.n <= MaxSafeInteger
  }

  predicate IsIntegerItem(v: Json) {
    IsNumber(v) && IsInteger(v)
  }

  /** `array().items(number().integer()).length(n)`. */
  predicate IsIntegerArray(v: Json, n: nat) {
    v.JArr? && |v.items| == n && forall i :: 0 <= i < |v.items| ==> IsIntegerItem(v.items[i])
  }

  /** `array().items(array().items(number().integer()).length(32))`: any number of 32-element rows. */
  predicate IsProof(v: Json) {
    v.JArr? && forall i :: 0 <= i < |v.items| ==> IsIntegerArray(v.items[i], ProofItemLength)
  }

  /** A required key holding a non-empty string. */
  predicate HasString(body: map<string, Json>, key: string) {
    key in body && IsString(body[key])
  }

  /** A required key holding a wallet address. */
  predicate HasWallet(body: map<string, Json>, key: string) {
    key in body && IsWallet(body[key])
  }

  /** A required key holding an integer array of length `n`. */
  predicate HasIntegerArray(body: map<string, Json>, key: string, n: nat) {
    key in body && IsIntegerArray(body[key], n)
  }

  const IssueTokenKeys: set<string> :=
    {"userId", "walletAddress", "hid", "himei", "mcc", "mnc", "distributor", "sig", "leaf", "proof",
     "fid", "bid", "mid", "blockchain"}

  predicate IssueTokenSchema(body: map<string, Json>) {
    && body.Keys <= IssueTokenKeys
    && HasString(body, "userId")
    && HasWallet(body, "walletAddress")
    && HasIntegerArray(body, "hid", IdLength)
    && HasIntegerArray(body, "himei", IdLength)
    && HasString(body, "mcc")
    && HasString(body, "mnc")
    && HasString(body, "distributor")
    && HasIntegerArray(body, "sig", SigLength)
    && HasString(body, "leaf")
    && "proof" in body && IsProof(body["proof"])
    && HasString(body, "fid")
    && HasString(body, "bid")
    && "mid" in body && IsNumber(body["mid"])
    && HasString(body, "blockchain")
  }

  const CheckTokenKeys: set<string> := {"walletAddress", "blockchain", "isDelegated"}

  predicate CheckTokenSchema(body: map<string, Json>) {
    && body.Keys <= CheckTokenKeys
    && HasWallet(body, "walletAddress")
    && HasString(body, "blockchain")
    && ("isDelegated" in body ==> body["isDelegated"].JBool?)
  }

  /** The value of `isDelegated` after validation: the given boolean, `false` when absent. */
  function IsDelegated(body: map<string, Json>): (r: bool)
    requires CheckTokenSchema(body)
    ensures r <==> "isDelegated" in body && body["isDelegated"] == JBool(true)
  {
    if "isDelegated" in body then body["isDelegated"].b else false
  }

  const RecipientKeys: set<string> := {"address", "amount"}

  /** One recipient object: a wallet `address` and a strictly positive `amount`, nothing else. */
  predicate IsRecipient(v: Json) {
    && v.JObj?
    && v.fields.Keys <= RecipientKeys
    && HasWallet(v.fields, "address")
    && "amount" in v.fields && IsNumber(v.fields["amount"]) && v.fields["amount"].n > 0.0
  }

  const MintRewardTokenKeys: set<string> := {"userId", "tokenType", "recipients", "blockchain"}

  predicate MintRewardTokenSchema(body: map<string, Json>) {
    && body.Keys <= MintRewardTokenKeys
    && HasString(body, "userId")
    && "tokenType" in body && body["tokenType"] in {JStr("VCT"), JStr("WCT")}
    && "recipients" in body && body["recipients"].JArr? && |body["recipients"].items| >= 1
    && (forall i :: 0 <= i < |body["recipients"].items| ==> IsRecipient(body["recipients"].items[i]))
    && HasString(body, "blockchain")
  }

  const DelegateTokenKeys: set<string> :=
    {"userId", "walletAddress", "delegateWalletAddress", "hid", "himei", "mcc", "mnc", "distributor", "sig",
     "blockchain"}

  predicate DelegateTokenSchema(body: map<string, Json>) {
    && body.Keys <= DelegateTokenKeys
    && HasString(body, "userId")
    && HasWallet(body, "walletAddress")
    && HasWallet(body, "delegateWalletAddress")
    && HasIntegerArray(body, "hid", IdLength)
    && HasIntegerArray(body, "himei", IdLength)
    && HasString(body, "mcc")
    && HasString(body, "mnc")
    && HasString(body, "distributor")
    && HasIntegerArray(body, "sig", SigLength)
    && HasString(body, "blockchain")
  }

  /** Every schema refuses a body carrying a key it does not declare, whatever the other keys hold. */
  lemma UnknownKeysRejected(body: map<string, Json>, key: string, v: Json)
    ensures key !in IssueTokenKeys ==> !IssueTokenSchema(body[key := v])
    ensures key !in CheckTokenKeys ==> !CheckTokenSchema(body[key := v])
    ensures key !in MintRewardTokenKeys ==> !MintRewardTokenSchema(body[key := v])
    ensures key !in DelegateTokenKeys ==> !DelegateTokenSchema(body[key := v])
  {
    assert key in body[key := v].Keys;
  }

  /**
   * In an otherwise valid body, a wallet field is accepted exactly when it is
   * "0x" followed by 40 hexadecimal digits of either case.
   */
  lemma WalletFieldExactly(body: map<string, Json>, w: string)
    ensures IssueTokenSchema(body) ==>
              (IssueTokenSchema(body["walletAddress" := JStr(w)]) <==> IsWalletAddress(w))
    ensures CheckTokenSchema(body) ==>
              (CheckTokenSchema(body["walletAddress" := JStr(w)]) <==> IsWalletAddress(w))
    ensures DelegateTokenSchema(body) ==>
              (DelegateTokenSchema(body["walletAddress" := JStr(w)]) <==> IsWalletAddress(w))
              && (DelegateTokenSchema(body["delegateWalletAddress" := JStr(w)]) <==> IsWalletAddress(w))
  {
  }

  /** A `hid`, `himei` or `sig` of any other length, or with a fractional element, is refused. */
  lemma FixedLengthArrays(body: map<string, Json>, key: string, items: seq<Json>)
    requires key in {"hid", "himei", "sig"}
    requires |items| != (if key == "sig" then SigLength else IdLength) ||
             exists i :: 0 <= i < |items| && !IsIntegerItem(items[i])
    ensures !IssueTokenSchema(body[key := JArr(items)])
    ensures !DelegateTokenSchema(body[key := JArr(items)])
  {
  }

  /**
   * The addresses a valid issue, check or delegate body carries satisfy the
   * stored-record pattern once lower-cased, so the models' setters cannot
   * turn a validated address into one the schema refuses.
   */
  lemma ValidatedWalletsStorable(body: map<string, Json>)
    ensures IssueTokenSchema(body) || CheckTokenSchema(body) || DelegateTokenSchema(body) ==>
              IsWalletAddress(ToLower(body["walletAddress"].s))
    ensures DelegateTokenSchema(body) ==> IsWalletAddress(ToLower(body["delegateWalletAddress"].s))
  {
    if IssueTokenSchema(body) || CheckTokenSchema(body) || DelegateTokenSchema(body) {
      LowerWalletAddress(body["walletAddress"].s);
    }
    if DelegateTokenSchema(body) {
      LowerWalletAddress(body["delegateWalletAddress"].s);
    }
  }

  /**
   * A valid mint body names at least one recipient, and every recipient has
   * a positive amount and an address that stays a wallet address once lower-cased.
   */
  lemma {:induction false} ValidatedRecipients(body: map<string, Json>)
    requires MintRewardTokenSchema(body)
    ensures |body["recipients"].items| >= 1
    ensures forall i :: 0 <= i < |body["recipients"].items| ==>
              && body["recipients"].items[i].fields["amount"].n > 0.0
              && IsWalletAddress(ToLower(body["recipients"].items[i].fields["address"].s))
  {
    var rs := body["recipients"].items;
    forall i | 0 <= i < |rs|
      ensures IsWalletAddress(ToLower(rs[i].fields["address"].s))
    {
      assert IsRecipient(rs[i]);
      LowerWalletAddress(rs[i].fields["address"].s);
    }
  }
}
