/**
 * The user document of src/models/user.model.ts: a `UserDraft` is what a
 * caller hands to the model, `NormalizeUser` applies the setters and defaults
 * (lower-cased wallet and email, `metadata` {}), and `AdmissibleUser` is the
 * validation `save()` runs.
 */
module UserModel {
  import opened Wrappers
  import opened Text
  import opened Json

  datatype UserDraft = UserDraft(userId: string, walletAddress: string, publicKey: Option<string>,
                                 email: Option<string>, name: Option<string>, metadata: Option<map<string, Json>>)

  datatype User = User(userId: string, walletAddress: string, publicKey: Option<string>,
                       email: Option<string>, name: Option<string>, metadata: map<string, Json>)

  const MinUserIdLength := 3
  const MaxUserIdLength := 50
  const MaxNameLength := 100

  function NormalizeUser(d: UserDraft): User {
    User(d.userId, ToLower(d.walletAddress), d.publicKey,
         match d.email case None => None case Some(e) => Some(ToLower(e)),
         d.name, d.metadata.GetOr(map[]))
  }

  /**
   * `userId` of 3 to 50 characters; `walletAddress` present and matching the address
   * pattern; `email`, when a non-empty string, of the form non-space@non-space.non-space;
   * `name` at most 100 characters.
   */
  predicate AdmissibleUser(u: User) {
    && MinUserIdLength <= |u.userId| <= MaxUserIdLength
    && IsWalletAddress(u.walletAddress)
    && (u.email.Some? && u.email.value != "" ==> IsEmailShape(u.email.value))
    && (u.name.Some? ==> |u.name.value| <= MaxNameLength)
  }

  /** What every stored user satisfies: admissible, with wallet and email in lower case. */
  predicate WellFormedUser(u: User) {
    && AdmissibleUser(u)
    && IsLowerCase(u.walletAddress)
    && (u.email.Some? ==> IsLowerCase(u.email.value))
  }

  /** A normalised user that passes validation is well-formed, and absent metadata becomes empty. */
  lemma AdmissibleUserIsWellFormed(d: UserDraft)
    requires AdmissibleUser(NormalizeUser(d))
    ensures WellFormedUser(NormalizeUser(d))
    ensures d.metadata.None? ==> NormalizeUser(d).metadata == map[]
  {
    ToLowerIsLowerCase(d.walletAddress);
    if d.email.Some? {
      ToLowerIsLowerCase(d.email.value);
    }
  }
}
