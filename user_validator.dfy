/**
 * The request schemas of src/validators/user.validator.ts as predicates over a
 * JSON request body. Joi's `email()` rule is the parameter `isEmail`.
 */
module UserValidator {
  import opened Text
  import opened Json
  import opened UserModel
  import TokenValidator

  const RegisterUserKeys: set<string> := {"userId", "email", "name", "publicKey"}

  /** `userId` alphanumeric of 3 to 50 characters, optional email and name (at most 100), required `publicKey`. */
  predicate RegisterUserSchema(body: map<string, Json>, isEmail: string -> bool) {
    && body.Keys <= RegisterUserKeys
    && "userId" in body && body["userId"].JStr?
    && MinUserIdLength <= |body["userId"].s| <= MaxUserIdLength && IsAlphanumeric(body["userId"].s)
    && ("email" in body ==> TokenValidator.IsString(body["email"]) && isEmail(body["email"].s))
    && ("name" in body ==> TokenValidator.IsString(body["name"]) && |body["name"].s| <= MaxNameLength)
    && TokenValidator.HasString(body, "publicKey")
  }

  const UpdateUserKeys: set<string> := {"email", "name", "metadata"}

  /** Only `email`, `name` and `metadata` (an object), each optional. */
  predicate UpdateUserSchema(body: map<string, Json>, isEmail: string -> bool) {
    && body.Keys <= UpdateUserKeys
    && ("email" in body ==> TokenValidator.IsString(body["email"]) && isEmail(body["email"].s))
    && ("name" in body ==> TokenValidator.IsString(body["name"]) && |body["name"].s| <= MaxNameLength)
    && ("metadata" in body ==> body["metadata"].JObj?)
  }

  /** Both schemas refuse a key they do not declare; an update refuses `userId`, `walletAddress` and `publicKey`. */
  lemma UnknownUserKeysRejected(body: map<string, Json>, key: string, v: Json, isEmail: string -> bool)
    ensures key !in RegisterUserKeys ==> !RegisterUserSchema(body[key := v], isEmail)
    ensures key !in UpdateUserKeys ==> !UpdateUserSchema(body[key := v], isEmail)
    ensures key in {"userId", "walletAddress", "publicKey"} ==> !UpdateUserSchema(body[key := v], isEmail)
  {
    assert key in body[key := v].Keys;
  }

  /**
   * A registration body that passes has a `userId` within the stored-record
   * length bounds, containing no white space, and a non-empty `publicKey`,
   * so the public-key check of registration never fires on it.
   */
  lemma RegisteredUserIdFits(body: map<string, Json>, isEmail: string -> bool)
    requires RegisterUserSchema(body, isEmail)
    ensures MinUserIdLength <= |body["userId"].s| <= MaxUserIdLength
    ensures forall i :: 0 <= i < |body["userId"].s| ==> !IsWhitespace(body["userId"].s[i])
    ensures body["publicKey"].s != ""
  {
    var u := body["userId"].s;
    forall i | 0 <= i < |u| ensures !IsWhitespace(u[i]) {
      assert 'a' <= u[i] <= 'z' || 'A' <= u[i] <= 'Z' || '0' <= u[i] <= '9';
    }
  }

  /** A user id with a character outside [a-zA-Z0-9], or of the wrong length, is refused. */
  lemma BadUserIdRejected(body: map<string, Json>, u: string, isEmail: string -> bool)
    requires !(MinUserIdLength <= |u| <= MaxUserIdLength) ||
             exists i :: 0 <= i < |u| && !('a' <= u[i] <= 'z' || 'A' <= u[i] <= 'Z' || '0' <= u[i] <= '9')
    ensures !RegisterUserSchema(body["userId" := JStr(u)], isEmail)
  {
  }
}
