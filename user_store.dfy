/**
 * src/repositories/user.repositry.ts over an in-memory collection: a sequence
 * of users in insertion order, standing for ascending `createdAt`. The
 * functions state what each repository operation does to the collection;
 * `UserRepository` is the repository object, whose methods are proved
 * against them.
 */
module UserStore {
  import opened Wrappers
  import opened Text
  import opened Json
  import opened ApiErrors
  import opened UserModel
  import opened Sequences

  const ConflictMessage := "User with this ID or wallet address already exists"
  /** The messages of the non-API errors the document layer throws: a failed validation and a unique index. */
  const UserValidationMessage := "User validation failed"
  const DuplicateUserMessage := "E11000 duplicate key error collection: users"

  predicate UniqueUsers(us: seq<User>) {
    forall i, j :: 0 <= i < j < |us| ==> us[i].userId != us[j].userId && us[i].walletAddress != us[j].walletAddress
  }

  /** What the collection always satisfies: unique ids and wallets, well-formed documents. */
  predicate ValidUsers(us: seq<User>) {
    UniqueUsers(us) && forall i :: 0 <= i < |us| ==> WellFormedUser(us[i])
  }

  /** The position `findOne({ userId })` reaches: the first user with that id. */
  function IndexOfUser(us: seq<User>, userId: string): (r: Option<nat>)
    ensures r.Some? ==> r.value < |us| && us[r.value].userId == userId
    ensures r.Some? ==> forall j :: 0 <= j < r.value ==> us[j].userId != userId
    ensures r.None? <==> forall i :: 0 <= i < |us| ==> us[i].userId != userId
  {
    if us == [] then None
    else if us[0].userId == userId then Some(0)
    else match IndexOfUser(us[1..], userId)
      case None => None
      case Some(k) => Some(k + 1)
  }

  /** `findById`: the user with that id, or none. */
  function FindUserById(us: seq<User>, userId: string): (r: Option<User>)
    ensures r.Some? ==> r.value in us && r.value.userId == userId
    ensures r.None? <==> forall u :: u in us ==> u.userId != userId
  {
    match IndexOfUser(us, userId)
    case None => None
    case Some(i) => Some(us[i])
  }

  /** `findByWalletAddress`: the user holding the lower-cased address, or none. */
  function FindUserByWallet(us: seq<User>, walletAddress: string): (r: Option<User>)
    ensures r.Some? ==> r.value in us && r.value.walletAddress == ToLower(walletAddress)
    ensures r.None? <==> forall u :: u in us ==> u.walletAddress != ToLower(walletAddress)
  {
    if us == [] then None
    else if us[0].walletAddress == ToLower(walletAddress) then Some(us[0])
    else FindUserByWallet(us[1..], walletAddress)
  }

  /** Some stored user has the id or the (lower-cased) wallet address: the `$or` query of `create`. */
  predicate Clashes(us: seq<User>, userId: string, walletAddress: string) {
    exists u :: u in us && (u.userId == userId || u.walletAddress == ToLower(walletAddress))
  }

  /**
   * `create`: a user sharing the id or the wallet address is a 409 conflict;
   * otherwise the document is validated, then appended.
   */
  function CreateUser(us: seq<User>, d: UserDraft): (Result<User>, seq<User>) {
    if Clashes(us, d.userId, d.walletAddress) then (Err(ConflictError(Some(ConflictMessage))), us)
    else
      var u := NormalizeUser(d);
      if !AdmissibleUser(u) then (Err(PlainError(UserValidationMessage)), us) else (Ok(u), us + [u])
  }

  /** The effect of `create` on a valid collection. */
  lemma CreateUserSpec(us: seq<User>, d: UserDraft)
    requires ValidUsers(us)
    ensures var (r, us') := CreateUser(us, d);
            && ValidUsers(us')
            && (r.Err? && IsApiError(r.error) && StatusCode(r.error) == 409 <==> Clashes(us, d.userId, d.walletAddress))
            && (r.Ok? <==> !Clashes(us, d.userId, d.walletAddress) && AdmissibleUser(NormalizeUser(d)))
            && (r.Ok? ==> r.value == NormalizeUser(d) && us' == us + [r.value])
            && (r.Err? ==> us' == us)
  {
    var u := NormalizeUser(d);
    if !Clashes(us, d.userId, d.walletAddress) && AdmissibleUser(u) {
      AdmissibleUserIsWellFormed(d);
      var us' := us + [u];
      forall i, j | 0 <= i < j < |us'|
        ensures us'[i].userId != us'[j].userId && us'[i].walletAddress != us'[j].walletAddress
      {
        if j == |us| {
          assert us'[i] in us;
        }
      }
    }
  }

  /** The fields an `update` may `$set`; an absent field is left alone. */
  datatype UserPatch = UserPatch(userId: Option<string>, walletAddress: Option<string>, publicKey: Option<string>,
                                 email: Option<string>, name: Option<string>, metadata: Option<map<string, Json>>)

  /** The user after `$set`, with the setters applied to the supplied values. */
  function ApplyPatch(u: User, p: UserPatch): User {
    User(p.userId.GetOr(u.userId),
         if p.walletAddress.Some? then ToLower(p.walletAddress.value) else u.walletAddress,
         if p.publicKey.Some? then p.publicKey else u.publicKey,
         if p.email.Some? then Some(ToLower(p.email.value)) else u.email,
         if p.name.Some? then p.name else u.name,
         p.metadata.GetOr(u.metadata))
  }

  /** The update validators (`runValidators`), which check only the supplied fields. */
  predicate PatchValid(p: UserPatch) {
    && (p.userId.Some? ==> MinUserIdLength <= |p.userId.value| <= MaxUserIdLength)
    && (p.walletAddress.Some? ==> IsWalletAddress(ToLower(p.walletAddress.value)))
    && (p.email.Some? && p.email.value != "" ==> IsEmailShape(ToLower(p.email.value)))
    && (p.name.Some? ==> |p.name.value| <= MaxNameLength)
  }

  /** Checking only the supplied fields is enough: a valid patch of a valid user is a valid user, and conversely. */
  lemma PatchValidIff(u: User, p: UserPatch)
    requires AdmissibleUser(u)
    ensures PatchValid(p) <==> AdmissibleUser(ApplyPatch(u, p))
  {
    if p.email.Some? {
      assert |ToLower(p.email.value)| == |p.email.value|;
    }
  }

  /** Another user than the one at `i` has the id or wallet of `u`: the unique indexes refuse the write. */
  predicate ClashesElsewhere(us: seq<User>, i: nat, u: User) {
    exists j :: 0 <= j < |us| && j != i && (us[j].userId == u.userId || us[j].walletAddress == u.walletAddress)
  }

  /**
   * `update`: the validators run first; then an unknown id is a 404; then the
   * one matching user is rewritten, unless a unique index refuses it.
   */
  function UpdateUser(us: seq<User>, userId: string, p: UserPatch): (Result<User>, seq<User>) {
    if !PatchValid(p) then (Err(PlainError(UserValidationMessage)), us)
    else match IndexOfUser(us, userId)
      case None => (Err(NotFoundError(Some("User " + userId + " not found"))), us)
      case Some(i) =>
        var u := ApplyPatch(us[i], p);
        if ClashesElsewhere(us, i, u) then (Err(PlainError(DuplicateUserMessage)), us) else (Ok(u), us[i := u])
  }

  /** A well-formed user given a valid patch stays well-formed. */
  lemma PatchedWellFormed(u: User, p: UserPatch)
    requires WellFormedUser(u) && PatchValid(p)
    ensures WellFormedUser(ApplyPatch(u, p))
  {
    PatchValidIff(u, p);
    if p.walletAddress.Some? {
      ToLowerIsLowerCase(p.walletAddress.value);
    }
    if p.email.Some? {
      ToLowerIsLowerCase(p.email.value);
    }
  }

  /** Rewriting one user with a well-formed one that clashes with no other keeps the collection valid. */
  lemma ReplaceKeepsValid(us: seq<User>, i: nat, u: User)
    requires ValidUsers(us) && i < |us| && WellFormedUser(u) && !ClashesElsewhere(us, i, u)
    ensures ValidUsers(us[i := u])
  {
    var us' := us[i := u];
    forall a, b | 0 <= a < b < |us'|
      ensures us'[a].userId != us'[b].userId && us'[a].walletAddress != us'[b].walletAddress
    {
      if a == i {
        assert us'[b] == us[b];
      } else if b == i {
        assert us'[a] == us[a];
      }
    }
  }

  /** `update` keeps the collection valid, and a failed one changes nothing. */
  lemma UpdateUserKeepsValid(us: seq<User>, userId: string, p: UserPatch)
    requires ValidUsers(us)
    ensures ValidUsers(UpdateUser(us, userId, p).1)
    ensures UpdateUser(us, userId, p).0.Err? ==> UpdateUser(us, userId, p).1 == us
  {
    if PatchValid(p) && IndexOfUser(us, userId).Some? {
      var i := IndexOfUser(us, userId).value;
      var u := ApplyPatch(us[i], p);
      if !ClashesElsewhere(us, i, u) {
        PatchedWellFormed(us[i], p);
        ReplaceKeepsValid(us, i, u);
      }
    }
  }

  /**
   * The outcome of `update`: a 404 exactly when the patch is valid and no user has
   * the id; on success the one matching user is replaced, only its supplied fields changed.
   */
  lemma UpdateUserSpec(us: seq<User>, userId: string, p: UserPatch)
    ensures var (r, us') := UpdateUser(us, userId, p);
            && (r.Err? && IsApiError(r.error) && StatusCode(r.error) == 404 <==>
                  PatchValid(p) && forall u :: u in us ==> u.userId != userId)
            && (r.Err? && IsApiError(r.error) ==> r.error.message == "User " + userId + " not found")
            && (r.Ok? ==> exists i :: 0 <= i < |us| && us[i].userId == userId && us' == us[i := r.value])
            && (r.Ok? ==>
                  var was := FindUserById(us, userId).value;
                  && r.value.userId == (if p.userId.Some? then p.userId.value else was.userId)
                  && r.value.walletAddress ==
                       (if p.walletAddress.Some? then ToLower(p.walletAddress.value) else was.walletAddress)
                  && r.value.publicKey == (if p.publicKey.Some? then p.publicKey else was.publicKey)
                  && r.value.email == (if p.email.Some? then Some(ToLower(p.email.value)) else was.email)
                  && r.value.name == (if p.name.Some? then p.name else was.name)
                  && r.value.metadata == (if p.metadata.Some? then p.metadata.value else was.metadata))
  {
  }

  /** `delete`: the first user with the id is removed; none is a 404. */
  function DeleteUser(us: seq<User>, userId: string): (Result<()>, seq<User>) {
    match IndexOfUser(us, userId)
    case None => (Err(NotFoundError(Some("User " + userId + " not found"))), us)
    case Some(i) => (Ok(()), us[..i] + us[i + 1..])
  }

  /** Removing the user at `i` keeps the collection valid. */
  lemma RemoveAtKeepsValid(us: seq<User>, i: nat)
    requires ValidUsers(us) && i < |us|
    ensures ValidUsers(us[..i] + us[i + 1..])
  {
    var us' := us[..i] + us[i + 1..];
    forall a, b | 0 <= a < b < |us'|
      ensures us'[a].userId != us'[b].userId && us'[a].walletAddress != us'[b].walletAddress
    {
      var a0, b0 := if a < i then a else a + 1, if b < i then b else b + 1;
      assert us'[a] == us[a0] && us'[b] == us[b0];
    }
    forall k | 0 <= k < |us'| ensures WellFormedUser(us'[k]) {
      assert us'[k] == us[if k < i then k else k + 1];
    }
  }

  /** Removing the user at `i` of a valid collection removes exactly the users with its id. */
  lemma RemoveAtMembers(us: seq<User>, i: nat)
    requires UniqueUsers(us) && i < |us|
    ensures forall u :: u in us[..i] + us[i + 1..] <==> u in us && u.userId != us[i].userId
  {
    var us' := us[..i] + us[i + 1..];
    forall u ensures u in us' <==> u in us && u.userId != us[i].userId {
      if u in us && u.userId != us[i].userId {
        var k :| 0 <= k < |us| && us[k] == u;
        assert k != i;
        if k < i {
          assert u == us'[k];
        } else {
          assert u == us'[k - 1];
        }
      }
      if u in us' {
        var k :| 0 <= k < |us'| && us'[k] == u;
        if k < i {
          assert u == us[k];
        } else {
          assert u == us[k + 1];
          assert u.userId != us[i].userId;
        }
      }
    }
  }

  /** The effect of `delete` on a valid collection: exactly the matching user goes, the others keep their order. */
  lemma DeleteUserSpec(us: seq<User>, userId: string)
    requires ValidUsers(us)
    ensures var (r, us') := DeleteUser(us, userId);
            && ValidUsers(us')
            && (r.Err? <==> forall u :: u in us ==> u.userId != userId)
            && (r.Err? ==> us' == us && StatusCode(r.error) == 404)
            && (r.Ok? ==> |us'| == |us| - 1)
            && (r.Ok? ==> exists i :: 0 <= i < |us| && us[i].userId == userId && us' == us[..i] + us[i + 1..])
            && (forall u :: u in us' <==> u in us && u.userId != userId)
  {
    match IndexOfUser(us, userId)
    case None =>
    case Some(i) =>
      RemoveAtKeepsValid(us, i);
      RemoveAtMembers(us, i);
      assert us[i].userId == userId && DeleteUser(us, userId).1 == us[..i] + us[i + 1..];
  }

  /**
   * `findAll(page, limit)`: newest first, skipping `(page - 1) * limit` users
   * and returning at most `limit` of them (all the rest when `limit` is 0),
   * with the count of all users.
   */
  function UsersPage(us: seq<User>, page: int, limit: int): (r: (seq<User>, nat))
    requires page >= 1 && limit >= 0
    ensures r.1 == |us|
    ensures limit > 0 ==> |r.0| <= limit
    ensures |r.0| == (var rest := |us| - (page - 1) * limit;
                      if rest <= 0 then 0 else if limit == 0 || rest <= limit then rest else limit)
    ensures forall k :: 0 <= k < |r.0| ==> r.0[k] == us[|us| - 1 - ((page - 1) * limit + k)]
  {
    var skip := PageOffset(page, limit);
    NewestWindow(us, skip, limit);
    (Window(Reverse(us), skip, limit), |us|)
  }

  /** The number of users `findAll` skips: `(page - 1) * limit`. */
  function PageOffset(page: int, limit: int): (skip: nat)
    requires page >= 1 && limit >= 0
    ensures skip == (page - 1) * limit
  {
    MulNonNegative(page - 1, limit);
    (page - 1) * limit
  }

  lemma MulNonNegative(a: int, b: int)
    requires a >= 0 && b >= 0
    ensures a * b >= 0
  {
  }

  /** The defaults of `findAll`'s `page` and `limit`. */
  const DefaultPage := 1
  const DefaultLimit := 10

  /** With the defaults, `findAll` answers the ten newest users, newest first. */
  lemma DefaultUsersPage(us: seq<User>)
    ensures var r := UsersPage(us, DefaultPage, DefaultLimit);
            && |r.0| == (if |us| < 10 then |us| else 10)
            && (forall k :: 0 <= k < |r.0| ==> r.0[k] == us[|us| - 1 - k])
            && r.1 == |us|
  {
  }

  /** The user collection behind the repository. */
  class UserRepository {
    var users: seq<User>

    ghost predicate Valid()
      reads this
    {
      ValidUsers(users)
    }

    constructor ()
      ensures Valid() && users == []
    {
      users := [];
    }

    method Create(userData: UserDraft) returns (r: Result<User>)
      requires Valid()
      modifies this
      ensures Valid()
      ensures (r, users) == CreateUser(old(users), userData)
    {
      CreateUserSpec(users, userData);
      if Clashes(users, userData.userId, userData.walletAddress) {
        return Err(ConflictError(Some(ConflictMessage)));
      }
      var user := NormalizeUser(userData);
      if !AdmissibleUser(user) {
        return Err(PlainError(UserValidationMessage));
      }
      users := users + [user];
      r := Ok(user);
    }

    function FindById(userId: string): Option<User>
      reads this
    {
      FindUserById(users, userId)
    }

    function FindByWalletAddress(walletAddress: string): Option<User>
      reads this
    {
      FindUserByWallet(users, walletAddress)
    }

    method Update(userId: string, updateData: UserPatch) returns (r: Result<User>)
      requires Valid()
      modifies this
      ensures Valid()
      ensures (r, users) == UpdateUser(old(users), userId, updateData)
    {
      UpdateUserKeepsValid(users, userId, updateData);
      if !PatchValid(updateData) {
        return Err(PlainError(UserValidationMessage));
      }
      var found := IndexOfUser(users, userId);
      if found.None? {
        return Err(NotFoundError(Some("User " + userId + " not found")));
      }
      var user := ApplyPatch(users[found.value], updateData);
      if ClashesElsewhere(users, found.value, user) {
        return Err(PlainError(DuplicateUserMessage));
      }
      users := users[found.value := user];
      r := Ok(user);
    }

    method Delete(userId: string) returns (r: Result<()>)
      requires Valid()
      modifies this
      ensures Valid()
      ensures (r, users) == DeleteUser(old(users), userId)
    {
      DeleteUserSpec(users, userId);
      var found := IndexOfUser(users, userId);
      if found.None? {
        return Err(NotFoundError(Some("User " + userId + " not found")));
      }
      users := users[..found.value] + users[found.value + 1..];
      r := Ok(());
    }

    /** `findAll(page = 1, limit = 10)`: an omitted argument takes its default. */
    function FindAll(page: Option<int>, limit: Option<int>): (seq<User>, nat)
      requires page.GetOr(DefaultPage) >= 1 && limit.GetOr(DefaultLimit) >= 0
      reads this
    {
      UsersPage(users, page.GetOr(DefaultPage), limit.GetOr(DefaultLimit))
    }
  }
}
