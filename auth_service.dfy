/** The auth service: registration with a duplicate-email check, login with its two
    distinct failures, and the field-by-field profile update. Tokens are symbolic: a token
    names its subject and its lifetime; signing is not modelled. */
module AuthService {
  import opened Common
  import opened Text
  import opened UserSchema

  const TOKEN_EXPIRY := "30d"

  datatype Token = Token(subject: UserId, expiresIn: string)

  /** `createAuthToken(userId)`: a token whose payload is the user id. */
  function CreateAuthToken(id: UserId): (t: Token)
    ensures t.subject == id && t.expiresIn == TOKEN_EXPIRY
  {
    Token(id, TOKEN_EXPIRY)
  }

  /** `{ _id, name, email, token }`, what every successful operation returns. */
  datatype AuthPayload = AuthPayload(id: UserId, name: string, email: string, token: Token)

  function PayloadOf(u: User): (p: AuthPayload)
    ensures p.id == u.id && p.name == u.name && p.email == u.email && p.token.subject == u.id
  {
    AuthPayload(u.id, u.name, u.email, CreateAuthToken(u.id))
  }

  datatype Registration = Registration(name: string, email: string, password: string)
  datatype Credentials = Credentials(email: string, password: string)
  /** The body of a profile update: each field absent or given. */
  datatype ProfileChanges = ProfileChanges(name: Option<string>, email: Option<string>, password: Option<string>)

  const DUPLICATE_EMAIL: Error := Error(Some(400), "An account with this email already exists")
  const UNKNOWN_EMAIL: Error := Error(Some(401), "No account found with this email address")
  const WRONG_PASSWORD: Error := Error(Some(401), "Incorrect password - please try again")
  const USER_NOT_FOUND: Error := Error(Some(404), "User account not found")
  const EMAIL_TAKEN: Error := Error(Some(400), "This email is already associated with another account")

  // ---------------------------------------------------------------------------
  // The collection

  predicate EmailInUse(users: seq<User>, email: string) {
    exists i :: 0 <= i < |users| && users[i].email == email
  }

  /** What the schema guarantees of a stored user. */
  ghost predicate StoredUser(u: User) {
    && Unpadded(u.name) && u.name != "" && JsLength(u.name) <= NAME_MAX_LENGTH
    && NormalizeEmail(u.email) == u.email && EmailFormat(u.email)
  }

  ghost predicate AllStored(users: seq<User>) {
    forall i :: 0 <= i < |users| ==> StoredUser(users[i])
  }

  predicate IdsBelow(users: seq<User>, nextId: nat) {
    forall i :: 0 <= i < |users| ==> users[i].id.raw < nextId
  }

  predicate IdsDistinct(users: seq<User>) {
    forall i, j :: 0 <= i < j < |users| ==> users[i].id != users[j].id
  }

  /** The unique index on `email`. */
  predicate EmailsDistinct(users: seq<User>) {
    forall i, j :: 0 <= i < j < |users| ==> users[i].email != users[j].email
  }

  /** The user collection: stored users, distinct ids below the next id, distinct emails. */
  ghost predicate Consistent(users: seq<User>, nextId: nat) {
    AllStored(users) && IdsBelow(users, nextId) && IdsDistinct(users) && EmailsDistinct(users)
  }

  /** Adding a stored user with a fresh id and an unused email keeps the collection
      consistent. */
  lemma AppendKeepsConsistent(users: seq<User>, nextId: nat, u: User)
    requires Consistent(users, nextId) && StoredUser(u) && u.id.raw == nextId
    requires !EmailInUse(users, u.email)
    ensures Consistent(users + [u], nextId + 1)
  {
    var us := users + [u];
    assert forall i :: 0 <= i < |users| ==> us[i] == users[i];
    assert us[|users|] == u;
    assert AllStored(us) by {
      forall i | 0 <= i < |us| ensures StoredUser(us[i]) {
        if i < |users| { assert StoredUser(users[i]); }
      }
    }
    assert IdsBelow(us, nextId + 1) by {
      forall i | 0 <= i < |us| ensures us[i].id.raw < nextId + 1 {
        if i < |users| { assert users[i].id.raw < nextId; }
      }
    }
    assert IdsDistinct(us) by {
      forall i, j | 0 <= i < j < |us| ensures us[i].id != us[j].id {
        assert users[i].id.raw < nextId;
        if j < |users| { assert users[i].id != users[j].id; }
      }
    }
    assert EmailsDistinct(us) by {
      forall i, j | 0 <= i < j < |us| ensures us[i].email != us[j].email {
        if j < |users| { assert users[i].email != users[j].email; }
      }
    }
  }

  /** Writing a stored user over the one with its id keeps the collection consistent when
      no other user has the new email. */
  lemma ReplaceKeepsConsistent(users: seq<User>, nextId: nat, k: nat, u: User)
    requires Consistent(users, nextId) && k < |users| && StoredUser(u) && u.id == users[k].id
    requires forall i :: 0 <= i < |users| && i != k ==> users[i].email != u.email
    ensures ReplaceUser(users, u) == users[k := u]
    ensures Consistent(ReplaceUser(users, u), nextId)
  {
    var rs := ReplaceUser(users, u);
    assert forall i :: 0 <= i < |users| && i != k ==> users[i].id != u.id;
    assert forall i :: 0 <= i < |users| ==> rs[i] == users[k := u][i];
    assert rs == users[k := u];
  }

  lemma FindUserByEmailUnique(users: seq<User>, nextId: nat, k: nat, key: string)
    requires Consistent(users, nextId) && k < |users| && users[k].email == NormalizeEmail(key)
    ensures FindUserByEmail(users, key) == Some(users[k])
  {
    var r := FindUserByEmail(users, key);
    var j :| 0 <= j < |users| && users[j] == r.value;
    assert j == k;
  }

  lemma FindUserByIdUnique(users: seq<User>, nextId: nat, k: nat)
    requires Consistent(users, nextId) && k < |users|
    ensures FindUserById(users, users[k].id) == Some(users[k])
  {
    var r := FindUserById(users, users[k].id);
    var j :| 0 <= j < |users| && users[j] == r.value;
    assert j == k;
  }

  /** `save()` on a loaded document writes it over the user with its id. */
  function ReplaceUser(users: seq<User>, u: User): seq<User> {
    seq(|users|, i requires 0 <= i < |users| => if users[i].id == u.id then u else users[i])
  }

  // ---------------------------------------------------------------------------
  // registerUser

  /** The lookup key `email.toLowerCase()`, cast through the setters, is the normalised
      email; the service's own lower-casing is absorbed. */
  lemma LookupKeyIsNormalized(users: seq<User>, email: string)
    ensures FindUserByEmail(users, ToLower(email)).None? <==> !EmailInUse(users, NormalizeEmail(email))
  {
    NormalizeEmailAbsorbs(email);
  }

  /** `registerUser`: the duplicate check on the lowercased email, then `User.create`. */
  function RegisterOutcome(users: seq<User>, reg: Registration, id: UserId, crypto: Crypto, salt: string): (r: Result<User>)
    ensures EmailInUse(users, NormalizeEmail(reg.email)) ==> r == Err(DUPLICATE_EMAIL)
    ensures r.Ok? <==>
      && !EmailInUse(users, NormalizeEmail(reg.email))
      && Trim(reg.name) != "" && JsLength(Trim(reg.name)) <= NAME_MAX_LENGTH
      && EmailFormat(NormalizeEmail(reg.email))
      && JsLength(reg.password) >= PASSWORD_MIN_LENGTH
    ensures r.Err? && !EmailInUse(users, NormalizeEmail(reg.email)) ==> r.error.status.None?
    ensures r.Ok? ==> r.value == User(id, Trim(reg.name), NormalizeEmail(reg.email), crypto.hash(reg.password, salt))
  {
    LookupKeyIsNormalized(users, reg.email);
    if FindUserByEmail(users, ToLower(reg.email)).Some? then Err(DUPLICATE_EMAIL)
    else SaveOutcome(Built(id, reg.name, reg.email, reg.password), crypto, salt)
  }

  /** A registered user meets the schema's guarantees. */
  lemma RegisteredUserStored(users: seq<User>, reg: Registration, id: UserId, crypto: Crypto, salt: string)
    requires RegisterOutcome(users, reg, id, crypto, salt).Ok?
    ensures StoredUser(RegisterOutcome(users, reg, id, crypto, salt).value)
  {
    NormalizeEmailAbsorbs(reg.email);
    TrimUnpadded(Trim(reg.name));
  }

  lemma RegisterKeepsConsistent(users: seq<User>, nextId: nat, reg: Registration, crypto: Crypto, salt: string)
    requires Consistent(users, nextId)
    requires RegisterOutcome(users, reg, UserId(nextId), crypto, salt).Ok?
    ensures Consistent(users + [RegisterOutcome(users, reg, UserId(nextId), crypto, salt).value], nextId + 1)
  {
    RegisteredUserStored(users, reg, UserId(nextId), crypto, salt);
    AppendKeepsConsistent(users, nextId, RegisterOutcome(users, reg, UserId(nextId), crypto, salt).value);
  }

  // ---------------------------------------------------------------------------
  // loginUser

  /** `loginUser`: unknown email and wrong password are told apart. */
  function LoginOutcome(users: seq<User>, cred: Credentials, crypto: Crypto): (r: Result<AuthPayload>)
    ensures !EmailInUse(users, NormalizeEmail(cred.email)) <==> r == Err(UNKNOWN_EMAIL)
    ensures EmailInUse(users, NormalizeEmail(cred.email)) ==> FindUserByEmail(users, ToLower(cred.email)).Some?
    ensures EmailInUse(users, NormalizeEmail(cred.email)) ==>
      var u := FindUserByEmail(users, ToLower(cred.email)).value;
      && u.email == NormalizeEmail(cred.email) && u in users
      && (MatchPassword(crypto, u, cred.password) <==> r.Ok?)
      && (r.Ok? ==> r.value == PayloadOf(u))
      && (r.Err? ==> r == Err(WRONG_PASSWORD))
  {
    LookupKeyIsNormalized(users, cred.email);
    NormalizeEmailAbsorbs(cred.email);
    var foundUser := FindUserByEmail(users, ToLower(cred.email));
    if foundUser.None? then Err(UNKNOWN_EMAIL)
    else if !MatchPassword(crypto, foundUser.value, cred.password) then Err(WRONG_PASSWORD)
    else Ok(PayloadOf(foundUser.value))
  }

  /** Login does not depend on the case or the padding of the email typed. */
  lemma LoginIgnoresEmailSpelling(users: seq<User>, e1: string, e2: string, password: string, crypto: Crypto)
    requires NormalizeEmail(e1) == NormalizeEmail(e2)
    ensures LoginOutcome(users, Credentials(e1, password), crypto) == LoginOutcome(users, Credentials(e2, password), crypto)
  {
    NormalizeEmailAbsorbs(e1);
    NormalizeEmailAbsorbs(e2);
    FindUserByEmailSameKey(users, ToLower(e1), ToLower(e2));
  }

  lemma {:induction false} FindUserByEmailSameKey(users: seq<User>, k1: string, k2: string)
    requires NormalizeEmail(k1) == NormalizeEmail(k2)
    ensures FindUserByEmail(users, k1) == FindUserByEmail(users, k2)
    decreases |users|
  {
    if users != [] {
      FindUserByEmailSameKey(users[1..], k1, k2);
    }
  }

  /** Registering and then logging in with the same password, under any spelling of the
      email that normalises the same, succeeds and names the new user. */
  lemma RegisterThenLogin(users: seq<User>, nextId: nat, reg: Registration, loginEmail: string,
                          crypto: Crypto, salt: string)
    requires Consistent(users, nextId) && Sound(crypto)
    requires NormalizeEmail(loginEmail) == NormalizeEmail(reg.email)
    requires RegisterOutcome(users, reg, UserId(nextId), crypto, salt).Ok?
    ensures var u := RegisterOutcome(users, reg, UserId(nextId), crypto, salt).value;
      LoginOutcome(users + [u], Credentials(loginEmail, reg.password), crypto) == Ok(PayloadOf(u))
  {
    var u := RegisterOutcome(users, reg, UserId(nextId), crypto, salt).value;
    RegisterKeepsConsistent(users, nextId, reg, crypto, salt);
    var us := users + [u];
    assert us[|users|] == u;
    NormalizeEmailAbsorbs(loginEmail);
    FindUserByEmailUnique(us, nextId + 1, |users|, ToLower(loginEmail));
    assert crypto.compare(reg.password, crypto.hash(reg.password, salt));
  }

  /** A second registration with the same email, in any case, is refused with 400. */
  lemma RegisterTwiceRejected(users: seq<User>, nextId: nat, reg: Registration, again: Registration,
                              crypto: Crypto, salt: string)
    requires RegisterOutcome(users, reg, UserId(nextId), crypto, salt).Ok?
    requires NormalizeEmail(again.email) == NormalizeEmail(reg.email)
    ensures var u := RegisterOutcome(users, reg, UserId(nextId), crypto, salt).value;
      RegisterOutcome(users + [u], again, UserId(nextId + 1), crypto, salt) == Err(DUPLICATE_EMAIL)
  {
    var u := RegisterOutcome(users, reg, UserId(nextId), crypto, salt).value;
    assert (users + [u])[|users|] == u;
  }

  // ---------------------------------------------------------------------------
  // updateProfile

  /** The three guarded assignments `if (name) …; if (email) …; if (password) …` on the
      loaded document. */
  function StagedProfile(u: User, ch: ProfileChanges): (st: Staged)
    ensures st.user.id == u.id
    ensures st.user.name == if Truthy(ch.name) then Trim(ch.name.value) else u.name
    ensures st.user.email == if Truthy(ch.email) then NormalizeEmail(ch.email.value) else u.email
    ensures st.user.password == if Truthy(ch.password) then ch.password.value else u.password
    ensures NamePath in st.modified <==> Truthy(ch.name) && Trim(ch.name.value) != u.name
    ensures EmailPath in st.modified <==> Truthy(ch.email) && NormalizeEmail(ch.email.value) != u.email
    ensures PasswordPath in st.modified <==> Truthy(ch.password) && ch.password.value != u.password
  {
    assert Truthy(ch.email) ==> NormalizeEmail(ToLower(ch.email.value)) == NormalizeEmail(ch.email.value) by {
      if Truthy(ch.email) { NormalizeEmailAbsorbs(ch.email.value); }
    }
    var st0 := Staged(u, {});
    var st1 := if Truthy(ch.name) then AssignName(st0, ch.name.value) else st0;
    var st2 := if Truthy(ch.email) then AssignEmail(st1, ToLower(ch.email.value)) else st1;
    if Truthy(ch.password) then AssignPassword(st2, ch.password.value) else st2
  }

  /** The new email is refused when it differs (after lower-casing) from the current one
      and some user already has it. */
  predicate EmailClash(users: seq<User>, current: User, ch: ProfileChanges) {
    Truthy(ch.email) && ToLower(ch.email.value) != current.email
    && FindUserByEmail(users, ToLower(ch.email.value)).Some?
  }

  /** `updateProfile(userId, changes)`. */
  function ProfileOutcome(users: seq<User>, id: UserId, ch: ProfileChanges, crypto: Crypto, salt: string): (r: Result<User>)
    ensures FindUserById(users, id).None? <==> r == Err(USER_NOT_FOUND)
    ensures FindUserById(users, id).Some? && EmailClash(users, FindUserById(users, id).value, ch) ==>
      r == Err(EMAIL_TAKEN)
    ensures r.Ok? ==>
      var current := FindUserById(users, id).value;
      && !EmailClash(users, current, ch)
      && r.value.id == id
      && r.value.name == (if Truthy(ch.name) then Trim(ch.name.value) else current.name)
      && r.value.email == (if Truthy(ch.email) then NormalizeEmail(ch.email.value) else current.email)
      && r.value.password ==
           (if Truthy(ch.password) && ch.password.value != current.password
            then crypto.hash(ch.password.value, salt) else current.password)
    ensures r.Ok? <==>
      && FindUserById(users, id).Some?
      && !EmailClash(users, FindUserById(users, id).value, ch)
      && Admissible(StagedProfile(FindUserById(users, id).value, ch))
    ensures r.Err? && FindUserById(users, id).Some? && !EmailClash(users, FindUserById(users, id).value, ch) ==>
      r.error.status.None?
  {
    var currentUser := FindUserById(users, id);
    if currentUser.None? then Err(USER_NOT_FOUND)
    else if EmailClash(users, currentUser.value, ch) then Err(EMAIL_TAKEN)
    else SaveOutcome(StagedProfile(currentUser.value, ch), crypto, salt)
  }

  /** An updated user still meets the schema's guarantees. */
  lemma ProfiledUserStored(users: seq<User>, nextId: nat, id: UserId, ch: ProfileChanges,
                           crypto: Crypto, salt: string)
    requires AllStored(users)
    requires ProfileOutcome(users, id, ch, crypto, salt).Ok?
    ensures StoredUser(ProfileOutcome(users, id, ch, crypto, salt).value)
  {
    var current := FindUserById(users, id).value;
    assert StoredUser(current);
    assert Admissible(StagedProfile(current, ch));
    if Truthy(ch.name) { TrimUnpadded(Trim(ch.name.value)); }
    if Truthy(ch.email) { NormalizeEmailAbsorbs(ch.email.value); }
  }

  /** No other user has the email an update stores. */
  lemma ProfiledEmailFree(users: seq<User>, nextId: nat, k: nat, ch: ProfileChanges, crypto: Crypto, salt: string)
    requires Consistent(users, nextId) && k < |users|
    requires ProfileOutcome(users, users[k].id, ch, crypto, salt).Ok?
    ensures var u := ProfileOutcome(users, users[k].id, ch, crypto, salt).value;
      forall i :: 0 <= i < |users| && i != k ==> users[i].email != u.email
  {
    FindUserByIdUnique(users, nextId, k);
    if Truthy(ch.email) {
      var e := ch.email.value;
      NormalizeEmailAbsorbs(e);
      assert StoredUser(users[k]);
      if ToLower(e) == users[k].email {
        assert NormalizeEmail(e) == users[k].email;
      } else {
        LookupKeyIsNormalized(users, e);
      }
    }
  }

  /** A profile update keeps the collection consistent; in particular no two users ever
      share an email. */
  lemma ProfileKeepsConsistent(users: seq<User>, nextId: nat, id: UserId, ch: ProfileChanges,
                               crypto: Crypto, salt: string)
    requires Consistent(users, nextId)
    requires ProfileOutcome(users, id, ch, crypto, salt).Ok?
    ensures Consistent(ReplaceUser(users, ProfileOutcome(users, id, ch, crypto, salt).value), nextId)
  {
    var u := ProfileOutcome(users, id, ch, crypto, salt).value;
    var current := FindUserById(users, id).value;
    var k :| 0 <= k < |users| && users[k] == current;
    ProfiledUserStored(users, nextId, id, ch, crypto, salt);
    ProfiledEmailFree(users, nextId, k, ch, crypto, salt);
    ReplaceKeepsConsistent(users, nextId, k, u);
  }

  /** An update with every field absent or empty leaves the user exactly as stored. */
  lemma EmptyProfileUpdateChangesNothing(users: seq<User>, nextId: nat, k: nat, crypto: Crypto, salt: string)
    requires Consistent(users, nextId) && k < |users|
    ensures ProfileOutcome(users, users[k].id, ProfileChanges(None, None, Some("")), crypto, salt) == Ok(users[k])
  {
    FindUserByIdUnique(users, nextId, k);
  }

  /** A stored email with a blank in front still normalises to itself. */
  lemma PaddedEmailNormalizes(e: string)
    requires StoredUser(User(UserId(0), "x", e, ""))
    ensures NormalizeEmail(ToLower(" " + e)) == e
    ensures ToLower(" " + e) != e
  {
    assert EmailFormat(e);
    TrimPadded(" ", e, "");
    assert " " + e + "" == " " + e;
    NormalizeEmailAbsorbs(" " + e);
    assert |ToLower(" " + e)| == |e| + 1;
  }

  /** Re-submitting one's own email with a blank in front is refused as taken: the
      comparison with the current email is made before the setters trim it, and the
      lookup that follows finds the user themself. */
  lemma OwnPaddedEmailRejected(users: seq<User>, nextId: nat, k: nat, ch: ProfileChanges,
                               crypto: Crypto, salt: string)
    requires Consistent(users, nextId) && k < |users|
    requires ch.email == Some(" " + users[k].email)
    ensures ProfileOutcome(users, users[k].id, ch, crypto, salt) == Err(EMAIL_TAKEN)
  {
    FindUserByIdUnique(users, nextId, k);
    OwnPaddedEmailClashes(users, nextId, k, ch);
  }

  lemma OwnPaddedEmailClashes(users: seq<User>, nextId: nat, k: nat, ch: ProfileChanges)
    requires Consistent(users, nextId) && k < |users|
    requires ch.email == Some(" " + users[k].email)
    ensures EmailClash(users, users[k], ch)
  {
    var u := users[k];
    assert StoredUser(u);
    PaddedEmailNormalizes(u.email);
    var key := ToLower(" " + u.email);
    assert users[k].email == NormalizeEmail(key);
    assert FindUserByEmail(users, key).Some?;
  }

  // ---------------------------------------------------------------------------
  // The service over the User collection

  /** The payload of a successful operation, or its error. */
  function Answer(r: Result<User>): (a: Result<AuthPayload>)
    ensures a.Ok? <==> r.Ok?
    ensures r.Ok? ==> a.value == PayloadOf(r.value)
    ensures r.Err? ==> a.error == r.error
  {
    if r.Ok? then Ok(PayloadOf(r.value)) else Err(r.error)
  }

  /** `findById` followed by the three guarded assignments, on a fresh document. */
  method LoadWithChanges(u: User, ch: ProfileChanges) returns (doc: UserDocument)
    ensures fresh(doc) && doc.State() == StagedProfile(u, ch)
  {
    doc := new UserDocument.Load(u);
    if Truthy(ch.name) {
      doc.SetName(ch.name.value);
    }
    if Truthy(ch.email) {
      doc.SetEmail(ToLower(ch.email.value));
    }
    if Truthy(ch.password) {
      doc.SetPassword(ch.password.value);
    }
  }

  /** Load, assign and save one user document. */
  method SaveWithChanges(u: User, ch: ProfileChanges, crypto: Crypto, salt: string) returns (saved: Result<User>)
    ensures saved == SaveOutcome(StagedProfile(u, ch), crypto, salt)
  {
    var currentUser := LoadWithChanges(u, ch);
    saved := currentUser.Save(crypto, salt);
  }

  /** `registerUser`'s duplicate check, document construction and save, before the
      collection is written. */
  method ComputeRegistration(users: seq<User>, reg: Registration, id: UserId, crypto: Crypto, salt: string)
    returns (r: Result<User>)
    ensures r == RegisterOutcome(users, reg, id, crypto, salt)
  {
    var existingAccount := FindUserByEmail(users, ToLower(reg.email));
    if existingAccount.Some? {
      return Err(DUPLICATE_EMAIL);
    }
    var newUser := new UserDocument.Build(id, reg.name, reg.email, reg.password);
    r := newUser.Save(crypto, salt);
  }

  /** `updateProfile`'s lookup, email check and save, before the collection is written. */
  method ComputeProfileUpdate(users: seq<User>, userId: UserId, ch: ProfileChanges, crypto: Crypto, salt: string)
    returns (r: Result<User>)
    ensures r == ProfileOutcome(users, userId, ch, crypto, salt)
  {
    var found := FindUserById(users, userId);
    if found.None? {
      return Err(USER_NOT_FOUND);
    }
    if Truthy(ch.email) && ToLower(ch.email.value) != found.value.email {
      var emailTaken := FindUserByEmail(users, ToLower(ch.email.value));
      if emailTaken.Some? {
        return Err(EMAIL_TAKEN);
      }
    }
    r := SaveWithChanges(found.value, ch, crypto, salt);
  }

  class AuthStore {
    var users: seq<User>
    var nextId: nat

    ghost predicate Valid()
      reads this
    {
      Consistent(users, nextId)
    }

    constructor ()
      ensures Valid() && users == [] && nextId == 0
    {
      users, nextId := [], 0;
    }

    method RegisterUser(reg: Registration, crypto: Crypto, salt: string) returns (r: Result<AuthPayload>)
      requires Valid()
      modifies this
      ensures Valid()
      ensures r == Answer(RegisterOutcome(old(users), reg, UserId(old(nextId)), crypto, salt))
      ensures users == if r.Ok? then old(users) + [RegisterOutcome(old(users), reg, UserId(old(nextId)), crypto, salt).value]
                       else old(users)
      ensures nextId == if r.Ok? then old(nextId) + 1 else old(nextId)
    {
      var saved := ComputeRegistration(users, reg, UserId(nextId), crypto, salt);
      if saved.Err? {
        return Err(saved.error);
      }
      RegisteredUserStored(users, reg, UserId(nextId), crypto, salt);
      Insert(saved.value);
      r := Ok(PayloadOf(saved.value));
    }

    /** `save()` of a new document: the user is added under the next id. */
    method Insert(u: User)
      requires Valid() && StoredUser(u) && u.id.raw == nextId && !EmailInUse(users, u.email)
      modifies this
      ensures Valid() && users == old(users) + [u] && nextId == old(nextId) + 1
    {
      AppendKeepsConsistent(users, nextId, u);
      users := users + [u];
      nextId := nextId + 1;
    }

    method LoginUser(cred: Credentials, crypto: Crypto) returns (r: Result<AuthPayload>)
      ensures r == LoginOutcome(users, cred, crypto)
    {
      var foundUser := FindUserByEmail(users, ToLower(cred.email));
      if foundUser.None? {
        return Err(UNKNOWN_EMAIL);
      }
      var isPasswordValid := MatchPassword(crypto, foundUser.value, cred.password);
      if !isPasswordValid {
        return Err(WRONG_PASSWORD);
      }
      r := Ok(PayloadOf(foundUser.value));
    }

    method UpdateProfile(userId: UserId, ch: ProfileChanges, crypto: Crypto, salt: string) returns (r: Result<AuthPayload>)
      requires Valid()
      modifies this
      ensures Valid() && nextId == old(nextId)
      ensures r == Answer(ProfileOutcome(old(users), userId, ch, crypto, salt))
      ensures users == if r.Ok? then ReplaceUser(old(users), ProfileOutcome(old(users), userId, ch, crypto, salt).value)
                       else old(users)
    {
      var savedUser := ComputeProfileUpdate(users, userId, ch, crypto, salt);
      if savedUser.Err? {
        return Err(savedUser.error);
      }
      ProfileKeepsConsistent(users, nextId, userId, ch, crypto, salt);
      users := ReplaceUser(users, savedUser.value);
      r := Ok(PayloadOf(savedUser.value));
    }
  }
}
