/** The User schema: the setters and validators of `name`, `email` and `password`, the
    email pattern `^\S+@\S+\.\S+$`, the pre-save hook that re-hashes a modified password,
    `matchPassword`, and the two queries the services run against the collection. */
module UserSchema {
  import opened Common
  import opened Text

  const NAME_MAX_LENGTH: nat := 50
  const PASSWORD_MIN_LENGTH: nat := 6
  const SALT_ROUNDS: nat := 12

  /** A stored user; `password` holds the hash. */
  datatype User = User(id: UserId, name: string, email: string, password: string)

  /** The password library, uninterpreted: `hash(plain, salt)` and `compare(candidate, hash)`. */
  datatype Crypto = Crypto(hash: (string, string) -> string, compare: (string, string) -> bool)

  /** What a sound password library guarantees: a password matches its own hash. */
  ghost predicate Sound(c: Crypto) {
    forall plain, salt :: c.compare(plain, c.hash(plain, salt))
  }

  // ---------------------------------------------------------------------------
  // Setters

  /** The `trim` and `lowercase` setters of `email`. */
  function NormalizeEmail(s: string): (r: string)
    ensures Unpadded(r) && ToLower(r) == r
    ensures |r| <= |s|
  {
    TrimToLowerCommute(s);
    ToLower(Trim(s))
  }

  /** Normalising is idempotent, and lower-casing first changes nothing: the service's own
      `email.toLowerCase()` before a query or an assignment is absorbed by the setters. */
  lemma NormalizeEmailAbsorbs(s: string)
    ensures NormalizeEmail(NormalizeEmail(s)) == NormalizeEmail(s)
    ensures NormalizeEmail(ToLower(s)) == NormalizeEmail(s)
  {
    var r := NormalizeEmail(s);
    TrimUnpadded(r);
    TrimToLowerCommute(s);
    TrimToLowerCommute(ToLower(s));
    ToLowerIdempotent(s);
    ToLowerIdempotent(Trim(s));
  }

  // ---------------------------------------------------------------------------
  // The email pattern

  /** `^\S+@\S+\.\S+$`: no white space anywhere, and the string splits as a non-empty run,
      "@", a non-empty run, ".", a non-empty run. */
  ghost predicate EmailFormat(s: string) {
    NoSpace(s) && exists i, j :: 0 < i && i + 1 < j && j + 1 < |s| && s[i] == '@' && s[j] == '.'
  }

  /** The first position at or after `k` holding `c`. */
  function FirstFrom(s: string, c: char, k: nat): (r: Option<nat>)
    requires k <= |s|
    ensures r.Some? ==> k <= r.value < |s| && s[r.value] == c
    ensures forall i :: k <= i < |s| && (r.None? || i < r.value) ==> s[i] != c
    decreases |s| - k
  {
    if k == |s| then None
    else if s[k] == c then Some(k)
    else FirstFrom(s, c, k + 1)
  }

  /** The last position before `k` holding `c`. */
  function LastBefore(s: string, c: char, k: nat): (r: Option<nat>)
    requires k <= |s|
    ensures r.Some? ==> r.value < k && s[r.value] == c
    ensures forall j :: 0 <= j < k && (r.None? || j > r.value) ==> s[j] != c
    decreases k
  {
    if k == 0 then None
    else if s[k - 1] == c then Some(k - 1)
    else LastBefore(s, c, k - 1)
  }

  /** The pattern, decided by taking the leftmost "@" that has a character before it and
      the rightmost "." that has a character after it. */
  function MatchesEmailFormat(s: string): (b: bool)
    ensures b <==> EmailFormat(s)
  {
    if s == [] || !NoSpace(s) then false
    else
      var at := FirstFrom(s, '@', 1);
      var dot := LastBefore(s, '.', |s| - 1);
      var b := at.Some? && dot.Some? && at.value + 1 < dot.value;
      assert b ==> EmailFormat(s) by {
        if b {
          assert 0 < at.value && at.value + 1 < dot.value && dot.value + 1 < |s|;
        }
      }
      b
  }

  // ---------------------------------------------------------------------------
  // Validators

  /** `name` after its `trim` setter: `required`, then `maxlength`. */
  function NameViolations(name: string): (vs: seq<Violation>)
    ensures vs == [] <==> name != "" && JsLength(name) <= NAME_MAX_LENGTH
    ensures |vs| <= 1
  {
    if name == "" then [Violation("name", "Please provide your full name")]
    else if JsLength(name) > NAME_MAX_LENGTH then [Violation("name", "Name cannot exceed 50 characters")]
    else []
  }

  /** `email` after its setters: `required`, then `match`. */
  function EmailViolations(email: string): (vs: seq<Violation>)
    ensures vs == [] <==> EmailFormat(email)
    ensures |vs| <= 1
  {
    if email == "" then [Violation("email", "Email address is mandatory")]
    else if !MatchesEmailFormat(email) then [Violation("email", "Please enter a valid email format")]
    else []
  }

  /** `password` (the plain text, validated before the pre-save hook): `required`, then
      `minlength`. */
  function PasswordViolations(password: string): (vs: seq<Violation>)
    ensures vs == [] <==> JsLength(password) >= PASSWORD_MIN_LENGTH
    ensures |vs| <= 1
  {
    if password == "" then [Violation("password", "Password field cannot be empty")]
    else if JsLength(password) < PASSWORD_MIN_LENGTH then
      [Violation("password", "Password must be at least 6 characters long")]
    else []
  }

  /** `minlength` counts UTF-16 code units: three characters outside the Basic Multilingual
      Plane have length 6 and make an acceptable password. */
  lemma AstralPasswordLongEnough()
    ensures var password := "\U{1F600}\U{1F600}\U{1F600}";
      |password| == 3 && JsLength(password) == 6 && PasswordViolations(password) == []
  {
  }

  /** The document paths `save` validates and the pre-save hook inspects. */
  datatype Path = NamePath | EmailPath | PasswordPath

  /** A document's values together with the paths modified since it was loaded or built. */
  datatype Staged = Staged(user: User, modified: set<Path>)

  /** What the validators of the modified paths accept. */
  predicate Admissible(st: Staged) {
    && (NamePath in st.modified ==> st.user.name != "" && JsLength(st.user.name) <= NAME_MAX_LENGTH)
    && (EmailPath in st.modified ==> MatchesEmailFormat(st.user.email))
    && (PasswordPath in st.modified ==> JsLength(st.user.password) >= PASSWORD_MIN_LENGTH)
  }

  function StagedViolations(st: Staged): (vs: seq<Violation>)
    ensures vs == [] <==> Admissible(st)
  {
    (if NamePath in st.modified then NameViolations(st.user.name) else [])
    + (if EmailPath in st.modified then EmailViolations(st.user.email) else [])
    + (if PasswordPath in st.modified then PasswordViolations(st.user.password) else [])
  }

  /** `new User({ name, email, password })`: the setters run and every path is new. */
  function Built(id: UserId, name: string, email: string, password: string): (st: Staged)
    ensures st.user == User(id, Trim(name), NormalizeEmail(email), password)
    ensures st.modified == {NamePath, EmailPath, PasswordPath}
  {
    Staged(User(id, Trim(name), NormalizeEmail(email), password), {NamePath, EmailPath, PasswordPath})
  }

  /** `doc.name = v`: the setter runs, and the path counts as modified only when the value
      actually changes. */
  function AssignName(st: Staged, v: string): (r: Staged)
    ensures r.user == st.user.(name := Trim(v))
    ensures NamePath in r.modified <==> NamePath in st.modified || Trim(v) != st.user.name
    ensures r.modified - {NamePath} == st.modified - {NamePath}
  {
    Staged(st.user.(name := Trim(v)), st.modified + (if Trim(v) != st.user.name then {NamePath} else {}))
  }

  function AssignEmail(st: Staged, v: string): (r: Staged)
    ensures r.user == st.user.(email := NormalizeEmail(v))
    ensures EmailPath in r.modified <==> EmailPath in st.modified || NormalizeEmail(v) != st.user.email
    ensures r.modified - {EmailPath} == st.modified - {EmailPath}
  {
    Staged(st.user.(email := NormalizeEmail(v)),
           st.modified + (if NormalizeEmail(v) != st.user.email then {EmailPath} else {}))
  }

  function AssignPassword(st: Staged, v: string): (r: Staged)
    ensures r.user == st.user.(password := v)
    ensures PasswordPath in r.modified <==> PasswordPath in st.modified || v != st.user.password
    ensures r.modified - {PasswordPath} == st.modified - {PasswordPath}
  {
    Staged(st.user.(password := v), st.modified + (if v != st.user.password then {PasswordPath} else {}))
  }

  /** The pre-save hook: the password is replaced by its hash exactly when it was modified. */
  function PreSave(st: Staged, crypto: Crypto, salt: string): (u: User)
    ensures u.id == st.user.id && u.name == st.user.name && u.email == st.user.email
    ensures PasswordPath !in st.modified ==> u.password == st.user.password
    ensures PasswordPath in st.modified ==> u.password == crypto.hash(st.user.password, salt)
  {
    if PasswordPath !in st.modified then st.user
    else st.user.(password := crypto.hash(st.user.password, salt))
  }

  /** `doc.save()`: validation of the modified paths, then the pre-save hook. A rejection
      is a ValidationError, which carries no status. */
  function SaveOutcome(st: Staged, crypto: Crypto, salt: string): (r: Result<User>)
    ensures r.Ok? <==> Admissible(st)
    ensures r.Err? ==> r.error.status.None?
    ensures r.Ok? ==> r.value == PreSave(st, crypto, salt)
  {
    var vs := StagedViolations(st);
    if vs != [] then Err(ValidationError("User validation failed: ", vs))
    else Ok(PreSave(st, crypto, salt))
  }

  /** Storing a password that was not modified keeps the stored hash: a document whose
      password was never assigned, or assigned its current value, is saved with its hash. */
  lemma UnmodifiedPasswordKeepsHash(st: Staged, crypto: Crypto, salt: string)
    requires PasswordPath !in st.modified
    ensures var r := SaveOutcome(st, crypto, salt); r.Ok? ==> r.value.password == st.user.password
  {
  }

  /** `matchPassword(candidate)`. */
  function MatchPassword(crypto: Crypto, u: User, candidate: string): bool {
    crypto.compare(candidate, u.password)
  }

  /** With a sound library, the password a user registered with matches its stored hash. */
  lemma MatchRegisteredPassword(crypto: Crypto, id: UserId, name: string, email: string,
                                password: string, salt: string)
    requires Sound(crypto)
    ensures var r := SaveOutcome(Built(id, name, email, password), crypto, salt);
      r.Ok? ==> MatchPassword(crypto, r.value, password)
  {
  }

  // ---------------------------------------------------------------------------
  // The document

  /** A User document in memory: the service mutates its fields through the schema's
      setters and then saves it. */
  class UserDocument {
    var id: UserId
    var name: string
    var email: string
    var password: string
    /** The paths assigned a different value since the document was loaded or built. */
    var modified: set<Path>

    function State(): Staged
      reads this
    {
      Staged(User(id, name, email, password), modified)
    }

    /** A document read from the collection. */
    constructor Load(u: User)
      ensures State() == Staged(u, {})
    {
      id, name, email, password := u.id, u.name, u.email, u.password;
      modified := {};
    }

    /** The document `User.create` builds from the given values. */
    constructor Build(newId: UserId, newName: string, newEmail: string, newPassword: string)
      ensures State() == Built(newId, newName, newEmail, newPassword)
    {
      id := newId;
      name := Trim(newName);
      email := NormalizeEmail(newEmail);
      password := newPassword;
      modified := {NamePath, EmailPath, PasswordPath};
    }

    method SetName(v: string)
      modifies this
      ensures State() == AssignName(old(State()), v)
    {
      var value := Trim(v);
      if value != name {
        modified := modified + {NamePath};
      }
      name := value;
    }

    method SetEmail(v: string)
      modifies this
      ensures State() == AssignEmail(old(State()), v)
    {
      var value := NormalizeEmail(v);
      if value != email {
        modified := modified + {EmailPath};
      }
      email := value;
    }

    method SetPassword(v: string)
      modifies this
      ensures State() == AssignPassword(old(State()), v)
    {
      if v != password {
        modified := modified + {PasswordPath};
      }
      password := v;
    }

    /** The pre-save hook on the document. */
    method HashIfModified(crypto: Crypto, salt: string)
      modifies this
      ensures State() == Staged(PreSave(old(State()), crypto, salt), old(modified))
    {
      if PasswordPath !in modified {
        return;
      }
      password := crypto.hash(password, salt);
    }

    /** `save()`: validate, run the hook, and on success clear the modified paths. A
        rejected document is left as it was. */
    method Save(crypto: Crypto, salt: string) returns (r: Result<User>)
      modifies this
      ensures r == SaveOutcome(old(State()), crypto, salt)
      ensures r.Ok? ==> State() == Staged(r.value, {})
      ensures r.Err? ==> State() == old(State())
    {
      var vs := StagedViolations(State());
      if vs != [] {
        return Err(ValidationError("User validation failed: ", vs));
      }
      HashIfModified(crypto, salt);
      modified := {};
      r := Ok(User(id, name, email, password));
    }
  }

  // ---------------------------------------------------------------------------
  // Queries

  /** `User.findById`. */
  function FindUserById(users: seq<User>, id: UserId): (r: Option<User>)
    ensures r.Some? ==> r.value in users && r.value.id == id
    ensures r.None? <==> forall i :: 0 <= i < |users| ==> users[i].id != id
  {
    if users == [] then None
    else if users[0].id == id then Some(users[0])
    else
      assert forall i :: 1 <= i < |users| ==> users[i] == users[1..][i - 1];
      FindUserById(users[1..], id)
  }

  /** `User.findOne({ email: key })`: the query is cast through the path's setters, so the
      key is normalised before it is compared. */
  function FindUserByEmail(users: seq<User>, key: string): (r: Option<User>)
    ensures r.Some? ==> r.value in users && r.value.email == NormalizeEmail(key)
    ensures r.None? <==> forall i :: 0 <= i < |users| ==> users[i].email != NormalizeEmail(key)
  {
    if users == [] then None
    else if users[0].email == NormalizeEmail(key) then Some(users[0])
    else
      assert forall i :: 1 <= i < |users| ==> users[i] == users[1..][i - 1];
      FindUserByEmail(users[1..], key)
  }
}
