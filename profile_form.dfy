/** The settings dialog: the inputs prefilled from the signed-in user, the single-field
    update, the request body `executeSave` builds, and what a settled save does to the
    dialog. */
module ProfileForm {
  import opened Common
  import opened Text
  import opened UserSchema
  import opened AuthService

  datatype ProfileInputs = ProfileInputs(name: string, email: string, password: string)

  datatype ProfileField = NameField | EmailField | PasswordField

  /** The signed-in user as the client stores it; either field may be absent. */
  datatype SessionUser = SessionUser(name: Option<string>, email: Option<string>)

  datatype Feedback = Feedback(msg: string, kind: string)

  const NO_FEEDBACK: Feedback := Feedback("", "")
  const SAVED_MESSAGE := "Information saved successfully."
  const SAVE_FAILED_MESSAGE := "An error occurred while saving."

  function Get(p: ProfileInputs, field: ProfileField): string {
    match field
    case NameField => p.name
    case EmailField => p.email
    case PasswordField => p.password
  }

  /** The prefill effect: name and email from the user, the password always empty. */
  function Prefill(u: SessionUser): (p: ProfileInputs)
    ensures p.name == OrElse(u.name, "") && p.email == OrElse(u.email, "") && p.password == ""
  {
    ProfileInputs(OrElse(u.name, ""), OrElse(u.email, ""), "")
  }

  /** `updateProp(field, value)`. */
  function UpdateProp(p: ProfileInputs, field: ProfileField, value: string): (q: ProfileInputs)
    ensures Get(q, field) == value
    ensures forall other: ProfileField :: other != field ==> Get(q, other) == Get(p, other)
  {
    match field
    case NameField => p.(name := value)
    case EmailField => p.(email := value)
    case PasswordField => p.(password := value)
  }

  /** The body of the profile request: name and email always, the password, untrimmed,
      only when it is not blank. */
  function PayloadFor(p: ProfileInputs): (body: ProfileChanges)
    ensures body.name == Some(p.name) && body.email == Some(p.email)
    ensures body.password.Some? <==> Trim(p.password) != ""
    ensures body.password.Some? ==> body.password.value == p.password
  {
    ProfileChanges(Some(p.name), Some(p.email), if Trim(p.password) != "" then Some(p.password) else None)
  }

  /** `executeSave`'s construction of `payloadBody`, adding the password in place. */
  method BuildPayload(p: ProfileInputs) returns (payloadBody: ProfileChanges)
    ensures payloadBody == PayloadFor(p)
  {
    payloadBody := ProfileChanges(Some(p.name), Some(p.email), None);
    if Trim(p.password) != "" {
      payloadBody := payloadBody.(password := Some(p.password));
    }
  }

  /** A password of blanks only is not sent, so the stored hash stays as it is. */
  lemma BlankPasswordKeepsHash(users: seq<User>, id: UserId, p: ProfileInputs, crypto: Crypto, salt: string)
    requires Trim(p.password) == ""
    requires ProfileOutcome(users, id, PayloadFor(p), crypto, salt).Ok?
    ensures ProfileOutcome(users, id, PayloadFor(p), crypto, salt).value.password == FindUserById(users, id).value.password
  {
  }

  /** Saving the prefilled dialog without editing it leaves the stored user exactly as it
      was. */
  lemma UnchangedSettingsSaveIsIdentity(users: seq<User>, nextId: nat, k: nat, crypto: Crypto, salt: string)
    requires Consistent(users, nextId) && k < |users|
    ensures var u := users[k];
      ProfileOutcome(users, u.id, PayloadFor(Prefill(SessionUser(Some(u.name), Some(u.email)))), crypto, salt) == Ok(u)
  {
    var u := users[k];
    FindUserByIdUnique(users, nextId, k);
    assert StoredUser(u);
    TrimUnpadded(u.name);
    NormalizeEmailAbsorbs(u.email);
    assert Trim("") == "" by { assert TrimStart("") == ""; }
  }

  /** The dialog's inputs and feedback line. */
  class SettingsDialog {
    var inputs: ProfileInputs
    var feedback: Feedback

    constructor ()
      ensures inputs == ProfileInputs("", "", "") && feedback == NO_FEEDBACK
    {
      inputs, feedback := ProfileInputs("", "", ""), NO_FEEDBACK;
    }

    /** The effect on `currentUser`: refill the inputs and clear the feedback. */
    method Open(currentUser: Option<SessionUser>)
      modifies this
      ensures currentUser.Some? ==> inputs == Prefill(currentUser.value) && feedback == NO_FEEDBACK
      ensures currentUser.None? ==> inputs == old(inputs) && feedback == old(feedback)
    {
      if currentUser.Some? {
        inputs := Prefill(currentUser.value);
        feedback := NO_FEEDBACK;
      }
    }

    method Edit(field: ProfileField, value: string)
      modifies this
      ensures inputs == UpdateProp(old(inputs), field, value) && feedback == old(feedback)
    {
      inputs := UpdateProp(inputs, field, value);
    }

    /** The end of `executeSave`: `failure` is `None` when the request succeeded, otherwise
        the message the server sent, if any. Only a success clears the password input. */
    method Settle(failure: Option<Option<string>>)
      modifies this
      ensures failure.None? ==> inputs == old(inputs).(password := "") && feedback == Feedback(SAVED_MESSAGE, "good")
      ensures failure.Some? ==> inputs == old(inputs) && feedback == Feedback(OrElse(failure.value, SAVE_FAILED_MESSAGE), "bad")
    {
      if failure.None? {
        feedback := Feedback(SAVED_MESSAGE, "good");
        inputs := inputs.(password := "");
      } else {
        feedback := Feedback(OrElse(failure.value, SAVE_FAILED_MESSAGE), "bad");
      }
    }
  }
}
