/** The `protect` middleware: the decision over the Authorization header, the verified
    claims and the user lookup, and its effect on the request (`req.user`, `next()`).
    Token verification is a parameter: `verify(token)` is `None` when `jwt.verify` throws. */
module AuthGuard {
  import opened Common
  import opened Text
  import opened UserSchema

  const TOKEN_MISSING := "Access denied - authentication token is missing"
  const ACCOUNT_NOT_FOUND := "Access denied - user account not found"
  const VERIFICATION_FAILED := "Access denied - token verification failed"

  /** The decoded token payload; `id` may be missing. */
  datatype Claims = Claims(id: Option<UserId>)

  /** A user as `select("-password")` returns it. */
  datatype Principal = Principal(id: UserId, name: string, email: string)

  function PrincipalOf(u: User): (p: Principal)
    ensures p.id == u.id && p.name == u.name && p.email == u.email
  {
    Principal(u.id, u.name, u.email)
  }

  /** A 401 reply `{ success: false, message }`. */
  datatype Reply = Reply(status: int, success: bool, message: string)

  function Denied(message: string): Reply {
    Reply(401, false, message)
  }

  datatype Decision = Admit(user: Principal) | Deny(reply: Reply)

  /** `authHeader.split(" ")[1]`; `None` when there is no second piece. */
  function BearerToken(header: string): (t: Option<string>)
    ensures t.Some? ==> ' ' !in t.value
    ensures t.None? <==> ' ' !in header
  {
    var pieces := Split(header, ' ');
    if |pieces| >= 2 then Some(pieces[1])
    else
      assert pieces == [header];
      None
  }

  /** The token is the piece after the first space, up to the next one. */
  lemma {:induction false} BearerTokenIsSecondPiece(scheme: string, token: string, rest: seq<string>)
    requires ' ' !in scheme && ' ' !in token
    requires forall i :: 0 <= i < |rest| ==> ' ' !in rest[i]
    ensures BearerToken(Join([scheme, token] + rest, ' ')) == Some(token)
  {
    var pieces := [scheme, token] + rest;
    assert forall i :: 0 <= i < |pieces| ==> ' ' !in pieces[i] by {
      forall i | 0 <= i < |pieces| ensures ' ' !in pieces[i] {
        if i >= 2 { assert pieces[i] == rest[i - 2]; }
      }
    }
    SplitJoin(pieces, ' ');
  }

  /** `jwt.verify`: a missing or empty token is rejected before the signature is checked. */
  function Verified(token: Option<string>, verify: string -> Option<Claims>): (c: Option<Claims>)
    ensures token.None? || token == Some("") ==> c.None?
    ensures token.Some? && token.value != "" ==> c == verify(token.value)
  {
    if token.None? || token.value == "" then None else verify(token.value)
  }

  predicate HeaderPresent(header: Option<string>) {
    Truthy(header) && StartsWith(header.value, "Bearer")
  }

  /** `protect`'s decision. */
  function Guard(header: Option<string>, users: seq<User>, verify: string -> Option<Claims>): (d: Decision)
    ensures !HeaderPresent(header) <==> d == Deny(Denied(TOKEN_MISSING))
    ensures HeaderPresent(header) && Verified(BearerToken(header.value), verify).None? ==>
      d == Deny(Denied(VERIFICATION_FAILED))
    ensures HeaderPresent(header) && Verified(BearerToken(header.value), verify).Some? &&
            (Verified(BearerToken(header.value), verify).value.id.None? ||
             FindUserById(users, Verified(BearerToken(header.value), verify).value.id.value).None?) ==>
      d == Deny(Denied(ACCOUNT_NOT_FOUND))
    ensures d.Deny? ==> d.reply.status == 401 && !d.reply.success
    ensures d.Admit? <==>
      && HeaderPresent(header)
      && Verified(BearerToken(header.value), verify).Some?
      && Verified(BearerToken(header.value), verify).value.id.Some?
      && FindUserById(users, Verified(BearerToken(header.value), verify).value.id.value).Some?
    ensures d.Admit? ==> exists i :: 0 <= i < |users| && d.user == PrincipalOf(users[i]) &&
                                      Some(users[i].id) == Verified(BearerToken(header.value), verify).value.id
  {
    if !HeaderPresent(header) then Deny(Denied(TOKEN_MISSING))
    else
      var decodedPayload := Verified(BearerToken(header.value), verify);
      if decodedPayload.None? then Deny(Denied(VERIFICATION_FAILED))
      // `findById(undefined)` looks up `_id: null`, which matches nothing.
      else if decodedPayload.value.id.None? then Deny(Denied(ACCOUNT_NOT_FOUND))
      else
        var found := FindUserById(users, decodedPayload.value.id.value);
        if found.None? then Deny(Denied(ACCOUNT_NOT_FOUND))
        else
          var i :| 0 <= i < |users| && users[i] == found.value;
          Admit(PrincipalOf(found.value))
  }

  /** A header `Bearer <t>` whose token verifies to a stored user's id admits that user. */
  lemma SignedTokenAdmits(users: seq<User>, k: nat, token: string, verify: string -> Option<Claims>)
    requires k < |users| && (forall i :: 0 <= i < |users| && i != k ==> users[i].id != users[k].id)
    requires ' ' !in token && token != "" && verify(token) == Some(Claims(Some(users[k].id)))
    ensures Guard(Some("Bearer " + token), users, verify) == Admit(PrincipalOf(users[k]))
  {
    assert Join(["Bearer", token] + [], ' ') == "Bearer " + token;
    BearerTokenIsSecondPiece("Bearer", token, []);
    var found := FindUserById(users, users[k].id);
    var j :| 0 <= j < |users| && users[j] == found.value;
    assert j == k;
  }

  /** The scheme test is a case-sensitive prefix test: "bearer" is refused, while any
      word that merely begins with "Bearer" is accepted. */
  lemma SchemeIsCaseSensitivePrefix(token: string, users: seq<User>, verify: string -> Option<Claims>)
    ensures Guard(Some("bearer " + token), users, verify) == Deny(Denied(TOKEN_MISSING))
    ensures HeaderPresent(Some("BearerX " + token))
  {
    assert ("bearer " + token)[0] == 'b';
    assert ("BearerX " + token)[..6] == "Bearer";
  }

  /** An incoming request: the Authorization header, `req.user`, the 401 reply if one was
      sent, and how often `next()` was called. */
  class Request {
    const authorization: Option<string>
    var user: Option<Principal>
    var sent: Option<Reply>
    var nextCalls: nat

    constructor (authorization: Option<string>)
      ensures this.authorization == authorization
      ensures user.None? && sent.None? && nextCalls == 0
    {
      this.authorization := authorization;
      user, sent, nextCalls := None, None, 0;
    }

    /** `protect(req, res, next)`: on success `req.user` is set and `next()` is called once
        with no reply sent; otherwise a 401 is sent and `req.user` and `next` are untouched. */
    method Protect(users: seq<User>, verify: string -> Option<Claims>)
      modifies this
      ensures var d := Guard(authorization, users, verify);
        && (d.Admit? ==> user == Some(d.user) && nextCalls == old(nextCalls) + 1 && sent == old(sent))
        && (d.Deny? ==> user == old(user) && nextCalls == old(nextCalls) && sent == Some(d.reply))
    {
      var authHeader := authorization;
      if !HeaderPresent(authHeader) {
        sent := Some(Denied(TOKEN_MISSING));
        return;
      }
      var extractedToken := BearerToken(authHeader.value);
      var decodedPayload := Verified(extractedToken, verify);
      if decodedPayload.None? {
        sent := Some(Denied(VERIFICATION_FAILED));
        return;
      }
      var authenticatedUser := if decodedPayload.value.id.None? then None
                               else FindUserById(users, decodedPayload.value.id.value);
      if authenticatedUser.None? {
        sent := Some(Denied(ACCOUNT_NOT_FOUND));
        return;
      }
      user := Some(PrincipalOf(authenticatedUser.value));
      nextCalls := nextCalls + 1;
    }
  }
}
