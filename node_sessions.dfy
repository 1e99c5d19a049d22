/**
 * The Node server's session layer: the `users` map (username to credentials) and the
 * `tokens` map (bearer token to username), with the register, login, profile and logout
 * handlers and the `authenticate` middleware.
 */
module NodeSessions {
  import opened Base

  /** The record `{ username, password }` stored at registration. */
  datatype User = User(username: string, password: string)

  /** The failures the handlers report (409, 401, and the 500 of a failed profile lookup). */
  datatype AuthError = Conflict | Unauthorized | InternalError

  /** `users.get(username)` exists and its password is exactly `password`. */
  predicate CredentialsMatch(users: map<string, User>, username: string, password: string)
  {
    username in users && users[username].password == password
  }

  class SessionStore {
    var users: map<string, User>
    var tokens: map<string, string>

    /**
     * Every user is stored under its own name, and every token belongs to a registered
     * user: login consults `users` before issuing, and no handler removes a user.
     */
    ghost predicate Valid()
      reads this
    {
      && (forall u :: u in users ==> users[u].username == u)
      && (forall t :: t in tokens ==> tokens[t] in users)
    }

    constructor()
      ensures Valid() && users == map[] && tokens == map[]
    {
      users := map[];
      tokens := map[];
    }

    /** `POST /api/register`: a taken username is a conflict and keeps its stored password. */
    method Register(username: string, password: string) returns (r: Result<(), AuthError>)
      requires Valid()
      modifies this
      ensures Valid() && tokens == old(tokens)
      ensures username in old(users) ==> r == Err(Conflict) && users == old(users)
      ensures username !in old(users) ==>
        r == Ok(()) && users == old(users)[username := User(username, password)]
    {
      if username in users {
        return Err(Conflict);
      }
      users := users[username := User(username, password)];
      r := Ok(());
    }

    /**
     * `POST /api/login`: on matching credentials the new `token` is mapped to the user,
     * next to any tokens the user already holds.  The server draws the token at random;
     * here it is a parameter, non-empty (a base64 text of a number) and not yet issued.
     */
    method Login(username: string, password: string, token: string) returns (r: Result<string, AuthError>)
      requires Valid()
      requires token != "" && token !in tokens
      modifies this
      ensures Valid() && users == old(users)
      ensures CredentialsMatch(old(users), username, password) ==>
        r == Ok(token) && tokens == old(tokens)[token := username]
      ensures !CredentialsMatch(old(users), username, password) ==>
        r == Err(Unauthorized) && tokens == old(tokens)
    {
      if username !in users || users[username].password != password {
        return Err(Unauthorized);
      }
      tokens := tokens[token := username];
      r := Ok(token);
    }

    /**
     * The `authenticate` middleware, given the second word of the `Authorization` header
     * (`None` when there is none): a missing or empty token, or one never issued or
     * already revoked, is unauthorized; otherwise the answer is the token's user.
     */
    function Authenticate(token: Option<string>): (r: Result<string, AuthError>)
      reads this
      ensures r.Ok? <==> token.Some? && token.value != "" && token.value in tokens
      ensures r.Ok? ==> r.value == tokens[token.value]
      ensures r.Err? ==> r.error == Unauthorized
    {
      if token.None? || token.value == "" || token.value !in tokens then Err(Unauthorized)
      else Ok(tokens[token.value])
    }

    /**
     * `GET /api/profile`: authenticate, then `users.get(req.user).username`.  The lookup
     * would throw if the token's user were missing; under the invariant it never is, so the
     * profile succeeds exactly when authentication does, with the token's username.
     */
    function Profile(token: Option<string>): (r: Result<string, AuthError>)
      reads this
      ensures Authenticate(token).Err? ==> r == Authenticate(token)
      ensures Valid() ==> (r.Ok? <==> Authenticate(token).Ok?)
      ensures Valid() && r.Ok? ==> r.value == tokens[token.value] && r.value in users
    {
      match Authenticate(token)
      case Err(e) => Err(e)
      case Ok(name) => if name in users then Ok(users[name].username) else Err(InternalError)
    }

    /**
     * `POST /api/logout`: after authentication, deletes exactly that token; the user's
     * other tokens stay valid, and the revoked one no longer authenticates.
     */
    method Logout(token: Option<string>) returns (r: Result<(), AuthError>)
      requires Valid()
      modifies this
      ensures Valid() && users == old(users)
      ensures old(Authenticate(token)).Err? ==> r == Err(Unauthorized) && tokens == old(tokens)
      ensures old(Authenticate(token)).Ok? ==> r == Ok(()) && tokens == old(tokens) - {token.value}
      ensures Authenticate(token).Err?
    {
      var auth := Authenticate(token);
      if auth.Err? {
        return Err(Unauthorized);
      }
      tokens := tokens - {token.value};
      r := Ok(());
    }
  }
}
