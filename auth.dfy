/**
 * Credential sign-in: `authorize` turns submitted credentials into a user
 * record or nothing; the `jwt` and `session` callbacks copy the user's id and
 * role into the session token and then into the session.
 *
 * The e-mail syntax check and the hash comparison are outside the model and
 * are taken as parameters: `isEmail(email)` and `compare(password, hash)`.
 */
module Auth {
  import opened Wrappers
  import opened Types
  import opened Text
  import opened Forms
  import Proxy

  /** The submitted fields; `None` when a field is missing or is not a string. */
  datatype Credentials = Credentials(email: Option<string>, password: Option<string>)

  /** The user record handed to the session machinery. */
  datatype User = User(id: string, name: string, email: string, ruolo: string)

  /** The credential schema: a well-formed e-mail and a non-empty password. */
  predicate SchemaValid(c: Credentials, isEmail: string -> bool)
  {
    c.email.Some? && isEmail(c.email.value) && c.password.Some? && |c.password.value| >= 1
  }

  /** The first employee row whose e-mail equals `email`. */
  function FindByEmail(rows: seq<Dipendente>, email: string): (r: Option<Dipendente>)
    ensures r.None? <==> forall k :: 0 <= k < |rows| ==> rows[k].email != email
    ensures r.Some? ==> exists k :: 0 <= k < |rows| && rows[k] == r.value && r.value.email == email &&
                          forall j :: 0 <= j < k ==> rows[j].email != email
  {
    if rows == [] then None
    else if rows[0].email == email then Some(rows[0])
    else
      var r := FindByEmail(rows[1..], email);
      if r.Some? then
        ghost var k :| 0 <= k < |rows[1..]| && rows[1..][k] == r.value && r.value.email == email &&
                       forall j :: 0 <= j < k ==> rows[1..][j].email != email;
        assert rows[k + 1] == r.value;
        r
      else
        r
  }

  /** The record for a row: the id as a decimal string, the full name, the e-mail and the role. */
  function UserOf(row: Dipendente): User
  {
    User(NatToString(row.id), row.nome + " " + row.cognome, row.email, RuoloName(row.ruolo))
  }

  /** Whether the row has a password set at all (an invited account has none yet). */
  predicate HasPassword(row: Dipendente)
  {
    Truthy(row.password)
  }

  /** The credentials provider's `authorize`. */
  function Authorize(c: Credentials, rows: seq<Dipendente>, isEmail: string -> bool,
                     compare: (string, string) -> bool): (r: Option<User>)
    // A record is returned only for a row with this e-mail, a password set, and a matching hash.
    ensures r.Some? ==> SchemaValid(c, isEmail)
    ensures r.Some? ==> exists row :: row in rows && row.email == c.email.value && HasPassword(row) &&
                                      compare(c.password.value, row.password.value) && r.value == UserOf(row)
  {
    if !SchemaValid(c, isEmail) then None
    else
      match FindByEmail(rows, c.email.value)
      case None => None
      case Some(row) =>
        if HasPassword(row) && compare(c.password.value, row.password.value) then Some(UserOf(row))
        else None
  }

  lemma InvalidCredentialsRejected(c: Credentials, rows: seq<Dipendente>, isEmail: string -> bool,
                                   compare: (string, string) -> bool)
    requires !SchemaValid(c, isEmail)
    ensures Authorize(c, rows, isEmail, compare) == None
  {
  }

  lemma UnknownEmailRejected(c: Credentials, rows: seq<Dipendente>, isEmail: string -> bool,
                             compare: (string, string) -> bool)
    requires c.email.Some? && forall k :: 0 <= k < |rows| ==> rows[k].email != c.email.value
    ensures Authorize(c, rows, isEmail, compare) == None
  {
  }

  /** An account without a password can never sign in, whatever is submitted and however hashes compare. */
  lemma NoPasswordNeverAuthorized(c: Credentials, rows: seq<Dipendente>, row: Dipendente,
                                  isEmail: string -> bool, compare: (string, string) -> bool)
    requires c.email.Some? && FindByEmail(rows, c.email.value) == Some(row)
    requires row.password == None || row.password == Some("")
    ensures Authorize(c, rows, isEmail, compare) == None
  {
  }

  lemma WrongPasswordRejected(c: Credentials, rows: seq<Dipendente>, row: Dipendente,
                              isEmail: string -> bool, compare: (string, string) -> bool)
    requires c.email.Some? && c.password.Some? && FindByEmail(rows, c.email.value) == Some(row)
    requires row.password.Some? && !compare(c.password.value, row.password.value)
    ensures Authorize(c, rows, isEmail, compare) == None
  {
  }

  lemma CorrectPasswordAuthorized(c: Credentials, rows: seq<Dipendente>, row: Dipendente,
                                  isEmail: string -> bool, compare: (string, string) -> bool)
    requires SchemaValid(c, isEmail) && FindByEmail(rows, c.email.value) == Some(row)
    requires HasPassword(row) && compare(c.password.value, row.password.value)
    ensures Authorize(c, rows, isEmail, compare) == Some(UserOf(row))
    ensures var u := UserOf(row);
      && ParseNat(u.id) == row.id
      && u.name == row.nome + " " + row.cognome
      && u.email == row.email == c.email.value
      && u.ruolo == RuoloName(row.ruolo)
  {
    ParseNatToString(row.id);
  }

  /** The JWT payload; other standard claims are not modelled. */
  class JwtToken {
    var id: Option<string>
    var ruolo: Option<string>

    constructor (id: Option<string>, ruolo: Option<string>)
      ensures this.id == id && this.ruolo == ruolo
    {
      this.id := id;
      this.ruolo := ruolo;
    }

    /** The claims the access controller reads back from this token. */
    function Claims(): Proxy.Token
      reads this
    {
      Proxy.Token(id, ruolo)
    }
  }

  /** The `jwt` callback: on sign-in, stamp the user's id and role onto the token. */
  method Jwt(token: JwtToken, user: Option<User>) returns (r: JwtToken)
    modifies token
    ensures r == token
    ensures user.Some? ==> token.id == Some(user.value.id) && token.ruolo == Some(user.value.ruolo)
    ensures user.None? ==> token.id == old(token.id) && token.ruolo == old(token.ruolo)
  {
    if user.Some? {
      token.id := Some(user.value.id);
      token.ruolo := Some(user.value.ruolo);
    }
    r := token;
  }

  class SessionUser {
    var id: Option<string>
    var ruolo: Option<string>
    var name: Option<string>
    var email: Option<string>

    constructor (name: Option<string>, email: Option<string>)
      ensures this.name == name && this.email == email && id == None && ruolo == None
    {
      this.name := name;
      this.email := email;
      id := None;
      ruolo := None;
    }
  }

  class Session {
    const user: SessionUser

    constructor (user: SessionUser)
      ensures this.user == user
    {
      this.user := user;
    }
  }

  /** The `session` callback: expose the token's id and role on `session.user`. */
  method SessionCallback(session: Session, token: JwtToken?) returns (r: Session)
    modifies session.user
    ensures r == session
    ensures token != null ==> session.user.id == token.id && session.user.ruolo == token.ruolo
    ensures token == null ==> session.user.id == old(session.user.id) && session.user.ruolo == old(session.user.ruolo)
    ensures session.user.name == old(session.user.name) && session.user.email == old(session.user.email)
  {
    if token != null {
      session.user.id := token.id;
      session.user.ruolo := token.ruolo;
    }
    r := session;
  }

  /**
   * A credentials sign-in followed by the first session read. During sign-in,
   * `authorize` runs and, only when it returns a user, the `jwt` callback stamps
   * that user's id and role onto the fresh token. The session read that follows
   * runs the `session` callback, which copies them onto `session.user`. (Later
   * reads also run `jwt`, with no user, which leaves the token as it is; see
   * `Jwt`.) The token and the session then carry the row's id and role, and the
   * access controller admits the token to the admin area exactly when that role
   * is admin. When `authorize` returns no user the framework throws instead
   * (`AuthActions.CredentialsSignIn`), so neither the token nor the session is
   * touched.
   */
  method SignIn(c: Credentials, rows: seq<Dipendente>, isEmail: string -> bool,
                compare: (string, string) -> bool, token: JwtToken, session: Session)
    returns (user: Option<User>)
    modifies token, session.user
    ensures user == Authorize(c, rows, isEmail, compare)
    ensures user.Some? ==>
              exists row :: FindByEmail(rows, c.email.value) == Some(row) &&
                            row in rows && row.email == c.email.value &&
                            session.user.id == Some(NatToString(row.id)) &&
                            session.user.ruolo == Some(RuoloName(row.ruolo)) &&
                            token.id == Some(NatToString(row.id)) &&
                            token.ruolo == Some(RuoloName(row.ruolo)) &&
                            (Proxy.IsAdmin(Some(token.Claims())) <==> row.ruolo == Admin)
    ensures user.Some? ==>
              token.id == session.user.id == Some(user.value.id) &&
              token.ruolo == session.user.ruolo == Some(user.value.ruolo)
    ensures user.Some? ==> session.user.name == old(session.user.name) && session.user.email == old(session.user.email)
    ensures user.None? ==> unchanged(token) && unchanged(session.user)
  {
    user := Authorize(c, rows, isEmail, compare);
    if user.Some? {
      var t := Jwt(token, user);
      var s := SessionCallback(session, t);
    }
  }
}
